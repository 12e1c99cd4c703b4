/** The Python 2 string operations the debugger relies on.
    A Python 2 `str` is a byte string; here it is a `string` whose characters
    stand for bytes (see IsBytes). */
module PyText {

  /** `s * n`: Python repetition yields "" when `n <= 0`. */
  function Repeat(s: string, n: int): (r: string)
    ensures |r| == |s| * (if n > 0 then n else 0)
    ensures (forall k :: 0 <= k < |s| ==> s[k] == ' ') ==> (forall k :: 0 <= k < |r| ==> r[k] == ' ')
    decreases if n > 0 then n else 0
  {
    if n <= 0 then "" else Repeat(s, n - 1) + s
  }

  /** `s.startswith(p)` */
  predicate StartsWith(s: string, p: string)
  {
    |p| <= |s| && s[..|p|] == p
  }

  /** Where a Python slice index lands in a string of length `len`. */
  function SliceIndex(i: int, len: nat): (k: nat)
    ensures k <= len
  {
    if i < 0 then (if i + len < 0 then 0 else i + len)
    else if i > len then len else i
  }

  /** `s[i:j]`: negative indices count from the end, out-of-range ones are clamped,
      an empty range gives "". */
  function Slice(s: string, i: int, j: int): string
  {
    var a := SliceIndex(i, |s|);
    var b := SliceIndex(j, |s|);
    if a < b then s[a..b] else ""
  }

  /** Cutting a known prefix and a non-empty known suffix off gives what lies between. */
  lemma SliceBetween(p: string, m: string, q: string)
    requires |q| > 0
    ensures Slice(p + m + q, |p|, -|q|) == m
  {
    var s := p + m + q;
    assert SliceIndex(-|q|, |s|) == |p| + |m|;
    if |m| > 0 {
      assert s[|p|..|p| + |m|] == m;
    }
  }

  /** The bytes `str.isspace` accepts: space, tab, LF, VT, FF, CR. */
  predicate IsSpace(c: char)
  {
    c == ' ' || 9 <= c as int <= 13
  }

  predicate NoSpace(w: string)
  {
    forall k :: 0 <= k < |w| ==> !IsSpace(w[k])
  }

  /** Length of the run of non-space characters that starts `s`. */
  function TokenLength(s: string): (n: nat)
    ensures n <= |s|
    ensures NoSpace(s[..n])
    ensures n < |s| ==> IsSpace(s[n])
  {
    if |s| == 0 || IsSpace(s[0]) then 0
    else
      var n := TokenLength(s[1..]);
      assert s[..n + 1] == [s[0]] + s[1..][..n];
      n + 1
  }

  /** `s.split()`: the maximal runs of non-space characters, in order. */
  function Words(s: string): (r: seq<string>)
    ensures forall k :: 0 <= k < |r| ==> |r[k]| > 0 && NoSpace(r[k])
    decreases |s|
  {
    if |s| == 0 then []
    else if IsSpace(s[0]) then Words(s[1..])
    else
      var n := TokenLength(s);
      [s[..n]] + Words(s[n..])
  }

  /** A leading non-space run that ends at a space (or at the end) is the first word. */
  lemma {:induction false} WordsOfLeadingToken(w: string, rest: string)
    requires |w| > 0 && NoSpace(w)
    requires |rest| == 0 || IsSpace(rest[0])
    ensures Words(w + rest) == [w] + Words(rest)
  {
    var s := w + rest;
    TokenLengthOf(w, rest);
    assert s[..|w|] == w;
    assert s[|w|..] == rest;
  }

  lemma {:induction false} TokenLengthOf(w: string, rest: string)
    requires NoSpace(w)
    requires |rest| == 0 || IsSpace(rest[0])
    ensures TokenLength(w + rest) == |w|
    decreases |w|
  {
    if |w| > 0 {
      assert (w + rest)[1..] == w[1..] + rest;
      TokenLengthOf(w[1..], rest);
    } else {
      assert w + rest == rest;
    }
  }

  /** `sep.join(xs)` */
  function Join(xs: seq<string>, sep: string): string
  {
    if |xs| == 0 then ""
    else if |xs| == 1 then xs[0]
    else xs[0] + sep + Join(xs[1..], sep)
  }

  function DigitChar(d: int): char
    requires 0 <= d < 10
  {
    "0123456789"[d]
  }

  /** `str(n)` / `"%d" % n` for a non-negative integer. */
  function NatToString(n: nat): (r: string)
    ensures |r| > 0
    ensures forall k :: 0 <= k < |r| ==> '0' <= r[k] <= '9'
    ensures r[0] == '0' ==> n == 0
  {
    if n < 10 then [DigitChar(n)] else NatToString(n / 10) + [DigitChar(n % 10)]
  }

  /** `int(s)` for a string of decimal digits. */
  function ParseNat(s: string): nat
    requires forall k :: 0 <= k < |s| ==> '0' <= s[k] <= '9'
  {
    if |s| == 0 then 0
    else ParseNat(s[..|s| - 1]) * 10 + (s[|s| - 1] as int - '0' as int)
  }

  /** Decimal text reads back as the number it was made from. */
  lemma {:induction false} ParseNatToString(n: nat)
    ensures ParseNat(NatToString(n)) == n
  {
    if n >= 10 {
      var s := NatToString(n);
      assert s[..|s| - 1] == NatToString(n / 10);
      ParseNatToString(n / 10);
    }
  }

  /** The characters of Python's `string.printable`:
      digits, letters, punctuation (all of 0x21-0x7E), space, and the
      whitespace bytes TAB, LF, VT, FF, CR. */
  predicate InPrintable(c: char)
  {
    32 <= c as int <= 126 || 9 <= c as int <= 13
  }

  /** A Python 2 byte string: every character is a byte value. */
  predicate IsBytes(s: string)
  {
    forall k :: 0 <= k < |s| ==> s[k] as int < 256
  }

  /** Lower-case hexadecimal digits, as `binascii.hexlify` writes them. */
  function HexDigit(d: int): char
    requires 0 <= d < 16
  {
    "0123456789abcdef"[d]
  }

  predicate IsLowerHex(c: char)
  {
    '0' <= c <= '9' || 'a' <= c <= 'f'
  }

  /** Value of one hex digit, as `binascii.unhexlify` reads it (either case). */
  function HexValue(c: char): Option<int>
  {
    if '0' <= c <= '9' then Some(c as int - '0' as int)
    else if 'a' <= c <= 'f' then Some(c as int - 'a' as int + 10)
    else if 'A' <= c <= 'F' then Some(c as int - 'A' as int + 10)
    else None
  }

  /** `binascii.hexlify(s)`: two lower-case hex digits per byte, high nibble first. */
  function Hexlify(s: string): (r: string)
    ensures |r| == 2 * |s|
    ensures forall k :: 0 <= k < |r| ==> IsLowerHex(r[k])
  {
    if |s| == 0 then ""
    else
      var b := s[0] as int;
      [HexDigit((b / 16) % 16), HexDigit(b % 16)] + Hexlify(s[1..])
  }

  datatype Option<T> = None | Some(value: T)

  /** `binascii.unhexlify(h)`: None where Python raises (odd length, a non-hex digit). */
  function Unhexlify(h: string): Option<string>
    decreases |h|
  {
    if |h| == 0 then Some("")
    else if |h| == 1 then None
    else
      var hi := HexValue(h[0]);
      var lo := HexValue(h[1]);
      var rest := Unhexlify(h[2..]);
      if hi.None? || lo.None? || rest.None? then None
      else Some([ByteChar(hi.value, lo.value)] + rest.value)
  }

  /** The byte with the given high and low nibbles. */
  function ByteChar(hi: int, lo: int): char
  {
    if 0 <= hi < 16 && 0 <= lo < 16 then (hi * 16 + lo) as char else 0 as char
  }

  lemma HexDigitValue(d: int)
    requires 0 <= d < 16
    ensures HexValue(HexDigit(d)) == Some(d)
  {
  }

  /** A byte splits into two nibbles that `ByteChar` puts back together. */
  lemma ByteNibbles(c: char)
    requires c as int < 256
    ensures 0 <= (c as int / 16) % 16 < 16 && 0 <= c as int % 16 < 16
    ensures ByteChar((c as int / 16) % 16, c as int % 16) == c
  {
    var b := c as int;
    assert b == (b / 16) * 16 + b % 16 && 0 <= b / 16 < 16;
  }

  /** Unhexlifying what hexlify wrote gives the bytes back. */
  lemma {:induction false} UnhexlifyHexlify(s: string)
    requires IsBytes(s)
    ensures Unhexlify(Hexlify(s)) == Some(s)
  {
    if |s| > 0 {
      var hi, lo := (s[0] as int / 16) % 16, s[0] as int % 16;
      ByteNibbles(s[0]);
      var h := Hexlify(s);
      assert h == [HexDigit(hi), HexDigit(lo)] + Hexlify(s[1..]);
      HexDigitValue(hi);
      HexDigitValue(lo);
      assert h[2..] == Hexlify(s[1..]);
      UnhexlifyHexlify(s[1..]);
      assert [s[0]] + s[1..] == s;
    }
  }
}
