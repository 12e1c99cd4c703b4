/** The small text helpers of cdb.py: `indent`, `pstr`, `type_str` and the
    signature string of `ObjectDumper.func_args`. Colouring is the identity. */
module CdbText {
  import opened PyText

  /** `indent(i)`: `" " * i`, so no characters when `i <= 0`. */
  function Indent(i: int): (r: string)
    ensures |r| == if i > 0 then i else 0
    ensures forall k :: 0 <= k < |r| ==> r[k] == ' '
  {
    Repeat(" ", i)
  }

  /** A character `pstr` leaves alone: one of `string.printable`, or ESC. */
  predicate Printable(c: char)
  {
    InPrintable(c) || c as int == 27
  }

  predicate AllPrintable(s: string)
  {
    forall k :: 0 <= k < |s| ==> Printable(s[k])
  }

  /** `pstr(x)`, given `s == str(x)`: the text itself when every character is
      printable, its hex encoding otherwise. */
  function PStr(s: string): string
  {
    if AllPrintable(s) then s else Hexlify(s)
  }

  /** `pstr` changes nothing exactly when every character is printable. */
  lemma PStrUnchangedIff(s: string)
    ensures PStr(s) == s <==> AllPrintable(s)
  {
    if !AllPrintable(s) {
      assert |s| > 0;
      assert |Hexlify(s)| != |s|;
    }
  }

  /** Otherwise the output is twice as long, lower-case hex, and decodes back. */
  lemma PStrEncodes(s: string)
    requires !AllPrintable(s)
    ensures |PStr(s)| == 2 * |s|
    ensures forall k :: 0 <= k < |PStr(s)| ==> IsLowerHex(PStr(s)[k])
    ensures IsBytes(s) ==> Unhexlify(PStr(s)) == Some(s)
  {
    if IsBytes(s) {
      UnhexlifyHexlify(s);
    }
  }

  /** What `pstr` writes is printable, so applying it again changes nothing. */
  lemma PStrIdempotent(s: string)
    ensures AllPrintable(PStr(s))
    ensures PStr(PStr(s)) == PStr(s)
  {
    var h := Hexlify(s);
    forall k | 0 <= k < |h| ensures Printable(h[k]) {
      assert IsLowerHex(h[k]);
    }
  }

  /** What `type_str` inspects of a value. */
  datatype TypeDesc =
    /** an old-style class instance (`types.InstanceType`): `repr(x)` and `str(x.__repr__)` */
    | InstanceOf(repr: string, boundRepr: string)
    /** any other value: `str(type(x))` */
    | OfType(typeRepr: string)

  /** `type_str(x)`: a short `<name>` label of the value's type; None where
      Python raises IndexError (an empty repr, too few words to pick from). */
  function TypeStr(t: TypeDesc): (r: Option<string>)
    ensures t.OfType? ==> r.Some?
    ensures r.Some? ==> |r.value| >= 2 && r.value[0] == '<' && r.value[|r.value| - 1] == '>'
  {
    match t
    case InstanceOf(repr, boundRepr) =>
      if |repr| == 0 then None
      else if repr[0] != '<' then
        var w := Words(boundRepr);
        if |w| < 3 then None else Some("<" + Slice(w[2], 0, -9) + ">")
      else
        var w := Words(repr[1..]);
        if |w| == 0 then None else Some("<" + w[0] + ">")
    case OfType(s) =>
      if StartsWith(s, "<type") then Some("<" + Slice(s, 7, -2) + ">")
      else if StartsWith(s, "<class") then Some("<" + Slice(s, 8, -2) + ">")
      else Some("<" + Slice(s, 1, -2) + ">")
  }

  /** A builtin type prints as `<type 'n'>` and is labelled `<n>`. */
  lemma TypeStrOfBuiltin(n: string)
    ensures TypeStr(OfType("<type '" + n + "'>")) == Some("<" + n + ">")
  {
    var s := "<type '" + n + "'>";
    assert s[..5] == "<type";
    SliceBetween("<type '", n, "'>");
  }

  /** A new-style class prints as `<class 'n'>` and is labelled `<n>`. */
  lemma TypeStrOfClass(n: string)
    ensures TypeStr(OfType("<class '" + n + "'>")) == Some("<" + n + ">")
  {
    var s := "<class '" + n + "'>";
    assert s[..5] == "<clas";
    assert s[..6] == "<class";
    SliceBetween("<class '", n, "'>");
  }

  /** An instance whose repr is `<w ...>` (the default `<mod.Cls instance at 0x..>`)
      is labelled by the repr's first word. */
  lemma TypeStrOfInstance(w: string, rest: string, boundRepr: string)
    requires |w| > 0 && NoSpace(w)
    requires |rest| == 0 || IsSpace(rest[0])
    ensures TypeStr(InstanceOf("<" + w + rest, boundRepr)) == Some("<" + w + ">")
  {
    var repr := "<" + w + rest;
    assert repr[1..] == w + rest;
    WordsOfLeadingToken(w, rest);
  }

  /** A word followed by a space is split off in front of the words after the space. */
  lemma LeadingWord(w: string, t: string)
    requires |w| > 0 && NoSpace(w)
    ensures Words(w + (" " + t)) == [w] + Words(t)
  {
    WordsOfLeadingToken(w, " " + t);
    assert (" " + t)[1..] == t;
  }

  /** Two words, separated by a single space, in front of a rest that starts
      with a space (or is empty), are the first two words. */
  lemma TwoWords(b: string, m: string, rest: string)
    requires |b| > 0 && NoSpace(b) && |m| > 0 && NoSpace(m)
    requires |rest| == 0 || IsSpace(rest[0])
    ensures var w := Words(b + (" " + (m + rest)));
            |w| == 2 + |Words(rest)| && w[0] == b && w[1] == m
  {
    LeadingWord(b, m + rest);
    WordsOfLeadingToken(m, rest);
  }

  /** The same with three words. */
  lemma ThreeWords(a: string, b: string, m: string, rest: string)
    requires |a| > 0 && NoSpace(a) && |b| > 0 && NoSpace(b) && |m| > 0 && NoSpace(m)
    requires |rest| == 0 || IsSpace(rest[0])
    ensures var w := Words(a + (" " + (b + (" " + (m + rest)))));
            |w| == 3 + |Words(rest)| && w[0] == a && w[1] == b && w[2] == m
  {
    var t := b + (" " + (m + rest));
    LeadingWord(a, t);
    TwoWords(b, m, rest);
    var w2 := Words(t);
    assert Words(a + (" " + t)) == [a] + w2;
    assert ([a] + w2)[1] == w2[0] && ([a] + w2)[2] == w2[1];
  }

  /** `str(x.__repr__)` splits into "<bound", "method", the method's
      qualified name, then the words of the rest. */
  lemma BoundMethodWords(m: string, rest: string)
    requires |m| > 0 && NoSpace(m)
    requires |rest| == 0 || IsSpace(rest[0])
    ensures var w := Words("<bound" + (" " + ("method" + (" " + (m + rest)))));
            |w| == 3 + |Words(rest)| && w[0] == "<bound" && w[1] == "method" && w[2] == m
  {
    assert NoSpace("<bound") && NoSpace("method");
    ThreeWords("<bound", "method", m, rest);
  }

  /** An instance with its own `__repr__` (one not starting with `<`) is
      labelled by the class name in `str(x.__repr__)`, which reads
      `<bound method Cls.__repr__ of ...>`: the third word less `.__repr__`. */
  lemma TypeStrOfCustomRepr(repr: string, cls: string, rest: string)
    requires |repr| > 0 && repr[0] != '<'
    requires |cls| > 0 && NoSpace(cls)
    requires |rest| == 0 || IsSpace(rest[0])
    ensures TypeStr(InstanceOf(repr, "<bound method " + cls + ".__repr__" + rest)) == Some("<" + cls + ">")
  {
    var m := cls + ".__repr__";
    assert NoSpace(m) by {
      assert forall k :: |cls| <= k < |m| ==> m[k] == ".__repr__"[k - |cls|];
    }
    assert "<bound method " + cls + ".__repr__" + rest == "<bound" + (" " + ("method" + (" " + (m + rest))));
    BoundMethodWords(m, rest);
    assert "" + cls + ".__repr__" == m;
    SliceBetween("", cls, ".__repr__");
  }

  /** A type repr starting neither `<type` nor `<class` loses its first
      character and its last two: `str(type(x))[1:-2]`. */
  lemma TypeStrOfOther(open: char, n: string, close: string)
    requires |close| == 2
    requires !StartsWith([open] + n + close, "<type") && !StartsWith([open] + n + close, "<class")
    ensures TypeStr(OfType([open] + n + close)) == Some("<" + n + ">")
  {
    SliceBetween([open], n, close);
  }

  /** What `inspect.getargspec` reports: parameter names, then the names of
      the `*` and `**` parameters if there are any. */
  datatype ArgSpec = ArgSpec(args: seq<string>, varargs: Option<string>, keywords: Option<string>)

  function NameOr(o: Option<string>): string
  {
    if o.Some? then o.value else ""
  }

  /** `func_args` as written: the `*` entry is formatted with the keywords name,
      the `**` entry with the already formatted `*` entry, and they are joined
      in the order args, `**`, `*`. */
  function FuncArgs(a: ArgSpec): string
  {
    var args := Join(a.args, ", ");
    var vArgs0 := NameOr(a.varargs);
    var kArgs0 := NameOr(a.keywords);
    var vArgs := if vArgs0 != "" then ", *" + kArgs0 else "";
    var kArgs := if kArgs0 != "" then ", **" + vArgs else "";
    "(" + args + kArgs + vArgs + ")"
  }

  /** The parameter list a signature is meant to show. */
  function Params(a: ArgSpec): seq<string>
  {
    a.args
      + (if NameOr(a.varargs) != "" then ["*" + a.varargs.value] else [])
      + (if NameOr(a.keywords) != "" then ["**" + a.keywords.value] else [])
  }

  /** The corrected signature: every parameter in order, `*name` and then `**name`. */
  function Signature(a: ArgSpec): string
  {
    "(" + Join(Params(a), ", ") + ")"
  }

  /** Index of the first comma in `s`, or `|s|`. */
  function CommaIndex(s: string): (n: nat)
    ensures n <= |s|
    ensures forall k :: 0 <= k < n ==> s[k] != ','
    ensures n < |s| ==> s[n] == ','
  {
    if |s| == 0 || s[0] == ',' then 0 else CommaIndex(s[1..]) + 1
  }

  function DropSpace(s: string): string
  {
    if |s| > 0 && s[0] == ' ' then s[1..] else s
  }

  /** Splits `s` at every ", ": the inverse of `Join(_, ", ")`. */
  function Unjoin(s: string): seq<string>
    decreases |s|
  {
    var n := CommaIndex(s);
    if n == |s| then [s] else [s[..n]] + Unjoin(DropSpace(s[n + 1..]))
  }

  /** The parameters a signature string lists. */
  function SignatureParams(sig: string): seq<string>
  {
    if |sig| < 2 then []
    else
      var inner := sig[1..|sig| - 1];
      if inner == "" then [] else Unjoin(inner)
  }

  predicate CommaFree(x: string)
  {
    forall k :: 0 <= k < |x| ==> x[k] != ','
  }

  lemma {:induction false} CommaIndexOf(x: string, rest: string)
    requires CommaFree(x)
    ensures CommaIndex(x + rest) == |x| + CommaIndex(rest)
    decreases |x|
  {
    if |x| > 0 {
      assert (x + rest)[1..] == x[1..] + rest;
      CommaIndexOf(x[1..], rest);
    } else {
      assert x + rest == rest;
    }
  }

  /** One comma-free item in front of ", " splits off as the first item. */
  lemma UnjoinCons(x: string, tail: string)
    requires CommaFree(x)
    ensures Unjoin(x + (", " + tail)) == [x] + Unjoin(tail)
  {
    var s := x + (", " + tail);
    CommaIndexOf(x, ", " + tail);
    assert CommaIndex(", " + tail) == 0;
    var n := CommaIndex(s);
    assert n == |x| < |s|;
    assert s[..n] == x;
    assert s[n + 1..] == " " + tail;
    assert DropSpace(s[n + 1..]) == tail;
    assert Unjoin(s) == [s[..n]] + Unjoin(DropSpace(s[n + 1..]));
  }

  lemma {:induction false} UnjoinJoin(xs: seq<string>)
    requires |xs| > 0
    requires forall i :: 0 <= i < |xs| ==> CommaFree(xs[i])
    ensures Unjoin(Join(xs, ", ")) == xs
  {
    if |xs| == 1 {
      CommaIndexOf(xs[0], "");
      assert xs[0] + "" == xs[0];
    } else {
      var tail := Join(xs[1..], ", ");
      assert Join(xs, ", ") == xs[0] + (", " + tail);
      UnjoinCons(xs[0], tail);
      UnjoinJoin(xs[1..]);
      assert [xs[0]] + xs[1..] == xs;
    }
  }

  /** The corrected signature names each parameter recoverably: reading its
      parameter list back gives exactly the argspec's parameters, in order. */
  lemma SignatureRoundTrip(a: ArgSpec)
    requires forall i :: 0 <= i < |a.args| ==> |a.args[i]| > 0 && CommaFree(a.args[i])
    requires CommaFree(NameOr(a.varargs)) && CommaFree(NameOr(a.keywords))
    ensures SignatureParams(Signature(a)) == Params(a)
  {
    var ps := Params(a);
    var sig := Signature(a);
    assert sig[1..|sig| - 1] == Join(ps, ", ");
    forall i | 0 <= i < |ps| ensures CommaFree(ps[i]) && |ps[i]| > 0 {
      if i >= |a.args| {
        assert ps[i] == "*" + NameOr(a.varargs) || ps[i] == "**" + NameOr(a.keywords);
      }
    }
    if |ps| > 0 {
      JoinNonEmpty(ps);
      UnjoinJoin(ps);
    }
  }

  lemma {:induction false} JoinNonEmpty(xs: seq<string>)
    requires |xs| > 0 && |xs[0]| > 0
    ensures Join(xs, ", ") != ""
  {
  }

  /** With neither `*` nor `**` parameter, `func_args` writes the intended signature. */
  lemma FuncArgsPlain(a: ArgSpec)
    requires NameOr(a.varargs) == "" && NameOr(a.keywords) == ""
    ensures FuncArgs(a) == Signature(a)
  {
    assert Params(a) == a.args;
  }

  /** `def f(a, *x, **y)`: `func_args` writes "(a, **, *y, *y)"; the name `x`
      is lost and `y` appears twice. */
  lemma FuncArgsMisplacesStars()
    ensures FuncArgs(ArgSpec(["a"], Some("x"), Some("y"))) == "(a, **, *y, *y)"
  {
    assert Join(["a"], ", ") == "a";
    var vArgs := ", *" + "y";
    var kArgs := ", **" + vArgs;
    assert vArgs == ", *y";
    assert kArgs == ", **, *y";
  }

  /** For the same function the corrected signature is "(a, *x, **y)". */
  lemma SignatureOfStars()
    ensures Signature(ArgSpec(["a"], Some("x"), Some("y"))) == "(a, *x, **y)"
  {
    assert "*" + "x" == "*x" && "**" + "y" == "**y";
    assert Params(ArgSpec(["a"], Some("x"), Some("y"))) == ["a", "*x", "**y"];
    assert Join(["a", "*x", "**y"], ", ") == "a, *x, **y" by {
      assert ["a", "*x", "**y"][1..] == ["*x", "**y"];
      assert ["*x", "**y"][1..] == ["**y"];
    }
  }
}
