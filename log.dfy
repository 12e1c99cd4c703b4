/** The append-only debug log of cdb.py: `Writer.write_val` and
    `Writer.write_dump`. Files are a map from names to contents; opening a file
    in append mode and writing to it only ever extends its content. */
module Log {
  import opened PyText
  import opened CdbText
  import opened Values

  /** The files the debugger writes. A name not in the map is an empty
      (not yet created) file. */
  class FileStore {
    var files: map<string, string>

    constructor ()
      ensures files == map[]
    {
      files := map[];
    }

    function Content(name: string): string
      reads this
    {
      if name in files then files[name] else ""
    }

    /** One `f.write(s)` on a file opened with mode 'a'. */
    method Append(name: string, s: string)
      modifies this
      ensures files == old(files)[name := old(Content(name)) + s]
    {
      files := files[name := Content(name) + s];
    }
  }

  /** The content of every file after a sequence of appends, in order. */
  function Apply(files: map<string, string>, appends: seq<(string, string)>): map<string, string>
    decreases |appends|
  {
    if |appends| == 0 then files
    else
      var (name, s) := appends[0];
      Apply(files[name := (if name in files then files[name] else "") + s], appends[1..])
  }

  /** Appending never rewrites: every file keeps its old content as a prefix,
      and files no append names are untouched. */
  lemma {:induction false} ApplyExtends(files: map<string, string>, appends: seq<(string, string)>, name: string)
    ensures name in files ==> name in Apply(files, appends)
    ensures name in files ==> files[name] <= Apply(files, appends)[name]
    ensures (forall k :: 0 <= k < |appends| ==> appends[k].0 != name) ==>
              (name in Apply(files, appends) <==> name in files) &&
              (name in files ==> Apply(files, appends)[name] == files[name])
    decreases |appends|
  {
    if |appends| > 0 {
      var (n, s) := appends[0];
      var files1 := files[n := (if n in files then files[n] else "") + s];
      ApplyExtends(files1, appends[1..], name);
      if (forall k :: 0 <= k < |appends| ==> appends[k].0 != name) {
        assert forall k :: 0 <= k < |appends[1..]| ==> appends[1..][k].0 == appends[k + 1].0;
      }
    }
  }

  /** What one record adds to the log, and the exception that cut it short;
      a record whose error is set is the prefix written before `str` raised. */
  datatype Written = Written(text: string, error: Option<PyExc>)

  /** One line of a `write_val` record: the text written first, then the value
      whose `pstr` follows it. */
  datatype Entry = Entry(head: string, value: Outcome<string>)

  /** The label of positional argument `i`: `"  <%d>:" % i`. */
  function ArgLabel(i: nat): string
  {
    "  <" + NatToString(i) + ">:"
  }

  /** The label of keyword argument `k`: `"  %s=" % k`. */
  function KeywordLabel(k: string): string
  {
    "  " + k + "="
  }

  function ArgEntries(args: seq<Outcome<string>>): (es: seq<Entry>)
    ensures |es| == |args|
    ensures forall i :: 0 <= i < |es| ==> es[i] == Entry(ArgLabel(i), args[i])
  {
    seq(|args|, i requires 0 <= i < |args| => Entry(ArgLabel(i), args[i]))
  }

  function KeywordEntries(kwargs: seq<(string, Outcome<string>)>): (es: seq<Entry>)
    ensures |es| == |kwargs|
    ensures forall i :: 0 <= i < |es| ==> es[i] == Entry(KeywordLabel(kwargs[i].0), kwargs[i].1)
  {
    seq(|kwargs|, i requires 0 <= i < |kwargs| => Entry(KeywordLabel(kwargs[i].0), kwargs[i].1))
  }

  /** The lines for entries `i..`: label, `pstr` of the value, newline; when
      `str` raises, the head is already written and the rest is not. */
  function EntriesFrom(es: seq<Entry>, i: nat): Written
    requires i <= |es|
    decreases |es| - i
  {
    if i == |es| then Written("", None)
    else
      match es[i].value
      case Raise(e) => Written(es[i].head, Some(e))
      case Ok(s) =>
        var rest := EntriesFrom(es, i + 1);
        Written(es[i].head + PStr(s) + "\n" + rest.text, rest.error)
  }

  /** `write_val(*args, **kwargs)` at time `stamp`: header, positional lines,
      keyword lines in `kwargs.items()` order, blank line. */
  function ValRecord(stamp: string, args: seq<Outcome<string>>, kwargs: seq<(string, Outcome<string>)>): Written
  {
    var header := stamp + " =>\n";
    var a := EntriesFrom(ArgEntries(args), 0);
    if a.error.Some? then Written(header + a.text, a.error)
    else
      var k := EntriesFrom(KeywordEntries(kwargs), 0);
      if k.error.Some? then Written(header + a.text + k.text, k.error)
      else Written(header + a.text + k.text + "\n", None)
  }

  /** The concatenation of a list of lines. */
  function Concat(xs: seq<string>): string
  {
    if |xs| == 0 then "" else xs[0] + Concat(xs[1..])
  }

  /** The line an entry whose `str` succeeds becomes. */
  function Line(e: Entry): string
    requires e.value.Ok?
  {
    e.head + PStr(e.value.value) + "\n"
  }

  function Lines(es: seq<Entry>): (r: seq<string>)
    requires forall i :: 0 <= i < |es| ==> es[i].value.Ok?
    ensures |r| == |es|
    ensures forall i :: 0 <= i < |es| ==> r[i] == Line(es[i])
  {
    seq(|es|, i requires 0 <= i < |es| => Line(es[i]))
  }

  /** The lines of a record section: one complete line per entry up to the
      first one, `j`, whose `str` raises, then that entry's head alone, and
      its exception. */
  lemma {:induction false} EntriesLayout(es: seq<Entry>, i: nat, j: nat)
    requires i <= j <= |es|
    requires forall k :: 0 <= k < j ==> es[k].value.Ok?
    requires j < |es| ==> es[j].value.Raise?
    ensures EntriesFrom(es, i).text == Concat(Lines(es[..j])[i..]) + (if j < |es| then es[j].head else "")
    ensures EntriesFrom(es, i).error == if j < |es| then Some(es[j].value.exc) else None
    decreases |es| - i
  {
    var ls := Lines(es[..j]);
    var last := if j < |es| then es[j].head else "";
    if i < j {
      EntriesLayout(es, i + 1, j);
      var rest := EntriesFrom(es, i + 1);
      assert ls[i..][0] == ls[i] && ls[i..][1..] == ls[i + 1..];
      assert es[..j][i] == es[i];
      assert Line(es[i]) + (Concat(ls[i + 1..]) + last) == (Line(es[i]) + Concat(ls[i + 1..])) + last;
    } else {
      assert ls[i..] == [];
    }
  }

  /** A record all of whose values print: the header, then line `i` is
      `"  <i>:" + pstr(args[i])`, then one line per keyword, then a blank line;
      and nothing is raised. */
  lemma ValRecordAllOk(stamp: string, args: seq<Outcome<string>>, kwargs: seq<(string, Outcome<string>)>)
    requires forall i :: 0 <= i < |args| ==> args[i].Ok?
    requires forall i :: 0 <= i < |kwargs| ==> kwargs[i].1.Ok?
    ensures var al := Lines(ArgEntries(args));
            forall i :: 0 <= i < |args| ==> al[i] == ArgLabel(i) + PStr(args[i].value) + "\n"
    ensures var kl := Lines(KeywordEntries(kwargs));
            forall i :: 0 <= i < |kwargs| ==> kl[i] == KeywordLabel(kwargs[i].0) + PStr(kwargs[i].1.value) + "\n"
    ensures ValRecord(stamp, args, kwargs) ==
      Written(stamp + " =>\n" + Concat(Lines(ArgEntries(args))) + Concat(Lines(KeywordEntries(kwargs))) + "\n", None)
  {
    var ae, ke := ArgEntries(args), KeywordEntries(kwargs);
    SectionAllOk(ae);
    SectionAllOk(ke);
  }

  /** The labels of the first four positional lines. */
  lemma FirstArgLabels()
    ensures ArgLabel(0) == "  <0>:" && ArgLabel(1) == "  <1>:" && ArgLabel(2) == "  <2>:" && ArgLabel(3) == "  <3>:"
  {
    assert NatToString(0) == "0" && NatToString(1) == "1" && NatToString(2) == "2" && NatToString(3) == "3";
  }

  /** A section all of whose values print is its lines, in order. */
  lemma SectionAllOk(es: seq<Entry>)
    requires forall i :: 0 <= i < |es| ==> es[i].value.Ok?
    ensures EntriesFrom(es, 0) == Written(Concat(Lines(es)), None)
  {
    EntriesLayout(es, 0, |es|);
    assert es[..|es|] == es;
    assert Lines(es)[0..] == Lines(es);
  }

  /** A positional argument whose `str` raises ends the record: what is
      written is the header, the lines of the arguments before it and its
      label, and the exception is the one `str` raised. */
  lemma ValRecordArgRaises(stamp: string, args: seq<Outcome<string>>, kwargs: seq<(string, Outcome<string>)>, j: nat)
    requires j < |args| && args[j].Raise?
    requires forall i :: 0 <= i < j ==> args[i].Ok?
    ensures ValRecord(stamp, args, kwargs) ==
      Written(stamp + " =>\n" + Concat(Lines(ArgEntries(args)[..j])) + ArgLabel(j), Some(args[j].exc))
  {
    var ae := ArgEntries(args);
    EntriesLayout(ae, 0, j);
    assert Lines(ae[..j])[0..] == Lines(ae[..j]);
  }

  /** A keyword argument whose `str` raises ends the record after the
      complete positional lines, the keyword lines before it and its head. */
  lemma ValRecordKeywordRaises(stamp: string, args: seq<Outcome<string>>, kwargs: seq<(string, Outcome<string>)>, j: nat)
    requires forall i :: 0 <= i < |args| ==> args[i].Ok?
    requires j < |kwargs| && kwargs[j].1.Raise?
    requires forall i :: 0 <= i < j ==> kwargs[i].1.Ok?
    ensures ValRecord(stamp, args, kwargs) ==
      Written(stamp + " =>\n" + Concat(Lines(ArgEntries(args))) + Concat(Lines(KeywordEntries(kwargs)[..j]))
                + KeywordLabel(kwargs[j].0), Some(kwargs[j].1.exc))
  {
    var ke := KeywordEntries(kwargs);
    SectionAllOk(ArgEntries(args));
    EntriesLayout(ke, 0, j);
    assert Lines(ke[..j])[0..] == Lines(ke[..j]);
  }

  /** `write_dump(*args, **kwargs)` at time `stamp`: header without a newline,
      the arguments as they are, `k=>v` per keyword, a newline. */
  function DumpRecord(stamp: string, args: seq<string>, kwargs: seq<(string, string)>): string
  {
    stamp + " =>" + Concat(args) + Concat(Pairs(kwargs)) + "\n"
  }

  /** The `k=>v` text of each keyword argument of `write_dump`. */
  function Pairs(kwargs: seq<(string, string)>): (r: seq<string>)
    ensures |r| == |kwargs|
    ensures forall i :: 0 <= i < |r| ==> r[i] == kwargs[i].0 + "=>" + kwargs[i].1
  {
    seq(|kwargs|, i requires 0 <= i < |kwargs| => kwargs[i].0 + "=>" + kwargs[i].1)
  }

  lemma ConcatSnoc(xs: seq<string>, x: string)
    ensures Concat(xs + [x]) == Concat(xs) + x
  {
    if |xs| == 0 {
      assert [x][1..] == [];
      assert xs + [x] == [x];
    } else {
      assert (xs + [x])[1..] == xs[1..] + [x];
      ConcatSnoc(xs[1..], x);
    }
  }

  lemma UpdateTwice(m: map<string, string>, k: string, a: string, b: string)
    ensures m[k := a][k := b] == m[k := b]
  {
  }

  lemma UpdateUnchanged(m: map<string, string>, k: string, v: string)
    requires v == if k in m then m[k] else ""
    requires k in m
    ensures m[k := v] == m
  {
  }

  /** One complete line of a record, written as its head and then its value. */
  lemma StepText(cur: string, head: string, p: string, rest: string)
    ensures cur + head + (p + "\n") + rest == cur + (head + p + "\n" + rest)
  {
    calc {
      cur + head + (p + "\n") + rest;
      { Associate3(cur, head, p + "\n"); }
      cur + (head + (p + "\n")) + rest;
      { Associate3(head, p, "\n"); }
      cur + (head + p + "\n") + rest;
      { Associate3(cur, head + p + "\n", rest); }
      cur + (head + p + "\n" + rest);
    }
  }

  lemma Associate3(a: string, b: string, c: string)
    ensures a + b + c == a + (b + c)
  {
  }

  /** A writer bound to one file name. */
  class Writer {
    const fileName: string

    constructor (fileName: string)
      ensures this.fileName == fileName
    {
      this.fileName := fileName;
    }

    /** `write_val`: appends the record to the file, or the part of it written
        before a value's `str` raised, which is then returned. No other file
        changes. */
    method WriteVal(fs: FileStore, stamp: string, args: seq<Outcome<string>>, kwargs: seq<(string, Outcome<string>)>)
      returns (err: Option<PyExc>)
      modifies fs
      ensures var w := ValRecord(stamp, args, kwargs);
              err == w.error && fs.files == old(fs.files)[fileName := old(fs.Content(fileName)) + w.text]
    {
      ghost var base, start := fs.files, fs.Content(fileName);
      var h := stamp + " =>\n";
      fs.Append(fileName, h);
      err := WriteArgs(fs, args);
      ghost var a := EntriesFrom(ArgEntries(args), 0).text;
      UpdateTwice(base, fileName, start + h, start + h + a);
      Associate3(start, h, a);
      if err.Some? {
        return;
      }
      err := WriteKeywords(fs, kwargs);
      ghost var k := EntriesFrom(KeywordEntries(kwargs), 0).text;
      UpdateTwice(base, fileName, start + h + a, start + h + a + k);
      Associate3(start, h + a, k);
      if err.Some? {
        return;
      }
      fs.Append(fileName, "\n");
      UpdateTwice(base, fileName, start + h + a + k, start + h + a + k + "\n");
      Associate3(start, h + a + k, "\n");
    }

    /** The positional-argument loop of `write_val`. */
    method WriteArgs(fs: FileStore, args: seq<Outcome<string>>) returns (err: Option<PyExc>)
      requires fileName in fs.files
      modifies fs
      ensures var w := EntriesFrom(ArgEntries(args), 0);
              err == w.error && fs.files == old(fs.files)[fileName := old(fs.Content(fileName)) + w.text]
    {
      ghost var base, start := fs.files, fs.Content(fileName);
      ghost var es := ArgEntries(args);
      ghost var all := EntriesFrom(es, 0);
      ghost var cur := start;
      UpdateUnchanged(base, fileName, start);
      var i := 0;
      while i < |args|
        invariant 0 <= i <= |args|
        invariant fs.files == base[fileName := cur]
        invariant cur + EntriesFrom(es, i).text == start + all.text
        invariant EntriesFrom(es, i).error == all.error
      {
        fs.Append(fileName, ArgLabel(i));
        UpdateTwice(base, fileName, cur, cur + ArgLabel(i));
        match args[i] {
          case Raise(e) =>
            return Some(e);
          case Ok(s) =>
            fs.Append(fileName, PStr(s) + "\n");
            UpdateTwice(base, fileName, cur + ArgLabel(i), cur + ArgLabel(i) + (PStr(s) + "\n"));
            StepText(cur, ArgLabel(i), PStr(s), EntriesFrom(es, i + 1).text);
            cur := cur + ArgLabel(i) + (PStr(s) + "\n");
        }
        i := i + 1;
      }
      assert cur + "" == cur;
      return None;
    }

    /** The keyword-argument loop of `write_val`, in `kwargs.items()` order. */
    method WriteKeywords(fs: FileStore, kwargs: seq<(string, Outcome<string>)>) returns (err: Option<PyExc>)
      requires fileName in fs.files
      modifies fs
      ensures var w := EntriesFrom(KeywordEntries(kwargs), 0);
              err == w.error && fs.files == old(fs.files)[fileName := old(fs.Content(fileName)) + w.text]
    {
      ghost var base, start := fs.files, fs.Content(fileName);
      ghost var es := KeywordEntries(kwargs);
      ghost var all := EntriesFrom(es, 0);
      ghost var cur := start;
      UpdateUnchanged(base, fileName, start);
      var k := 0;
      while k < |kwargs|
        invariant 0 <= k <= |kwargs|
        invariant fs.files == base[fileName := cur]
        invariant cur + EntriesFrom(es, k).text == start + all.text
        invariant EntriesFrom(es, k).error == all.error
      {
        var (name, v) := kwargs[k];
        fs.Append(fileName, KeywordLabel(name));
        UpdateTwice(base, fileName, cur, cur + KeywordLabel(name));
        match v {
          case Raise(e) =>
            return Some(e);
          case Ok(s) =>
            fs.Append(fileName, PStr(s) + "\n");
            UpdateTwice(base, fileName, cur + KeywordLabel(name), cur + KeywordLabel(name) + (PStr(s) + "\n"));
            StepText(cur, KeywordLabel(name), PStr(s), EntriesFrom(es, k + 1).text);
            cur := cur + KeywordLabel(name) + (PStr(s) + "\n");
        }
        k := k + 1;
      }
      assert cur + "" == cur;
      return None;
    }

    /** `write_dump`: appends the dump record to the file; no other file changes. */
    method WriteDump(fs: FileStore, stamp: string, args: seq<string>, kwargs: seq<(string, string)>)
      modifies fs
      ensures fs.files == old(fs.files)[fileName := old(fs.Content(fileName)) + DumpRecord(stamp, args, kwargs)]
    {
      ghost var base, start := fs.files, fs.Content(fileName);
      var h := stamp + " =>";
      fs.Append(fileName, h);
      WriteAll(fs, args);
      UpdateTwice(base, fileName, start + h, start + h + Concat(args));
      WriteAll(fs, Pairs(kwargs));
      UpdateTwice(base, fileName, start + h + Concat(args), start + h + Concat(args) + Concat(Pairs(kwargs)));
      fs.Append(fileName, "\n");
      ghost var body := start + h + Concat(args) + Concat(Pairs(kwargs));
      UpdateTwice(base, fileName, body, body + "\n");
      assert body + "\n" == start + DumpRecord(stamp, args, kwargs) by {
        Associate3(start + h, Concat(args), Concat(Pairs(kwargs)));
        Associate3(start, h, Concat(args) + Concat(Pairs(kwargs)));
        Associate3(start, h + (Concat(args) + Concat(Pairs(kwargs))), "\n");
        Associate3(h, Concat(args), Concat(Pairs(kwargs)));
      }
    }

    /** The loops of `write_dump`: each text written as it is, in order. */
    method WriteAll(fs: FileStore, xs: seq<string>)
      requires fileName in fs.files
      modifies fs
      ensures fs.files == old(fs.files)[fileName := old(fs.Content(fileName)) + Concat(xs)]
    {
      ghost var base, start := fs.files, fs.Content(fileName);
      assert base == base[fileName := start + Concat(xs[..0])] by {
        assert start + Concat(xs[..0]) == start;
        UpdateUnchanged(base, fileName, start);
      }
      var i := 0;
      while i < |xs|
        invariant 0 <= i <= |xs|
        invariant fs.files == base[fileName := start + Concat(xs[..i])]
      {
        fs.Append(fileName, xs[i]);
        UpdateTwice(base, fileName, start + Concat(xs[..i]), start + Concat(xs[..i]) + xs[i]);
        ConcatSnoc(xs[..i], xs[i]);
        assert xs[..i + 1] == xs[..i] + [xs[i]];
        Associate3(start, Concat(xs[..i]), xs[i]);
        i := i + 1;
      }
      assert xs[..i] == xs;
    }
  }
}
