/** `DBPrinter` of cdb.py: the call-trace decorator `cdb_dec` and the
    operator shortcuts `__call__`, `__div__` and `__floordiv__`. The clock,
    the traceback and the wrapped callable are inputs: what `f(*args,
    **kwargs)` returns or raises is a parameter, so are the `strftime` texts
    and `int(time.time() * 10000)`. */
module Tracer {
  import opened PyText
  import opened CdbText
  import opened Values
  import opened Dumper
  import opened Log

  /** The file `__pos__` appends the traceback to, whatever the printer's own file. */
  const TraceFile := "/tmp/cdb"

  /** The record tag: `int(time.time() * 10000) % 1000000`. Python's `%` by a
      positive modulus, like Dafny's, is never negative. */
  function Tag(ticks: int): (t: nat)
    ensures t < 1000000
  {
    ticks % 1000000
  }

  /** `'{{%s}}' % ".".join((f.__module__, f.__name__))` */
  function WrappedName(f: Callee): string
  {
    "{{" + f.moduleName + "." + f.name + "}}"
  }

  /** The `strftime` texts read by the records of one traced call: the entry
      record, the exit or exception record, and the traceback header. */
  datatype Clock = Clock(entry: string, exit: string, stack: string)

  /** The `str` of each positional argument. */
  function Texts(vs: seq<PyValue>): (r: seq<Outcome<string>>)
    ensures |r| == |vs| && forall i :: 0 <= i < |vs| ==> r[i] == vs[i].text
  {
    seq(|vs|, i requires 0 <= i < |vs| => vs[i].text)
  }

  /** The name and `str` of each keyword argument. */
  function KeywordTexts(kwargs: seq<(string, PyValue)>): (r: seq<(string, Outcome<string>)>)
    ensures |r| == |kwargs| && forall i :: 0 <= i < |kwargs| ==> r[i] == (kwargs[i].0, kwargs[i].1.text)
  {
    seq(|kwargs|, i requires 0 <= i < |kwargs| => (kwargs[i].0, kwargs[i].1.text))
  }

  /** `write_val(tag, 'in->' + wname, *args, **kwargs)` */
  function EntryRecord(tag: nat, f: Callee, stamp: string, args: seq<PyValue>, kwargs: seq<(string, PyValue)>): Written
  {
    ValRecord(stamp, EntryValues(tag, f, args), KeywordTexts(kwargs))
  }

  /** The positional values of the entry record: the tag, the marker, the arguments. */
  function EntryValues(tag: nat, f: Callee, args: seq<PyValue>): (vs: seq<Outcome<string>>)
    ensures |vs| == |args| + 2
    ensures vs[0] == Ok(NatToString(tag)) && vs[1] == Ok("in->" + WrappedName(f))
    ensures forall i :: 0 <= i < |args| ==> vs[i + 2] == args[i].text
  {
    [Ok(NatToString(tag)), Ok("in->" + WrappedName(f))] + Texts(args)
  }

  /** `write_val(tag, 'out->' + wname, 'rv-->', rv)` */
  function ExitRecord(tag: nat, f: Callee, stamp: string, rv: PyValue): Written
  {
    ValRecord(stamp, [Ok(NatToString(tag)), Ok("out->" + WrappedName(f)), Ok("rv-->"), rv.text], [])
  }

  /** `write_val(tag, wname, 'exception:', e.args, e.message)` */
  function ExceptionRecord(tag: nat, f: Callee, stamp: string, e: PyExc): Written
  {
    ValRecord(stamp, [Ok(NatToString(tag)), Ok(WrappedName(f)), Ok("exception:"), e.argsText, e.messageText], [])
  }

  /** What `+self` (`__pos__`) appends: a header, then the stack lines, which
      are an input of the model. */
  function StackRecord(stamp: string, stack: string): string
  {
    stamp + " =>" + " - \n" + stack
  }

  /** What one traced call appends to which file, in order, and what it
      returns or raises. */
  datatype CallLog = Logged(appends: seq<(string, string)>, outcome: CallOutcome)

  /** One call of `cdb_rfunc` (cdb.py:591-601). `result` is what `f` returns
      or raises; it is not consulted when the entry record raises, since `f`
      is then never called. A `BaseException` that is not an `Exception`
      passes through without a record. */
  function Traced(fileName: string, f: Callee, result: CallOutcome, ticks: int, clock: Clock, stack: string,
                  args: seq<PyValue>, kwargs: seq<(string, PyValue)>): CallLog
  {
    var tag := Tag(ticks);
    var entry := EntryRecord(tag, f, clock.entry, args, kwargs);
    var logged := [(fileName, entry.text)];
    if entry.error.Some? then Logged(logged, Raises(entry.error.value))
    else
      match result
      case Returns(v) =>
        var exit := ExitRecord(tag, f, clock.exit, v);
        Logged(logged + [(fileName, exit.text)], if exit.error.Some? then Raises(exit.error.value) else result)
      case Raises(e) =>
        if e.kind == BaseOnly then Logged(logged, result)
        else
          var rec := ExceptionRecord(tag, f, clock.exit, e);
          if rec.error.Some? then Logged(logged + [(fileName, rec.text)], Raises(rec.error.value))
          else Logged(logged + [(fileName, rec.text), (TraceFile, StackRecord(clock.stack, stack))], result)
  }

  /** A traced call never invents a value and never swallows an exception:
      it returns only what `f` returned, and when `f` raised, so does the call. */
  lemma TracedNeverMasks(fileName: string, f: Callee, result: CallOutcome, ticks: int, clock: Clock, stack: string,
                         args: seq<PyValue>, kwargs: seq<(string, PyValue)>)
    ensures var t := Traced(fileName, f, result, ticks, clock, stack, args, kwargs);
            (t.outcome.Returns? ==> t.outcome == result) && (result.Raises? ==> t.outcome.Raises?)
  {
  }

  /** When every logged value prints, a returning call appends exactly its
      entry and exit records and returns `f`'s value unchanged. */
  lemma TracedReturn(fileName: string, f: Callee, v: PyValue, ticks: int, clock: Clock, stack: string,
                     args: seq<PyValue>, kwargs: seq<(string, PyValue)>)
    requires forall i :: 0 <= i < |args| ==> args[i].text.Ok?
    requires forall i :: 0 <= i < |kwargs| ==> kwargs[i].1.text.Ok?
    requires v.text.Ok?
    ensures var t := Traced(fileName, f, Returns(v), ticks, clock, stack, args, kwargs);
            var tag := Tag(ticks);
            t.outcome == Returns(v) &&
            t.appends == [(fileName, EntryRecord(tag, f, clock.entry, args, kwargs).text),
                          (fileName, ExitRecord(tag, f, clock.exit, v).text)]
  {
    EntryRecordLayout(Tag(ticks), f, clock.entry, args, kwargs);
    ExitRecordLayout(Tag(ticks), f, clock.exit, v);
  }

  /** When every logged value prints, a call whose `f` raises an `Exception`
      appends its entry record, its exception record and a traceback to
      the trace file, and raises the same exception. */
  lemma TracedException(fileName: string, f: Callee, e: PyExc, ticks: int, clock: Clock, stack: string,
                        args: seq<PyValue>, kwargs: seq<(string, PyValue)>)
    requires forall i :: 0 <= i < |args| ==> args[i].text.Ok?
    requires forall i :: 0 <= i < |kwargs| ==> kwargs[i].1.text.Ok?
    requires e.kind != BaseOnly && e.argsText.Ok? && e.messageText.Ok?
    ensures var t := Traced(fileName, f, Raises(e), ticks, clock, stack, args, kwargs);
            var tag := Tag(ticks);
            t.outcome == Raises(e) &&
            t.appends == [(fileName, EntryRecord(tag, f, clock.entry, args, kwargs).text),
                          (fileName, ExceptionRecord(tag, f, clock.exit, e).text),
                          (TraceFile, StackRecord(clock.stack, stack))]
  {
    var tag := Tag(ticks);
    EntryRecordLayout(tag, f, clock.entry, args, kwargs);
    ValRecordAllOk(clock.exit, [Ok(NatToString(tag)), Ok(WrappedName(f)), Ok("exception:"), e.argsText, e.messageText], []);
  }

  /** A `BaseException` that is not an `Exception` (KeyboardInterrupt,
      SystemExit) is not caught by `except Exception`: after the entry record
      nothing more is logged and it propagates as it is. */
  lemma TracedBaseExceptionPasses(fileName: string, f: Callee, e: PyExc, ticks: int, clock: Clock, stack: string,
                                  args: seq<PyValue>, kwargs: seq<(string, PyValue)>)
    requires e.kind == BaseOnly
    ensures var t := Traced(fileName, f, Raises(e), ticks, clock, stack, args, kwargs);
            var entry := EntryRecord(Tag(ticks), f, clock.entry, args, kwargs);
            && t.outcome == (if entry.error.Some? then Raises(entry.error.value) else Raises(e))
            && |t.appends| == 1 && t.appends[0] == (fileName, entry.text)
  {
  }

  /** When `str` of an argument raises while the entry record is written,
      `f` is never called: the outcome does not depend on what `f` would do,
      and only the partial entry record is logged. */
  lemma EntryFailureSkipsCall(fileName: string, f: Callee, r1: CallOutcome, r2: CallOutcome, ticks: int,
                              clock: Clock, stack: string, args: seq<PyValue>, kwargs: seq<(string, PyValue)>)
    requires EntryRecord(Tag(ticks), f, clock.entry, args, kwargs).error.Some?
    ensures Traced(fileName, f, r1, ticks, clock, stack, args, kwargs) == Traced(fileName, f, r2, ticks, clock, stack, args, kwargs)
    ensures var t := Traced(fileName, f, r1, ticks, clock, stack, args, kwargs);
            |t.appends| == 1 && t.outcome == Raises(EntryRecord(Tag(ticks), f, clock.entry, args, kwargs).error.value)
  {
  }

  /** Exactly one entry record comes first, before anything `f` causes to be
      logged; the log file and the trace file are the only files written, and
      each keeps what it held before as a prefix. */
  lemma TracedAppendsOnly(files: map<string, string>, fileName: string, f: Callee, result: CallOutcome, ticks: int,
                          clock: Clock, stack: string, args: seq<PyValue>, kwargs: seq<(string, PyValue)>, name: string)
    ensures var t := Traced(fileName, f, result, ticks, clock, stack, args, kwargs);
            && 1 <= |t.appends| <= 3
            && t.appends[0] == (fileName, EntryRecord(Tag(ticks), f, clock.entry, args, kwargs).text)
            && (forall k :: 0 <= k < |t.appends| ==> t.appends[k].0 == fileName || t.appends[k].0 == TraceFile)
            && (name in files ==> name in Apply(files, t.appends) && files[name] <= Apply(files, t.appends)[name])
            && (name != fileName && name != TraceFile && name in files ==> Apply(files, t.appends)[name] == files[name])
  {
    var t := Traced(fileName, f, result, ticks, clock, stack, args, kwargs);
    ApplyExtends(files, t.appends, name);
  }

  /** Decimal text is printable, so `pstr` leaves a tag as it is. */
  lemma TagTextPrintable(tag: nat)
    ensures PStr(NatToString(tag)) == NatToString(tag)
  {
    var s := NatToString(tag);
    assert AllPrintable(s) by {
      forall k | 0 <= k < |s| ensures Printable(s[k]) {
        assert '0' <= s[k] <= '9';
      }
    }
  }

  lemma RvMarkerPrintable()
    ensures PStr("rv-->") == "rv-->"
  {
    PStrUnchangedIff("rv-->");
  }

  /** The exit record of a call whose value prints: the tag, the
      `out->{{module.name}}` marker, `rv-->` and the value, each on its own
      numbered line, then a blank line; nothing is raised. */
  lemma ExitRecordLayout(tag: nat, f: Callee, stamp: string, rv: PyValue)
    requires rv.text.Ok?
    ensures var ls := Lines(ArgEntries([Ok(NatToString(tag)), Ok("out->" + WrappedName(f)), Ok("rv-->"), rv.text]));
      && ExitRecord(tag, f, stamp, rv) == Written(stamp + " =>\n" + Concat(ls) + "\n", None)
      && |ls| == 4
      && ls[0] == "  <0>:" + NatToString(tag) + "\n"
      && ls[1] == "  <1>:" + PStr("out->" + WrappedName(f)) + "\n"
      && ls[2] == "  <2>:" + "rv-->" + "\n"
      && ls[3] == "  <3>:" + PStr(rv.text.value) + "\n"
  {
    ValRecordAllOk(stamp, [Ok(NatToString(tag)), Ok("out->" + WrappedName(f)), Ok("rv-->"), rv.text], []);
    assert Lines(KeywordEntries([])) == [];
    FirstArgLabels();
    TagTextPrintable(tag);
    RvMarkerPrintable();
  }

  lemma EntryValuesOk(tag: nat, f: Callee, args: seq<PyValue>)
    requires forall i :: 0 <= i < |args| ==> args[i].text.Ok?
    ensures forall i :: 0 <= i < |EntryValues(tag, f, args)| ==> EntryValues(tag, f, args)[i].Ok?
  {
    var vs := EntryValues(tag, f, args);
    forall i | 0 <= i < |vs| ensures vs[i].Ok? {
      if i >= 2 {
        assert vs[(i - 2) + 2] == args[i - 2].text;
      }
    }
  }

  /** The entry record when every argument prints: the tag, the
      `in->{{module.name}}` marker, then argument `i` on line `i + 2`, the
      keyword lines and a blank line; nothing is raised. */
  lemma EntryRecordLayout(tag: nat, f: Callee, stamp: string, args: seq<PyValue>, kwargs: seq<(string, PyValue)>)
    requires forall i :: 0 <= i < |args| ==> args[i].text.Ok?
    requires forall i :: 0 <= i < |kwargs| ==> kwargs[i].1.text.Ok?
    ensures forall i :: 0 <= i < |EntryValues(tag, f, args)| ==> EntryValues(tag, f, args)[i].Ok?
    ensures var ls := Lines(ArgEntries(EntryValues(tag, f, args)));
      var kl := Lines(KeywordEntries(KeywordTexts(kwargs)));
      && EntryRecord(tag, f, stamp, args, kwargs) == Written(stamp + " =>\n" + Concat(ls) + Concat(kl) + "\n", None)
      && |ls| == |args| + 2
      && ls[0] == "  <0>:" + NatToString(tag) + "\n"
      && ls[1] == "  <1>:" + PStr("in->" + WrappedName(f)) + "\n"
      && (forall i :: 0 <= i < |args| ==> ls[i + 2] == ArgLabel(i + 2) + PStr(args[i].text.value) + "\n")
      && (forall i :: 0 <= i < |kwargs| ==> kl[i] == KeywordLabel(kwargs[i].0) + PStr(kwargs[i].1.text.value) + "\n")
  {
    EntryValuesOk(tag, f, args);
    ValRecordAllOk(stamp, EntryValues(tag, f, args), KeywordTexts(kwargs));
    FirstArgLabels();
    TagTextPrintable(tag);
  }

  /** What `__call__` gives back: the tracing wrapper of a function, or nothing. */
  datatype CallResult = Wrapper(f: Callee) | NoValue

  /** The printer: a writer on its file, and a dumper bounded at depth 3. */
  class DBPrinter {
    const writer: Writer
    const dumper: ObjectDumper

    /** `DBPrinter(f_name)` (cdb.py:578-583). */
    constructor (fileName: string)
      ensures writer.fileName == fileName
      ensures fresh(dumper)
      ensures dumper.Cfg() == Config(3, 8, 4, ColumnWidth, false)
      ensures dumper.depth == -1 && dumper.cache == {}
    {
      writer := new Writer(fileName);
      var d := new ObjectDumper();
      d.maxDepth := 3;
      dumper := d;
    }

    /** One call of `cdb_dec(f)`'s wrapper, with `result` standing for what
        `f(*args, **kwargs)` does. */
    method TracedCall(fs: FileStore, f: Callee, result: CallOutcome, ticks: int, clock: Clock, stack: string,
                      args: seq<PyValue>, kwargs: seq<(string, PyValue)>) returns (out: CallOutcome)
      modifies fs
      ensures var t := Traced(writer.fileName, f, result, ticks, clock, stack, args, kwargs);
              out == t.outcome && fs.files == Apply(old(fs.files), t.appends)
    {
      ghost var t := Traced(writer.fileName, f, result, ticks, clock, stack, args, kwargs);
      ghost var f0 := fs.files;
      var tag := ticks % 1000000;
      var wname := WrappedName(f);
      var err := writer.WriteVal(fs, clock.entry, [Ok(NatToString(tag)), Ok("in->" + wname)] + Texts(args), KeywordTexts(kwargs));
      ghost var f1 := fs.files;
      ApplyOne(f0, writer.fileName, EntryRecord(tag, f, clock.entry, args, kwargs).text);
      if err.Some? {
        return Raises(err.value);
      }
      match result {
        case Returns(v) =>
          err := writer.WriteVal(fs, clock.exit, [Ok(NatToString(tag)), Ok("out->" + wname), Ok("rv-->"), v.text], []);
          ApplyOne(f1, writer.fileName, ExitRecord(tag, f, clock.exit, v).text);
          ApplyConcat(f0, t.appends[..1], t.appends[1..]);
          if err.Some? {
            return Raises(err.value);
          }
          return result;
        case Raises(e) =>
          if e.kind == BaseOnly {
            return result;
          }
          err := writer.WriteVal(fs, clock.exit, [Ok(NatToString(tag)), Ok(wname), Ok("exception:"), e.argsText, e.messageText], []);
          ghost var f2 := fs.files;
          ApplyOne(f1, writer.fileName, ExceptionRecord(tag, f, clock.exit, e).text);
          ApplyConcat(f0, t.appends[..1], t.appends[1..2]);
          if err.Some? {
            return Raises(err.value);
          }
          Pos(fs, clock.stack, stack);
          ApplyOne(f2, TraceFile, StackRecord(clock.stack, stack));
          ApplyConcat(f0, t.appends[..2], t.appends[2..]);
          return result;
      }
    }

    /** `+self` (`__pos__`): the traceback header and the stack lines, appended
        to the trace file. */
    method Pos(fs: FileStore, stamp: string, stack: string)
      modifies fs
      ensures fs.files == old(fs.files)[TraceFile := old(fs.Content(TraceFile)) + StackRecord(stamp, stack)]
    {
      ghost var base, start := fs.files, fs.Content(TraceFile);
      fs.Append(TraceFile, stamp + " =>");
      fs.Append(TraceFile, " - \n");
      UpdateTwice(base, TraceFile, start + (stamp + " =>"), start + (stamp + " =>") + " - \n");
      fs.Append(TraceFile, stack);
      UpdateTwice(base, TraceFile, start + (stamp + " =>") + " - \n", start + (stamp + " =>") + " - \n" + stack);
      assert start + (stamp + " =>") + " - \n" + stack == start + StackRecord(stamp, stack);
    }

    /** `cb(*args, **kwargs)`: a lone function argument is decorated (keyword
        arguments are then ignored); anything else is logged with `write_val`. */
    method Call(fs: FileStore, stamp: string, args: seq<PyValue>, kwargs: seq<(string, PyValue)>) returns (out: Outcome<CallResult>)
      modifies fs
      ensures |args| == 1 && args[0].asFunction.Some? ==>
                out == Ok(Wrapper(args[0].asFunction.value)) && fs.files == old(fs.files)
      ensures !(|args| == 1 && args[0].asFunction.Some?) ==>
                var w := ValRecord(stamp, Texts(args), KeywordTexts(kwargs));
                out == (if w.error.Some? then Raise(w.error.value) else Ok(NoValue)) &&
                fs.files == old(fs.files)[writer.fileName := old(fs.Content(writer.fileName)) + w.text]
    {
      if |args| > 0 && args[0].asFunction.Some? && |args| == 1 {
        return Ok(Wrapper(args[0].asFunction.value));
      }
      var err := writer.WriteVal(fs, stamp, Texts(args), KeywordTexts(kwargs));
      if err.Some? {
        return Raise(err.value);
      }
      return Ok(NoValue);
    }

    /** `cb / x`: logs `x` and gives it back. */
    method Div(fs: FileStore, stamp: string, other: PyValue) returns (out: CallOutcome)
      modifies fs
      ensures var w := ValRecord(stamp, [other.text], []);
              out == (if w.error.Some? then Raises(w.error.value) else Returns(other)) &&
              fs.files == old(fs.files)[writer.fileName := old(fs.Content(writer.fileName)) + w.text]
    {
      var err := writer.WriteVal(fs, stamp, [other.text], []);
      if err.Some? {
        return Raises(err.value);
      }
      return Returns(other);
    }

    /** `cb // x`: logs the dump of `x` with `write_dump` and gives `x` back. */
    method FloorDiv(fs: FileStore, stamp: string, g: Graph, r: Ref) returns (out: Ref)
      requires Closed(g) && r in g
      modifies fs, dumper`depth, dumper`cache
      ensures out == r
      ensures dumper.Sess() == Dump(dumper.Cfg(), g, r, Session(-1, {}), true, ColumnWidth, false, true).1
      ensures fs.files == old(fs.files)[writer.fileName := old(fs.Content(writer.fileName)) + DumpRecord(stamp, [Render(dumper.Cfg(), g, r)], [])]
    {
      var text := dumper.Dwrap(g, r);
      writer.WriteDump(fs, stamp, [text], []);
      return r;
    }
  }

  lemma ApplyOne(files: map<string, string>, name: string, s: string)
    ensures Apply(files, [(name, s)]) == files[name := (if name in files then files[name] else "") + s]
  {
  }

  lemma {:induction false} ApplyConcat(files: map<string, string>, a: seq<(string, string)>, b: seq<(string, string)>)
    ensures Apply(files, a + b) == Apply(Apply(files, a), b)
    decreases |a|
  {
    if |a| == 0 {
      assert a + b == b;
    } else {
      assert (a + b)[0] == a[0] && (a + b)[1..] == a[1..] + b;
      var (n, s) := a[0];
      ApplyConcat(files[n := (if n in files then files[n] else "") + s], a[1..], b);
    }
  }

  /** `write_dump` of one text: the header, the text, a newline. */
  lemma DumpRecordOfOne(stamp: string, text: string)
    ensures DumpRecord(stamp, [text], []) == stamp + " =>" + text + "\n"
  {
    assert Concat([text]) == text + Concat([text][1..]);
    assert [text][1..] == [];
    assert Concat(Pairs([])) == "";
  }
}
