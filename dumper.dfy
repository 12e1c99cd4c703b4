/** `ObjectDumper` of cdb.py: turns a value into indented text, one line per
    simple value, a divider-framed member listing per other value, with a
    hash-keyed cache for repeats and a depth bound for recursion.

    The tests at cdb.py:324-405 are applied to the builtin `object`, not to the
    value, so only `inspect.isclass(object)` holds among them: every value that
    is not in `SimplePrint` and not a repeat is expanded member by member
    (cdb.py:405-415). The functions below state what one call does; the class
    `ObjectDumper` carries the mutable `depth` and `cache` fields and is proved
    to compute exactly that. */
module Dumper {
  import opened PyText
  import opened CdbText
  import opened Values

  /** `C_WIDTH`, also the default `offset` of `dump_obj`. */
  const ColumnWidth := 8
  const Divider := "----------------------"
  const MaxDepthText := "Max Depth!!\n"
  const ExceptionText := "Exception\n"

  /** The dumper's settings (fields the dump only reads). */
  datatype Config = Config(maxDepth: int, tabSpace: int, subtab: int, columnWidth: int, allMembers: bool)

  /** The fields a dump updates: the current depth and the set of hashes seen. */
  datatype Session = Session(depth: int, cache: set<int>)

  /** `ObjectDumper.ind` at depth `d`: `" " * d * tab_space`. */
  function IndAt(c: Config, d: int): string
  {
    Repeat(Indent(d), c.tabSpace)
  }

  /** `ObjectDumper.spacing(h)`: the padding after a name of length `h`. */
  function Spacing(c: Config, h: int): string
  {
    Indent(c.columnWidth - h)
  }

  /** A name padded by `spacing` fills the column, and is never cut or
      negatively padded: a name longer than the column gets no padding. */
  lemma NameFillsColumn(c: Config, name: string)
    ensures |name + Spacing(c, |name|)| == if |name| < c.columnWidth then c.columnWidth else |name|
    ensures |name| >= c.columnWidth ==> Spacing(c, |name|) == ""
  {
  }

  /** The number of depth levels left before the bound; the measure that makes
      every dump terminate, cycles included. */
  function Budget(c: Config, d: int): nat
  {
    if d <= c.maxDepth + 1 then c.maxDepth + 1 - d else 0
  }

  /** The outcome of the repeat check (cdb.py:307-314). */
  datatype CacheVerdict =
    /** already seen: print this text instead */
    | Repeated(text: string)
    /** `hash` or `str` raised something other than TypeError */
    | Failed
    /** expand the value, with this cache */
    | Proceed(cache: set<int>)

  /** A hashable value is a repeat iff its hash is cached; else the hash is
      added. A TypeError from `hash` (an unhashable value) or from `str` is
      swallowed and the value expanded. */
  function CacheCheck(hash: Outcome<int>, str: Outcome<string>, cache: set<int>): (v: CacheVerdict)
    ensures v.Proceed? ==> v.cache == if hash.Ok? then cache + {hash.value} else cache
    ensures v.Repeated? <==> hash.Ok? && hash.value in cache && str.Ok?
  {
    match hash
    case Raise(e) => if e.kind == TypeError then Proceed(cache) else Failed
    case Ok(h) =>
      if h !in cache then Proceed(cache + {h})
      else
        match str
        case Ok(s) => Repeated(PStr(s))
        case Raise(e) => if e.kind == TypeError then Proceed(cache) else Failed
  }

  /** `dump_obj` under its `depth_dec` wrapper (cdb.py:216-232, 297-564):
      the text and the new session. With `inc` the depth is raised first; past
      `maxDepth` the result is "Max Depth!!\n" and the depth is lowered again;
      if the body raises, the result is "Exception\n" and the depth is NOT
      lowered; otherwise the body's text, with the depth lowered when `inc`. */
  function Dump(c: Config, g: Graph, r: Ref, st: Session, inc: bool, offset: int, lead: bool, newline: bool): (res: (string, Session))
    requires Closed(g) && r in g
    ensures st.cache <= res.1.cache <= st.cache + GraphHashes(g)
    ensures inc ==> res.1.depth >= st.depth
    ensures st.depth <= c.maxDepth ==> res.1.depth <= c.maxDepth
    decreases Budget(c, st.depth), if inc then 0 else 3, 0
  {
    var d1 := if inc then st.depth + 1 else st.depth;
    if d1 > c.maxDepth then (MaxDepthText, st.(depth := d1 - 1))
    else
      var (out, st2) := Body(c, g, r, st.(depth := d1), offset, lead, newline);
      if out.None? then (ExceptionText, st2)
      else (out.value, if inc then st2.(depth := st2.depth - 1) else st2)
  }

  /** Past the depth bound the dump is the truncation marker, with the depth
      lowered again. */
  lemma TruncatesPastMax(c: Config, g: Graph, r: Ref, st: Session, inc: bool, offset: int, lead: bool, newline: bool)
    requires Closed(g) && r in g && (if inc then st.depth + 1 else st.depth) > c.maxDepth
    ensures Dump(c, g, r, st, inc, offset, lead, newline) == (MaxDepthText, st.(depth := (if inc then st.depth + 1 else st.depth) - 1))
  {
  }

  /** Within the bound the dump is the body's, one level deeper with `inc`;
      "Exception\n" when the body raises, with the depth left raised. */
  lemma EnteredDump(c: Config, g: Graph, r: Ref, st: Session, inc: bool, offset: int, lead: bool, newline: bool)
    requires Closed(g) && r in g && (if inc then st.depth + 1 else st.depth) <= c.maxDepth
    ensures var b := Body(c, g, r, st.(depth := if inc then st.depth + 1 else st.depth), offset, lead, newline);
      Dump(c, g, r, st, inc, offset, lead, newline) ==
        if b.0.None? then (ExceptionText, b.1) else (b.0.value, if inc then b.1.(depth := b.1.depth - 1) else b.1)
  {
  }

  /** The body of `dump_obj` on its reachable path; None when it raises. */
  function Body(c: Config, g: Graph, r: Ref, st: Session, offset: int, lead: bool, newline: bool): (res: (Option<string>, Session))
    requires Closed(g) && r in g && st.depth <= c.maxDepth
    ensures st.cache <= res.1.cache <= st.cache + GraphHashes(g)
    ensures st.depth <= res.1.depth <= c.maxDepth
    ensures res.0.None? ==> res.1.depth == st.depth
    decreases Budget(c, st.depth), 2, 0
  {
    var ind := if lead then "" else IndAt(c, st.depth);
    var spc := if lead then Spacing(c, offset) else ind;
    var nl := if newline then "\n" else "";
    match g[r]
    case Simple(ty, repr) => (Some(ind + TypeStr(OfType(ty)).value + ":" + repr + nl), st)
    case Obj(ty, hash, str, members) =>
      match CacheCheck(hash, str, st.cache)
      case Repeated(text) => (Some(spc + text + "\n"), st)
      case Failed => (None, st)
      case Proceed(cache) =>
        assert hash.Ok? ==> hash.value in GraphHashes(g);
        var st1 := st.(cache := cache);
        var shown := TypeStr(ty);
        if shown.None? || members.Raise? then (None, st1)
        else
          var head := ind + shown.value + ":" + "\n" + IndAt(c, st.depth) + Divider + "\n";
          var (text, st2) := Members(c, g, members.value, st1);
          (Some(head + text + IndAt(c, st2.depth) + Divider + "\n"), st2)
  }

  /** Whether the member listing shows a member: `__` names only with `allMembers`. */
  predicate Shown(c: Config, m: Member)
  {
    c.allMembers || !StartsWith(m.name, "__")
  }

  /** The line head written before a shown member's dump. */
  function MemberHead(c: Config, d: int, m: Member): string
  {
    IndAt(c, d) + Indent(c.subtab) + m.name + Spacing(c, |m.name|) + "=>"
  }

  /** The member loop (cdb.py:409-413), in `getmembers` order; each shown
      member is dumped with `lead=True` one level deeper, and the depth it
      leaves behind is the depth of the next line. */
  function Members(c: Config, g: Graph, ms: seq<Member>, st: Session): (res: (string, Session))
    requires Closed(g) && MembersIn(g, ms) && st.depth <= c.maxDepth
    ensures st.cache <= res.1.cache <= st.cache + GraphHashes(g)
    ensures st.depth <= res.1.depth <= c.maxDepth
    decreases Budget(c, st.depth), 1, |ms|
  {
    if |ms| == 0 then ("", st)
    else if !Shown(c, ms[0]) then Members(c, g, ms[1..], st)
    else
      var (child, st1) := Dump(c, g, ms[0].ref, st, true, ColumnWidth, true, true);
      var (rest, st2) := Members(c, g, ms[1..], st1);
      (MemberHead(c, st.depth, ms[0]) + child + rest, st2)
  }

  /** One step of the member loop, for the loop in `ObjectDumper.DumpMembers`:
      the listing of `ms` is the first member's text, then the listing of the
      rest from the session that member leaves. */
  lemma MemberStep(c: Config, g: Graph, ms: seq<Member>, st: Session, text: string, st1: Session)
    requires Closed(g) && MembersIn(g, ms) && st.depth <= c.maxDepth && |ms| > 0
    requires Shown(c, ms[0]) ==>
      var d := Dump(c, g, ms[0].ref, st, true, ColumnWidth, true, true);
      text == MemberHead(c, st.depth, ms[0]) + d.0 && st1 == d.1
    requires !Shown(c, ms[0]) ==> text == "" && st1 == st
    ensures MembersIn(g, ms[1..]) && st.depth <= st1.depth <= c.maxDepth
    ensures var rest := Members(c, g, ms[1..], st1);
      Members(c, g, ms, st) == (text + rest.0, rest.1)
  {
    if !Shown(c, ms[0]) {
      assert "" + Members(c, g, ms[1..], st1).0 == Members(c, g, ms[1..], st1).0;
    }
  }

  /** `dwrap(obj)`: a dump from an empty cache at depth -1, so the value itself
      is at depth 0. */
  function Render(c: Config, g: Graph, r: Ref): string
    requires Closed(g) && r in g
  {
    Dump(c, g, r, Session(-1, {}), true, ColumnWidth, false, true).0
  }

  /** Past the depth bound the body is not run: the text is "Max Depth!!\n"
      and the session is as it was on entry. */
  lemma TruncatesBeyondMaxDepth(c: Config, g: Graph, r: Ref, st: Session, offset: int, lead: bool, newline: bool)
    requires Closed(g) && r in g && st.depth >= c.maxDepth
    ensures Dump(c, g, r, st, true, offset, lead, newline) == (MaxDepthText, st)
  {
  }

  /** A body that raises yields "Exception\n" and leaves the depth one level
      up: the decrement of `depth_dec` is skipped. */
  lemma ExceptionSkipsDecrement(c: Config, g: Graph, r: Ref, st: Session, offset: int, lead: bool, newline: bool)
    requires Closed(g) && r in g && st.depth < c.maxDepth
    requires Body(c, g, r, st.(depth := st.depth + 1), offset, lead, newline).0.None?
    ensures Dump(c, g, r, st, true, offset, lead, newline).0 == ExceptionText
    ensures Dump(c, g, r, st, true, offset, lead, newline).1.depth == st.depth + 1
  {
  }

  /** A `SimplePrint` value is one line, `type_str:repr`, and leaves the
      session, the cache included, untouched. */
  lemma SimpleLeaf(c: Config, g: Graph, r: Ref, st: Session, offset: int, lead: bool, newline: bool)
    requires Closed(g) && r in g && g[r].Simple? && st.depth < c.maxDepth
    ensures Dump(c, g, r, st, true, offset, lead, newline) ==
      ((if lead then "" else IndAt(c, st.depth + 1)) + TypeStr(OfType(g[r].typeRepr)).value + ":" + g[r].repr
         + (if newline then "\n" else ""), st)
  {
  }

  /** A value whose hash is cached is not expanded: it is the one repeat line
      `spc + pstr(obj) + NL`, and the session is unchanged. */
  lemma RepeatNotExpanded(c: Config, g: Graph, r: Ref, st: Session, offset: int, lead: bool, newline: bool)
    requires Closed(g) && r in g && g[r].Obj? && st.depth < c.maxDepth
    requires g[r].hash.Ok? && g[r].hash.value in st.cache && g[r].str.Ok?
    ensures Dump(c, g, r, st, true, offset, lead, newline) ==
      ((if lead then Spacing(c, offset) else IndAt(c, st.depth + 1)) + PStr(g[r].str.value) + "\n", st)
  {
    var entered := st.(depth := st.depth + 1);
    assert CacheCheck(g[r].hash, g[r].str, st.cache) == Repeated(PStr(g[r].str.value));
    assert Body(c, g, r, entered, offset, lead, newline).0.Some?;
    EnteredDump(c, g, r, st, true, offset, lead, newline);
  }

  /** A hashable value seen for the first time has its hash cached once it has
      been dumped (whether or not its expansion succeeded). */
  lemma FirstVisitCaches(c: Config, g: Graph, r: Ref, st: Session, offset: int, lead: bool, newline: bool)
    requires Closed(g) && r in g && g[r].Obj? && st.depth < c.maxDepth
    requires g[r].hash.Ok? && g[r].hash.value !in st.cache
    ensures g[r].hash.value in Dump(c, g, r, st, true, offset, lead, newline).1.cache
  {
  }

  /** In a graph where nothing raises past the dumper's own handlers, every
      dump succeeds and puts the depth back where it was. */
  lemma {:induction false} DumpRestoresDepth(c: Config, g: Graph, r: Ref, st: Session, inc: bool, offset: int, lead: bool, newline: bool)
    requires Closed(g) && WellBehaved(g) && r in g && st.depth <= c.maxDepth
    ensures Dump(c, g, r, st, inc, offset, lead, newline).1.depth == st.depth
    decreases Budget(c, st.depth), if inc then 0 else 3, 0
  {
    var d1 := if inc then st.depth + 1 else st.depth;
    if d1 <= c.maxDepth {
      BodyRestoresDepth(c, g, r, st.(depth := d1), offset, lead, newline);
    }
  }

  lemma {:induction false} BodyRestoresDepth(c: Config, g: Graph, r: Ref, st: Session, offset: int, lead: bool, newline: bool)
    requires Closed(g) && WellBehaved(g) && r in g && st.depth <= c.maxDepth
    ensures Body(c, g, r, st, offset, lead, newline).0.Some?
    ensures Body(c, g, r, st, offset, lead, newline).1.depth == st.depth
    decreases Budget(c, st.depth), 2, 0
  {
    match g[r]
    case Simple(_, _) =>
    case Obj(ty, hash, str, members) =>
      assert NodeWellBehaved(g[r]);
      match CacheCheck(hash, str, st.cache)
      case Repeated(_) =>
      case Failed =>
      case Proceed(cache) =>
        MembersRestoreDepth(c, g, members.value, st.(cache := cache));
  }

  lemma {:induction false} MembersRestoreDepth(c: Config, g: Graph, ms: seq<Member>, st: Session)
    requires Closed(g) && WellBehaved(g) && MembersIn(g, ms) && st.depth <= c.maxDepth
    ensures Members(c, g, ms, st).1.depth == st.depth
    decreases Budget(c, st.depth), 1, |ms|
  {
    if |ms| > 0 {
      if !Shown(c, ms[0]) {
        MembersRestoreDepth(c, g, ms[1..], st);
      } else {
        DumpRestoresDepth(c, g, ms[0].ref, st, true, ColumnWidth, true, true);
        var st1 := Dump(c, g, ms[0].ref, st, true, ColumnWidth, true, true).1;
        MembersRestoreDepth(c, g, ms[1..], st1);
      }
    }
  }

  /** What the member loop writes at the depth bound: each shown member's line
      head followed by "Max Depth!!\n". */
  function TruncatedLines(c: Config, d: int, ms: seq<Member>): string
  {
    if |ms| == 0 then ""
    else if !Shown(c, ms[0]) then TruncatedLines(c, d, ms[1..])
    else MemberHead(c, d, ms[0]) + MaxDepthText + TruncatedLines(c, d, ms[1..])
  }

  /** At the depth bound no member is expanded and nothing is cached. */
  lemma {:induction false} MembersAtMaxDepth(c: Config, g: Graph, ms: seq<Member>, st: Session)
    requires Closed(g) && MembersIn(g, ms) && st.depth == c.maxDepth
    ensures Members(c, g, ms, st) == (TruncatedLines(c, st.depth, ms), st)
    decreases |ms|
  {
    if |ms| > 0 {
      MembersAtMaxDepth(c, g, ms[1..], st);
    }
  }

  /** The members a listing shows, in `getmembers` order. */
  function ShownMembers(c: Config, ms: seq<Member>): (r: seq<Member>)
    ensures forall i :: 0 <= i < |r| ==> Shown(c, r[i])
    ensures forall i :: 0 <= i < |r| ==> r[i] in ms
  {
    if |ms| == 0 then []
    else if Shown(c, ms[0]) then [ms[0]] + ShownMembers(c, ms[1..])
    else ShownMembers(c, ms[1..])
  }

  /** Hidden (`__`) members contribute nothing: the listing is that of the
      shown members alone. */
  lemma {:induction false} HiddenMembersSkipped(c: Config, g: Graph, ms: seq<Member>, st: Session)
    requires Closed(g) && MembersIn(g, ms) && st.depth <= c.maxDepth
    ensures MembersIn(g, ShownMembers(c, ms))
    ensures Members(c, g, ms, st) == Members(c, g, ShownMembers(c, ms), st)
  {
    var sm := ShownMembers(c, ms);
    forall i | 0 <= i < |sm| ensures sm[i].ref in g {
      assert sm[i] in ms;
    }
    if |ms| > 0 {
      assert MembersIn(g, ms[1..]);
      HiddenMembersSkipped(c, g, ms[1..], st);
      if Shown(c, ms[0]) {
        assert sm[0] == ms[0] && sm[1..] == ShownMembers(c, ms[1..]);
        var st1 := Dump(c, g, ms[0].ref, st, true, ColumnWidth, true, true).1;
        HiddenMembersSkipped(c, g, ms[1..], st1);
      }
    }
  }

  lemma MembersInAppend(g: Graph, a: seq<Member>, b: seq<Member>)
    requires MembersIn(g, a) && MembersIn(g, b)
    ensures MembersIn(g, a + b)
    ensures |a| > 0 ==> (a + b)[0] == a[0] && (a + b)[1..] == a[1..] + b && MembersIn(g, a[1..])
  {
    forall i | 0 <= i < |a + b| ensures (a + b)[i].ref in g {
      if i >= |a| {
        assert (a + b)[i] == b[i - |a|];
      }
    }
    if |a| > 0 {
      assert (a + b)[1..] == a[1..] + b;
    }
  }

  /** The listing of `a + b` is the listing of `a` followed by that of `b`,
      which starts from the session `a` leaves: members are dumped in order,
      each seeing the cache and depth of the ones before. */
  lemma {:induction false} MembersAppend(c: Config, g: Graph, a: seq<Member>, b: seq<Member>, st: Session)
    requires Closed(g) && MembersIn(g, a) && MembersIn(g, b) && st.depth <= c.maxDepth
    ensures MembersIn(g, a + b)
    ensures var ra := Members(c, g, a, st);
            var rb := Members(c, g, b, ra.1);
            Members(c, g, a + b, st) == (ra.0 + rb.0, rb.1)
    decreases |a|
  {
    MembersInAppend(g, a, b);
    if |a| == 0 {
      assert a + b == b;
      assert "" + Members(c, g, b, st).0 == Members(c, g, b, st).0;
      return;
    }
    assert (a + b)[0] == a[0] && (a + b)[1..] == a[1..] + b;
    if Shown(c, a[0]) {
      var d := Dump(c, g, a[0].ref, st, true, ColumnWidth, true, true);
      MembersAppend(c, g, a[1..], b, d.1);
      var ra1 := Members(c, g, a[1..], d.1);
      var rb := Members(c, g, b, ra1.1);
      var h := MemberHead(c, st.depth, a[0]);
      assert Members(c, g, a + b, st) == (h + d.0 + (ra1.0 + rb.0), rb.1);
      assert Members(c, g, a, st) == (h + d.0 + ra1.0, ra1.1);
      StringAssoc(h + d.0, ra1.0, rb.0);
    } else {
      MembersAppend(c, g, a[1..], b, st);
    }
  }

  lemma StringAssoc(a: string, b: string, c: string)
    ensures a + (b + c) == (a + b) + c
  {
  }

  /** `dwrap` starts at depth -1, so the value itself is laid out at depth 0;
      a negative bound truncates at once. */
  lemma RenderAtDepthZero(c: Config, g: Graph, r: Ref)
    requires Closed(g) && r in g
    ensures c.maxDepth < 0 ==> Render(c, g, r) == MaxDepthText
    ensures c.maxDepth >= 0 ==>
      var b := Body(c, g, r, Session(0, {}), ColumnWidth, false, true).0;
      Render(c, g, r) == if b.Some? then b.value else ExceptionText
  {
  }

  /** The body of a hashable value seen for the first time whose only member
      is shown: its heading, the member's line, and the closing divider at the
      depth that member's dump leaves. */
  lemma OneMemberBody(c: Config, g: Graph, r: Ref, m: Member, st: Session, offset: int)
    requires Closed(g) && r in g && m.ref in g && st.depth <= c.maxDepth
    requires g[r].Obj? && g[r].hash.Ok? && g[r].hash.value !in st.cache
    requires TypeStr(g[r].ty).Some? && g[r].members == Ok([m]) && Shown(c, m)
    ensures var inner := Dump(c, g, m.ref, st.(cache := st.cache + {g[r].hash.value}), true, ColumnWidth, true, true);
            Body(c, g, r, st, offset, false, true) ==
              (Some(IndAt(c, st.depth) + TypeStr(g[r].ty).value + ":" + "\n" + IndAt(c, st.depth) + Divider + "\n"
                      + (MemberHead(c, st.depth, m) + inner.0)
                      + IndAt(c, inner.1.depth) + Divider + "\n"),
               inner.1)
  {
    var n := g[r];
    var st1 := st.(cache := st.cache + {n.hash.value});
    assert CacheCheck(n.hash, n.str, st.cache) == Proceed(st1.cache);
    var inner := Dump(c, g, m.ref, st1, true, ColumnWidth, true, true);
    assert [m][0] == m && [m][1..] == [];
    assert Members(c, g, [m][1..], inner.1) == ("", inner.1);
    assert Members(c, g, [m], st1) == (MemberHead(c, st.depth, m) + inner.0 + "", inner.1);
    assert MemberHead(c, st.depth, m) + inner.0 + "" == MemberHead(c, st.depth, m) + inner.0;
  }

  /** A hashable value listed among its own members is expanded once; the
      inner occurrence is the repeat line, so the cycle ends through the cache. */
  lemma SelfReferenceIsRepeat(c: Config, g: Graph, r: Ref, name: string, st: Session, offset: int)
    requires Closed(g) && r in g && st.depth + 1 < c.maxDepth
    requires g[r].Obj? && g[r].hash.Ok? && g[r].hash.value !in st.cache && g[r].str.Ok?
    requires TypeStr(g[r].ty).Some? && g[r].members == Ok([Member(name, r)])
    requires Shown(c, Member(name, r))
    ensures var d := st.depth + 1;
            Dump(c, g, r, st, true, offset, false, true) ==
              (IndAt(c, d) + TypeStr(g[r].ty).value + ":" + "\n" + IndAt(c, d) + Divider + "\n"
                 + (MemberHead(c, d, Member(name, r)) + Spacing(c, ColumnWidth) + PStr(g[r].str.value) + "\n")
                 + IndAt(c, d) + Divider + "\n",
               Session(st.depth, st.cache + {g[r].hash.value}))
  {
    var d := st.depth + 1;
    var entered := Session(d, st.cache);
    var st1 := Session(d, st.cache + {g[r].hash.value});
    OneMemberBody(c, g, r, Member(name, r), entered, offset);
    RepeatNotExpanded(c, g, r, st1, ColumnWidth, true, true);
    var line := Spacing(c, ColumnWidth) + PStr(g[r].str.value) + "\n";
    StringAssoc(MemberHead(c, d, Member(name, r)), Spacing(c, ColumnWidth) + PStr(g[r].str.value), "\n");
    StringAssoc(MemberHead(c, d, Member(name, r)), Spacing(c, ColumnWidth), PStr(g[r].str.value));
    assert st.(depth := d) == entered;
  }

  /** The depth left behind by a raising member: a value whose only member
      raises (here: its `hash` raises something other than TypeError) ends
      with its closing divider one level deeper than its opening one, and the
      depth it returns is one level too deep. */
  lemma DepthLeaksPastRaisingMember(c: Config, g: Graph, r: Ref, name: string, k: Ref, st: Session, offset: int)
    requires Closed(g) && r in g && k in g && st.depth + 1 < c.maxDepth
    requires g[r].Obj? && g[r].hash.Ok? && g[r].hash.value !in st.cache
    requires TypeStr(g[r].ty).Some? && g[r].members == Ok([Member(name, k)])
    requires Shown(c, Member(name, k))
    requires g[k].Obj? && g[k].hash.Raise? && g[k].hash.exc.kind != TypeError
    ensures var d := st.depth + 1;
            Dump(c, g, r, st, true, offset, false, true) ==
              (IndAt(c, d) + TypeStr(g[r].ty).value + ":" + "\n" + IndAt(c, d) + Divider + "\n"
                 + (MemberHead(c, d, Member(name, k)) + ExceptionText)
                 + IndAt(c, d + 1) + Divider + "\n",
               Session(d, st.cache + {g[r].hash.value}))
  {
    var d := st.depth + 1;
    var entered := Session(d, st.cache);
    var st1 := Session(d, st.cache + {g[r].hash.value});
    OneMemberBody(c, g, r, Member(name, k), entered, offset);
    var st2 := Session(d + 1, st1.cache);
    assert CacheCheck(g[k].hash, g[k].str, st1.cache) == Failed;
    assert Body(c, g, k, st2, ColumnWidth, true, true) == (None, st2);
    assert Dump(c, g, k, st1, true, ColumnWidth, true, true) == (ExceptionText, st2);
    assert st.(depth := d) == entered;
  }

  /** The mutable dumper. Its fields are those of the Python object; the ones
      only read by unreachable code (`deep`, `f_introspect`) are left out. */
  class ObjectDumper {
    var depth: int
    var tabSpace: int
    var subtab: int
    var columnWidth: int
    var maxDepth: int
    var cache: set<int>
    var allMembers: bool

    /** `ObjectDumper()`: the defaults of cdb.py:237-246. */
    constructor ()
      ensures depth == -1 && cache == {}
      ensures Cfg() == Config(20, 8, 4, ColumnWidth, false)
    {
      depth := -1;
      tabSpace := 8;
      subtab := 4;
      columnWidth := ColumnWidth;
      maxDepth := 20;
      cache := {};
      allMembers := false;
    }

    function Cfg(): Config
      reads this`maxDepth, this`tabSpace, this`subtab, this`columnWidth, this`allMembers
    {
      Config(maxDepth, tabSpace, subtab, columnWidth, allMembers)
    }

    function Sess(): Session
      reads this`depth, this`cache
    {
      Session(depth, cache)
    }

    /** `dump_obj(obj, offset, lead, newline)` called through `depth_rfunc(self, obj, inc)`. */
    method DumpObj(g: Graph, r: Ref, inc: bool, offset: int, lead: bool, newline: bool) returns (s: string)
      requires Closed(g) && r in g
      modifies this`depth, this`cache
      ensures (s, Sess()) == Dump(Cfg(), g, r, old(Sess()), inc, offset, lead, newline)
      decreases Budget(Cfg(), depth), if inc then 0 else 3, 0
    {
      ghost var c, st0 := Cfg(), Sess();
      ghost var want := Dump(c, g, r, st0, inc, offset, lead, newline);
      if inc {
        depth := depth + 1;
      }
      if depth > maxDepth {
        TruncatesPastMax(c, g, r, st0, inc, offset, lead, newline);
        depth := depth - 1;
        s := MaxDepthText;
        assert s == want.0 && Sess() == want.1;
      } else {
        EnteredDump(c, g, r, st0, inc, offset, lead, newline);
        ghost var entered := Sess();
        assert entered == st0.(depth := if inc then st0.depth + 1 else st0.depth);
        var rv := DumpBody(g, r, offset, lead, newline);
        ghost var b := Body(c, g, r, entered, offset, lead, newline);
        assert rv == b.0 && Sess() == b.1;
        if rv.None? {
          s := ExceptionText;
          assert s == want.0 && Sess() == want.1;
        } else {
          if inc {
            depth := depth - 1;
          }
          s := rv.value;
          assert Sess() == if inc then b.1.(depth := b.1.depth - 1) else b.1;
          assert s == want.0 && Sess() == want.1;
        }
      }
    }

    /** The body of `dump_obj`; None when it raises. */
    method DumpBody(g: Graph, r: Ref, offset: int, lead: bool, newline: bool) returns (out: Option<string>)
      requires Closed(g) && r in g && depth <= maxDepth
      modifies this`depth, this`cache
      ensures (out, Sess()) == Body(Cfg(), g, r, old(Sess()), offset, lead, newline)
      decreases Budget(Cfg(), depth), 2, 0
    {
      var ind := if lead then "" else IndAt(Cfg(), depth);
      var spc := if lead then Indent(columnWidth - offset) else ind;
      var nl := if newline then "\n" else "";
      match g[r]
      case Simple(ty, repr) =>
        return Some(ind + TypeStr(OfType(ty)).value + ":" + repr + nl);
      case Obj(ty, hash, str, members) =>
        var verdict := CheckCache(hash, str);
        match verdict {
          case Repeated(text) =>
            return Some(spc + text + "\n");
          case Failed =>
            return None;
          case Proceed(_) =>
        }
        var shown := TypeStr(ty);
        if shown.None? {
          return None;
        }
        var rv := ind + shown.value + ":";
        rv := rv + "\n" + IndAt(Cfg(), depth) + Divider + "\n";
        if members.Raise? {
          return None;
        }
        var text := DumpMembers(g, members.value);
        rv := rv + text + IndAt(Cfg(), depth) + Divider + "\n";
        return Some(rv);
    }

    /** The repeat check of `dump_obj` (cdb.py:307-314): adds a fresh hash to `cache`. */
    method CheckCache(hash: Outcome<int>, str: Outcome<string>) returns (v: CacheVerdict)
      modifies this`cache
      ensures v == CacheCheck(hash, str, old(cache))
      ensures cache == if v.Proceed? then v.cache else old(cache)
    {
      match hash {
        case Raise(e) =>
          v := if e.kind == TypeError then Proceed(cache) else Failed;
        case Ok(h) =>
          if h in cache {
            match str {
              case Ok(text) =>
                v := Repeated(PStr(text));
              case Raise(e) =>
                v := if e.kind == TypeError then Proceed(cache) else Failed;
            }
          } else {
            cache := cache + {h};
            v := Proceed(cache);
          }
      }
    }

    /** The member loop of `dump_obj` (cdb.py:409-413). */
    method DumpMembers(g: Graph, ms: seq<Member>) returns (rv: string)
      requires Closed(g) && MembersIn(g, ms) && depth <= maxDepth
      modifies this`depth, this`cache
      ensures (rv, Sess()) == Members(Cfg(), g, ms, old(Sess()))
      decreases Budget(Cfg(), depth), 1, 1
    {
      ghost var c := Cfg();
      ghost var all := Members(c, g, ms, Sess());
      rv := "";
      var todo := ms;
      while todo != []
        invariant MembersIn(g, todo)
        invariant Cfg() == c
        invariant old(depth) <= depth <= maxDepth
        invariant rv + Members(c, g, todo, Sess()).0 == all.0
        invariant Members(c, g, todo, Sess()).1 == all.1
        decreases |todo|
      {
        ghost var here := Sess();
        var line := DumpMember(g, todo[0]);
        ghost var rest := Members(c, g, todo[1..], Sess());
        MemberStep(c, g, todo, here, line, Sess());
        StringAssoc(rv, line, rest.0);
        rv := rv + line;
        todo := todo[1..];
      }
      assert rv + "" == rv;
    }

    /** One pass of the member loop: the member's line head and its dump, or
        nothing for a hidden member. */
    method DumpMember(g: Graph, m: Member) returns (text: string)
      requires Closed(g) && m.ref in g && depth <= maxDepth
      modifies this`depth, this`cache
      ensures Shown(Cfg(), m) ==>
        var d := Dump(Cfg(), g, m.ref, old(Sess()), true, ColumnWidth, true, true);
        text == MemberHead(Cfg(), old(depth), m) + d.0 && Sess() == d.1
      ensures !Shown(Cfg(), m) ==> text == "" && Sess() == old(Sess())
      decreases Budget(Cfg(), depth), 1, 0
    {
      text := "";
      if allMembers || !StartsWith(m.name, "__") {
        var subi := Indent(subtab);
        var line := IndAt(Cfg(), depth) + subi + m.name + Indent(columnWidth - |m.name|) + "=>";
        var child := DumpObj(g, m.ref, true, ColumnWidth, true, true);
        text := line + child;
      }
    }

    /** `dwrap(obj)`: empties the cache, resets the depth, dumps. The text is a
        function of the settings and the value only, whatever earlier dumps
        left in the fields. */
    method Dwrap(g: Graph, r: Ref) returns (s: string)
      requires Closed(g) && r in g
      modifies this`depth, this`cache
      ensures s == Render(Cfg(), g, r)
      ensures Sess() == Dump(Cfg(), g, r, Session(-1, {}), true, ColumnWidth, false, true).1
    {
      cache := {};
      depth := -1;
      s := DumpObj(g, r, true, ColumnWidth, false, true);
    }
  }
}
