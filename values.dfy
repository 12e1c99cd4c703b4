/** Python values as the debugger sees them: exceptions, results of operations
    that may raise, and the object graph the dumper walks. Reflection (`type`,
    `hash`, `str`, `repr`, `inspect.getmembers`) is not modelled: its answers are
    stored in the graph's nodes. */
module Values {
  import opened PyText
  import opened CdbText

  /** How the handlers in cdb.py tell raised exceptions apart. */
  datatype ExcKind =
    | TypeError
    /** any other subclass of `Exception` */
    | OtherException
    /** a `BaseException` that is not an `Exception` (KeyboardInterrupt, SystemExit) */
    | BaseOnly

  /** A raised exception with what `str(e.args)` and `str(e.message)` give. */
  datatype PyExc = PyExc(kind: ExcKind, argsText: Outcome<string>, messageText: Outcome<string>)

  /** The result of a Python operation: a value, or the exception it raised. */
  datatype Outcome<T> = Ok(value: T) | Raise(exc: PyExc)

  /** A plain Python function, by its `__module__` and `__name__`. */
  datatype Callee = Callee(moduleName: string, name: string)

  /** A value passed to or returned from a traced callable: what `str()` gives
      for it, and the function it is when its type is `types.FunctionType`. */
  datatype PyValue = PyValue(text: Outcome<string>, asFunction: Option<Callee>)

  /** What a call of a Python callable does: return a value, or raise. */
  datatype CallOutcome = Returns(value: PyValue) | Raises(exc: PyExc)

  /** Node identities in the object graph. */
  type Ref = nat

  /** One `(name, value)` pair from `inspect.getmembers`. */
  datatype Member = Member(name: string, ref: Ref)

  /** A value reachable by the dumper. */
  datatype Node =
    /** a value whose type is in `SimplePrint`: `str(type(x))` and `repr(x)` */
    | Simple(typeRepr: string, repr: string)
    /** any other value: what `type_str`, `hash`, `str` and `inspect.getmembers`
        make of it (each of the last three may raise) */
    | Obj(ty: TypeDesc, hash: Outcome<int>, str: Outcome<string>, members: Outcome<seq<Member>>)

  /** A heap of values; members refer to other nodes, cycles allowed. */
  type Graph = map<Ref, Node>

  /** Every member of every node refers to a node of the graph. */
  ghost predicate Closed(g: Graph)
  {
    forall r :: r in g && g[r].Obj? && g[r].members.Ok? ==> MembersIn(g, g[r].members.value)
  }

  ghost predicate MembersIn(g: Graph, ms: seq<Member>)
  {
    forall i :: 0 <= i < |ms| ==> ms[i].ref in g
  }

  /** The hash values of the graph's hashable non-simple nodes. */
  ghost function GraphHashes(g: Graph): set<int>
  {
    set r | r in g && g[r].Obj? && g[r].hash.Ok? :: g[r].hash.value
  }

  /** A graph in which no dump of a node can raise: `type_str` and `getmembers`
      succeed, and `hash` and `str` raise at most TypeError (which the dumper
      catches). */
  ghost predicate WellBehaved(g: Graph)
  {
    forall r :: r in g && g[r].Obj? ==> NodeWellBehaved(g[r])
  }

  predicate NodeWellBehaved(n: Node)
  {
    n.Obj? ==>
      && TypeStr(n.ty).Some?
      && n.members.Ok?
      && (n.hash.Raise? ==> n.hash.exc.kind == TypeError)
      && (n.str.Raise? ==> n.str.exc.kind == TypeError)
  }
}
