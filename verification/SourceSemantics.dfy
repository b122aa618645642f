/** The meaning of programs with exceptions, with a handler at every `try` as the
    JavaScript backend emits it (src/back_js.c:568-586).  Runs are bounded by fuel,
    spent on calls and loop iterations; `Diverge` means the fuel ran out. */
module SourceSemantics {
  import opened Basics
  import opened ExceptionAst
  import opened Effects

  /** Global variables, the locals of the running function, and the task fields. */
  datatype Data = Data(glob: map<string, int>, loc: map<string, int>, exceptCh: int, catchExcept: int)

  datatype Result<+T> = Val(v: T, d: Data) | Exc(d: Data) | Diverge

  /** How a statement ends.  `Escaped` is an exception that no handler of the
      current function will see. */
  datatype Outcome =
    | Done(d: Data)
    | Broke(d: Data)
    | Returned(v: int, d: Data)
    | Thrown(d: Data)
    | Escaped(d: Data)
    | OutOfFuel

  /** When the operand of a `return` is evaluated: with the handlers of the function
      still installed, or, as the native backends emit it, after they were popped. */
  datatype Order = Direct | PopFirst

  datatype ExternResult = ExternResult(threw: bool, v: int, d: Data)

  /** What the functions without a body do. */
  type World = (string, seq<int>, Data) -> ExternResult

  /** Externs throw only when the list in src/effects.c says they may. */
  ghost predicate Honest(p: Program, w: World) {
    forall f, vs, d | f in p.funcs && f.body.None? && !ExternCanThrow(f) :: !w(f.name, vs, d).threw
  }

  function Raise(d: Data, ch: int): Data {
    d.(exceptCh := ch, catchExcept := 0)
  }

  function ReadVar(d: Data, x: string): int {
    if x in d.loc then d.loc[x] else if x in d.glob then d.glob[x] else 0
  }

  function WriteVar(d: Data, x: string, v: int): Data {
    if x in d.loc then d.(loc := d.loc[x := v]) else d.(glob := d.glob[x := v])
  }

  function ReadField(d: Data, f: Field): int {
    if f.ExceptCh? then d.exceptCh else d.catchExcept
  }

  function WriteField(d: Data, f: Field, v: int): Data {
    if f.ExceptCh? then d.(exceptCh := v) else d.(catchExcept := v)
  }

  function Apply(op: BinOp, a: int, b: int): int {
    match op
    case Add => a + b
    case Sub => a - b
    case Less => if a < b then 1 else 0
    case Equal => if a == b then 1 else 0
    case LogAnd => if a != 0 && b != 0 then 1 else 0
  }

  function Bind(params: seq<string>, vs: seq<int>): map<string, int> {
    map i | 0 <= i < |params| && (forall j | i < j < |params| :: params[j] != params[i])
      :: params[i] := if i < |vs| then vs[i] else 0
  }

  function ThrowArg(vs: seq<int>): int {
    if vs == [] then 0 else vs[0]
  }

  ghost function Eval(p: Program, w: World, o: Order, fuel: nat, e: Expr, d: Data): Result<int>
    decreases fuel, e, 1
  {
    match e
    case Num(n) => Val(n, d)
    case Var(x) => Val(ReadVar(d, x), d)
    case Load(f) => Val(ReadField(d, f), d)
    case Bin(op, l, r) => (
      match Eval(p, w, o, fuel, l, d)
      case Val(a, d1) =>
        if op.LogAnd? && a == 0 then Val(0, d1) else (
        match Eval(p, w, o, fuel, r, d1)
        case Val(b, d2) => Val(Apply(op, a, b), d2)
        case other => other)
      case other => other)
    case Assign(x, r) => (
      match Eval(p, w, o, fuel, r, d)
      case Val(a, d1) => Val(a, WriteVar(d1, x, a))
      case other => other)
    case Store(f, r) => (
      match Eval(p, w, o, fuel, r, d)
      case Val(a, d1) => Val(a, WriteField(d1, f, a))
      case other => other)
    case Call(f, args) => (
      match EvalArgs(p, w, o, fuel, args, d)
      case Val(vs, d1) =>
        if f == "throw" then Exc(Raise(d1, ThrowArg(vs)))
        else if fuel == 0 then Diverge
        else Invoke(p, w, o, fuel - 1, f, vs, d1)
      case Exc(d1) => Exc(d1)
      case Diverge => Diverge)
    case CallPtr(c, args) => (
      match Eval(p, w, o, fuel, c, d)
      case Val(a, d1) => (
        match EvalArgs(p, w, o, fuel, args, d1)
        case Val(vs, d2) =>
          if fuel == 0 then Diverge
          else if a in p.table then Invoke(p, w, o, fuel - 1, p.table[a], vs, d2)
          else Val(0, d2)
        case Exc(d2) => Exc(d2)
        case Diverge => Diverge)
      case other => other)
  }

  ghost function EvalArgs(p: Program, w: World, o: Order, fuel: nat, es: seq<Expr>, d: Data): Result<seq<int>>
    decreases fuel, es, 0
  {
    if es == [] then Val([], d) else
    match Eval(p, w, o, fuel, es[0], d)
    case Val(a, d1) => (
      match EvalArgs(p, w, o, fuel, es[1..], d1)
      case Val(vs, d2) => Val([a] + vs, d2)
      case other => other)
    case Exc(d1) => Exc(d1)
    case Diverge => Diverge
  }

  /** A call by name: the runtime throw, a function of the program or an extern. */
  ghost function Invoke(p: Program, w: World, o: Order, fuel: nat, f: string, vs: seq<int>, d: Data): Result<int>
    decreases fuel
  {
    if f == "throw" then Exc(Raise(d, ThrowArg(vs))) else
    match Lookup(p.funcs, f)
    case None => Val(0, d)
    case Some(fn) =>
      if fn.body.None? then
        var r := w(f, vs, d);
        var after := r.d.(loc := d.loc);
        if r.threw then Exc(Raise(after, r.v)) else Val(r.v, after)
      else
        match Exec(p, w, o, fuel, fn.body.value, d.(loc := Bind(fn.params, vs)))
        case Done(d1) => Val(0, d1.(loc := d.loc))
        case Broke(d1) => Val(0, d1.(loc := d.loc))
        case Returned(v, d1) => Val(v, d1.(loc := d.loc))
        case Thrown(d1) => Exc(d1.(loc := d.loc))
        case Escaped(d1) => Exc(d1.(loc := d.loc))
        case OutOfFuel => Diverge
  }

  /** The end of a catch block: rethrow unless the exception was marked caught. */
  function CatchEnd(h: Outcome): Outcome {
    if h.Done? && h.d.catchExcept == 0 then Thrown(h.d) else h
  }

  ghost function Exec(p: Program, w: World, o: Order, fuel: nat, s: Stmt, d: Data): Outcome
    decreases fuel, s, 1
  {
    match s
    case Nop => Done(d)
    case Break => Broke(d)
    case ExprStmt(e) => (
      match Eval(p, w, o, fuel, e, d)
      case Val(_, d1) => Done(d1)
      case Exc(d1) => Thrown(d1)
      case Diverge => OutOfFuel)
    case Block(ss) => ExecList(p, w, o, fuel, ss, d)
    case If(c, a, b) => (
      match Eval(p, w, o, fuel, c, d)
      case Val(v, d1) => if v != 0 then Exec(p, w, o, fuel, a, d1) else Exec(p, w, o, fuel, b, d1)
      case Exc(d1) => Thrown(d1)
      case Diverge => OutOfFuel)
    case While(c, b) => (
      match Eval(p, w, o, fuel, c, d)
      case Val(v, d1) =>
        if v == 0 then Done(d1) else (
        match Exec(p, w, o, fuel, b, d1)
        case Done(d2) => if fuel == 0 then OutOfFuel else Exec(p, w, o, fuel - 1, s, d2)
        case Broke(d2) => Done(d2)
        case other => other)
      case Exc(d1) => Thrown(d1)
      case Diverge => OutOfFuel)
    case Return(None) => Returned(0, d)
    case Return(Some(e)) => (
      match Eval(p, w, o, fuel, e, d)
      case Val(v, d1) => Returned(v, d1)
      case Exc(d1) => if o.Direct? then Thrown(d1) else Escaped(d1)
      case Diverge => OutOfFuel)
    case Try(b, h) => (
      match Exec(p, w, o, fuel, b, d)
      case Thrown(d1) => CatchEnd(Exec(p, w, o, fuel, h, d1))
      case other => other)
  }

  ghost function ExecList(p: Program, w: World, o: Order, fuel: nat, ss: seq<Stmt>, d: Data): Outcome
    decreases fuel, ss, 0
  {
    if ss == [] then Done(d) else
    match Exec(p, w, o, fuel, ss[0], d)
    case Done(d1) => ExecList(p, w, o, fuel, ss[1..], d1)
    case other => other
  }

  // ----- soundness of the throw analysis -----

  /** An expression raises an exception only if its call bit is set. */
  lemma {:induction false} ExprThrowsOnlyIfFlagged(p: Program, w: World, o: Order, can: set<string>, fuel: nat,
                                                   e: Expr, d: Data)
    requires Closed(p, can) && Honest(p, w)
    ensures Eval(p, w, o, fuel, e, d).Exc? ==> ExprEffect(e, can).call
    decreases fuel, e, 1
  {
    match e
    case Num(_) =>
    case Var(_) =>
    case Load(_) =>
    case Bin(op, l, r) =>
      ExprThrowsOnlyIfFlagged(p, w, o, can, fuel, l, d);
      var a := Eval(p, w, o, fuel, l, d);
      if a.Val? { ExprThrowsOnlyIfFlagged(p, w, o, can, fuel, r, a.d); }
    case Assign(_, r) => ExprThrowsOnlyIfFlagged(p, w, o, can, fuel, r, d);
    case Store(_, r) => ExprThrowsOnlyIfFlagged(p, w, o, can, fuel, r, d);
    case Call(f, args) =>
      ArgsThrowOnlyIfFlagged(p, w, o, can, fuel, args, d);
      var vs := EvalArgs(p, w, o, fuel, args, d);
      if vs.Val? && fuel > 0 { CallThrowsOnlyIfFlagged(p, w, o, can, fuel - 1, f, vs.v, vs.d); }
    case CallPtr(_, _) =>
  }

  lemma {:induction false} ArgsThrowOnlyIfFlagged(p: Program, w: World, o: Order, can: set<string>, fuel: nat,
                                                  es: seq<Expr>, d: Data)
    requires Closed(p, can) && Honest(p, w)
    ensures EvalArgs(p, w, o, fuel, es, d).Exc? ==> ArgsEffect(es, can).call
    decreases fuel, es, 0
  {
    if es != [] {
      ExprThrowsOnlyIfFlagged(p, w, o, can, fuel, es[0], d);
      var a := Eval(p, w, o, fuel, es[0], d);
      if a.Val? { ArgsThrowOnlyIfFlagged(p, w, o, can, fuel, es[1..], a.d); }
    }
  }

  /** No run of a function whose flag is clear lets an exception out, whatever the
      call graph, and in either order of return evaluation. */
  lemma {:induction false} CallThrowsOnlyIfFlagged(p: Program, w: World, o: Order, can: set<string>, fuel: nat,
                                                   f: string, vs: seq<int>, d: Data)
    requires Closed(p, can) && Honest(p, w)
    ensures Invoke(p, w, o, fuel, f, vs, d).Exc? ==> f == "throw" || f in can
    decreases fuel
  {
    if f != "throw" {
      var fn := Lookup(p.funcs, f);
      if fn.Some? {
        assert FlagNeeded(fn.value, can) ==> fn.value.name in can;
        if fn.value.body.Some? {
          StmtThrowsOnlyIfFlagged(p, w, o, can, fuel, fn.value.body.value, d.(loc := Bind(fn.value.params, vs)));
        } else if !ExternCanThrow(fn.value) {
          assert !w(fn.value.name, vs, d).threw;
        }
      }
    }
  }

  /** A statement throws, or lets an exception escape, only if its effect is not
      empty; in particular the body of a TRY_NONE never does. */
  lemma {:induction false} StmtThrowsOnlyIfFlagged(p: Program, w: World, o: Order, can: set<string>, fuel: nat,
                                                   s: Stmt, d: Data)
    requires Closed(p, can) && Honest(p, w)
    ensures Exec(p, w, o, fuel, s, d).Thrown? || Exec(p, w, o, fuel, s, d).Escaped? ==> StmtEffect(s, can).Any()
    decreases fuel, s, 1
  {
    match s
    case Nop =>
    case Break =>
    case ExprStmt(e) => ExprThrowsOnlyIfFlagged(p, w, o, can, fuel, e, d);
    case Block(ss) => ListThrowsOnlyIfFlagged(p, w, o, can, fuel, ss, d);
    case If(c, a, b) =>
      ExprThrowsOnlyIfFlagged(p, w, o, can, fuel, c, d);
      var v := Eval(p, w, o, fuel, c, d);
      if v.Val? { StmtThrowsOnlyIfFlagged(p, w, o, can, fuel, if v.v != 0 then a else b, v.d); }
    case While(c, b) =>
      ExprThrowsOnlyIfFlagged(p, w, o, can, fuel, c, d);
      var v := Eval(p, w, o, fuel, c, d);
      if v.Val? && v.v != 0 {
        StmtThrowsOnlyIfFlagged(p, w, o, can, fuel, b, v.d);
        var r := Exec(p, w, o, fuel, b, v.d);
        if r.Done? && fuel > 0 { StmtThrowsOnlyIfFlagged(p, w, o, can, fuel - 1, s, r.d); }
      }
    case Return(e) => if e.Some? { ExprThrowsOnlyIfFlagged(p, w, o, can, fuel, e.value, d); }
    case Try(b, h) =>
      StmtThrowsOnlyIfFlagged(p, w, o, can, fuel, b, d);
  }

  lemma {:induction false} ListThrowsOnlyIfFlagged(p: Program, w: World, o: Order, can: set<string>, fuel: nat,
                                                   ss: seq<Stmt>, d: Data)
    requires Closed(p, can) && Honest(p, w)
    ensures ExecList(p, w, o, fuel, ss, d).Thrown? || ExecList(p, w, o, fuel, ss, d).Escaped?
            ==> ListEffect(ss, can).Any()
    decreases fuel, ss, 0
  {
    if ss != [] {
      StmtThrowsOnlyIfFlagged(p, w, o, can, fuel, ss[0], d);
      var r := Exec(p, w, o, fuel, ss[0], d);
      if r.Done? { ListThrowsOnlyIfFlagged(p, w, o, can, fuel, ss[1..], r.d); }
    }
  }

  /** A break that is not in the statement does not come out of it. */
  lemma {:induction false} NoLooseBreakNoBroke(p: Program, w: World, o: Order, fuel: nat, s: Stmt, d: Data)
    requires !LooseBreak(s)
    ensures !Exec(p, w, o, fuel, s, d).Broke?
    decreases fuel, s, 1
  {
    match s
    case Nop =>
    case ExprStmt(_) =>
    case Block(ss) => NoLooseBreakList(p, w, o, fuel, ss, d);
    case If(c, a, b) =>
      var v := Eval(p, w, o, fuel, c, d);
      if v.Val? { NoLooseBreakNoBroke(p, w, o, fuel, if v.v != 0 then a else b, v.d); }
    case While(c, b) =>
      var v := Eval(p, w, o, fuel, c, d);
      if v.Val? && v.v != 0 {
        var r := Exec(p, w, o, fuel, b, v.d);
        if r.Done? && fuel > 0 { NoLooseBreakNoBroke(p, w, o, fuel - 1, s, r.d); }
      }
    case Return(_) =>
    case Try(b, h) =>
      NoLooseBreakNoBroke(p, w, o, fuel, b, d);
      var r := Exec(p, w, o, fuel, b, d);
      if r.Thrown? { NoLooseBreakNoBroke(p, w, o, fuel, h, r.d); }
  }

  lemma {:induction false} NoLooseBreakList(p: Program, w: World, o: Order, fuel: nat, ss: seq<Stmt>, d: Data)
    requires forall i | 0 <= i < |ss| :: !LooseBreak(ss[i])
    ensures !ExecList(p, w, o, fuel, ss, d).Broke?
    decreases fuel, ss, 0
  {
    if ss != [] {
      NoLooseBreakNoBroke(p, w, o, fuel, ss[0], d);
      var r := Exec(p, w, o, fuel, ss[0], d);
      if r.Done? { NoLooseBreakList(p, w, o, fuel, ss[1..], r.d); }
    }
  }
}
