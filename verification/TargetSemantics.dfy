/** The meaning of the emitted C code over the frame stack of runtime/rt.c, with
    setjmp and longjmp as in section 7.13 of ISO/IEC 9899:1999.  Jumps are forward:
    a goto finds its label later in an enclosing statement list. */
module TargetSemantics {
  import opened Basics
  import opened ExceptionAst
  import opened SourceSemantics
  import opened TryFrames
  import opened TryLowering

  /** `next` numbers the setjmp executions; `frames` holds those not yet left. */
  datatype Machine = Machine(d: Data, frames: seq<nat>, next: nat)

  /** Ways for an expression to end.  `Jump` is a longjmp on its way to a frame. */
  datatype CResult<+T> =
    | CVal(v: T, m: Machine)
    | Jump(frame: nat, m: Machine)
    | Unhandled(glob: map<string, int>, ch: int)
    | NestingLimit
    | CDiverge
    | Stuck

  datatype COutcome =
    | CDone(m: Machine)
    | CBroke(m: Machine)
    | CReturned(v: int, m: Machine)
    | CGoing(target: Label, m: Machine)
    | CLeft(r: CResult<int>)

  /** A value becomes an ordinary end, anything else leaves the statement. */
  function Carry<T>(r: CResult<T>): CResult<int>
    requires !r.CVal?
  {
    match r
    case Jump(f, m) => Jump(f, m)
    case Unhandled(g, c) => Unhandled(g, c)
    case NestingLimit => NestingLimit
    case CDiverge => CDiverge
    case Stuck => Stuck
  }

  /** The runtime throw. */
  function RaiseC(m: Machine, ch: int): CResult<int> {
    var d := Raise(m.d, ch);
    match UnwindTop(m.frames)
    case NoFrame => Unhandled(d.glob, d.exceptCh)
    case Resume(f, rest) => Jump(f, m.(d := d, frames := rest))
  }

  function LookupC(funcs: seq<CFunc>, name: string): Option<CFunc> {
    if funcs == [] then None
    else if funcs[0].name == name then Some(funcs[0])
    else LookupC(funcs[1..], name)
  }

  function FindLabel(code: seq<CStmt>, l: Label): (k: nat)
    ensures k <= |code|
    ensures k < |code| ==> code[k] == CLabel(l)
  {
    if code == [] then 0 else if code[0] == CLabel(l) then 0 else 1 + FindLabel(code[1..], l)
  }

  ghost function EvalC(p: CProgram, w: World, fuel: nat, e: Expr, m: Machine): CResult<int>
    decreases fuel, e, 1
  {
    match e
    case Num(n) => CVal(n, m)
    case Var(x) => CVal(ReadVar(m.d, x), m)
    case Load(f) => CVal(ReadField(m.d, f), m)
    case Bin(op, l, r) => (
      match EvalC(p, w, fuel, l, m)
      case CVal(a, m1) =>
        if op.LogAnd? && a == 0 then CVal(0, m1) else (
        match EvalC(p, w, fuel, r, m1)
        case CVal(b, m2) => CVal(Apply(op, a, b), m2)
        case other => other)
      case other => other)
    case Assign(x, r) => (
      match EvalC(p, w, fuel, r, m)
      case CVal(a, m1) => CVal(a, m1.(d := WriteVar(m1.d, x, a)))
      case other => other)
    case Store(f, r) => (
      match EvalC(p, w, fuel, r, m)
      case CVal(a, m1) => CVal(a, m1.(d := WriteField(m1.d, f, a)))
      case other => other)
    case Call(f, args) =>
      var vs := EvalArgsC(p, w, fuel, args, m);
      if !vs.CVal? then Carry(vs)
      else if f == "throw" then RaiseC(vs.m, ThrowArg(vs.v))
      else if fuel == 0 then CDiverge
      else InvokeC(p, w, fuel - 1, f, vs.v, vs.m)
    case CallPtr(c, args) => (
      match EvalC(p, w, fuel, c, m)
      case CVal(a, m1) =>
        var vs := EvalArgsC(p, w, fuel, args, m1);
        if !vs.CVal? then Carry(vs)
        else if fuel == 0 then CDiverge
        else if a in p.table then InvokeC(p, w, fuel - 1, p.table[a], vs.v, vs.m)
        else CVal(0, vs.m)
      case other => other)
  }

  ghost function EvalArgsC(p: CProgram, w: World, fuel: nat, es: seq<Expr>, m: Machine): CResult<seq<int>>
    decreases fuel, es, 0
  {
    if es == [] then CVal([], m) else
    match EvalC(p, w, fuel, es[0], m)
    case CVal(a, m1) => (
      match EvalArgsC(p, w, fuel, es[1..], m1)
      case CVal(vs, m2) => CVal([a] + vs, m2)
      case other => other)
    case Jump(f, m1) => Jump(f, m1)
    case Unhandled(g, c) => Unhandled(g, c)
    case NestingLimit => NestingLimit
    case CDiverge => CDiverge
    case Stuck => Stuck
  }

  function WithLocals(m: Machine, loc: map<string, int>): Machine {
    m.(d := m.d.(loc := loc))
  }

  ghost function InvokeC(p: CProgram, w: World, fuel: nat, f: string, vs: seq<int>, m: Machine): CResult<int>
    decreases fuel
  {
    if f == "throw" then RaiseC(m, ThrowArg(vs)) else
    match LookupC(p.funcs, f)
    case None => CVal(0, m)
    case Some(fn) =>
      if fn.code.None? then
        var r := w(f, vs, m.d);
        var after := m.(d := r.d.(loc := m.d.loc));
        if r.threw then RaiseC(after, r.v) else CVal(r.v, after)
      else
        match RunSeq(p, w, fuel, fn.code.value, WithLocals(m, Bind(fn.params, vs)))
        case CDone(m1) => CVal(0, WithLocals(m1, m.d.loc))
        case CBroke(_) => Stuck
        case CReturned(v, m1) => CVal(v, WithLocals(m1, m.d.loc))
        case CGoing(_, _) => Stuck
        case CLeft(Jump(t, m1)) => Jump(t, WithLocals(m1, m.d.loc))
        case CLeft(r) => r
  }

  ghost function Run(p: CProgram, w: World, fuel: nat, c: CStmt, m: Machine): COutcome
    decreases fuel, c, 1
  {
    match c
    case CExpr(e) => Settle(EvalC(p, w, fuel, e, m))
    case CBreak => CBroke(m)
    case CGoto(l) => CGoing(l, m)
    case CLabel(_) => CDone(m)
    case CBlock(cs) => RunSeq(p, w, fuel, cs, m)
    case CPop => if m.frames == [] then CLeft(Stuck) else CDone(m.(frames := m.frames[..|m.frames| - 1]))
    case CIf(e, a, b) =>
      var r := EvalC(p, w, fuel, e, m);
      if !r.CVal? then CLeft(r)
      else if r.v != 0 then RunSeq(p, w, fuel, a, r.m) else RunSeq(p, w, fuel, b, r.m)
    case CWhile(e, b) =>
      var r := EvalC(p, w, fuel, e, m);
      if !r.CVal? then CLeft(r)
      else if r.v == 0 then CDone(r.m) else (
      match RunSeq(p, w, fuel, b, r.m)
      case CDone(m1) => if fuel == 0 then CLeft(CDiverge) else Run(p, w, fuel - 1, c, m1)
      case CBroke(m1) => CDone(m1)
      case other => other)
    case CReturn(None) => CReturned(0, m)
    case CReturn(Some(e)) =>
      var r := EvalC(p, w, fuel, e, m);
      if r.CVal? then CReturned(r.v, r.m) else CLeft(r)
    case CRethrow(outer) =>
      if m.d.catchExcept != 0 then CDone(m)
      else if outer.Some? then CGoing(outer.value, m)
      else CLeft(RaiseC(m, m.d.exceptCh))
    case CSetjmp(b, h) =>
      if |m.frames| >= TRY_MAX then CLeft(NestingLimit) else (
      match RunSeq(p, w, fuel, b, Machine(m.d, m.frames + [m.next], m.next + 1))
      case CLeft(Jump(f, m1)) => if f == m.next then RunSeq(p, w, fuel, h, m1) else CLeft(Jump(f, m1))
      case other => other)
  }

  function Settle(r: CResult<int>): COutcome {
    if r.CVal? then CDone(r.m) else CLeft(r)
  }

  ghost function RunSeq(p: CProgram, w: World, fuel: nat, code: seq<CStmt>, m: Machine): COutcome
    decreases fuel, code, 0
  {
    if code == [] then CDone(m) else
    match Run(p, w, fuel, code[0], m)
    case CDone(m1) => RunSeq(p, w, fuel, code[1..], m1)
    case CGoing(l, m1) =>
      var rest := code[1..];
      var k := FindLabel(rest, l);
      if k < |rest| then RunSeq(p, w, fuel, rest[k..], m1) else CGoing(l, m1)
    case other => other
  }

  // ----- running concatenated code -----

  lemma {:induction false} FindLabelConcat(a: seq<CStmt>, b: seq<CStmt>, l: Label)
    ensures FindLabel(a + b, l) == if FindLabel(a, l) < |a| then FindLabel(a, l) else |a| + FindLabel(b, l)
  {
    if a == [] {
      assert a + b == b;
    } else {
      assert (a + b)[0] == a[0] && (a + b)[1..] == a[1..] + b;
      FindLabelConcat(a[1..], b, l);
    }
  }

  /** What running b adds to an outcome of the code before it. */
  ghost function Continue(p: CProgram, w: World, fuel: nat, r: COutcome, b: seq<CStmt>): COutcome {
    match r
    case CDone(m) => RunSeq(p, w, fuel, b, m)
    case CGoing(l, m) => var k := FindLabel(b, l); if k < |b| then RunSeq(p, w, fuel, b[k..], m) else r
    case other => other
  }

  lemma {:induction false} RunConcat(p: CProgram, w: World, fuel: nat, a: seq<CStmt>, b: seq<CStmt>, m: Machine)
    ensures RunSeq(p, w, fuel, a + b, m) == Continue(p, w, fuel, RunSeq(p, w, fuel, a, m), b)
    decreases |a|, 0
  {
    if a == [] {
      assert a + b == b;
    } else {
      assert (a + b)[0] == a[0] && (a + b)[1..] == a[1..] + b;
      ContinueConcat(p, w, fuel, Run(p, w, fuel, a[0], m), a[1..], b);
    }
  }

  lemma {:induction false} ContinueConcat(p: CProgram, w: World, fuel: nat, r: COutcome, a: seq<CStmt>, b: seq<CStmt>)
    ensures Continue(p, w, fuel, r, a + b) == Continue(p, w, fuel, Continue(p, w, fuel, r, a), b)
    decreases |a|, 1
  {
    match r
    case CDone(m) => RunConcat(p, w, fuel, a, b, m);
    case CGoing(l, m) =>
      FindLabelConcat(a, b, l);
      var k, j := FindLabel(a, l), FindLabel(b, l);
      if k < |a| {
        assert (a + b)[k..] == a[k..] + b;
        RunConcat(p, w, fuel, a[k..], b, m);
      } else {
        assert (a + b)[|a| + j..] == b[j..];
      }
    case _ =>
  }

  lemma RunOne(p: CProgram, w: World, fuel: nat, c: CStmt, m: Machine)
    ensures RunSeq(p, w, fuel, [c], m) == Run(p, w, fuel, c, m)
  {
    assert [c][1..] == [];
    var r := Run(p, w, fuel, c, m);
    if r.CDone? { assert RunSeq(p, w, fuel, [], r.m) == r; }
  }

  lemma {:induction false} RunPops(p: CProgram, w: World, fuel: nat, base: seq<nat>, mine: seq<nat>, m: Machine)
    requires m.frames == base + mine
    ensures RunSeq(p, w, fuel, Pops(|mine|), m) == CDone(m.(frames := base))
    decreases |mine|
  {
    if mine == [] {
      assert m.frames == base && Pops(0) == [];
    } else {
      var less := mine[..|mine| - 1];
      assert Pops(|mine|)[1..] == Pops(|less|);
      assert m.frames[..|m.frames| - 1] == base + less;
      RunPops(p, w, fuel, base, less, m.(frames := base + less));
    }
  }
}
