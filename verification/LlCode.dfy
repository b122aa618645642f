/** src/back_ll.c: statements become lines of LLVM code, labels, instructions and branches. */
module LlCode {
  import opened Basics

  /** Labels the emitter makes are numbered; the entry block is number 0. */
  datatype Label = Temp(n: nat) | Named(s: string)

  datatype Opnd = Imm(v: int) | Reg(n: nat)

  /** An operation of the source on its operands; the test of a value, 1 or 0; a slot in memory;
      the record of a throw, and its test behind a handler; calls of the runtime. */
  datatype Instr =
    | Op(d: nat, f: nat, xs: seq<Opnd>)
    | Bool(d: nat, x: Opnd)
    | Alloca(d: nat) | Store(x: Opnd, d: nat) | Load(d: nat, s: nat)
    | Raise(x: Opnd) | Uncaught(d: nat)
    | Throw(x: Opnd) | Rethrow | Push(d: nat) | Pop
    | Asm(f: nat)

  datatype Line = Place(l: Label) | Ins(i: Instr) | Br(l: Label) | CondBr(x: Opnd, t: Label, f: Label)
    | Ret(res: Option<Opnd>)
  {
    predicate Ends() { Br? || CondBr? || Ret? }

    predicate Targets(l: Label) {
      match this
      case Br(t) => t == l
      case CondBr(_, t, f) => t == l || f == l
      case _ => false
    }
  }

  // ----- the source -----

  /** Numbers name operations; Logic is && or ||. */
  datatype Expr = Const(v: int) | Code(f: nat, args: seq<Expr>) | Logic(conj: bool, l: Expr, r: Expr)

  datatype Stmt =
    | Nop | Do(e: Expr) | Throws(e: Expr) | InlineAsm(f: nat) | Seq(ss: seq<Stmt>)
    | If(c: Expr, t: Stmt) | IfElse(c: Expr, t: Stmt, els: Stmt)
    | While(c: Expr, b: Stmt) | DoWhile(b: Stmt, c: Expr)
    | For(init: Stmt, test: Option<Expr>, inc: Stmt, b: Stmt)
    | Return(res: Option<Expr>) | Goto(l: string) | Mark(l: string)
    | TryNone(b: Stmt) | TryLocal(b: Stmt, h: Stmt) | TryDynamic(b: Stmt, h: Stmt)

  // ----- the emitter's state -----

  /** Lines, the last one at hand. */
  datatype Lines = Nil | Snoc(init: Lines, x: Line)

  datatype Gen = Gen(out: Lines, open: bool, nlab: nat, ntmp: nat) {
    function Write(x: Line): Gen {
      this.(out := Snoc(out, x), open := !x.Ends())
    }

    /** A fresh block for code that cannot be reached. */
    function Ensure(): (g: Gen)
      ensures g.open && g.ntmp == ntmp && nlab <= g.nlab <= nlab + 1 && (open ==> g == this)
    {
      if open then this else this.(nlab := nlab + 1).Write(Place(Temp(nlab + 1)))
    }

    function Put(i: Instr): (g: Gen)
      ensures g.open && g.ntmp == ntmp
    {
      Ensure().Write(Ins(i))
    }

    function BrTo(l: Label): (g: Gen)
      ensures !g.open && g.ntmp == ntmp
    {
      Ensure().Write(Br(l))
    }

    /** An open block falls through into the label. */
    function Lab(l: Label): (g: Gen)
      ensures g.open && g.nlab == nlab && g.ntmp == ntmp
    {
      (if open then Write(Br(l)) else this).Write(Place(l))
    }

    /** n labels are made. */
    function Labels(n: nat): Gen { this.(nlab := nlab + n) }

    function Temps(n: nat): Gen { this.(ntmp := ntmp + n) }
  }

  datatype Handler = Handler(dynamic: bool, target: Label)

  /** The handlers around the current statement, how many frames are pushed, and whether the
      function returns a value. */
  datatype Env = Env(hs: seq<Handler>, depth: nat, retVoid: bool) {
    function Under(h: Handler): Env {
      this.(hs := hs + [h], depth := if h.dynamic then depth + 1 else depth)
    }

    /** The handler in force, if it is reached by a branch. */
    function Local(): Option<Label> {
      if hs != [] && !hs[|hs| - 1].dynamic then Some(hs[|hs| - 1].target) else None
    }
  }

  const HANDLER_MAX := 256

  // ----- expressions -----

  /** The code for e, and the operand that holds its value. */
  function EmitVal(g: Gen, e: Expr): (r: (Gen, Opnd))
    ensures (g.open ==> r.0.open) && g.ntmp <= r.0.ntmp && (r.1.Reg? ==> r.1.n <= r.0.ntmp)
    decreases e, 1
  {
    match e
    case Const(v) => (g, Imm(v))
    case Code(f, args) => Operate(EmitArgs(g, args), f)
    case Logic(conj, l, r) =>
      var g1 := Slot(g);
      EndLogic(EmitVal(Split(EmitVal(g1.Labels(3), l), conj, g1.nlab + 1), r), conj, g1.ntmp, g1.nlab + 1)
  }

  function EmitArgs(g: Gen, es: seq<Expr>): (r: (Gen, seq<Opnd>))
    ensures (g.open ==> r.0.open) && g.ntmp <= r.0.ntmp
    decreases es, 0
  {
    if es == [] then (g, []) else AddArg(EmitVal(g, es[0]), EmitArgs(EmitVal(g, es[0]).0, es[1..]))
  }

  function AddArg(a: (Gen, Opnd), r: (Gen, seq<Opnd>)): (Gen, seq<Opnd>) {
    (r.0, [a.1] + r.1)
  }

  function Operate(a: (Gen, seq<Opnd>), f: nat): (Gen, Opnd) {
    (a.0.Put(Op(a.0.ntmp + 1, f, a.1)).Temps(1), Reg(a.0.ntmp + 1))
  }

  function Slot(g: Gen): Gen {
    g.Put(Alloca(g.ntmp + 1)).Temps(1)
  }

  /** emit_cond_br, behind the value. */
  function Branch(a: (Gen, Opnd), t: Label, f: Label): Gen {
    a.0.Put(Bool(a.0.ntmp + 1, a.1)).Temps(1).Write(CondBr(Reg(a.0.ntmp + 1), t, f))
  }

  /** Behind the left side of && or ||, which has the labels n to n + 2: for the right side, for
      skipping it, and for the end. */
  function Split(a: (Gen, Opnd), conj: bool, n: nat): Gen {
    Branch(a, Temp(if conj then n else n + 1), Temp(if conj then n + 1 else n)).Lab(Temp(n))
  }

  /** The truth of the right side, stored. */
  function StoreTruth(a: (Gen, Opnd), slot: nat): Gen {
    a.0.Put(Bool(a.0.ntmp + 1, a.1)).Temps(1).Put(Store(Reg(a.0.ntmp + 1), slot))
  }

  /** The other value, for a right side that is skipped. */
  function StoreOther(g: Gen, conj: bool, slot: nat, n: nat): Gen {
    g.Lab(Temp(n + 1)).Put(Store(Imm(if conj then 0 else 1), slot)).BrTo(Temp(n + 2))
  }

  function Result(g: Gen, slot: nat, n: nat): (Gen, Opnd) {
    (g.Lab(Temp(n + 2)).Put(Load(g.ntmp + 1, slot)).Temps(1), Reg(g.ntmp + 1))
  }

  /** Behind the right side. */
  function EndLogic(a: (Gen, Opnd), conj: bool, slot: nat, n: nat): (Gen, Opnd) {
    Result(StoreOther(StoreTruth(a, slot).BrTo(Temp(n + 2)), conj, slot, n), slot, n)
  }

  function EmitCond(g: Gen, c: Expr, t: Label, f: Label): Gen {
    Branch(EmitVal(g, c), t, f)
  }

  // ----- statements -----

  function Emit(g: Gen, s: Stmt, env: Env): Gen
    decreases s, 1
  {
    var n := g.nlab + 1;
    match s
    case Nop => g
    case Do(e) => EmitVal(g, e).0
    case Throws(e) => EmitThrow(g, e, env)
    case InlineAsm(f) => g.Put(Asm(f))
    case Seq(ss) => EmitList(g, ss, env)
    case If(c, t) => EndIf(Emit(Test(g, c, n, n + 2), t, env), n)
    case IfElse(c, t, e) => EndIf(Emit(Else(Emit(Test(g, c, n, n + 1), t, env), n), e, env), n)
    case While(c, b) => EndLoop(Emit(Head(g.Labels(3), Some(c), n), b, env), n)
    case DoWhile(b, c) => EndDo(Emit(g.Labels(3).BrTo(Temp(n)).Lab(Temp(n)), b, env), c, n)
    case For(init, c, inc, b) =>
      EndLoop(Emit(Emit(Head(Emit(g.Labels(3), init, env), c, n), b, env), inc, env), n)
    case Return(e) => EmitReturn(g, e, env)
    case Goto(l) => g.BrTo(Named(l))
    case Mark(l) => g.Lab(Named(l))
    case TryNone(b) => Emit(g, b, env)
    case TryLocal(b, h) =>
      var g1 := Emit(g.Labels(2), b, env.Under(Handler(false, Temp(n))));
      EndCatch(Emit(Catch(g1, n, n + 1), h, env), n + 1, env)
    case TryDynamic(b, h) =>
      var m := Setjmp(g).nlab - 2;
      var g1 := Emit(Setjmp(g), b, env.Under(Handler(true, Temp(m + 1)))).Put(Pop);
      EndCatch(Emit(Catch(g1, m + 1, m + 2), h, env), m + 2, env)
  }

  function EmitList(g: Gen, ss: seq<Stmt>, env: Env): Gen
    decreases ss, 0
  {
    if ss == [] then g else EmitList(Emit(g, ss[0], env), ss[1..], env)
  }

  /** A throw to a handler of this function stores its value and branches. */
  function EmitThrow(g: Gen, e: Expr, env: Env): Gen {
    EndThrow(EmitVal(g, e), env.Local())
  }

  function EndThrow(a: (Gen, Opnd), l: Option<Label>): Gen {
    if l.Some? then a.0.Put(Raise(a.1)).BrTo(l.value) else a.0.Put(Throw(a.1))
  }

  /** The frames are popped before the operand. */
  function EmitReturn(g: Gen, e: Option<Expr>, env: Env): Gen {
    var g1 := EmitPops(g.Ensure(), env.depth);
    if env.retVoid then g1.Write(Ret(None))
    else if e.None? then g1.Write(Ret(Some(Imm(0))))
    else EndReturn(EmitVal(g1, e.value))
  }

  function EndReturn(a: (Gen, Opnd)): Gen {
    a.0.Ensure().Write(Ret(Some(a.1)))
  }

  function EmitPops(g: Gen, n: nat): (r: Gen)
    ensures g.open ==> r.open
  {
    if n == 0 then g else EmitPops(g, n - 1).Put(Pop)
  }

  /** The test of an `if` with its three labels, n for the branch taken and f for the other. */
  function Test(g: Gen, c: Expr, n: nat, f: nat): Gen {
    EmitCond(g.Labels(3).Ensure(), c, Temp(n), Temp(f)).Lab(Temp(n))
  }

  /** The end of the one branch, and the other one at label n + 1. */
  function Else(g: Gen, n: nat): Gen {
    g.BrTo(Temp(n + 2)).Lab(Temp(n + 1))
  }

  function EndIf(g: Gen, n: nat): Gen {
    g.BrTo(Temp(n + 2)).Lab(Temp(n + 2))
  }

  /** The jump to the head n of a loop, its test, and the label n + 1 of its body. */
  function Head(g: Gen, c: Option<Expr>, n: nat): Gen {
    HeadTest(g.BrTo(Temp(n)).Lab(Temp(n)), c, n).Lab(Temp(n + 1))
  }

  function HeadTest(g: Gen, c: Option<Expr>, n: nat): Gen {
    if c.Some? then EmitCond(g, c.value, Temp(n + 1), Temp(n + 2)) else g.BrTo(Temp(n + 1))
  }

  /** Back to the head, and the label n + 2 of the end. */
  function EndLoop(g: Gen, n: nat): Gen {
    g.BrTo(Temp(n)).Lab(Temp(n + 2))
  }

  /** The test n + 1 of a `do` back to its body n, and the end. */
  function EndDo(g: Gen, c: Expr, n: nat): Gen {
    EmitCond(g.BrTo(Temp(n + 1)).Lab(Temp(n + 1)), c, Temp(n), Temp(n + 2)).Lab(Temp(n + 2))
  }

  /** The end of the body of a try, and the handler. */
  function Catch(g: Gen, cl: nat, el: nat): Gen {
    g.BrTo(Temp(el)).Lab(Temp(cl))
  }

  /** Behind the handler: to the outer handler of the function, or to a throw of the runtime, if
      it is thrown further, else on. */
  function EndCatch(g: Gen, el: nat, env: Env): Gen {
    var g1 := g.Put(Uncaught(g.ntmp + 1)).Temps(1);
    var l := env.Local();
    if l.Some? then g1.Write(CondBr(Reg(g1.ntmp), l.value, Temp(el))).Lab(Temp(el))
    else
      var n := g1.nlab + 1;
      g1.Labels(1).Write(CondBr(Reg(g1.ntmp), Temp(n), Temp(el)))
        .Lab(Temp(n)).Put(Rethrow).BrTo(Temp(el)).Lab(Temp(el))
  }

  /** A handler reached through the runtime: the push, and the test of setjmp with its three
      labels, for the body, the handler and the end. */
  function Setjmp(g: Gen): (r: Gen)
    ensures r.open && r.nlab >= 3
  {
    var g1 := g.Put(Push(g.ntmp + 1)).Temps(1);
    var n := g1.nlab + 1;
    g1.Labels(3).Write(CondBr(Reg(g1.ntmp), Temp(n), Temp(n + 1))).Lab(Temp(n))
  }

  const ENTRY := Gen(Snoc(Nil, Place(Temp(0))), true, 0, 0)

  /** A whole function; a body that is left open returns 0 or nothing. */
  function EmitBody(body: Stmt, retVoid: bool): Gen {
    var g := Emit(ENTRY, body, Env([], 0, retVoid));
    if g.open then g.Write(Ret(if retVoid then None else Some(Imm(0)))) else g
  }

  // ----- labels and handlers of the source -----

  /** The named labels a statement places. */
  function Defs(s: Stmt): multiset<string>
    decreases s, 1
  {
    match s
    case Seq(ss) => ListDefs(ss)
    case If(_, t) => Defs(t)
    case IfElse(_, t, e) => Defs(t) + Defs(e)
    case While(_, b) => Defs(b)
    case DoWhile(b, _) => Defs(b)
    case For(i, _, inc, b) => Defs(i) + Defs(b) + Defs(inc)
    case Mark(l) => multiset{l}
    case TryNone(b) => Defs(b)
    case TryLocal(b, h) => Defs(b) + Defs(h)
    case TryDynamic(b, h) => Defs(b) + Defs(h)
    case _ => multiset{}
  }

  function ListDefs(ss: seq<Stmt>): multiset<string>
    decreases ss, 0
  {
    if ss == [] then multiset{} else Defs(ss[0]) + ListDefs(ss[1..])
  }

  /** Whether l is a target outside of s: that of a goto, or the handler in force (`force`) for
      what is thrown, or thrown further behind the handler of a try. */
  predicate Uses(s: Stmt, force: Option<Label>, l: Label)
    decreases s, 1
  {
    match s
    case Throws(_) => force == Some(l)
    case Seq(ss) => ListUses(ss, force, l)
    case If(_, t) => Uses(t, force, l)
    case IfElse(_, t, e) => Uses(t, force, l) || Uses(e, force, l)
    case While(_, b) => Uses(b, force, l)
    case DoWhile(b, _) => Uses(b, force, l)
    case For(i, _, inc, b) => Uses(i, force, l) || Uses(b, force, l) || Uses(inc, force, l)
    case Goto(n) => l == Named(n)
    case TryNone(b) => Uses(b, force, l)
    case TryLocal(b, h) => Uses(b, None, l) || Uses(h, force, l) || force == Some(l)
    case TryDynamic(b, h) => Uses(b, None, l) || Uses(h, force, l) || force == Some(l)
    case _ => false
  }

  predicate ListUses(ss: seq<Stmt>, force: Option<Label>, l: Label)
    decreases ss, 0
  {
    ss != [] && (Uses(ss[0], force, l) || ListUses(ss[1..], force, l))
  }

  /** How many handlers are in force at once, at most. */
  function Nest(s: Stmt): nat
    decreases s, 1
  {
    match s
    case Seq(ss) => ListNest(ss)
    case If(_, t) => Nest(t)
    case IfElse(_, t, e) => Max(Nest(t), Nest(e))
    case While(_, b) => Nest(b)
    case DoWhile(b, _) => Nest(b)
    case For(i, _, inc, b) => Max(Nest(i), Max(Nest(b), Nest(inc)))
    case TryNone(b) => Nest(b)
    case TryLocal(b, h) => Max(1 + Nest(b), Nest(h))
    case TryDynamic(b, h) => Max(1 + Nest(b), Nest(h))
    case _ => 0
  }

  function ListNest(ss: seq<Stmt>): nat
    decreases ss, 0
  {
    if ss == [] then 0 else Max(Nest(ss[0]), ListNest(ss[1..]))
  }
}
