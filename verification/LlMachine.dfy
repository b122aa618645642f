/** What statements and lines of LLVM code do, and their agreement on expressions. */
module LlMachine {
  import opened Basics
  import opened LlCode
  import opened LlBlocks

  /** What operations do to a state; a throw leaves its value there, to be caught or not.  Pushing
      a frame gives 1, or 0 where the runtime comes back to it with an exception. */
  datatype Sem<!S> = Sem(op: (nat, seq<int>, S) -> (int, S), raise: (int, S) -> S, caught: S -> bool,
                         thrown: S -> int, push: S -> (int, S), pop: S -> S)

  // ----- expressions of the source -----

  /** The value of an expression, its operands from the left; && and || skip their right side. */
  function Val<S>(m: Sem<S>, e: Expr, st: S): (int, S)
    decreases e, 1
  {
    match e
    case Const(v) => (v, st)
    case Code(f, args) =>
      var (vs, st1) := Vals(m, args, st);
      m.op(f, vs, st1)
    case Logic(conj, l, r) =>
      var (a, st1) := Val(m, l, st);
      if (a != 0) != conj then (if a != 0 then 1 else 0, st1) else
      var (b, st2) := Val(m, r, st1);
      (if b != 0 then 1 else 0, st2)
  }

  function Vals<S>(m: Sem<S>, es: seq<Expr>, st: S): (seq<int>, S)
    decreases es, 0
  {
    if es == [] then ([], st) else
    var (v, st1) := Val(m, es[0], st);
    var (vs, st2) := Vals(m, es[1..], st1);
    ([v] + vs, st2)
  }

  // ----- the lines -----

  type Regs = map<nat, int>

  function Get(regs: Regs, n: nat): int {
    if n in regs then regs[n] else 0
  }

  function Read(regs: Regs, x: Opnd): int {
    match x
    case Imm(v) => v
    case Reg(n) => Get(regs, n)
  }

  function ReadAll(regs: Regs, xs: seq<Opnd>): seq<int> {
    if xs == [] then [] else [Read(regs, xs[0])] + ReadAll(regs, xs[1..])
  }

  datatype End = Value(v: int) | Thrown

  datatype Target<S> = At(pc: nat, regs: Regs, st: S) | Stopped(how: End, st: S) | Stuck

  /** The line of a label, or the number of lines. */
  function Find(code: seq<Line>, l: Label, i: nat): (n: nat)
    requires i <= |code|
    ensures i <= n <= |code| && (n < |code| ==> code[n] == Place(l))
    decreases |code| - i
  {
    if i == |code| || code[i] == Place(l) then i else Find(code, l, i + 1)
  }

  function Exec<S>(m: Sem<S>, i: Instr, pc: nat, regs: Regs, st: S): Target<S> {
    match i
    case Op(d, f, xs) => var (v, st1) := m.op(f, ReadAll(regs, xs), st); At(pc + 1, regs[d := v], st1)
    case Bool(d, x) => At(pc + 1, regs[d := if Read(regs, x) != 0 then 1 else 0], st)
    case Alloca(d) => At(pc + 1, regs[d := 0], st)
    case Store(x, d) => At(pc + 1, regs[d := Read(regs, x)], st)
    case Load(d, s) => At(pc + 1, regs[d := Get(regs, s)], st)
    case Raise(x) => At(pc + 1, regs, m.raise(Read(regs, x), st))
    case Uncaught(d) => At(pc + 1, regs[d := if m.caught(st) then 0 else 1], st)
    case Throw(x) => Stopped(Thrown, m.raise(Read(regs, x), st))
    case Rethrow => Stopped(Thrown, m.raise(m.thrown(st), st))
    case Asm(f) => At(pc + 1, regs, m.op(f, [], st).1)
    case Push(d) => var (v, st1) := m.push(st); At(pc + 1, regs[d := v], st1)
    case Pop => At(pc + 1, regs, m.pop(st))
  }

  /** A branch goes behind its label; a block without terminator, or a label without place, has
      no meaning. */
  function Goes<S>(code: seq<Line>, l: Label, regs: Regs, st: S): Target<S> {
    var n := Find(code, l, 0);
    if n < |code| then At(n + 1, regs, st) else Stuck
  }

  function Tick<S>(m: Sem<S>, code: seq<Line>, t: Target<S>): Target<S>
    requires t.At?
  {
    if t.pc >= |code| then Stuck else
    match code[t.pc]
    case Place(_) => Stuck
    case Ins(i) => Exec(m, i, t.pc, t.regs, t.st)
    case Br(l) => Goes(code, l, t.regs, t.st)
    case CondBr(x, l, f) => Goes(code, if Read(t.regs, x) != 0 then l else f, t.regs, t.st)
    case Ret(x) => Stopped(Value(if x.Some? then Read(t.regs, x.value) else 0), t.st)
  }

  function Ticks<S>(m: Sem<S>, code: seq<Line>, n: nat, t: Target<S>): Target<S> {
    if n == 0 || !t.At? then t else Ticks(m, code, n - 1, Tick(m, code, t))
  }

  lemma {:induction false} TicksAdd<S>(m: Sem<S>, code: seq<Line>, a: nat, b: nat, t: Target<S>)
    ensures Ticks(m, code, a + b, t) == Ticks(m, code, b, Ticks(m, code, a, t))
    decreases a
  {
    if a > 0 && t.At? { TicksAdd(m, code, a - 1, b, Tick(m, code, t)); }
  }

  lemma {:induction false} OneTick<S>(m: Sem<S>, code: seq<Line>, t: Target<S>)
    requires t.At?
    ensures Ticks(m, code, 1, t) == Tick(m, code, t)
  {
    assert Ticks(m, code, 0, Tick(m, code, t)) == Tick(m, code, t);
  }

  // ----- what was emitted is in the code -----

  function Len(out: Lines): nat {
    if out.Nil? then 0 else Len(out.init) + 1
  }

  predicate Holds(code: seq<Line>, pc: nat, x: Line) {
    pc < |code| && code[pc] == x
  }

  /** The code begins with these lines. */
  predicate Part(out: Lines, code: seq<Line>) {
    out.Nil? || (Part(out.init, code) && Holds(code, Len(out.init), out.x))
  }

  lemma {:induction false} PartBack(a: Lines, b: Lines, code: seq<Line>)
    requires Extends(a, b) && Part(b, code)
    ensures Part(a, code)
  {
    if a != b { PartBack(a, b.init, code); }
  }

  /** No label is placed twice. */
  predicate Once(code: seq<Line>) {
    forall i, j | 0 <= i < j < |code| && code[i].Place? && code[j].Place? :: code[i].l != code[j].l
  }

  lemma {:induction false} FindIs(code: seq<Line>, l: Label, i: nat, n: nat)
    requires Once(code) && i <= n && Holds(code, n, Place(l))
    ensures Find(code, l, i) == n
    decreases n - i
  {
    if i < n { FindIs(code, l, i + 1, n); }
  }

  /** The label l leads to line n. */
  predicate Leads(code: seq<Line>, l: Label, n: nat) {
    Find(code, l, 0) < |code| && Find(code, l, 0) + 1 == n
  }

  lemma {:induction false} PlaceLeads(code: seq<Line>, out: Lines, l: Label)
    requires Once(code) && Part(Snoc(out, Place(l)), code)
    ensures Leads(code, l, Len(out) + 1)
  {
    FindIs(code, l, 0, Len(out));
  }

  // ----- runs of code -----

  /** t instructions from one line to another. */
  ghost predicate Runs<S>(m: Sem<S>, code: seq<Line>, pc: nat, regs: Regs, st: S, t: nat, pc1: nat, regs1: Regs,
                          st1: S) {
    Ticks(m, code, t, At(pc, regs, st)) == At(pc1, regs1, st1)
  }

  lemma {:induction false} RunsThen<S>(m: Sem<S>, code: seq<Line>, pc: nat, regs: Regs, st: S, t: nat, pc1: nat,
                                       regs1: Regs, st1: S, t2: nat, pc2: nat, regs2: Regs, st2: S)
    requires Runs(m, code, pc, regs, st, t, pc1, regs1, st1) && Runs(m, code, pc1, regs1, st1, t2, pc2, regs2, st2)
    ensures Runs(m, code, pc, regs, st, t + t2, pc2, regs2, st2)
  {
    TicksAdd(m, code, t, t2, At(pc, regs, st));
  }

  /** Registers up to n are the same. */
  ghost predicate Same(a: Regs, b: Regs, n: nat) {
    forall k: nat {:trigger Get(b, k)} | k <= n :: Get(a, k) == Get(b, k)
  }

  lemma {:induction false} SameSet(a: Regs, b: Regs, n: nat, d: nat, v: int)
    requires Same(a, b, n) && d > n
    ensures Same(a, b[d := v], n) && Get(b[d := v], d) == v
  {
    forall k: nat | k <= n ensures Get(a, k) == Get(b[d := v], k) { assert Get(a, k) == Get(b, k); }
  }

  /** An instruction of a register, behind a run. */
  lemma {:induction false} RunsSet<S>(m: Sem<S>, code: seq<Line>, pc: nat, regs: Regs, st: S, t: nat, pc1: nat,
                                      regs1: Regs, st1: S, i: Instr, regs2: Regs, st2: S)
    requires Runs(m, code, pc, regs, st, t, pc1, regs1, st1) && Holds(code, pc1, Ins(i))
    requires Exec(m, i, pc1, regs1, st1) == At(pc1 + 1, regs2, st2)
    ensures Runs(m, code, pc, regs, st, t + 1, pc1 + 1, regs2, st2)
  {
    OneTick(m, code, At(pc1, regs1, st1));
    RunsThen(m, code, pc, regs, st, t, pc1, regs1, st1, 1, pc1 + 1, regs2, st2);
  }

  lemma {:induction false} RunsBr<S>(m: Sem<S>, code: seq<Line>, pc: nat, regs: Regs, st: S, t: nat, pc1: nat,
                                     regs1: Regs, st1: S, l: Label, pc2: nat)
    requires Runs(m, code, pc, regs, st, t, pc1, regs1, st1) && Holds(code, pc1, Br(l)) && Leads(code, l, pc2)
    ensures Runs(m, code, pc, regs, st, t + 1, pc2, regs1, st1)
  {
    OneTick(m, code, At(pc1, regs1, st1));
    RunsThen(m, code, pc, regs, st, t, pc1, regs1, st1, 1, pc2, regs1, st1);
  }

  lemma {:induction false} RunsCond<S>(m: Sem<S>, code: seq<Line>, pc: nat, regs: Regs, st: S, t: nat, pc1: nat,
                                       regs1: Regs, st1: S, x: Opnd, l: Label, f: Label, pc2: nat)
    requires Runs(m, code, pc, regs, st, t, pc1, regs1, st1) && Holds(code, pc1, CondBr(x, l, f))
    requires Leads(code, if Read(regs1, x) != 0 then l else f, pc2)
    ensures Runs(m, code, pc, regs, st, t + 1, pc2, regs1, st1)
  {
    OneTick(m, code, At(pc1, regs1, st1));
    RunsThen(m, code, pc, regs, st, t, pc1, regs1, st1, 1, pc2, regs1, st1);
  }

  // ----- running the code of expressions -----

  /** The run of the code from g on ends behind `a` with the value v in its operand; older
      registers stay. */
  ghost predicate Yields<S>(m: Sem<S>, code: seq<Line>, g: Gen, regs: Regs, st: S, a: (Gen, Opnd), t: nat,
                            regs1: Regs, v: int, st1: S) {
    && Runs(m, code, Len(g.out), regs, st, t, Len(a.0.out), regs1, st1)
    && Read(regs1, a.1) == v && Same(regs, regs1, g.ntmp)
  }

  lemma {:induction false} ReadSame(a: Regs, b: Regs, n: nat, x: Opnd)
    requires Same(a, b, n) && (x.Reg? ==> x.n <= n)
    ensures Read(a, x) == Read(b, x)
  {
  }

  lemma {:induction false} SameTrans(a: Regs, b: Regs, c: Regs, n: nat, k: nat)
    requires Same(a, b, n) && Same(b, c, k) && n <= k
    ensures Same(a, c, n)
  {
    forall i: nat | i <= n ensures Get(a, i) == Get(c, i) { assert Get(a, i) == Get(b, i); }
  }

  lemma {:induction false} ReadAllSame(a: Regs, b: Regs, n: nat, xs: seq<Opnd>)
    requires Same(a, b, n) && forall i | 0 <= i < |xs| :: xs[i].Reg? ==> xs[i].n <= n
    ensures ReadAll(a, xs) == ReadAll(b, xs)
  {
    if xs != [] {
      ReadSame(a, b, n, xs[0]);
      ReadAllSame(a, b, n, xs[1..]);
    }
  }
}
