/** The emitted lines end with a value and a state exactly when the source does. */
module LlRuns {
  import opened Basics
  import opened LlCode
  import opened LlBlocks
  import opened LlLabels
  import opened LlMachine
  import opened LlValues
  import opened LlKonts
  import opened LlPlaces

  // ----- gotos stay within the labels of the function -----

  predicate FineKont(k: Kont, names: set<string>) {
    match k
    case Halt => true
    case Then(s, k1) => Fine(s, names) && FineKont(k1, names)
    case Loop(_, inc, b, k1) => Fine(inc, names) && Fine(b, names) && FineKont(k1, names)
    case Guard(h, k1) => Fine(h, names) && FineKont(k1, names)
    case Popping(k1) => FineKont(k1, names)
    case Caught(k1) => FineKont(k1, names)
  }

  lemma {:induction false} PushFine(ss: seq<Stmt>, k: Kont, names: set<string>)
    requires FineAll(ss, names) && FineKont(k, names)
    ensures FineKont(PushAll(ss, k), names)
  {
    if ss != [] { PushFine(ss[1..], k, names); }
  }

  lemma {:induction false} UnwindFine(k: Kont, names: set<string>)
    requires FineKont(k, names)
    ensures Unwind(k).Some? ==> FineKont(Unwind(k).value, names)
    decreases k
  {
    if !k.Halt? && !k.Guard? && !k.Popping? { UnwindFine(k.k, names); }
  }

  lemma {:induction false} FoundFine(s: Stmt, l: string, k: Kont, names: set<string>)
    requires Fine(s, names) && FineKont(k, names)
    ensures FindLabel(s, l, k).Some? ==> FineKont(FindLabel(s, l, k).value, names)
    decreases s, 1
  {
    match s
    case Seq(ss) => FoundInListFine(ss, l, k, names);
    case If(_, t) => FoundFine(t, l, k, names);
    case IfElse(_, t, e) => FoundFine(t, l, k, names); FoundFine(e, l, k, names);
    case While(c, b) => FoundFine(b, l, Then(Nop, LoopOf(s, k)), names);
    case DoWhile(b, c) => FoundFine(b, l, Then(Nop, LoopOf(s, k)), names);
    case For(i, c, inc, b) =>
      FoundFine(i, l, LoopOf(s, k), names);
      FoundFine(b, l, Then(inc, LoopOf(s, k)), names);
      FoundFine(inc, l, LoopOf(s, k), names);
    case TryNone(b) => FoundFine(b, l, k, names);
    case TryLocal(b, h) => FoundFine(b, l, Guard(h, k), names); FoundFine(h, l, Caught(k), names);
    case TryDynamic(b, h) => FoundFine(b, l, Popping(k), names); FoundFine(h, l, Caught(k), names);
    case _ =>
  }

  lemma {:induction false} FoundInListFine(ss: seq<Stmt>, l: string, k: Kont, names: set<string>)
    requires FineAll(ss, names) && FineKont(k, names)
    ensures FindInList(ss, l, k).Some? ==> FineKont(FindInList(ss, l, k).value, names)
    decreases ss, 0
  {
    if ss != [] {
      PushFine(ss[1..], k, names);
      FoundFine(ss[0], l, PushAll(ss[1..], k), names);
      FoundInListFine(ss[1..], l, k, names);
    }
  }

  lemma {:induction false} StepFine<S>(m: Sem<S>, body: Stmt, void: bool, k: Kont, st: S, names: set<string>)
    requires Fine(body, names) && FineKont(k, names)
    ensures var r := Step(m, body, void, k, st); r.Going? ==> FineKont(r.k, names)
  {
    match k
    case Then(s, k1) => PerformFine(m, body, void, s, k1, st, names);
    case Caught(k1) => UnwindFine(k1, names);
    case _ =>
  }

  lemma {:induction false} PerformFine<S>(m: Sem<S>, body: Stmt, void: bool, s: Stmt, k: Kont, st: S,
                                          names: set<string>)
    requires Fine(body, names) && FineKont(k, names) && Fine(s, names)
    ensures var r := Perform(m, body, void, s, k, st); r.Going? ==> FineKont(r.k, names)
  {
    match s
    case Seq(ss) => PushFine(ss, k, names);
    case Throws(_) => UnwindFine(k, names);
    case Goto(l) => FoundFine(body, l, Halt, names);
    case _ =>
  }

  // ----- one step -----

  /** How much a continuation can do without an instruction. */
  function Weight(k: Kont): nat {
    match k
    case Then(s, k1) => Bulk(s) + Weight(k1)
    case Guard(_, k1) => 1 + Weight(k1)
    case _ => 0
  }

  function Bulk(s: Stmt): nat
    decreases s, 1
  {
    match s
    case Seq(ss) => 1 + ListBulk(ss)
    case For(i, _, _, _) => 1 + Bulk(i)
    case TryNone(b) => 1 + Bulk(b)
    case TryLocal(b, _) => 2 + Bulk(b)
    case _ => 1
  }

  function ListBulk(ss: seq<Stmt>): nat
    decreases ss, 0
  {
    if ss == [] then 0 else Bulk(ss[0]) + ListBulk(ss[1..])
  }

  lemma {:induction false} PushWeight(ss: seq<Stmt>, k: Kont)
    ensures Weight(PushAll(ss, k)) == ListBulk(ss) + Weight(k)
  {
    if ss != [] { PushWeight(ss[1..], k); }
  }

  /** A place in the code with its registers, some instructions later. */
  datatype Spot = Spot(t: nat, pc: nat, regs: Regs)

  /** The code, `to.t` instructions later, is where r goes on, or has ended as r did. */
  ghost predicate Follow<S>(m: Sem<S>, f: Func, pc: nat, regs: Regs, st: S, r: Source<S>, to: Spot, w: nat) {
    match r
    case Ended(how, st1) => to.t > 0 && Ticks(m, f.code, to.t, At(pc, regs, st)) == Stopped(how, st1)
    case Going(k1, st1) =>
      Runs(m, f.code, pc, regs, st, to.t, to.pc, to.regs, st1) && Somehow(f, k1, to.pc)
      && (to.t == 0 ==> Weight(k1) < w)
  }

  /** Every label of the body leads to what a goto to it should run. */
  ghost predicate Compiled(f: Func, body: Stmt, names: set<string>) {
    Once(f.code) && Fine(body, names) && forall l | l in names :: Lands(f, FindLabel(body, l, Halt), l)
  }

  /** The code stops behind a run. */
  lemma {:induction false} RunsStop<S>(m: Sem<S>, code: seq<Line>, pc: nat, regs: Regs, st: S, t: nat, pc1: nat,
                                       regs1: Regs, st1: S, how: End, st2: S)
    requires Runs(m, code, pc, regs, st, t, pc1, regs1, st1)
    requires Tick(m, code, At(pc1, regs1, st1)) == Stopped(how, st2)
    ensures Ticks(m, code, t + 1, At(pc, regs, st)) == Stopped(how, st2)
  {
    OneTick(m, code, At(pc1, regs1, st1));
    TicksAdd(m, code, t, 1, At(pc, regs, st));
  }

  /** A test, and where it goes. */
  lemma {:induction false} CondRuns<S>(m: Sem<S>, f: Func, g: Gen, c: Expr, l: Label, e: Label, regs: Regs, st: S,
                                       to: nat) returns (at: Spot)
    requires Once(f.code) && g.open && Part(EmitCond(g, c, l, e).out, f.code)
    requires Leads(f.code, if Val(m, c, st).0 != 0 then l else e, to)
    ensures at.t > 0 && at.pc == to && Runs(m, f.code, Len(g.out), regs, st, at.t, to, at.regs, Val(m, c, st).1)
  {
    var a := EmitVal(g, c);
    BranchPart(f.code, a, l, e);
    var t, regs0 := ValRuns(m, f.code, g, c, regs, st);
    var regs1 := BranchRuns(m, f.code, g, a, l, e, regs, st, t, regs0, Val(m, c, st).0, Val(m, c, st).1, to);
    at := Spot(t + 2, to, regs1);
  }

  lemma {:induction false} BranchPart(code: seq<Line>, a: (Gen, Opnd), l: Label, e: Label)
    requires a.0.open && Part(Branch(a, l, e).out, code)
    ensures Part(a.0.out, code)
  {
    assert Part(Snoc(a.0.out, Ins(Bool(a.0.ntmp + 1, a.1))), code);
  }

  /** A branch at hand. */
  lemma {:induction false} BrNow<S>(m: Sem<S>, f: Func, pc: nat, regs: Regs, st: S, l: Label, k: Kont)
      returns (at: Spot)
    requires Holds(f.code, pc, Br(l)) && ToLabel(f, k, l)
    ensures at.t == 1 && Follow(m, f, pc, regs, st, Going(k, st), at, 0)
  {
    at := Spot(1, Find(f.code, l, 0) + 1, regs);
    RunsBr(m, f.code, pc, regs, st, 0, pc, regs, st, l, at.pc);
  }

  /** The test of a loop or an if, with both ways. */
  lemma {:induction false} TestStep<S>(m: Sem<S>, f: Func, g: Gen, c: Expr, l: Label, e: Label, regs: Regs, st: S,
                                       k1: Kont, k2: Kont) returns (at: Spot)
    requires Once(f.code) && g.open && Part(EmitCond(g, c, l, e).out, f.code)
    requires ToLabel(f, k1, l) && ToLabel(f, k2, e)
    ensures Follow(m, f, Len(g.out), regs, st, Going(if Val(m, c, st).0 != 0 then k1 else k2, Val(m, c, st).1), at, 0)
  {
    var to := Find(f.code, if Val(m, c, st).0 != 0 then l else e, 0) + 1;
    at := CondRuns(m, f, g, c, l, e, regs, st, to);
  }

  lemma {:induction false} StepSim<S>(m: Sem<S>, body: Stmt, f: Func, k: Kont, pc: nat, regs: Regs, st: S,
                                      names: set<string>) returns (at: Spot)
    requires Compiled(f, body, names) && Match(f, k, pc, 0) && FineKont(k, names)
    ensures Follow(m, f, pc, regs, st, Step(m, body, f.void, k, st), at, Weight(k))
  {
    match k
    case Halt =>
      RunsStop(m, f.code, pc, regs, st, 0, pc, regs, st, Value(0), st);
      at := Spot(1, pc, regs);
    case Then(s, k1) =>
      var g: Gen, env: Env :| g.open && pc == Len(g.out) && Emitted(f, g, s, env, k1);
      at := StmtStep(m, body, f, g, s, env, k1, regs, st, names);
    case Loop(c, inc, b, k1) => at := HeadStep(m, body, f, k, pc, regs, st);
    case Guard(_, k1) => at := Spot(0, pc, regs);
    case Popping(k1) =>
      var l: Label :| Holds(f.code, pc, Ins(Pop)) && Holds(f.code, pc + 1, Br(l)) && ToLabel(f, k1, l);
      at := PopStep(m, f, pc, regs, st, l, k1);
    case Caught(k1) =>
      var g: Gen, env: Env, el: nat :| CaughtAt(f, g, env, el, pc) && ToLabel(f, k1, Temp(el)) && Handled(f, env, k1);
      at := CaughtStep(m, body, f, g, env, el, k1, regs, st);
  }

  lemma {:induction false} PopStep<S>(m: Sem<S>, f: Func, pc: nat, regs: Regs, st: S, l: Label, k: Kont)
      returns (at: Spot)
    requires Holds(f.code, pc, Ins(Pop)) && Holds(f.code, pc + 1, Br(l)) && ToLabel(f, k, l)
    ensures Follow(m, f, pc, regs, st, Going(k, m.pop(st)), at, 0)
  {
    at := Spot(2, Find(f.code, l, 0) + 1, regs);
    RunsSet(m, f.code, pc, regs, st, 0, pc, regs, st, Pop, regs, m.pop(st));
    RunsBr(m, f.code, pc, regs, st, 1, pc + 1, regs, m.pop(st), l, at.pc);
  }

  lemma {:induction false} HeadStep<S>(m: Sem<S>, body: Stmt, f: Func, k: Kont, pc: nat, regs: Regs, st: S)
      returns (at: Spot)
    requires Once(f.code) && k.Loop? && Match(f, k, pc, 0)
    ensures Follow(m, f, pc, regs, st, Step(m, body, f.void, k, st), at, 0)
  {
    var p: LoopPlace :| LoopAt(f, p, k.c, k.inc, k.b, pc) && ToLabel(f, k.k, Temp(p.el)) && Handled(f, p.env, k.k);
    var turn := Then(k.b, Then(k.inc, k));
    LoopNow(f, p, k.c, k.inc, k.b, k.k);
    ThenNow(f, p.gb, k.b, p.env, Then(k.inc, k));
    LeadsSomehow(f, Temp(p.bl), turn, Len(p.gb.out));
    if k.c.Some? {
      at := TestStep(m, f, p.g, k.c.value, Temp(p.bl), Temp(p.el), regs, st, turn, k.k);
    } else {
      at := BrNow(m, f, pc, regs, st, Temp(p.bl), turn);
    }
  }

  /** The end of a handler: on, to the outer handler, or out of the function. */
  lemma {:induction false} CaughtStep<S>(m: Sem<S>, body: Stmt, f: Func, g: Gen, env: Env, el: nat, k: Kont, regs: Regs,
                                         st: S) returns (at: Spot)
    requires Once(f.code) && CaughtAt(f, g, env, el, Len(g.out)) && ToLabel(f, k, Temp(el)) && Handled(f, env, k)
    ensures Follow(m, f, Len(g.out), regs, st, Step(m, body, f.void, Caught(k), st), at, 0)
  {
    LocalLeads(f, env, k);
    if env.Local().Some? {
      OuterParts(f.code, g, el, env.Local().value, env);
      at := OuterStep(m, f, Len(g.out), el, env.Local().value, k, regs, st, g.ntmp + 1);
    } else {
      RethrowParts(f.code, g, el, g.nlab + 1, env);
      at := RethrowStep(m, f, Len(g.out), el, g.nlab + 1, k, regs, st, g.ntmp + 1);
    }
  }

  lemma {:induction false} UncaughtRuns<S>(m: Sem<S>, code: seq<Line>, pc: nat, regs: Regs, st: S, d: nat)
      returns (regs1: Regs)
    requires Holds(code, pc, Ins(Uncaught(d)))
    ensures Runs(m, code, pc, regs, st, 1, pc + 1, regs1, st) && Read(regs1, Reg(d)) == if m.caught(st) then 0 else 1
  {
    regs1 := regs[d := if m.caught(st) then 0 else 1];
    RunsSet(m, code, pc, regs, st, 0, pc, regs, st, Uncaught(d), regs1, st);
  }

  lemma {:induction false} OuterStep<S>(m: Sem<S>, f: Func, pc: nat, el: nat, l: Label, k: Kont, regs: Regs, st: S,
                                        d: nat) returns (at: Spot)
    requires Holds(f.code, pc, Ins(Uncaught(d))) && Holds(f.code, pc + 1, CondBr(Reg(d), l, Temp(el)))
    requires ToLabel(f, k, Temp(el)) && Unwind(k).Some? && ToLabel(f, Unwind(k).value, l)
    ensures Follow(m, f, pc, regs, st, if m.caught(st) then Going(k, st) else Throwing(m, k, st), at, 0)
  {
    var regs1 := UncaughtRuns(m, f.code, pc, regs, st, d);
    var to := Find(f.code, if m.caught(st) then Temp(el) else l, 0) + 1;
    RunsCond(m, f.code, pc, regs, st, 1, pc + 1, regs1, st, Reg(d), l, Temp(el), to);
    at := Spot(2, to, regs1);
  }

  /** A handler reached by a branch is where a throw goes on; without one it leaves. */
  lemma {:induction false} LocalLeads(f: Func, env: Env, k: Kont)
    requires Handled(f, env, k)
    ensures var l, r := env.Local(), Unwind(k);
            if l.Some? then r.Some? && ToLabel(f, r.value, l.value) else r == None
  {
  }

  lemma {:induction false} OuterParts(code: seq<Line>, g: Gen, el: nat, l: Label, env: Env)
    requires g.open && env.Local() == Some(l) && Part(EndCatch(g, el, env).out, code)
    ensures Holds(code, Len(g.out), Ins(Uncaught(g.ntmp + 1)))
            && Holds(code, Len(g.out) + 1, CondBr(Reg(g.ntmp + 1), l, Temp(el)))
  {
    var p := Snoc(g.out, Ins(Uncaught(g.ntmp + 1)));
    var q := Snoc(p, CondBr(Reg(g.ntmp + 1), l, Temp(el)));
    assert EndCatch(g, el, env).out == Snoc(q, Place(Temp(el)));
    assert Part(q, code) && Part(p, code);
  }

  lemma {:induction false} RethrowParts(code: seq<Line>, g: Gen, el: nat, n: nat, env: Env)
    requires Once(code) && g.open && env.Local().None? && n == g.nlab + 1 && Part(EndCatch(g, el, env).out, code)
    ensures Holds(code, Len(g.out), Ins(Uncaught(g.ntmp + 1)))
            && Holds(code, Len(g.out) + 1, CondBr(Reg(g.ntmp + 1), Temp(n), Temp(el)))
    ensures Leads(code, Temp(n), Len(g.out) + 3) && Holds(code, Len(g.out) + 3, Ins(Rethrow))
  {
    var p := Snoc(g.out, Ins(Uncaught(g.ntmp + 1)));
    var q := Snoc(p, CondBr(Reg(g.ntmp + 1), Temp(n), Temp(el)));
    var r := Snoc(Snoc(q, Place(Temp(n))), Ins(Rethrow));
    assert EndCatch(g, el, env).out == Snoc(Snoc(r, Br(Temp(el))), Place(Temp(el)));
    assert Part(Snoc(r, Br(Temp(el))), code);
    assert Part(r, code);
    assert Part(Snoc(q, Place(Temp(n))), code);
    PlaceLeads(code, q, Temp(n));
    assert Part(q, code) && Part(p, code);
  }

  lemma {:induction false} RethrowStep<S>(m: Sem<S>, f: Func, pc: nat, el: nat, n: nat, k: Kont, regs: Regs, st: S,
                                          d: nat) returns (at: Spot)
    requires Holds(f.code, pc, Ins(Uncaught(d))) && Holds(f.code, pc + 1, CondBr(Reg(d), Temp(n), Temp(el)))
    requires Leads(f.code, Temp(n), pc + 3) && Holds(f.code, pc + 3, Ins(Rethrow))
    requires ToLabel(f, k, Temp(el)) && Unwind(k) == None
    ensures Follow(m, f, pc, regs, st,
                   if m.caught(st) then Going(k, st) else Ended(Thrown, m.raise(m.thrown(st), st)), at, 0)
  {
    var regs1 := UncaughtRuns(m, f.code, pc, regs, st, d);
    var to := if m.caught(st) then Find(f.code, Temp(el), 0) + 1 else pc + 3;
    RunsCond(m, f.code, pc, regs, st, 1, pc + 1, regs1, st, Reg(d), Temp(n), Temp(el), to);
    if m.caught(st) {
      at := Spot(2, to, regs1);
    } else {
      RunsStop(m, f.code, pc, regs, st, 2, to, regs1, st, Thrown, m.raise(m.thrown(st), st));
      at := Spot(3, to, regs1);
    }
  }

  // ----- statements -----

  /** Statements that end or branch, and those that are tests or loops. */
  lemma {:induction false} StmtStep<S>(m: Sem<S>, body: Stmt, f: Func, g: Gen, s: Stmt, env: Env, k: Kont, regs: Regs,
                                       st: S, names: set<string>) returns (at: Spot)
    requires Compiled(f, body, names) && Fine(s, names) && g.open && Emitted(f, g, s, env, k)
    ensures Follow(m, f, Len(g.out), regs, st, Perform(m, body, f.void, s, k, st), at, Bulk(s) + Weight(k))
  {
    match s
    case Do(e) => at := DoStep(m, f, g, s, env, k, regs, st);
    case Throws(e) => at := ThrowStep(m, body, f, g, s, env, k, regs, st);
    case InlineAsm(a) => at := AsmStep(m, f, g, s, env, k, regs, st);
    case If(c, t) => at := IfStep(m, f, g, s, env, k, regs, st);
    case IfElse(c, t, e) => at := IfElseStep(m, f, g, s, env, k, regs, st);
    case While(c, b) => at := WhileStep(m, f, g, s, env, k, regs, st);
    case DoWhile(b, c) => at := DoBodyStep(m, f, g, s, env, k, regs, st);
    case Return(e) => at := ReturnStep(m, body, f, g, s, env, k, regs, st);
    case Goto(l) => at := GotoStep(m, body, f, g, s, env, k, regs, st, names);
    case Mark(l) => at := MarkStep(m, f, g, s, env, k, regs, st);
    case TryDynamic(b, h) => at := DynamicStep(m, body, f, g, s, env, k, regs, st);
    case _ =>
      InnerStep(m, body, f, g, s, env, k, regs, st, names);
      at := Spot(0, Len(g.out), regs);
  }

  /** The push, and the test of what it gives. */
  lemma {:induction false} DynamicStep<S>(m: Sem<S>, body: Stmt, f: Func, g: Gen, s: Stmt, env: Env, k: Kont,
                                          regs: Regs, st: S) returns (at: Spot)
    requires Once(f.code) && s.TryDynamic? && g.open && Emitted(f, g, s, env, k)
    ensures Follow(m, f, Len(g.out), regs, st, Perform(m, body, f.void, s, k, st), at, 0)
  {
    DynamicPlaces(f, g, s, env, k, Setjmp(g));
    at := PushStep(m, f, g, g.nlab + 1, Then(s.b, Popping(k)), Then(s.h, Caught(k)), regs, st);
  }

  lemma {:induction false} DynamicPlaces(f: Func, g: Gen, s: Stmt, env: Env, k: Kont, r: Gen)
    requires Once(f.code) && s.TryDynamic? && g.open && Emitted(f, g, s, env, k) && r == Setjmp(g)
    ensures Part(r.out, f.code) && Follows(f, r, Then(s.b, Popping(k)))
    ensures ToLabel(f, Then(s.h, Caught(k)), Temp(g.nlab + 2))
  {
    var inner, h := DynamicFacts(f, g, s, env, k);
    ThenNow(f, r, s.b, inner, Popping(k));
    ThenNow(f, h, s.h, env, Caught(k));
    StmtPart(r, s.b, inner, f.code);
    LeadsSomehow(f, Temp(g.nlab + 2), Then(s.h, Caught(k)), Len(h.out));
  }

  lemma {:induction false} PushStep<S>(m: Sem<S>, f: Func, g: Gen, n: nat, k1: Kont, k2: Kont, regs: Regs, st: S)
      returns (at: Spot)
    requires Once(f.code) && g.open && n == g.nlab + 1 && Part(Setjmp(g).out, f.code)
    requires Follows(f, Setjmp(g), k1) && ToLabel(f, k2, Temp(n + 1))
    ensures var (v, st1) := m.push(st); Follow(m, f, Len(g.out), regs, st, Going(if v != 0 then k1 else k2, st1), at, 0)
  {
    PushParts(f.code, g, g.ntmp + 1, n);
    LeadsSomehow(f, Temp(n), k1, Len(Setjmp(g).out));
    at := PushRuns(m, f, Len(g.out), g.ntmp + 1, n, k1, k2, regs, st);
  }

  lemma {:induction false} PushRuns<S>(m: Sem<S>, f: Func, pc: nat, d: nat, n: nat, k1: Kont, k2: Kont, regs: Regs,
                                       st: S) returns (at: Spot)
    requires Holds(f.code, pc, Ins(Push(d))) && Holds(f.code, pc + 1, CondBr(Reg(d), Temp(n), Temp(n + 1)))
    requires ToLabel(f, k1, Temp(n)) && ToLabel(f, k2, Temp(n + 1))
    ensures var (v, st1) := m.push(st); Follow(m, f, pc, regs, st, Going(if v != 0 then k1 else k2, st1), at, 0)
  {
    var (v, st1) := m.push(st);
    var to := Find(f.code, if v != 0 then Temp(n) else Temp(n + 1), 0) + 1;
    RunsSet(m, f.code, pc, regs, st, 0, pc, regs, st, Push(d), regs[d := v], st1);
    RunsCond(m, f.code, pc, regs, st, 1, pc + 1, regs[d := v], st1, Reg(d), Temp(n), Temp(n + 1), to);
    at := Spot(2, to, regs[d := v]);
  }

  lemma {:induction false} PushParts(code: seq<Line>, g: Gen, d: nat, n: nat)
    requires Once(code) && g.open && d == g.ntmp + 1 && n == g.nlab + 1 && Part(Setjmp(g).out, code)
    ensures Holds(code, Len(g.out), Ins(Push(d))) && Holds(code, Len(g.out) + 1, CondBr(Reg(d), Temp(n), Temp(n + 1)))
    ensures Leads(code, Temp(n), Len(Setjmp(g).out))
  {
    var p := Snoc(g.out, Ins(Push(d)));
    var q := Snoc(p, CondBr(Reg(d), Temp(n), Temp(n + 1)));
    assert Setjmp(g).out == Snoc(q, Place(Temp(n)));
    PlaceLeads(code, q, Temp(n));
    assert Part(q, code) && Part(p, code);
  }

  lemma {:induction false} WhileStep<S>(m: Sem<S>, f: Func, g: Gen, s: Stmt, env: Env, k: Kont, regs: Regs, st: S)
      returns (at: Spot)
    requires Once(f.code) && s.While? && g.open && Emitted(f, g, s, env, k)
    ensures Follow(m, f, Len(g.out), regs, st, Going(LoopOf(s, k), st), at, 0)
  {
    var p := WhileFacts(f, g, s, env, k);
    at := BrNow(m, f, Len(g.out), regs, st, Temp(p.hl), LoopOf(s, k));
  }

  lemma {:induction false} GotoStep<S>(m: Sem<S>, body: Stmt, f: Func, g: Gen, s: Stmt, env: Env, k: Kont, regs: Regs,
                                       st: S, names: set<string>) returns (at: Spot)
    requires Compiled(f, body, names) && s.Goto? && Fine(s, names) && g.open && Emitted(f, g, s, env, k)
    ensures Follow(m, f, Len(g.out), regs, st, Perform(m, body, f.void, s, k, st), at, 0)
  {
    assert Lands(f, FindLabel(body, s.l, Halt), s.l);
    at := BrNow(m, f, Len(g.out), regs, st, Named(s.l), FindLabel(body, s.l, Halt).value);
  }

  lemma {:induction false} MarkStep<S>(m: Sem<S>, f: Func, g: Gen, s: Stmt, env: Env, k: Kont, regs: Regs, st: S)
      returns (at: Spot)
    requires Once(f.code) && s.Mark? && g.open && Emitted(f, g, s, env, k)
    ensures Follow(m, f, Len(g.out), regs, st, Going(k, st), at, 0)
  {
    LabFollows(f, g, Named(s.l), k);
    LabHolds(f.code, g, Named(s.l));
    at := BrNow(m, f, Len(g.out), regs, st, Named(s.l), k);
  }

  /** Statements whose code begins with that of a part. */
  lemma {:induction false} InnerStep<S>(m: Sem<S>, body: Stmt, f: Func, g: Gen, s: Stmt, env: Env, k: Kont, regs: Regs,
                                        st: S, names: set<string>)
    requires Once(f.code) && Fine(s, names) && g.open && Emitted(f, g, s, env, k)
    requires s.Nop? || s.Seq? || s.For? || s.TryNone? || s.TryLocal?
    ensures Follow(m, f, Len(g.out), regs, st, Perform(m, body, f.void, s, k, st), Spot(0, Len(g.out), regs),
                   Bulk(s) + Weight(k))
  {
    match s
    case Nop =>
    case Seq(ss) =>
      ListFollows(f, g, ss, env, k);
      PushWeight(ss, k);
    case For(_, _, _, _) => ForNow(f, g, s, env, k);
    case TryNone(b) => ThenNow(f, g, b, env, k);
    case TryLocal(_, _) => LocalNow(f, g, s, env, k);
  }

  lemma {:induction false} ForNow(f: Func, g: Gen, s: Stmt, env: Env, k: Kont)
    requires Once(f.code) && s.For? && g.open && Emitted(f, g, s, env, k)
    ensures Somehow(f, Then(s.init, LoopOf(s, k)), Len(g.out))
  {
    var p := ForFacts(f, g, s, env, k);
    ThenNow(f, g.Labels(3), s.init, env, LoopOf(s, k));
  }

  lemma {:induction false} LocalNow(f: Func, g: Gen, s: Stmt, env: Env, k: Kont)
    requires Once(f.code) && s.TryLocal? && g.open && Emitted(f, g, s, env, k)
    ensures Somehow(f, Then(s.b, Guard(s.h, k)), Len(g.out))
  {
    var inner, h1 := LocalFacts(f, g, s, env, k);
    ThenNow(f, g.Labels(2), s.b, inner, Guard(s.h, k));
  }

  lemma {:induction false} LabHolds(code: seq<Line>, g: Gen, l: Label)
    requires g.open && Part(g.Lab(l).out, code)
    ensures Holds(code, Len(g.out), Br(l))
  {
    assert Part(Snoc(g.out, Br(l)), code);
  }

  lemma {:induction false} DoStep<S>(m: Sem<S>, f: Func, g: Gen, s: Stmt, env: Env, k: Kont, regs: Regs, st: S)
      returns (at: Spot)
    requires Once(f.code) && s.Do? && g.open && Emitted(f, g, s, env, k)
    ensures Follow(m, f, Len(g.out), regs, st, Going(k, Val(m, s.e, st).1), at, 1 + Weight(k))
  {
    var t, regs1 := ValRuns(m, f.code, g, s.e, regs, st);
    at := Spot(t, Len(EmitVal(g, s.e).0.out), regs1);
  }

  lemma {:induction false} AsmStep<S>(m: Sem<S>, f: Func, g: Gen, s: Stmt, env: Env, k: Kont, regs: Regs, st: S)
      returns (at: Spot)
    requires s.InlineAsm? && g.open && Emitted(f, g, s, env, k)
    ensures Follow(m, f, Len(g.out), regs, st, Going(k, m.op(s.f, [], st).1), at, 0)
  {
    assert Emit(g, s, env).out == Snoc(g.out, Ins(Asm(s.f)));
    RunsSet(m, f.code, Len(g.out), regs, st, 0, Len(g.out), regs, st, Asm(s.f), regs, m.op(s.f, [], st).1);
    at := Spot(1, Len(g.out) + 1, regs);
  }

  lemma {:induction false} IfStep<S>(m: Sem<S>, f: Func, g: Gen, s: Stmt, env: Env, k: Kont, regs: Regs, st: S)
      returns (at: Spot)
    requires Once(f.code) && s.If? && g.open && Emitted(f, g, s, env, k)
    ensures Follow(m, f, Len(g.out), regs, st,
                   Going(if Val(m, s.c, st).0 != 0 then Then(s.t, k) else k, Val(m, s.c, st).1), at, 0)
  {
    var g1 := IfFacts(f, g, s, env, k);
    ThenNow(f, g1, s.t, env, k);
    LeadsSomehow(f, Temp(g.nlab + 1), Then(s.t, k), Len(g1.out));
    at := TestStep(m, f, g.Labels(3), s.c, Temp(g.nlab + 1), Temp(g.nlab + 3), regs, st, Then(s.t, k), k);
  }

  lemma {:induction false} IfElseStep<S>(m: Sem<S>, f: Func, g: Gen, s: Stmt, env: Env, k: Kont, regs: Regs, st: S)
      returns (at: Spot)
    requires Once(f.code) && s.IfElse? && g.open && Emitted(f, g, s, env, k)
    ensures Follow(m, f, Len(g.out), regs, st,
                   Going(Then(if Val(m, s.c, st).0 != 0 then s.t else s.els, k), Val(m, s.c, st).1), at, 0)
  {
    var g1, h := IfElseFacts(f, g, s, env, k);
    ThenNow(f, g1, s.t, env, k);
    ThenNow(f, h, s.els, env, k);
    LeadsSomehow(f, Temp(g.nlab + 1), Then(s.t, k), Len(g1.out));
    LeadsSomehow(f, Temp(g.nlab + 2), Then(s.els, k), Len(h.out));
    at := TestStep(m, f, g.Labels(3), s.c, Temp(g.nlab + 1), Temp(g.nlab + 2), regs, st, Then(s.t, k), Then(s.els, k));
  }

  lemma {:induction false} DoBodyStep<S>(m: Sem<S>, f: Func, g: Gen, s: Stmt, env: Env, k: Kont, regs: Regs, st: S)
      returns (at: Spot)
    requires Once(f.code) && s.DoWhile? && g.open && Emitted(f, g, s, env, k)
    ensures Follow(m, f, Len(g.out), regs, st, Going(Then(s.b, Then(Nop, LoopOf(s, k))), st), at, 0)
  {
    var p := DoFacts(f, g, s, env, k);
    ThenNow(f, p.gb, s.b, env, Then(Nop, LoopOf(s, k)));
    LeadsSomehow(f, Temp(p.bl), Then(s.b, Then(Nop, LoopOf(s, k))), Len(p.gb.out));
    at := BrNow(m, f, Len(g.out), regs, st, Temp(p.bl), Then(s.b, Then(Nop, LoopOf(s, k))));
  }

  lemma {:induction false} ReturnStep<S>(m: Sem<S>, body: Stmt, f: Func, g: Gen, s: Stmt, env: Env, k: Kont, regs: Regs,
                                         st: S) returns (at: Spot)
    requires Once(f.code) && s.Return? && g.open && Emitted(f, g, s, env, k)
    ensures Follow(m, f, Len(g.out), regs, st, Perform(m, body, f.void, s, k, st), at, 0)
  {
    var g1 := EmitPops(g, Frames(k));
    ReturnParts(f, g, g1, s, env);
    PopsRun(m, f.code, g, Frames(k), regs, st);
    if f.void || s.res.None? {
      at := ReturnNothing(m, f, Len(g.out), Frames(k), Len(g1.out), regs, st, Popped(m, Frames(k), st));
    } else {
      at := ReturnValue(m, f, Len(g.out), Frames(k), g1, s.res.value, regs, st, Popped(m, Frames(k), st));
    }
  }

  /** The frames are popped one by one. */
  lemma {:induction false} PopsRun<S>(m: Sem<S>, code: seq<Line>, g: Gen, n: nat, regs: Regs, st: S)
    requires g.open && Part(EmitPops(g, n).out, code)
    ensures Runs(m, code, Len(g.out), regs, st, n, Len(EmitPops(g, n).out), regs, Popped(m, n, st))
  {
    if n > 0 {
      var q := EmitPops(g, n - 1);
      assert EmitPops(g, n).out == Snoc(q.out, Ins(Pop));
      PopsRun(m, code, g, n - 1, regs, st);
      RunsSet(m, code, Len(g.out), regs, st, n - 1, Len(q.out), regs, Popped(m, n - 1, st), Pop, regs,
              m.pop(Popped(m, n - 1, st)));
    }
  }

  lemma {:induction false} ReturnNothing<S>(m: Sem<S>, f: Func, pc: nat, t: nat, pc1: nat, regs: Regs, st: S, st1: S)
      returns (at: Spot)
    requires Runs(m, f.code, pc, regs, st, t, pc1, regs, st1)
    requires Holds(f.code, pc1, Ret(if f.void then None else Some(Imm(0))))
    ensures Follow(m, f, pc, regs, st, Ended(Value(0), st1), at, 0)
  {
    RunsStop(m, f.code, pc, regs, st, t, pc1, regs, st1, Value(0), st1);
    at := Spot(t + 1, 0, regs);
  }

  lemma {:induction false} ReturnValue<S>(m: Sem<S>, f: Func, pc: nat, t0: nat, g: Gen, e: Expr, regs: Regs, st: S,
                                          st0: S) returns (at: Spot)
    requires Once(f.code) && g.open && Part(EmitVal(g, e).0.out, f.code)
             && Holds(f.code, Len(EmitVal(g, e).0.out), Ret(Some(EmitVal(g, e).1)))
    requires Runs(m, f.code, pc, regs, st, t0, Len(g.out), regs, st0)
    ensures Follow(m, f, pc, regs, st, Ended(Value(Val(m, e, st0).0), Val(m, e, st0).1), at, 0)
  {
    var t, regs1 := ValRuns(m, f.code, g, e, regs, st0);
    at := EndReturnStep(m, f, pc, t0, g, EmitVal(g, e), regs, st, st0, t, regs1, Val(m, e, st0).0, Val(m, e, st0).1);
  }

  lemma {:induction false} ReturnParts(f: Func, g: Gen, g1: Gen, s: Stmt, env: Env)
    requires s.Return? && g.open && g1 == EmitPops(g, env.depth) && env.retVoid == f.void
    requires Part(Emit(g, s, env).out, f.code)
    ensures g1.open && Part(g1.out, f.code)
    ensures f.void || s.res.None? ==> Holds(f.code, Len(g1.out), Ret(if f.void then None else Some(Imm(0))))
    ensures !f.void && s.res.Some? ==>
              var a := EmitVal(g1, s.res.value); Part(a.0.out, f.code) && Holds(f.code, Len(a.0.out), Ret(Some(a.1)))
  {
    if !f.void && s.res.Some? {
      var a := EmitVal(g1, s.res.value);
      assert Emit(g, s, env).out == Snoc(a.0.out, Ret(Some(a.1)));
      var _ := ValGrows(g1, s.res.value, Temp(0));
      PartBack(g1.out, a.0.out, f.code);
    }
  }

  lemma {:induction false} EndReturnStep<S>(m: Sem<S>, f: Func, pc: nat, t0: nat, g: Gen, a: (Gen, Opnd), regs: Regs,
                                            st: S, st0: S, t: nat, regs1: Regs, v: int, st1: S) returns (at: Spot)
    requires Runs(m, f.code, pc, regs, st, t0, Len(g.out), regs, st0)
    requires Yields(m, f.code, g, regs, st0, a, t, regs1, v, st1) && Holds(f.code, Len(a.0.out), Ret(Some(a.1)))
    ensures Follow(m, f, pc, regs, st, Ended(Value(v), st1), at, 0)
  {
    RunsThen(m, f.code, pc, regs, st, t0, Len(g.out), regs, st0, t, Len(a.0.out), regs1, st1);
    RunsStop(m, f.code, pc, regs, st, t0 + t, Len(a.0.out), regs1, st1, Value(v), st1);
    at := Spot(t0 + t + 1, 0, regs1);
  }

  lemma {:induction false} ThrowStep<S>(m: Sem<S>, body: Stmt, f: Func, g: Gen, s: Stmt, env: Env, k: Kont, regs: Regs,
                                        st: S) returns (at: Spot)
    requires Once(f.code) && s.Throws? && g.open && Emitted(f, g, s, env, k)
    ensures Follow(m, f, Len(g.out), regs, st, Perform(m, body, f.void, s, k, st), at, 0)
  {
    LocalLeads(f, env, k);
    at := ThrowValue(m, f, g, s.e, env.Local(), k, regs, st);
  }

  lemma {:induction false} ThrowValue<S>(m: Sem<S>, f: Func, g: Gen, e: Expr, l: Option<Label>, k: Kont, regs: Regs,
                                         st: S) returns (at: Spot)
    requires Once(f.code) && g.open && Part(EndThrow(EmitVal(g, e), l).out, f.code)
    requires if l.Some? then Unwind(k).Some? && ToLabel(f, Unwind(k).value, l.value) else Unwind(k) == None
    ensures Follow(m, f, Len(g.out), regs, st, Throwing(m, k, m.raise(Val(m, e, st).0, Val(m, e, st).1)), at, 0)
  {
    ThrowParts(f.code, EmitVal(g, e), l);
    var t, regs1 := ValRuns(m, f.code, g, e, regs, st);
    at := EndThrowStep(m, f, g, EmitVal(g, e), l, k, regs, st, t, regs1, Val(m, e, st).0, Val(m, e, st).1);
  }

  lemma {:induction false} EndThrowStep<S>(m: Sem<S>, f: Func, g: Gen, a: (Gen, Opnd), l: Option<Label>, k: Kont,
                                           regs: Regs, st: S, t: nat, regs1: Regs, v: int, st1: S) returns (at: Spot)
    requires Yields(m, f.code, g, regs, st, a, t, regs1, v, st1)
    requires if l.Some?
             then Holds(f.code, Len(a.0.out), Ins(Raise(a.1))) && Holds(f.code, Len(a.0.out) + 1, Br(l.value))
             else Holds(f.code, Len(a.0.out), Ins(Throw(a.1)))
    requires if l.Some? then Unwind(k).Some? && ToLabel(f, Unwind(k).value, l.value) else Unwind(k) == None
    ensures Follow(m, f, Len(g.out), regs, st, Throwing(m, k, m.raise(v, st1)), at, 0)
  {
    if l.Some? {
      var to := Find(f.code, l.value, 0) + 1;
      RunsSet(m, f.code, Len(g.out), regs, st, t, Len(a.0.out), regs1, st1, Raise(a.1), regs1, m.raise(v, st1));
      RunsBr(m, f.code, Len(g.out), regs, st, t + 1, Len(a.0.out) + 1, regs1, m.raise(v, st1), l.value, to);
      at := Spot(t + 2, to, regs1);
    } else {
      RunsStop(m, f.code, Len(g.out), regs, st, t, Len(a.0.out), regs1, st1, Thrown, m.raise(v, st1));
      at := Spot(t + 1, 0, regs1);
    }
  }

  lemma {:induction false} ThrowParts(code: seq<Line>, a: (Gen, Opnd), l: Option<Label>)
    requires a.0.open && Part(EndThrow(a, l).out, code)
    ensures Part(a.0.out, code)
    ensures l.Some? ==> Holds(code, Len(a.0.out), Ins(Raise(a.1))) && Holds(code, Len(a.0.out) + 1, Br(l.value))
    ensures l.None? ==> Holds(code, Len(a.0.out), Ins(Throw(a.1)))
  {
    if l.Some? {
      assert EndThrow(a, l).out == Snoc(Snoc(a.0.out, Ins(Raise(a.1))), Br(l.value));
      assert Part(Snoc(a.0.out, Ins(Raise(a.1))), code);
    } else {
      assert EndThrow(a, l).out == Snoc(a.0.out, Ins(Throw(a.1)));
    }
  }

  // ----- whole runs -----

  /** A place that matches what is to do, after j branches. */
  ghost predicate Linked(f: Func, k: Kont, pc: nat, j: nat, names: set<string>) {
    Match(f, k, pc, j) && FineKont(k, names)
  }

  /** The code is where r is, `to.t` instructions later, or has ended as r did. */
  ghost predicate Reaches<S>(m: Sem<S>, f: Func, pc: nat, regs: Regs, st: S, r: Source<S>, to: Spot) {
    match r
    case Ended(how, st1) => Ticks(m, f.code, to.t, At(pc, regs, st)) == Stopped(how, st1)
    case Going(_, st1) => Ticks(m, f.code, to.t, At(pc, regs, st)) == At(to.pc, to.regs, st1)
  }

  lemma {:induction false} JumpsTo(f: Func, k: Kont, pc: nat) returns (j: nat)
    requires Somehow(f, k, pc)
    ensures Match(f, k, pc, j)
  {
    j :| Match(f, k, pc, j);
  }

  /** u source steps and some instructions, not both none; from matching to matching. */
  lemma {:induction false} Advance<S>(m: Sem<S>, body: Stmt, f: Func, k: Kont, pc: nat, j: nat, regs: Regs, st: S,
                                      names: set<string>) returns (u: nat, to: Spot, j1: nat)
    requires Compiled(f, body, names) && Linked(f, k, pc, j, names)
    ensures u <= 1 && (u == 0 ==> to.t > 0 && j1 < j)
    ensures var r := Steps(m, body, f.void, u, Going(k, st));
            && Reaches(m, f, pc, regs, st, r, to)
            && (r.Going? ==> Linked(f, r.k, to.pc, j1, names) && (to.t == 0 ==> Weight(r.k) < Weight(k)))
  {
    if j > 0 {
      u, j1 := 0, j - 1;
      to := Spot(1, Find(f.code, f.code[pc].l, 0) + 1, regs);
      OneTick(m, f.code, At(pc, regs, st));
    } else {
      u := 1;
      OneStep(m, body, f.void, k, st);
      to, j1 := StepOn(m, body, f, k, pc, regs, st, Step(m, body, f.void, k, st), names);
    }
  }

  lemma {:induction false} StepOn<S>(m: Sem<S>, body: Stmt, f: Func, k: Kont, pc: nat, regs: Regs, st: S, r: Source<S>,
                                     names: set<string>) returns (to: Spot, j: nat)
    requires Compiled(f, body, names) && Linked(f, k, pc, 0, names) && r == Step(m, body, f.void, k, st)
    ensures Reaches(m, f, pc, regs, st, r, to)
    ensures r.Going? ==> Linked(f, r.k, to.pc, j, names) && (to.t == 0 ==> Weight(r.k) < Weight(k))
  {
    to := StepSim(m, body, f, k, pc, regs, st, names);
    StepFine(m, body, f.void, k, st, names);
    j := 0;
    if r.Going? { j := JumpsTo(f, r.k, to.pc); }
  }

  lemma {:induction false} OneStep<S>(m: Sem<S>, body: Stmt, void: bool, k: Kont, st: S)
    ensures Steps(m, body, void, 1, Going(k, st)) == Step(m, body, void, k, st)
  {
    var r := Step(m, body, void, k, st);
    assert Steps(m, body, void, 0, r) == r;
  }

  lemma {:induction false} StepsAdd<S>(m: Sem<S>, body: Stmt, void: bool, a: nat, b: nat, s: Source<S>)
    ensures Steps(m, body, void, a + b, s) == Steps(m, body, void, b, Steps(m, body, void, a, s))
    decreases a
  {
    if a > 0 && s.Going? { StepsAdd(m, body, void, a - 1, b, Step(m, body, void, s.k, s.st)); }
  }

  /** From a matching place the code ends as the source ends after n steps. */
  lemma {:induction false} RunForward<S>(m: Sem<S>, body: Stmt, f: Func, k: Kont, pc: nat, j: nat, regs: Regs, st: S,
                                         n: nat, how: End, st1: S, names: set<string>) returns (t: nat)
    requires Compiled(f, body, names) && Linked(f, k, pc, j, names)
    requires Steps(m, body, f.void, n, Going(k, st)) == Ended(how, st1)
    ensures Ticks(m, f.code, t, At(pc, regs, st)) == Stopped(how, st1)
    decreases n, j
  {
    var u, to, j1 := Advance(m, body, f, k, pc, j, regs, st, names);
    var r := Steps(m, body, f.void, u, Going(k, st));
    StepsAdd(m, body, f.void, u, n - u, Going(k, st));
    if r.Ended? {
      t := to.t;
    } else {
      var b := RunForward(m, body, f, r.k, to.pc, j1, to.regs, r.st, n - u, how, st1, names);
      TicksAdd(m, f.code, to.t, b, At(pc, regs, st));
      t := to.t + b;
    }
  }

  /** Code that ends after t instructions is at most t away from where r is. */
  lemma {:induction false} SameEnd<S>(m: Sem<S>, f: Func, pc: nat, regs: Regs, st: S, r: Source<S>, to: Spot, t: nat,
                                      how: End, st1: S)
    requires Reaches(m, f, pc, regs, st, r, to) && Ticks(m, f.code, t, At(pc, regs, st)) == Stopped(how, st1)
    ensures r.Ended? ==> r == Ended(how, st1)
    ensures r.Going? ==> to.t <= t && Ticks(m, f.code, t - to.t, At(to.pc, to.regs, r.st)) == Stopped(how, st1)
  {
    if t < to.t {
      TicksAdd(m, f.code, t, to.t - t, At(pc, regs, st));
    } else {
      TicksAdd(m, f.code, to.t, t - to.t, At(pc, regs, st));
    }
  }

  /** The source ends as the code ends after t instructions. */
  lemma {:induction false} RunBackward<S>(m: Sem<S>, body: Stmt, f: Func, k: Kont, pc: nat, j: nat, regs: Regs, st: S,
                                          t: nat, how: End, st1: S, names: set<string>) returns (n: nat)
    requires Compiled(f, body, names) && Linked(f, k, pc, j, names)
    requires Ticks(m, f.code, t, At(pc, regs, st)) == Stopped(how, st1)
    ensures Steps(m, body, f.void, n, Going(k, st)) == Ended(how, st1)
    decreases t, Weight(k)
  {
    var u, to, j1 := Advance(m, body, f, k, pc, j, regs, st, names);
    var r := Steps(m, body, f.void, u, Going(k, st));
    SameEnd(m, f, pc, regs, st, r, to, t, how, st1);
    if r.Ended? {
      n := u;
    } else {
      var n1 := RunBackward(m, body, f, r.k, to.pc, j1, to.regs, r.st, t - to.t, how, st1, names);
      StepsAdd(m, body, f.void, u, n1, Going(k, st));
      n := u + n1;
    }
  }

  // ----- whole functions -----

  lemma {:induction false} ListedPart(out: Lines, code: seq<Line>)
    requires Listed(out) <= code
    ensures Part(out, code) && |Listed(out)| == Len(out)
  {
    if out.Snoc? {
      assert Listed(out) == Listed(out.init) + [out.x];
      assert Listed(out.init) <= code;
      ListedPart(out.init, code);
      assert code[|Listed(out.init)|] == Listed(out)[|Listed(out.init)|];
    }
  }

  /** Two places of a label are counted twice. */
  lemma {:induction false} CountTwo(out: Lines, l: Label, i: nat)
    requires i < |Listed(out)| && Listed(out)[i] == Place(l)
    ensures Count(out, l) >= 1
  {
    if i < |Listed(out.init)| { CountTwo(out.init, l, i); }
  }

  lemma {:induction false} CountOnce(out: Lines, i: nat, j: nat)
    requires i < j < |Listed(out)| && Listed(out)[i].Place? && Listed(out)[j] == Listed(out)[i]
    ensures Count(out, Listed(out)[i].l) >= 2
  {
    var l := Listed(out)[i].l;
    if j < |Listed(out.init)| {
      assert Listed(out)[j] == Listed(out.init)[j] && Listed(out)[i] == Listed(out.init)[i];
      CountOnce(out.init, i, j);
    } else {
      CountTwo(out.init, l, i);
    }
  }

  /** The labels a body defines. */
  function Names(body: Stmt): set<string> {
    set l | l in Defs(body)
  }

  /** Distinct labels, and gotos to them. */
  ghost predicate Proper(body: Stmt) {
    Fine(body, Names(body)) && forall l | l in Defs(body) :: Defs(body)[l] == 1
  }

  function FuncOf(body: Stmt, void: bool): Func {
    Func(Listed(EmitBody(body, void).out), void)
  }

  lemma {:induction false} BodyOnce(body: Stmt, void: bool)
    requires Proper(body)
    ensures Once(FuncOf(body, void).code)
  {
    var out := EmitBody(body, void).out;
    var code := Listed(out);
    forall i, j | 0 <= i < j < |code| && code[i].Place? && code[j].Place? ensures code[i].l != code[j].l {
      if code[i].l == code[j].l {
        CountOnce(out, i, j);
        BodyBlocks(body, void, code[i].l);
      }
    }
  }

  lemma {:induction false} BodyEmitted(f: Func, body: Stmt, env: Env, g: Gen)
    requires f.code == Listed(EmitBody(body, f.void).out) && env == Env([], 0, f.void) && g == Emit(ENTRY, body, env)
    ensures Emitted(f, ENTRY, body, env, Halt)
  {
    ListedPart(EmitBody(body, f.void).out, f.code);
    EndReached(f, g, EmitBody(body, f.void).out);
  }

  /** An open end gets a return. */
  lemma {:induction false} EndReached(f: Func, g: Gen, out: Lines)
    requires Part(out, f.code)
    requires out == if g.open then Snoc(g.out, Ret(if f.void then None else Some(Imm(0)))) else g.out
    ensures Part(g.out, f.code) && Follows(f, g, Halt)
  {
    if g.open { SomehowNow(f, Halt, Len(g.out)); }
  }

  lemma {:induction false} BodyMatch(f: Func, body: Stmt, env: Env)
    requires Emitted(f, ENTRY, body, env, Halt)
    ensures Match(f, Then(body, Halt), 1, 0)
  {
    assert ENTRY.open && Len(ENTRY.out) == 1;
  }

  /** The emitted function starts with its body and lands its labels. */
  lemma {:induction false} BodyCompiled(body: Stmt, void: bool)
    requires Proper(body)
    ensures Compiled(FuncOf(body, void), body, Names(body)) && Match(FuncOf(body, void), Then(body, Halt), 1, 0)
  {
    var f, env, names := FuncOf(body, void), Env([], 0, void), Names(body);
    BodyOnce(body, void);
    BodyEmitted(f, body, env, Emit(ENTRY, body, env));
    BodyMatch(f, body, env);
    forall l | l in names ensures Lands(f, FindLabel(body, l, Halt), l) {
      LabelLands(f, ENTRY, body, env, l, Halt, names);
    }
  }

  ghost predicate SourceEnds<S>(m: Sem<S>, body: Stmt, void: bool, st: S, how: End, st1: S) {
    exists n: nat :: Steps(m, body, void, n, Going(Then(body, Halt), st)) == Ended(how, st1)
  }

  ghost predicate CodeEnds<S>(m: Sem<S>, code: seq<Line>, st: S, how: End, st1: S) {
    exists t: nat :: Ticks(m, code, t, At(1, map[], st)) == Stopped(how, st1)
  }

  /** For every body whose labels are distinct and whose gotos name them, every meaning of its
      operations and every start: the lines, run from the entry block, end with a value or an
      exception and a state exactly when the source does. */
  lemma {:induction false} CodeMeaning<S>(m: Sem<S>, body: Stmt, void: bool, st: S, how: End, st1: S)
    requires Proper(body)
    ensures CodeEnds(m, FuncOf(body, void).code, st, how, st1) <==> SourceEnds(m, body, void, st, how, st1)
  {
    var f, k, names := FuncOf(body, void), Then(body, Halt), Names(body);
    BodyCompiled(body, void);
    if SourceEnds(m, body, void, st, how, st1) {
      var n: nat :| Steps(m, body, void, n, Going(k, st)) == Ended(how, st1);
      var t := RunForward(m, body, f, k, 1, 0, map[], st, n, how, st1, names);
    }
    if CodeEnds(m, f.code, st, how, st1) {
      var t: nat :| Ticks(m, f.code, t, At(1, map[], st)) == Stopped(how, st1);
      var n := RunBackward(m, body, f, k, 1, 0, map[], st, t, how, st1, names);
    }
  }
}
