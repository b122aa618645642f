/** Where the parts of statements are in LLVM code, and the places of labels. */
module LlPlaces {
  import opened Basics
  import opened LlCode
  import opened LlBlocks
  import opened LlLabels
  import opened LlMachine
  import opened LlKonts

  lemma {:induction false} StmtPart(g: Gen, s: Stmt, env: Env, code: seq<Line>)
    requires Part(Emit(g, s, env).out, code)
    ensures Part(g.out, code)
  {
    var p := StmtGrows(g, s, env, Temp(0));
    assert Kept(g, s, env, Temp(0), p);
    PartBack(g.out, Emit(g, s, env).out, code);
  }

  lemma {:induction false} EnsurePart(g: Gen, code: seq<Line>)
    requires Part(g.Ensure().out, code)
    ensures Part(g.out, code)
  {
  }

  lemma {:induction false} BrPart(g: Gen, l: Label, code: seq<Line>)
    requires Part(g.BrTo(l).out, code)
    ensures Part(g.out, code)
  {
    assert g.BrTo(l).out == Snoc(g.Ensure().out, Br(l));
    EnsurePart(g, code);
  }

  lemma {:induction false} LabPart(g: Gen, l: Label, code: seq<Line>)
    requires Part(g.Lab(l).out, code)
    ensures Part(g.out, code)
  {
    if g.open { assert Part(Snoc(g.out, Br(l)), code); }
  }

  /** A label behind a terminator leads behind itself. */
  lemma {:induction false} ClosedLeads(g: Gen, l: Label, code: seq<Line>)
    requires Once(code) && !g.open && Part(g.Lab(l).out, code)
    ensures Leads(code, l, Len(g.Lab(l).out)) && Part(g.out, code)
  {
    PlaceLeads(code, g.out, l);
  }

  lemma {:induction false} LeadsSomehow(f: Func, l: Label, k: Kont, pc: nat)
    requires Leads(f.code, l, pc) && Somehow(f, k, pc)
    ensures ToLabel(f, k, l)
  {
  }

  /** A statement, and what follows it, from an open block on. */
  lemma {:induction false} ThenNow(f: Func, g: Gen, s: Stmt, env: Env, k: Kont)
    requires Emitted(f, g, s, env, k)
    ensures Follows(f, g, Then(s, k))
  {
    if g.open { SomehowNow(f, Then(s, k), Len(g.out)); }
  }

  /** Only tries matter to a throw. */
  lemma {:induction false} HandledSame(f: Func, env: Env, k: Kont, j: Kont)
    requires Handled(f, env, k) && Unwind(j) == Unwind(k) && Frames(j) == Frames(k)
    ensures Handled(f, env, j)
  {
  }

  // ----- branches -----

  lemma {:induction false} TestFacts(f: Func, g: Gen, c: Expr, n: nat, e: nat)
    requires Once(f.code) && Part(Test(g, c, n, e).out, f.code)
    ensures Leads(f.code, Temp(n), Len(Test(g, c, n, e).out))
    ensures Part(EmitCond(g.Labels(3).Ensure(), c, Temp(n), Temp(e)).out, f.code)
  {
    ClosedLeads(EmitCond(g.Labels(3).Ensure(), c, Temp(n), Temp(e)), Temp(n), f.code);
  }

  lemma {:induction false} EndIfFacts(f: Func, g: Gen, n: nat, k: Kont)
    requires Once(f.code) && Part(EndIf(g, n).out, f.code) && Follows(f, EndIf(g, n), k)
    ensures ToLabel(f, k, Temp(n + 2)) && Follows(f, g, k) && Part(g.out, f.code)
  {
    LabFollows(f, g.BrTo(Temp(n + 2)), Temp(n + 2), k);
    LabPart(g.BrTo(Temp(n + 2)), Temp(n + 2), f.code);
    BrFollows(f, g, Temp(n + 2), k);
    BrPart(g, Temp(n + 2), f.code);
  }

  lemma {:induction false} IfFacts(f: Func, g: Gen, s: Stmt, env: Env, k: Kont) returns (g1: Gen)
    requires Once(f.code) && s.If? && Emitted(f, g, s, env, k)
    ensures Part(EmitCond(g.Labels(3).Ensure(), s.c, Temp(g.nlab + 1), Temp(g.nlab + 3)).out, f.code)
    ensures Leads(f.code, Temp(g.nlab + 1), Len(g1.out)) && ToLabel(f, k, Temp(g.nlab + 3))
    ensures g1.open && Emitted(f, g1, s.t, env, k)
  {
    var n := g.nlab + 1;
    g1 := Test(g, s.c, n, n + 2);
    var g2 := Emit(g1, s.t, env);
    IfIs(g, s, env, n, g1, g2);
    EndIfFacts(f, g2, n, k);
    StmtPart(g1, s.t, env, f.code);
    TestFacts(f, g, s.c, n, n + 2);
  }

  lemma {:induction false} IfElseFacts(f: Func, g: Gen, s: Stmt, env: Env, k: Kont) returns (g1: Gen, h: Gen)
    requires Once(f.code) && s.IfElse? && Emitted(f, g, s, env, k)
    ensures Part(EmitCond(g.Labels(3).Ensure(), s.c, Temp(g.nlab + 1), Temp(g.nlab + 2)).out, f.code)
    ensures Leads(f.code, Temp(g.nlab + 1), Len(g1.out)) && Leads(f.code, Temp(g.nlab + 2), Len(h.out))
    ensures g1.open && Emitted(f, g1, s.t, env, k) && h.open && Emitted(f, h, s.els, env, k)
  {
    var n := g.nlab + 1;
    g1 := Test(g, s.c, n, n + 1);
    var g2 := Emit(g1, s.t, env);
    h := Else(g2, n);
    var g3 := Emit(h, s.els, env);
    IfElseIs(g, s, env, n, g1, g2, h, g3);
    EndIfFacts(f, g3, n, k);
    StmtPart(h, s.els, env, f.code);
    ClosedLeads(g2.BrTo(Temp(n + 2)), Temp(n + 1), f.code);
    BrFollows(f, g2, Temp(n + 2), k);
    BrPart(g2, Temp(n + 2), f.code);
    StmtPart(g1, s.t, env, f.code);
    TestFacts(f, g, s.c, n, n + 1);
  }

  // ----- loops -----

  /** A loop in the code, with the parts of its body. */
  ghost predicate LoopHere(f: Func, at: LoopPlace, c: Option<Expr>, inc: Stmt, b: Stmt, k: Kont) {
    var loop := Loop(c, inc, b, k);
    && LoopAt(f, at, c, inc, b, Len(at.g.out)) && ToLabel(f, loop, Temp(at.hl))
    && Emitted(f, at.gb, b, at.env, Then(inc, loop)) && Emitted(f, Emit(at.gb, b, at.env), inc, at.env, loop)
  }

  lemma {:induction false} LoopNow(f: Func, at: LoopPlace, c: Option<Expr>, inc: Stmt, b: Stmt, k: Kont)
    requires LoopAt(f, at, c, inc, b, Len(at.g.out)) && ToLabel(f, k, Temp(at.el)) && Handled(f, at.env, k)
    ensures Somehow(f, Loop(c, inc, b, k), Len(at.g.out)) && LoopHere(f, at, c, inc, b, k)
  {
    var loop := Loop(c, inc, b, k);
    SomehowNow(f, loop, Len(at.g.out));
    LeadsSomehow(f, Temp(at.hl), loop, Len(at.g.out));
    var g2 := Emit(at.gb, b, at.env);
    var g3 := Emit(g2, inc, at.env);
    BrFollows(f, g3, Temp(at.hl), loop);
    BrPart(g3, Temp(at.hl), f.code);
    HandledSame(f, at.env, k, loop);
    ThenNow(f, g2, inc, at.env, loop);
    StmtPart(g2, inc, at.env, f.code);
    HandledSame(f, at.env, k, Then(inc, loop));
  }

  lemma {:induction false} LoopFacts(f: Func, g1: Gen, c: Option<Expr>, inc: Stmt, b: Stmt, n: nat, env: Env, k: Kont,
                                     h: Gen, g2: Gen, g3: Gen) returns (at: LoopPlace)
    requires Once(f.code) && Handled(f, env, k)
    requires h == Head(g1, c, n)
    requires g2 == Emit(h, b, env)
    requires g3 == Emit(g2, inc, env)
    requires Part(EndLoop(g3, n).out, f.code) && Follows(f, EndLoop(g3, n), k)
    ensures at == LoopPlace(g1.BrTo(Temp(n)).Lab(Temp(n)), h, env, n, n + 1, n + 2)
    ensures LoopHere(f, at, c, inc, b, k) && Follows(f, g1, Loop(c, inc, b, k)) && Part(g1.BrTo(Temp(n)).out, f.code)
    ensures ToLabel(f, k, Temp(n + 2))
  {
    var gh := g1.BrTo(Temp(n)).Lab(Temp(n));
    at := LoopPlace(gh, h, env, n, n + 1, n + 2);
    LabFollows(f, g3.BrTo(Temp(n)), Temp(n + 2), k);
    LabPart(g3.BrTo(Temp(n)), Temp(n + 2), f.code);
    BrPart(g3, Temp(n), f.code);
    StmtPart(g2, inc, env, f.code);
    StmtPart(h, b, env, f.code);
    HeadFacts(f, g1, c, n);
    LoopNow(f, at, c, inc, b, k);
    BrFollows(f, g1, Temp(n), Loop(c, inc, b, k));
  }

  lemma {:induction false} HeadFacts(f: Func, g: Gen, c: Option<Expr>, n: nat)
    requires Once(f.code) && Part(Head(g, c, n).out, f.code)
    ensures var gh := g.BrTo(Temp(n)).Lab(Temp(n));
            && Leads(f.code, Temp(n), Len(gh.out)) && Leads(f.code, Temp(n + 1), Len(Head(g, c, n).out))
            && Part(LoopTest(gh, c, n + 1, n + 2).out, f.code) && Part(g.BrTo(Temp(n)).out, f.code)
  {
    var gh := g.BrTo(Temp(n)).Lab(Temp(n));
    var test := HeadTest(gh, c, n);
    assert test == LoopTest(gh, c, n + 1, n + 2);
    ClosedLeads(test, Temp(n + 1), f.code);
    TestPart(gh, c, n + 1, n + 2, f.code);
    ClosedLeads(g.BrTo(Temp(n)), Temp(n), f.code);
  }

  lemma {:induction false} TestPart(g: Gen, c: Option<Expr>, l: nat, e: nat, code: seq<Line>)
    requires Part(LoopTest(g, c, l, e).out, code)
    ensures Part(g.out, code)
  {
    if c.Some? { CondPart(g, c.value, Temp(l), Temp(e), code); } else { BrPart(g, Temp(l), code); }
  }

  lemma {:induction false} CondPart(g: Gen, c: Expr, l: Label, e: Label, code: seq<Line>)
    requires Part(EmitCond(g, c, l, e).out, code)
    ensures Part(g.out, code)
  {
    var _ := CondGrows(g, c, l, e);
    PartBack(g.out, EmitCond(g, c, l, e).out, code);
  }

  lemma {:induction false} CondGrows(g: Gen, c: Expr, l: Label, e: Label) returns (p: nat)
    ensures Extends(g.out, EmitCond(g, c, l, e).out)
  {
    p := ValGrows(g, c, Temp(0));
    p := BranchGrows(g, EmitVal(g, c), l, e, Temp(0), p);
  }

  lemma {:induction false} WhileFacts(f: Func, g: Gen, s: Stmt, env: Env, k: Kont) returns (at: LoopPlace)
    requires Once(f.code) && s.While? && Emitted(f, g, s, env, k)
    ensures at.gb.open && at.env == env && LoopHere(f, at, Some(s.c), Nop, s.b, k)
    ensures Follows(f, g, LoopOf(s, k)) && Part(g.Labels(3).BrTo(Temp(at.hl)).out, f.code)
  {
    var n := g.nlab + 1;
    var h := Head(g.Labels(3), Some(s.c), n);
    var g2 := Emit(h, s.b, env);
    WhileIs(g, s, env, n, h, g2);
    at := LoopFacts(f, g.Labels(3), Some(s.c), Nop, s.b, n, env, k, h, g2, g2);
  }

  lemma {:induction false} ForFacts(f: Func, g: Gen, s: Stmt, env: Env, k: Kont) returns (at: LoopPlace)
    requires Once(f.code) && s.For? && Emitted(f, g, s, env, k)
    ensures at.gb.open && at.env == env && LoopHere(f, at, s.test, s.inc, s.b, k)
    ensures Emitted(f, g.Labels(3), s.init, env, LoopOf(s, k))
  {
    var n := g.nlab + 1;
    var g1 := Emit(g.Labels(3), s.init, env);
    var h := Head(g1, s.test, n);
    var g2 := Emit(h, s.b, env);
    var g3 := Emit(g2, s.inc, env);
    ForIs(g, s, env, n, g1, h, g2, g3);
    at := LoopFacts(f, g1, s.test, s.inc, s.b, n, env, k, h, g2, g3);
    BrPart(g1, Temp(n), f.code);
    HandledSame(f, env, k, LoopOf(s, k));
  }

  lemma {:induction false} DoFacts(f: Func, g: Gen, s: Stmt, env: Env, k: Kont) returns (at: LoopPlace)
    requires Once(f.code) && s.DoWhile? && Emitted(f, g, s, env, k)
    ensures at.gb.open && at.env == env && LoopHere(f, at, Some(s.c), Nop, s.b, k)
    ensures Follows(f, g.Labels(3), Then(s.b, Then(Nop, LoopOf(s, k))))
            && Leads(f.code, Temp(at.bl), Len(at.gb.out)) && Part(g.Labels(3).BrTo(Temp(at.bl)).out, f.code)
  {
    var n, g0 := g.nlab + 1, g.Labels(3);
    var g1 := g0.BrTo(Temp(n)).Lab(Temp(n));
    var g2 := Emit(g1, s.b, env);
    DoIs(g, s, env, n, g1, g2);
    var gt := g2.BrTo(Temp(n + 1)).Lab(Temp(n + 1));
    at := LoopPlace(gt, g1, env, n + 1, n, n + 2);
    DoTestFacts(f, g2, s.c, n, k);
    BrPart(g2, Temp(n + 1), f.code);
    StmtPart(g1, s.b, env, f.code);
    ClosedLeads(g0.BrTo(Temp(n)), Temp(n), f.code);
    LoopNow(f, at, Some(s.c), Nop, s.b, k);
    ThenNow(f, g1, s.b, env, Then(Nop, LoopOf(s, k)));
    LeadsSomehow(f, Temp(n), Then(s.b, Then(Nop, LoopOf(s, k))), Len(g1.out));
    BrFollows(f, g0, Temp(n), Then(s.b, Then(Nop, LoopOf(s, k))));
  }

  lemma {:induction false} DoTestFacts(f: Func, g: Gen, c: Expr, n: nat, k: Kont)
    requires Once(f.code) && Part(EndDo(g, c, n).out, f.code) && Follows(f, EndDo(g, c, n), k)
    ensures var gt := g.BrTo(Temp(n + 1)).Lab(Temp(n + 1));
            && Leads(f.code, Temp(n + 1), Len(gt.out)) && Part(EmitCond(gt, c, Temp(n), Temp(n + 2)).out, f.code)
            && Part(g.BrTo(Temp(n + 1)).out, f.code)
    ensures ToLabel(f, k, Temp(n + 2))
  {
    var gt := g.BrTo(Temp(n + 1)).Lab(Temp(n + 1));
    var test := EmitCond(gt, c, Temp(n), Temp(n + 2));
    LabFollows(f, test, Temp(n + 2), k);
    LabPart(test, Temp(n + 2), f.code);
    CondPart(gt, c, Temp(n), Temp(n + 2), f.code);
    ClosedLeads(g.BrTo(Temp(n + 1)), Temp(n + 1), f.code);
  }

  // ----- tries -----

  /** The end label of a try leads to what follows it. */
  lemma {:induction false} EndCatchFacts(f: Func, g: Gen, el: nat, env: Env, k: Kont)
    requires Once(f.code) && Part(EndCatch(g, el, env).out, f.code) && Follows(f, EndCatch(g, el, env), k)
    requires el <= g.nlab
    ensures ToLabel(f, k, Temp(el)) && Part(g.out, f.code)
  {
    var g1 := g.Put(Uncaught(g.ntmp + 1)).Temps(1);
    var l := env.Local();
    if l.Some? {
      LabFollows(f, g1.Write(CondBr(Reg(g1.ntmp), l.value, Temp(el))), Temp(el), k);
    } else {
      var n := g1.nlab + 1;
      var q := g1.Labels(1).Write(CondBr(Reg(g1.ntmp), Temp(n), Temp(el))).Lab(Temp(n)).Put(Rethrow);
      LabFollows(f, q.BrTo(Temp(el)), Temp(el), k);
    }
    var _ := EndCatchGrows(g, el, env, Temp(0));
    PartBack(g.out, EndCatch(g, el, env).out, f.code);
  }

  lemma {:induction false} StmtLabelsMore(g: Gen, s: Stmt, env: Env)
    ensures g.nlab <= Emit(g, s, env).nlab
  {
    var p := StmtGrows(g, s, env, Temp(0));
    assert Kept(g, s, env, Temp(0), p);
  }

  /** The labels of a try come before those of its handler. */
  lemma {:induction false} TryLabelsMore(r: Gen, b: Stmt, inner: Env, cl: nat, el: nat, g1: Gen, h: Gen, s: Stmt,
                                         env: Env)
    requires Emit(r, b, inner).nlab <= g1.nlab && h == Catch(g1, cl, el) && el <= r.nlab
    ensures el <= Emit(h, s, env).nlab
  {
    StmtLabelsMore(r, b, inner);
    StmtLabelsMore(h, s, env);
  }

  lemma {:induction false} UnderHandled(f: Func, env: Env, n: nat, h: Stmt, k: Kont)
    requires Handled(f, env, k) && ToLabel(f, Then(h, Caught(k)), Temp(n))
    ensures Handled(f, env.Under(Handler(false, Temp(n))), Guard(h, k))
  {
    assert Unwind(Guard(h, k)) == Some(Then(h, Caught(k)));
    assert env.Under(Handler(false, Temp(n))).Local() == Some(Temp(n));
  }

  /** The code behind a handler. */
  lemma {:induction false} CaughtNow(f: Func, g: Gen, env: Env, el: nat, k: Kont)
    requires Part(EndCatch(g, el, env).out, f.code) && ToLabel(f, k, Temp(el)) && Handled(f, env, k)
    ensures Follows(f, g, Caught(k))
  {
    if g.open {
      assert CaughtAt(f, g, env, el, Len(g.out));
      SomehowNow(f, Caught(k), Len(g.out));
    }
  }

  lemma {:induction false} GuardNow(f: Func, g: Gen, h: Stmt, k: Kont)
    requires Follows(f, g, k)
    ensures Follows(f, g, Guard(h, k))
  {
    if g.open { SomehowNow(f, Guard(h, k), Len(g.out)); }
  }

  lemma {:induction false} LocalFacts(f: Func, g: Gen, s: Stmt, env: Env, k: Kont) returns (inner: Env, h: Gen)
    requires Once(f.code) && s.TryLocal? && Emitted(f, g, s, env, k)
    ensures Emitted(f, g.Labels(2), s.b, inner, Guard(s.h, k)) && h.open && Emitted(f, h, s.h, env, Caught(k))
  {
    var n := g.nlab + 1;
    inner := env.Under(Handler(false, Temp(n)));
    var g1 := Emit(g.Labels(2), s.b, inner);
    h := Catch(g1, n, n + 1);
    var g2 := Emit(h, s.h, env);
    LocalIs(g, s, env, n, inner, g1, h, g2);
    TryLabelsMore(g.Labels(2), s.b, inner, n, n + 1, g1, h, s.h, env);
    HandlerFacts(f, h, s.h, env, n + 1, k);
    ThenNow(f, h, s.h, env, Caught(k));
    CatchFacts(f, g1, n, n + 1, s.h, k);
    UnderHandled(f, env, n, s.h, k);
  }

  lemma {:induction false} CatchFacts(f: Func, g1: Gen, cl: nat, el: nat, h: Stmt, k: Kont)
    requires Once(f.code) && Part(Catch(g1, cl, el).out, f.code) && Follows(f, Catch(g1, cl, el), Then(h, Caught(k)))
    requires ToLabel(f, k, Temp(el))
    ensures ToLabel(f, Then(h, Caught(k)), Temp(cl)) && Follows(f, g1, Guard(h, k)) && Part(g1.out, f.code)
  {
    JumpFollows(f, g1, Temp(el), Temp(cl), k, Then(h, Caught(k)));
    GuardNow(f, g1, h, k);
    BrPart(g1, Temp(el), f.code);
  }

  lemma {:induction false} DynamicFacts(f: Func, g: Gen, s: Stmt, env: Env, k: Kont) returns (inner: Env, h: Gen)
    requires Once(f.code) && s.TryDynamic? && Emitted(f, g, s, env, k)
    ensures Emitted(f, Setjmp(g), s.b, inner, Popping(k)) && h.open && Emitted(f, h, s.h, env, Caught(k))
    ensures Leads(f.code, Temp(Setjmp(g).nlab - 1), Len(h.out))
  {
    var r := Setjmp(g);
    var m := r.nlab - 2;
    inner := env.Under(Handler(true, Temp(m + 1)));
    var g1 := Emit(r, s.b, inner);
    h := Catch(g1.Put(Pop), m + 1, m + 2);
    var g2 := Emit(h, s.h, env);
    DynamicIs(g, s, env, m, r, inner, g1, h, g2);
    TryLabelsMore(r, s.b, inner, m + 1, m + 2, g1.Put(Pop), h, s.h, env);
    HandlerFacts(f, h, s.h, env, m + 2, k);
    PoppingFacts(f, g1, m + 1, m + 2, k);
    UnderPopping(f, env, m + 1, k);
  }

  lemma {:induction false} UnderPopping(f: Func, env: Env, n: nat, k: Kont)
    requires Handled(f, env, k)
    ensures Handled(f, env.Under(Handler(true, Temp(n))), Popping(k))
  {
    assert env.Under(Handler(true, Temp(n))).Local() == None;
  }

  /** The handler of a try and what is behind it. */
  lemma {:induction false} HandlerFacts(f: Func, h: Gen, b: Stmt, env: Env, el: nat, k: Kont)
    requires Once(f.code) && Handled(f, env, k) && el <= Emit(h, b, env).nlab
    requires Part(EndCatch(Emit(h, b, env), el, env).out, f.code) && Follows(f, EndCatch(Emit(h, b, env), el, env), k)
    ensures Emitted(f, h, b, env, Caught(k)) && ToLabel(f, k, Temp(el)) && Part(h.out, f.code)
  {
    EndCatchFacts(f, Emit(h, b, env), el, env, k);
    CaughtNow(f, Emit(h, b, env), env, el, k);
    HandledSame(f, env, k, Caught(k));
    StmtPart(h, b, env, f.code);
  }

  /** The end of a body that pops its frame. */
  lemma {:induction false} PoppingFacts(f: Func, g1: Gen, cl: nat, el: nat, k: Kont)
    requires Once(f.code) && Part(Catch(g1.Put(Pop), cl, el).out, f.code) && ToLabel(f, k, Temp(el))
    ensures Follows(f, g1, Popping(k)) && Part(g1.out, f.code)
    ensures Leads(f.code, Temp(cl), Len(Catch(g1.Put(Pop), cl, el).out))
  {
    var q := g1.Put(Pop).BrTo(Temp(el));
    ClosedLeads(q, Temp(cl), f.code);
    assert q.out == Snoc(Snoc(g1.Ensure().out, Ins(Pop)), Br(Temp(el)));
    assert Part(Snoc(g1.Ensure().out, Ins(Pop)), f.code);
    EnsurePart(g1, f.code);
    if g1.open { SomehowNow(f, Popping(k), Len(g1.out)); }
  }

  // ----- lists -----

  lemma {:induction false} UnwindPush(ss: seq<Stmt>, k: Kont)
    ensures Unwind(PushAll(ss, k)) == Unwind(k) && Frames(PushAll(ss, k)) == Frames(k)
  {
    if ss != [] { UnwindPush(ss[1..], k); }
  }

  lemma {:induction false} ListFacts(f: Func, g: Gen, ss: seq<Stmt>, env: Env, k: Kont)
    requires ss != [] && Emitted(f, g, Seq(ss), env, k)
    ensures Emitted(f, g, ss[0], env, PushAll(ss[1..], k)) && Emitted(f, Emit(g, ss[0], env), Seq(ss[1..]), env, k)
    decreases |ss|, 0
  {
    var g1 := Emit(g, ss[0], env);
    ListIs(g, ss, env);
    StmtPart(g1, Seq(ss[1..]), env, f.code);
    ListFollows(f, g1, ss[1..], env, k);
    UnwindPush(ss[1..], k);
    HandledSame(f, env, k, PushAll(ss[1..], k));
  }

  lemma {:induction false} ListFollows(f: Func, g: Gen, ss: seq<Stmt>, env: Env, k: Kont)
    requires Emitted(f, g, Seq(ss), env, k)
    ensures Follows(f, g, PushAll(ss, k))
    decreases |ss|, 1
  {
    if ss == [] {
      NoneIs(g, env, Temp(0));
    } else {
      ListFacts(f, g, ss, env, k);
      ThenNow(f, g, ss[0], env, PushAll(ss[1..], k));
    }
  }

  // ----- labels -----

  /** The labels of s are found, and only those. */
  lemma {:induction false} FoundIff(s: Stmt, l: string, k: Kont, names: set<string>)
    requires Fine(s, names)
    ensures FindLabel(s, l, k).Some? <==> l in Defs(s)
    decreases s, 1
  {
    match s
    case Seq(ss) => FoundInListIff(ss, l, k, names);
    case If(_, t) => FoundIff(t, l, k, names);
    case IfElse(_, t, e) => FoundIff(t, l, k, names); FoundIff(e, l, k, names);
    case While(c, b) => FoundIff(b, l, Then(Nop, LoopOf(s, k)), names);
    case DoWhile(b, c) => FoundIff(b, l, Then(Nop, LoopOf(s, k)), names);
    case For(i, c, inc, b) =>
      FoundIff(i, l, LoopOf(s, k), names);
      FoundIff(b, l, Then(inc, LoopOf(s, k)), names);
      FoundIff(inc, l, LoopOf(s, k), names);
    case TryNone(b) => FoundIff(b, l, k, names);
    case TryLocal(b, h) => FoundIff(b, l, Guard(h, k), names); FoundIff(h, l, Caught(k), names);
    case TryDynamic(b, h) => FoundIff(b, l, Popping(k), names); FoundIff(h, l, Caught(k), names);
    case _ =>
  }

  lemma {:induction false} FoundInListIff(ss: seq<Stmt>, l: string, k: Kont, names: set<string>)
    requires FineAll(ss, names)
    ensures FindInList(ss, l, k).Some? <==> l in ListDefs(ss)
    decreases ss, 0
  {
    if ss != [] {
      FoundIff(ss[0], l, PushAll(ss[1..], k), names);
      FoundInListIff(ss[1..], l, k, names);
    }
  }

  ghost predicate Lands(f: Func, r: Option<Kont>, l: string) {
    r.Some? && ToLabel(f, r.value, Named(l))
  }

  /** Every label leads to what a goto to it continues with in the source. */
  lemma {:induction false} LabelLands(f: Func, g: Gen, s: Stmt, env: Env, l: string, k: Kont, names: set<string>)
    requires Once(f.code) && Fine(s, names) && Emitted(f, g, s, env, k) && l in Defs(s)
    ensures Lands(f, FindLabel(s, l, k), l)
    decreases s, 1
  {
    match s
    case Mark(n) => LabFollows(f, g, Named(n), k);
    case Seq(ss) => ListLands(f, g, ss, env, l, k, names);
    case If(_, t) =>
      var g1 := IfFacts(f, g, s, env, k);
      LabelLands(f, g1, t, env, l, k, names);
    case IfElse(_, t, e) =>
      var g1, h := IfElseFacts(f, g, s, env, k);
      FoundIff(t, l, k, names);
      if l in Defs(t) { LabelLands(f, g1, t, env, l, k, names); } else { LabelLands(f, h, e, env, l, k, names); }
    case While(c, b) =>
      var at := WhileFacts(f, g, s, env, k);
      LabelLands(f, at.gb, b, env, l, Then(Nop, LoopOf(s, k)), names);
    case DoWhile(b, c) =>
      var at := DoFacts(f, g, s, env, k);
      LabelLands(f, at.gb, b, env, l, Then(Nop, LoopOf(s, k)), names);
    case For(_, _, _, _) => ForLands(f, g, s, env, l, k, names);
    case TryNone(b) => LabelLands(f, g, b, env, l, k, names);
    case TryLocal(b, h) =>
      var inner, h1 := LocalFacts(f, g, s, env, k);
      FoundIff(b, l, Guard(h, k), names);
      if l in Defs(b) { LabelLands(f, g.Labels(2), b, inner, l, Guard(h, k), names); }
      else { LabelLands(f, h1, h, env, l, Caught(k), names); }
    case TryDynamic(b, h) =>
      var inner, h1 := DynamicFacts(f, g, s, env, k);
      FoundIff(b, l, Popping(k), names);
      if l in Defs(b) { LabelLands(f, Setjmp(g), b, inner, l, Popping(k), names); }
      else { LabelLands(f, h1, h, env, l, Caught(k), names); }
  }

  lemma {:induction false} ForLands(f: Func, g: Gen, s: Stmt, env: Env, l: string, k: Kont, names: set<string>)
    requires Once(f.code) && s.For? && Fine(s, names) && Emitted(f, g, s, env, k) && l in Defs(s)
    ensures Lands(f, FindLabel(s, l, k), l)
    decreases s, 0
  {
    var at := ForFacts(f, g, s, env, k);
    var loop := LoopOf(s, k);
    FoundIff(s.init, l, loop, names);
    FoundIff(s.b, l, Then(s.inc, loop), names);
    if l in Defs(s.init) {
      LabelLands(f, g.Labels(3), s.init, env, l, loop, names);
    } else if l in Defs(s.b) {
      LabelLands(f, at.gb, s.b, env, l, Then(s.inc, loop), names);
    } else {
      LabelLands(f, Emit(at.gb, s.b, env), s.inc, env, l, loop, names);
    }
  }

  lemma {:induction false} ListLands(f: Func, g: Gen, ss: seq<Stmt>, env: Env, l: string, k: Kont, names: set<string>)
    requires Once(f.code) && FineAll(ss, names) && Emitted(f, g, Seq(ss), env, k) && l in ListDefs(ss)
    ensures Lands(f, FindInList(ss, l, k), l)
    decreases ss, 0
  {
    ListFacts(f, g, ss, env, k);
    FoundIff(ss[0], l, PushAll(ss[1..], k), names);
    if l in Defs(ss[0]) {
      LabelLands(f, g, ss[0], env, l, PushAll(ss[1..], k), names);
    } else {
      ListLands(f, Emit(g, ss[0], env), ss[1..], env, l, k, names);
    }
  }
}
