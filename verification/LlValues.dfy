/** The code of an expression computes its value, && and || by branches. */
module LlValues {
  import opened Basics
  import opened LlCode
  import opened LlBlocks
  import opened LlMachine

  lemma {:induction false} ValPart(g: Gen, e: Expr, code: seq<Line>)
    requires Part(EmitVal(g, e).0.out, code)
    ensures Part(g.out, code)
  {
    var _ := ValGrows(g, e, Temp(0));
    PartBack(g.out, EmitVal(g, e).0.out, code);
  }

  lemma {:induction false} ArgsPart(g: Gen, es: seq<Expr>, code: seq<Line>)
    requires Part(EmitArgs(g, es).0.out, code)
    ensures Part(g.out, code)
  {
    var _ := ArgsGrows(g, es, Temp(0));
    PartBack(g.out, EmitArgs(g, es).0.out, code);
  }

  lemma {:induction false} ValRuns<S>(m: Sem<S>, code: seq<Line>, g: Gen, e: Expr, regs: Regs, st: S)
      returns (t: nat, regs1: Regs)
    requires Once(code) && g.open && Part(EmitVal(g, e).0.out, code)
    ensures Yields(m, code, g, regs, st, EmitVal(g, e), t, regs1, Val(m, e, st).0, Val(m, e, st).1)
    decreases e, 3
  {
    match e
    case Const(v) => t, regs1 := 0, regs;
    case Code(f, args) => t, regs1 := CodeRuns(m, code, g, e, regs, st);
    case Logic(conj, l, r) => t, regs1 := LogicRuns(m, code, g, e, regs, st);
  }

  lemma {:induction false} CodeRuns<S>(m: Sem<S>, code: seq<Line>, g: Gen, e: Expr, regs: Regs, st: S)
      returns (t: nat, regs1: Regs)
    requires Once(code) && g.open && e.Code? && Part(EmitVal(g, e).0.out, code)
    ensures Yields(m, code, g, regs, st, EmitVal(g, e), t, regs1, Val(m, e, st).0, Val(m, e, st).1)
    decreases e, 2
  {
    var a := EmitArgs(g, e.args);
    var regs0: Regs;
    t, regs0 := ArgsRuns(m, code, g, e.args, regs, st);
    var vs, st0 := Vals(m, e.args, st).0, Vals(m, e.args, st).1;
    t, regs1 := OpRuns(m, code, g, a, e.f, regs, st, t, regs0, vs, st0);
  }

  lemma {:induction false} OpRuns<S>(m: Sem<S>, code: seq<Line>, g: Gen, a: (Gen, seq<Opnd>), f: nat, regs: Regs, st: S,
                                     t: nat, regs0: Regs, vs: seq<int>, st0: S) returns (t1: nat, regs1: Regs)
    requires a.0.open && g.ntmp <= a.0.ntmp && Part(Operate(a, f).0.out, code)
    requires Runs(m, code, Len(g.out), regs, st, t, Len(a.0.out), regs0, st0) && Same(regs, regs0, g.ntmp)
             && ReadAll(regs0, a.1) == vs
    ensures Yields(m, code, g, regs, st, Operate(a, f), t1, regs1, m.op(f, vs, st0).0, m.op(f, vs, st0).1)
  {
    var i, v := Op(a.0.ntmp + 1, f, a.1), m.op(f, vs, st0).0;
    regs1 := regs0[a.0.ntmp + 1 := v];
    t1 := t + 1;
    SameSet(regs, regs0, g.ntmp, a.0.ntmp + 1, v);
    RunsSet(m, code, Len(g.out), regs, st, t, Len(a.0.out), regs0, st0, i, regs1, m.op(f, vs, st0).1);
  }

  lemma {:induction false} ArgsRuns<S>(m: Sem<S>, code: seq<Line>, g: Gen, es: seq<Expr>, regs: Regs, st: S)
      returns (t: nat, regs1: Regs)
    requires Once(code) && g.open && Part(EmitArgs(g, es).0.out, code)
    ensures var a, r := EmitArgs(g, es), Vals(m, es, st);
            && Runs(m, code, Len(g.out), regs, st, t, Len(a.0.out), regs1, r.1)
            && ReadAll(regs1, a.1) == r.0 && Same(regs, regs1, g.ntmp)
            && forall i | 0 <= i < |a.1| :: a.1[i].Reg? ==> a.1[i].n <= a.0.ntmp
    decreases es, 0
  {
    if es == [] {
      t, regs1 := 0, regs;
    } else {
      var a := EmitVal(g, es[0]);
      ArgsPart(a.0, es[1..], code);
      var t1, regs0 := ValRuns(m, code, g, es[0], regs, st);
      var st0 := Val(m, es[0], st).1;
      var t2: nat;
      t2, regs1 := ArgsRuns(m, code, a.0, es[1..], regs0, st0);
      t := t1 + t2;
      var b := EmitArgs(a.0, es[1..]);
      RunsThen(m, code, Len(g.out), regs, st, t1, Len(a.0.out), regs0, st0, t2, Len(b.0.out), regs1,
               Vals(m, es[1..], st0).1);
      SameTrans(regs, regs0, regs1, g.ntmp, a.0.ntmp);
      ReadSame(regs0, regs1, a.0.ntmp, a.1);
      assert ([a.1] + b.1)[1..] == b.1;
    }
  }

  // ----- && and || -----

  /** A test of the value at hand, and the branch on it. */
  lemma {:induction false} BranchRuns<S>(m: Sem<S>, code: seq<Line>, g: Gen, a: (Gen, Opnd), l: Label, f: Label,
                                         regs: Regs, st: S, t: nat, regs0: Regs, v: int, st0: S, to: nat)
      returns (regs1: Regs)
    requires a.0.open && g.ntmp <= a.0.ntmp && Part(Branch(a, l, f).out, code)
    requires Yields(m, code, g, regs, st, a, t, regs0, v, st0) && Leads(code, if v != 0 then l else f, to)
    ensures Runs(m, code, Len(g.out), regs, st, t + 2, to, regs1, st0) && Same(regs, regs1, g.ntmp)
  {
    var c, i := a.0.ntmp + 1, Bool(a.0.ntmp + 1, a.1);
    regs1 := regs0[c := if v != 0 then 1 else 0];
    SameSet(regs, regs0, g.ntmp, c, if v != 0 then 1 else 0);
    RunsSet(m, code, Len(g.out), regs, st, t, Len(a.0.out), regs0, st0, i, regs1, st0);
    RunsCond(m, code, Len(g.out), regs, st, t + 1, Len(a.0.out) + 1, regs1, st0, Reg(c), l, f, to);
  }

  /** Where the labels of && or || are. */
  ghost predicate Sides(code: seq<Line>, s: Gen, b: (Gen, Opnd), conj: bool, slot: nat, n: nat) {
    var y := StoreTruth(b, slot).BrTo(Temp(n + 2));
    var z := StoreOther(y, conj, slot, n);
    && s.open && b.0.open && Part(s.out, code) && Part(b.0.out, code) && Part(StoreTruth(b, slot).out, code)
    && Part(z.out, code) && Holds(code, Len(StoreTruth(b, slot).out), Br(Temp(n + 2)))
    && Leads(code, Temp(n), Len(s.out)) && Leads(code, Temp(n + 1), Len(y.out) + 1)
    && Leads(code, Temp(n + 2), Len(z.out) + 1)
    && Holds(code, Len(z.out) + 1, Ins(Load(z.ntmp + 1, slot)))
  }

  lemma {:induction false} SidesAre(code: seq<Line>, s: Gen, a: (Gen, Opnd), r: Expr, conj: bool, slot: nat, n: nat)
    requires Once(code) && s == Split(a, conj, n) && a.0.open
    requires Part(EndLogic(EmitVal(s, r), conj, slot, n).0.out, code)
    ensures Sides(code, s, EmitVal(s, r), conj, slot, n) && Part(a.0.out, code)
    ensures Part(Branch(a, Temp(if conj then n else n + 1), Temp(if conj then n + 1 else n)).out, code)
  {
    var b := EmitVal(s, r);
    var x := StoreTruth(b, slot);
    var y := x.BrTo(Temp(n + 2));
    var z := StoreOther(y, conj, slot, n);
    EndParts(code, z, slot, n);
    OtherParts(code, y, conj, slot, n);
    assert y.out == Snoc(x.out, Br(Temp(n + 2)));
    TruthParts(code, b, slot);
    ValPart(s, r, code);
    SplitParts(code, a, conj, n);
  }

  lemma {:induction false} EndParts(code: seq<Line>, z: Gen, slot: nat, n: nat)
    requires Once(code) && !z.open && Part(Result(z, slot, n).0.out, code)
    ensures Part(z.out, code) && Leads(code, Temp(n + 2), Len(z.out) + 1)
    ensures Holds(code, Len(z.out) + 1, Ins(Load(z.ntmp + 1, slot)))
  {
    assert Result(z, slot, n).0.out == Snoc(Snoc(z.out, Place(Temp(n + 2))), Ins(Load(z.ntmp + 1, slot)));
    assert Part(Snoc(z.out, Place(Temp(n + 2))), code);
    PlaceLeads(code, z.out, Temp(n + 2));
  }

  lemma {:induction false} OtherParts(code: seq<Line>, y: Gen, conj: bool, slot: nat, n: nat)
    requires Once(code) && !y.open && Part(StoreOther(y, conj, slot, n).out, code)
    ensures Part(y.out, code) && Leads(code, Temp(n + 1), Len(y.out) + 1)
  {
    var p := Snoc(y.out, Place(Temp(n + 1)));
    var q := Snoc(p, Ins(Store(Imm(if conj then 0 else 1), slot)));
    assert StoreOther(y, conj, slot, n).out == Snoc(q, Br(Temp(n + 2)));
    assert Part(q, code) && Part(p, code);
    PlaceLeads(code, y.out, Temp(n + 1));
  }

  lemma {:induction false} TruthParts(code: seq<Line>, b: (Gen, Opnd), slot: nat)
    requires b.0.open && Part(StoreTruth(b, slot).out, code)
    ensures Part(b.0.out, code)
  {
    assert Part(Snoc(b.0.out, Ins(Bool(b.0.ntmp + 1, b.1))), code);
  }

  lemma {:induction false} SplitParts(code: seq<Line>, a: (Gen, Opnd), conj: bool, n: nat)
    requires Once(code) && a.0.open && Part(Split(a, conj, n).out, code)
    ensures var r := Branch(a, Temp(if conj then n else n + 1), Temp(if conj then n + 1 else n));
            Part(r.out, code) && Part(a.0.out, code) && Leads(code, Temp(n), Len(Split(a, conj, n).out))
  {
    var r := Branch(a, Temp(if conj then n else n + 1), Temp(if conj then n + 1 else n));
    assert Part(Snoc(r.out, Place(Temp(n))), code);
    PlaceLeads(code, r.out, Temp(n));
    assert Part(Snoc(a.0.out, Ins(Bool(a.0.ntmp + 1, a.1))), code);
  }

  /** The end: the slot is loaded. */
  lemma {:induction false} LoadRuns<S>(m: Sem<S>, code: seq<Line>, pc: nat, regs: Regs, st: S, t: nat, z: Gen,
                                       slot: nat, n: nat, regs1: Regs, v: int, st1: S, k: nat) returns (regs2: Regs)
    requires Runs(m, code, pc, regs, st, t, Len(z.out) + 1, regs1, st1) && Get(regs1, slot) == v
    requires Holds(code, Len(z.out) + 1, Ins(Load(z.ntmp + 1, slot))) && !z.open && Same(regs, regs1, k) && k <= z.ntmp
    ensures Runs(m, code, pc, regs, st, t + 1, Len(Result(z, slot, n).0.out), regs2, st1)
            && Read(regs2, Result(z, slot, n).1) == v && Same(regs, regs2, k)
  {
    regs2 := regs1[z.ntmp + 1 := v];
    SameSet(regs, regs1, k, z.ntmp + 1, v);
    RunsSet(m, code, pc, regs, st, t, Len(z.out) + 1, regs1, st1, Load(z.ntmp + 1, slot), regs2, st1);
  }

  /** The right side is skipped. */
  lemma {:induction false} SkipRuns<S>(m: Sem<S>, code: seq<Line>, pc: nat, regs: Regs, st: S, t: nat, y: Gen,
                                       conj: bool, slot: nat, n: nat, regs1: Regs, st1: S, k: nat)
      returns (t2: nat, regs2: Regs)
    requires Runs(m, code, pc, regs, st, t, Len(y.out) + 1, regs1, st1) && Same(regs, regs1, k) && k < slot
    requires var z := StoreOther(y, conj, slot, n);
             && !y.open && Part(z.out, code) && Leads(code, Temp(n + 2), Len(z.out) + 1)
    ensures var z := StoreOther(y, conj, slot, n);
            Runs(m, code, pc, regs, st, t2, Len(z.out) + 1, regs2, st1) && Same(regs, regs2, k)
            && Get(regs2, slot) == if conj then 0 else 1
  {
    var v := if conj then 0 else 1;
    regs2 := regs1[slot := v];
    t2 := t + 2;
    SameSet(regs, regs1, k, slot, v);
    RunsSet(m, code, pc, regs, st, t, Len(y.out) + 1, regs1, st1, Store(Imm(v), slot), regs2, st1);
    RunsBr(m, code, pc, regs, st, t + 1, Len(y.out) + 2, regs2, st1, Temp(n + 2),
           Len(StoreOther(y, conj, slot, n).out) + 1);
  }

  /** The right side was run. */
  lemma {:induction false} TruthRuns<S>(m: Sem<S>, code: seq<Line>, pc: nat, regs: Regs, st: S, t: nat, b: (Gen, Opnd),
                                        slot: nat, l: Label, to: nat, regs1: Regs, v: int, st1: S, k: nat)
      returns (t2: nat, regs2: Regs)
    requires b.0.open && Part(StoreTruth(b, slot).out, code) && Holds(code, Len(StoreTruth(b, slot).out), Br(l))
    requires Leads(code, l, to) && k < slot <= b.0.ntmp
    requires Runs(m, code, pc, regs, st, t, Len(b.0.out), regs1, st1) && Read(regs1, b.1) == v && Same(regs, regs1, k)
    ensures Runs(m, code, pc, regs, st, t2, to, regs2, st1) && Same(regs, regs2, k)
            && Get(regs2, slot) == if v != 0 then 1 else 0
  {
    var c, w := b.0.ntmp + 1, if v != 0 then 1 else 0;
    var r := regs1[c := w];
    regs2 := r[slot := w];
    t2 := t + 3;
    SameSet(regs, regs1, k, c, w);
    SameSet(regs, r, k, slot, w);
    RunsSet(m, code, pc, regs, st, t, Len(b.0.out), regs1, st1, Bool(c, b.1), r, st1);
    RunsSet(m, code, pc, regs, st, t + 1, Len(b.0.out) + 1, r, st1, Store(Reg(c), slot), regs2, st1);
    RunsBr(m, code, pc, regs, st, t + 2, Len(b.0.out) + 2, regs2, st1, l, to);
  }

  lemma {:induction false} LogicRuns<S>(m: Sem<S>, code: seq<Line>, g: Gen, e: Expr, regs: Regs, st: S)
      returns (t: nat, regs1: Regs)
    requires Once(code) && g.open && e.Logic? && Part(EmitVal(g, e).0.out, code)
    ensures Yields(m, code, g, regs, st, EmitVal(g, e), t, regs1, Val(m, e, st).0, Val(m, e, st).1)
    decreases e, 2
  {
    var g1, n, slot := Slot(g).Labels(3), Slot(g).nlab + 1, Slot(g).ntmp;
    var a := EmitVal(g1, e.l);
    var s := Split(a, e.conj, n);
    var b := EmitVal(s, e.r);
    SidesAre(code, s, a, e.r, e.conj, slot, n);
    ValPart(g1, e.l, code);
    var regs0 := regs[slot := 0];
    SameSet(regs, regs, g.ntmp, slot, 0);
    RunsSet(m, code, Len(g.out), regs, st, 0, Len(g.out), regs, st, Alloca(slot), regs0, st);
    var t1, r1 := ValRuns(m, code, g1, e.l, regs0, st);
    t, regs1 := LeftRuns(m, code, g, g1, e, a, s, b, slot, n, regs, st, regs0, t1, r1);
  }

  lemma {:induction false} LeftRuns<S>(m: Sem<S>, code: seq<Line>, g: Gen, g1: Gen, e: Expr, a: (Gen, Opnd), s: Gen,
                                       b: (Gen, Opnd), slot: nat, n: nat, regs: Regs, st: S, regs0: Regs, t1: nat,
                                       r1: Regs) returns (t: nat, regs1: Regs)
    requires Once(code) && e.Logic? && slot == g.ntmp + 1 && g1.ntmp == slot && a.0.open && slot <= a.0.ntmp
    requires s == Split(a, e.conj, n)
    requires b == EmitVal(s, e.r)
    requires Sides(code, s, b, e.conj, slot, n)
    requires Part(Branch(a, Temp(if e.conj then n else n + 1), Temp(if e.conj then n + 1 else n)).out, code)
    requires Runs(m, code, Len(g.out), regs, st, 1, Len(g1.out), regs0, st) && Same(regs, regs0, g.ntmp)
    requires Yields(m, code, g1, regs0, st, a, t1, r1, Val(m, e.l, st).0, Val(m, e.l, st).1)
    ensures Yields(m, code, g, regs, st, EndLogic(b, e.conj, slot, n), t, regs1, Val(m, e, st).0, Val(m, e, st).1)
    decreases e, 1
  {
    var v, st1 := Val(m, e.l, st).0, Val(m, e.l, st).1;
    var skip := Len(StoreTruth(b, slot).BrTo(Temp(n + 2)).out) + 1;
    var to := if (v != 0) != e.conj then skip else Len(s.out);
    var r2 := BranchRuns(m, code, g1, a, Temp(if e.conj then n else n + 1), Temp(if e.conj then n + 1 else n), regs0,
                         st, t1, r1, v, st1, to);
    RunsThen(m, code, Len(g.out), regs, st, 1, Len(g1.out), regs0, st, t1 + 2, to, r2, st1);
    SameTrans(regs, regs0, r2, g.ntmp, slot);
    if (v != 0) != e.conj {
      t, regs1 := SkippedRuns(m, code, g, e.conj, s, b, slot, n, regs, st, t1 + 3, r2, st1);
    } else {
      t, regs1 := RightRuns(m, code, g, e, s, b, slot, n, regs, st, t1 + 3, r2, st1);
    }
  }

  lemma {:induction false} SkippedRuns<S>(m: Sem<S>, code: seq<Line>, g: Gen, conj: bool, s: Gen, b: (Gen, Opnd),
                                          slot: nat, n: nat, regs: Regs, st: S, t1: nat, r2: Regs,
                                          st1: S) returns (t: nat, regs1: Regs)
    requires slot == g.ntmp + 1 && slot <= b.0.ntmp && Sides(code, s, b, conj, slot, n) && Same(regs, r2, g.ntmp)
    requires Runs(m, code, Len(g.out), regs, st, t1, Len(StoreTruth(b, slot).BrTo(Temp(n + 2)).out) + 1, r2, st1)
    ensures Yields(m, code, g, regs, st, EndLogic(b, conj, slot, n), t, regs1, if conj then 0 else 1, st1)
  {
    var y := StoreTruth(b, slot).BrTo(Temp(n + 2));
    var z, v := StoreOther(y, conj, slot, n), if conj then 0 else 1;
    var r4: Regs;
    t, r4 := SkipRuns(m, code, Len(g.out), regs, st, t1, y, conj, slot, n, r2, st1, g.ntmp);
    regs1 := LoadRuns(m, code, Len(g.out), regs, st, t, z, slot, n, r4, v, st1, g.ntmp);
    t := t + 1;
  }

  lemma {:induction false} RightRuns<S>(m: Sem<S>, code: seq<Line>, g: Gen, e: Expr, s: Gen, b: (Gen, Opnd),
                                        slot: nat, n: nat, regs: Regs, st: S, t1: nat, r2: Regs,
                                        st1: S) returns (t: nat, regs1: Regs)
    requires Once(code) && e.Logic? && slot == g.ntmp + 1 && slot <= s.ntmp && Same(regs, r2, g.ntmp)
    requires b == EmitVal(s, e.r)
    requires Sides(code, s, b, e.conj, slot, n)
    requires Runs(m, code, Len(g.out), regs, st, t1, Len(s.out), r2, st1)
    ensures var r := Val(m, e.r, st1);
            Yields(m, code, g, regs, st, EndLogic(b, e.conj, slot, n), t, regs1, if r.0 != 0 then 1 else 0, r.1)
    decreases e, 0
  {
    var t3, r3 := ValRuns(m, code, s, e.r, r2, st1);
    var w, st2 := Val(m, e.r, st1).0, Val(m, e.r, st1).1;
    RunsThen(m, code, Len(g.out), regs, st, t1, Len(s.out), r2, st1, t3, Len(b.0.out), r3, st2);
    SameTrans(regs, r2, r3, g.ntmp, s.ntmp);
    t, regs1 := JoinRuns(m, code, g, e.conj, s, b, slot, n, regs, st, t1 + t3, r3, w, st2);
  }

  lemma {:induction false} JoinRuns<S>(m: Sem<S>, code: seq<Line>, g: Gen, conj: bool, s: Gen, b: (Gen, Opnd),
                                       slot: nat, n: nat, regs: Regs, st: S, t1: nat, r3: Regs, w: int,
                                       st2: S) returns (t: nat, regs1: Regs)
    requires slot == g.ntmp + 1 && slot <= b.0.ntmp && Sides(code, s, b, conj, slot, n) && Same(regs, r3, g.ntmp)
    requires Runs(m, code, Len(g.out), regs, st, t1, Len(b.0.out), r3, st2) && Read(r3, b.1) == w
    ensures Yields(m, code, g, regs, st, EndLogic(b, conj, slot, n), t, regs1, if w != 0 then 1 else 0, st2)
  {
    var z, v := StoreOther(StoreTruth(b, slot).BrTo(Temp(n + 2)), conj, slot, n), if w != 0 then 1 else 0;
    var r4: Regs;
    t, r4 := TruthRuns(m, code, Len(g.out), regs, st, t1, b, slot, Temp(n + 2), Len(z.out) + 1, r3, w, st2, g.ntmp);
    regs1 := LoadRuns(m, code, Len(g.out), regs, st, t, z, slot, n, r4, v, st2, g.ntmp);
    t := t + 1;
  }
}
