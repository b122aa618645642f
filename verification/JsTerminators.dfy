/** Every block of an emitted function ends in exactly one terminator, so no case of
    the `switch (pc)` falls through. */
module JsTerminators {
  import opened Basics
  import opened JsControl
  import opened JsBlocks

  /** The open blocks are the current one, the reserved ones in R, and those of labels
      that were used but not yet placed (P are the placed ones). */
  ghost predicate Settled(g: Gen, R: set<nat>, P: set<string>) {
    && InRange(g) && P <= g.lmap.Keys
    && forall b | 0 <= b < |g.blocks| && !g.blocks[b].term :: b == g.cur || b in R || Awaited(g, b, P)
  }

  ghost predicate Awaited(g: Gen, b: nat, P: set<string>) {
    exists l | l in g.lmap :: l !in P && g.lmap[l] == b
  }

  lemma SettlePut(g: Gen, i: Instr, R: set<nat>, P: set<string>)
    requires Settled(g, R, P)
    ensures Settled(g.Put(i), R, P) && Settled(g.PutOpen(i), R, P)
  {
    forall b | 0 <= b < |g.blocks| && !g.Put(i).blocks[b].term ensures b == g.cur || b in R || Awaited(g.Put(i), b, P) {
      if b != g.cur && b !in R { assert Awaited(g, b, P); }
    }
  }

  lemma SettleNew(g: Gen, R: set<nat>, P: set<string>)
    requires Settled(g, R, P)
    ensures Settled(g.New(), R + {|g.blocks|}, P)
  {
    forall b | 0 <= b < |g.New().blocks| && !g.New().blocks[b].term
      ensures b == g.cur || b in R + {|g.blocks|} || Awaited(g.New(), b, P) {
      if b < |g.blocks| && b != g.cur && b !in R { assert Awaited(g, b, P); }
    }
  }

  lemma SettleMove(g: Gen, R: set<nat>, P: set<string>, b: nat)
    requires Settled(g, R + {b}, P) && g.Closed() && b < |g.blocks|
    ensures Settled(g.(cur := b), R, P)
  {
    var g1 := g.(cur := b);
    forall c | 0 <= c < |g.blocks| && !g.blocks[c].term ensures c == b || c in R || Awaited(g1, c, P) {
      if c != b && c !in R { assert Awaited(g, c, P); }
    }
  }

  /** Two or three fresh blocks, then a terminator, then into the first of them. */
  lemma SettleFork2(g: Gen, i: Instr, R: set<nat>, P: set<string>)
    requires Settled(g, R, P) && Terminator(i)
    ensures var n := |g.blocks|; Settled(g.New().New().Put(i).(cur := n), R + {n + 1}, P)
  {
    var n := |g.blocks|;
    SettleNew(g, R, P);
    SettleNew(g.New(), R + {n}, P);
    SettlePut(g.New().New(), i, R + {n} + {n + 1}, P);
    assert R + {n} + {n + 1} == R + {n + 1} + {n};
    SettleMove(g.New().New().Put(i), R + {n + 1}, P, n);
  }

  lemma SettleFork3(g: Gen, i: Instr, R: set<nat>, P: set<string>)
    requires Settled(g, R, P) && Terminator(i)
    ensures var n := |g.blocks|; Settled(g.New().New().New().Put(i).(cur := n), R + {n + 1, n + 2}, P)
  {
    var n := |g.blocks|;
    SettleNew(g, R, P);
    SettleNew(g.New(), R + {n}, P);
    SettleNew(g.New().New(), R + {n} + {n + 1}, P);
    SettlePut(g.New().New().New(), i, R + {n} + {n + 1} + {n + 2}, P);
    assert R + {n} + {n + 1} + {n + 2} == R + {n + 1, n + 2} + {n};
    SettleMove(g.New().New().New().Put(i), R + {n + 1, n + 2}, P, n);
  }

  /** The end of a branch: jump if open, continue in the reserved block. */
  lemma SettleJoin(g: Gen, i: Instr, R: set<nat>, R1: set<nat>, P: set<string>, b: nat)
    requires R1 == R + {b} && Settled(g, R1, P) && Terminator(i) && b < |g.blocks|
    ensures Settled(g.PutOpen(i).(cur := b), R, P)
  {
    SettlePut(g, i, R1, P);
    SettleMove(g.PutOpen(i), R, P, b);
  }

  lemma {:induction false} EmitSettles(g: Gen, s: Stmt, R: set<nat>, P: set<string>)
    requires Settled(g, R, P)
    ensures Settled(Emit(g, s), R, P + Defs(s))
    decreases s, 3
  {
    if g.Closed() && !s.Label? {
      SettleNew(g, R, P);
      SettleMove(g.New(), R, P, |g.blocks|);
    }
    EmitInSettles(Enter(g, s), s, R, P);
  }

  lemma {:induction false} EmitInSettles(g: Gen, s: Stmt, R: set<nat>, P: set<string>)
    requires Settled(g, R, P)
    ensures Settled(EmitIn(g, s), R, P + Defs(s))
    decreases s, 2
  {
    match s
    case Nop => assert P + {} == P;
    case Act(a) => SettlePut(g, Do(a), R, P); assert P + {} == P;
    case Return(e) => SettlePut(g, Ret(e), R, P); assert P + {} == P;
    case Block(ss) => ListSettles(g, ss, R, P);
    case If(c, t, None) => IfSettles(g, c, t, R, P); assert Defs(s) == Defs(t);
    case If(c, t, Some(e)) => IfElseSettles(g, c, t, e, R, P);
    case While(c, b) => LoopSettles(g, Some(c), None, b, R, P);
    case For(c, inc, b) => LoopSettles(g, c, inc, b, R, P);
    case DoWhile(b, c) => DoSettles(g, b, c, R, P);
    case Goto(l) => SettleLabel(g, l, R, P); assert P + {} == P;
      var g1 := g.LabelBlock(l);
      SettlePut(g1, Jump(g1.lmap[l]), R, P);
    case Label(l) => LabelSettles(g, l, R, P);
  }

  lemma SettleLabel(g: Gen, l: string, R: set<nat>, P: set<string>)
    requires Settled(g, R, P)
    ensures Settled(g.LabelBlock(l), R, P)
  {
    var g1 := g.LabelBlock(l);
    if l !in g.lmap {
      forall b | 0 <= b < |g1.blocks| && !g1.blocks[b].term ensures b == g1.cur || b in R || Awaited(g1, b, P) {
        if b == |g.blocks| {
          assert g1.lmap[l] == b;
        } else if b != g.cur && b !in R {
          assert Awaited(g, b, P);
          var k :| k in g.lmap && k !in P && g.lmap[k] == b;
          assert g1.lmap[k] == b;
        }
      }
    }
  }

  lemma LabelSettles(g: Gen, l: string, R: set<nat>, P: set<string>)
    requires Settled(g, R, P)
    ensures Settled(EmitIn(g, Label(l)), R, P + {l})
  {
    var g1 := g.LabelBlock(l);
    var b := g1.lmap[l];
    SettleLabel(g, l, R, P);
    SettlePut(g1, Jump(b), R, P);
    var g2 := g1.PutOpen(Jump(b));
    var g3 := g2.(cur := b);
    forall c | 0 <= c < |g3.blocks| && !g3.blocks[c].term ensures c == b || c in R || Awaited(g3, c, P + {l}) {
      if c != b && c !in R {
        assert Awaited(g2, c, P);
        var k :| k in g2.lmap && k !in P && g2.lmap[k] == c;
        assert k != l && g3.lmap[k] == c;
      }
    }
  }

  lemma {:induction false} ListSettles(g: Gen, ss: seq<Stmt>, R: set<nat>, P: set<string>)
    requires Settled(g, R, P)
    ensures Settled(EmitList(g, ss), R, P + ListDefs(ss))
    decreases ss, 0
  {
    if ss == [] {
      assert P + {} == P;
    } else {
      EmitSettles(g, ss[0], R, P);
      ListSettles(Emit(g, ss[0]), ss[1..], R, P + Defs(ss[0]));
      assert P + Defs(ss[0]) + ListDefs(ss[1..]) == P + ListDefs(ss);
    }
  }

  lemma {:induction false} ThenPartSettles(g: Gen, c: nat, t: Stmt, R: set<nat>, P: set<string>)
    requires Settled(g, R, P)
    ensures Settled(ThenPart(g, c, t), R + {|g.blocks| + 1, |g.blocks| + 2}, P + Defs(t)) && ThenPart(g, c, t).Closed()
    decreases t, 4
  {
    var n := |g.blocks|;
    var g0 := g.New().New().New().Put(Cond(c, n, n + 1)).(cur := n);
    SettleFork3(g, Cond(c, n, n + 1), R, P);
    EmitSettles(g0, t, R + {n + 1, n + 2}, P);
    SettlePut(Emit(g0, t), Jump(n + 2), R + {n + 1, n + 2}, P + Defs(t));
  }

  lemma {:induction false} IfElseSettles(g: Gen, c: nat, t: Stmt, e: Stmt, R: set<nat>, P: set<string>)
    requires Settled(g, R, P)
    ensures Settled(EmitIfElse(g, c, t, e), R, P + (Defs(t) + Defs(e)))
    decreases If(c, t, Some(e)), 0
  {
    ThenPartSettles(g, c, t, R, P);
    ElseSettles(ThenPart(g, c, t), e, R, P + Defs(t), |g.blocks| + 1, |g.blocks| + 2);
    assert P + Defs(t) + Defs(e) == P + (Defs(t) + Defs(e));
  }

  lemma {:induction false} ElseSettles(g: Gen, e: Stmt, R: set<nat>, P: set<string>, eb: nat, db: nat)
    requires Settled(g, R + {eb, db}, P) && g.Closed() && eb < |g.blocks| && db < |g.blocks| && eb != db
    ensures Settled(Emit(g.(cur := eb), e).PutOpen(Jump(db)).(cur := db), R, P + Defs(e))
    decreases e, 4
  {
    assert R + {eb, db} == R + {db} + {eb};
    SettleMove(g, R + {db}, P, eb);
    EmitSettles(g.(cur := eb), e, R + {db}, P);
    SettleJoin(Emit(g.(cur := eb), e), Jump(db), R, R + {db}, P + Defs(e), db);
  }

  lemma {:induction false} DoSettles(g: Gen, b: Stmt, c: nat, R: set<nat>, P: set<string>)
    requires Settled(g, R, P)
    ensures Settled(EmitDo(g, b, c), R, P + Defs(b))
    decreases b, 4
  {
    var n := |g.blocks|;
    var g0 := g.New().New().New().Put(Jump(n)).(cur := n);
    SettleFork3(g, Jump(n), R, P);
    EmitSettles(g0, b, R + {n + 1, n + 2}, P);
    SettleJoin(Emit(g0, b), Jump(n + 1), R + {n + 2}, R + {n + 1, n + 2}, P + Defs(b), n + 1);
    var g1 := Emit(g0, b).PutOpen(Jump(n + 1)).(cur := n + 1);
    SettlePut(g1, Cond(c, n, n + 2), R + {n + 2}, P + Defs(b));
    SettleMove(g1.Put(Cond(c, n, n + 2)), R, P + Defs(b), n + 2);
  }

  lemma {:induction false} IfSettles(g: Gen, c: nat, t: Stmt, R: set<nat>, P: set<string>)
    requires Settled(g, R, P)
    ensures Settled(EmitIf(g, c, t), R, P + Defs(t))
    decreases t, 4
  {
    var n := |g.blocks|;
    var g0 := g.New().New().Put(Cond(c, n, n + 1)).(cur := n);
    SettleFork2(g, Cond(c, n, n + 1), R, P);
    EmitSettles(g0, t, R + {n + 1}, P);
    SettleJoin(Emit(g0, t), Jump(n + 1), R, R + {n + 1}, P + Defs(t), n + 1);
  }

  lemma {:induction false} LoopSettles(g: Gen, c: Option<nat>, inc: Option<nat>, b: Stmt, R: set<nat>, P: set<string>)
    requires Settled(g, R, P)
    ensures Settled(EmitLoop(g, c, inc, b), R, P + Defs(b))
    decreases b, 4
  {
    HeadSettles(g, c, R, P);
    EmitSettles(LoopHead(g, c).(cur := |g.blocks| + 1), b, R + {|g.blocks| + 2}, P);
    BackSettles(Emit(LoopHead(g, c).(cur := |g.blocks| + 1), b), inc, |g.blocks|, R, P + Defs(b));
  }

  lemma HeadSettles(g: Gen, c: Option<nat>, R: set<nat>, P: set<string>)
    requires Settled(g, R, P)
    ensures Settled(LoopHead(g, c).(cur := |g.blocks| + 1), R + {|g.blocks| + 2}, P)
  {
    var n := |g.blocks|;
    var i := if c.Some? then Cond(c.value, n + 1, n + 2) else Jump(n + 1);
    var g0 := g.New().New().New().Put(Jump(n)).(cur := n);
    SettleFork3(g, Jump(n), R, P);
    SettlePut(g0, i, R + {n + 1, n + 2}, P);
    assert R + {n + 1, n + 2} == R + {n + 2} + {n + 1};
    SettleMove(g0.Put(i), R + {n + 2}, P, n + 1);
  }

  lemma BackSettles(g: Gen, inc: Option<nat>, n: nat, R: set<nat>, P: set<string>)
    requires Settled(g, R + {n + 2}, P) && n + 2 < |g.blocks|
    ensures Settled(LoopBack(g, inc, n).(cur := n + 2), R, P)
  {
    if !g.Closed() {
      if inc.Some? { SettlePut(g, Do(inc.value), R + {n + 2}, P); }
      SettlePut(if inc.Some? then g.Put(Do(inc.value)) else g, Jump(n), R + {n + 2}, P);
    }
    SettleMove(LoopBack(g, inc, n), R, P, n + 2);
  }

  lemma {:induction false} EmitLabels(g: Gen, s: Stmt)
    requires InRange(g)
    ensures Emit(g, s).lmap.Keys <= g.lmap.Keys + Defs(s) + Uses(s)
    decreases s, 1
  {
    var g1 := Enter(g, s);
    match s
    case Block(ss) => ListLabels(g1, ss);
    case If(c, t, None) => IfLabels(g1, c, t);
    case If(c, t, Some(e)) => IfElseLabels(g1, c, t, e);
    case While(c, b) => LoopLabels(g1, Some(c), None, b);
    case For(c, inc, b) => LoopLabels(g1, c, inc, b);
    case DoWhile(b, c) => DoLabels(g1, b, c);
    case _ =>
  }

  lemma {:induction false} IfLabels(g: Gen, c: nat, t: Stmt)
    requires InRange(g)
    ensures EmitIf(g, c, t).lmap.Keys <= g.lmap.Keys + Defs(t) + Uses(t)
    decreases t, 2
  {
    var n := |g.blocks|;
    EmitLabels(g.New().New().Put(Cond(c, n, n + 1)).(cur := n), t);
  }

  lemma {:induction false} ThenPartLabels(g: Gen, c: nat, t: Stmt)
    requires InRange(g)
    ensures ThenPart(g, c, t).lmap.Keys <= g.lmap.Keys + Defs(t) + Uses(t)
    decreases t, 2
  {
    var n := |g.blocks|;
    EmitLabels(g.New().New().New().Put(Cond(c, n, n + 1)).(cur := n), t);
  }

  lemma {:induction false} IfElseLabels(g: Gen, c: nat, t: Stmt, e: Stmt)
    requires InRange(g)
    ensures EmitIfElse(g, c, t, e).lmap.Keys <= g.lmap.Keys + (Defs(t) + Defs(e)) + (Uses(t) + Uses(e))
    decreases If(c, t, Some(e)), 0
  {
    ThenPartLabels(g, c, t);
    EmitLabels(ThenPart(g, c, t).(cur := |g.blocks| + 1), e);
  }

  lemma {:induction false} DoLabels(g: Gen, b: Stmt, c: nat)
    requires InRange(g)
    ensures EmitDo(g, b, c).lmap.Keys <= g.lmap.Keys + Defs(b) + Uses(b)
    decreases b, 2
  {
    var n := |g.blocks|;
    EmitLabels(g.New().New().New().Put(Jump(n)).(cur := n), b);
  }

  lemma {:induction false} LoopLabels(g: Gen, c: Option<nat>, inc: Option<nat>, b: Stmt)
    requires InRange(g)
    ensures EmitLoop(g, c, inc, b).lmap.Keys <= g.lmap.Keys + Defs(b) + Uses(b)
    decreases b, 2
  {
    EmitLabels(LoopHead(g, c).(cur := |g.blocks| + 1), b);
  }

  lemma {:induction false} ListLabels(g: Gen, ss: seq<Stmt>)
    requires InRange(g)
    ensures EmitList(g, ss).lmap.Keys <= g.lmap.Keys + ListDefs(ss) + ListUses(ss)
    decreases ss, 0
  {
    if ss != [] {
      EmitLabels(g, ss[0]);
      ListLabels(Emit(g, ss[0]), ss[1..]);
    }
  }

  /** In the code of a function whose gotos all have labels, every block is
      straight-line code followed by exactly one terminator. */
  lemma EveryBlockEnds(s: Stmt)
    requires Uses(s) <= Defs(s)
    ensures forall b | 0 <= b < |EmitBody(s).blocks| :: WellEnded(EmitBody(s).blocks[b]) && EmitBody(s).blocks[b].term
  {
    EmitGrows(START, s);
    EmitSettles(START, s, {}, {});
    EmitLabels(START, s);
    var g := Emit(START, s);
    PutOpenGrows(g, Ret(None));
    forall b | 0 <= b < |g.blocks| ensures g.PutOpen(Ret(None)).blocks[b].term {
      assert !Awaited(g, b, {} + Defs(s));
    }
  }
}
