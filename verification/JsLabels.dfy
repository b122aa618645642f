/** The block of a label runs what a goto to it runs in the source. */
module JsLabels {
  import opened Basics
  import opened JsControl
  import opened JsBlocks
  import opened JsMachine
  import opened JsSimulation

  /** Opening a block for s changes nothing about s. */
  lemma EnterFacts(f: Gen, g: Gen, s: Stmt)
    requires Emitted(f, g, s) && !s.Label?
    ensures var g1 := Enter(g, s);
            Emitted(f, g1, s) && !g1.Closed() && EmitIn(g1, s) == Emit(g, s) && Emit(g1, s) == Emit(g, s)
  {
    EnterGrows(g, s);
    UnplacedStays(g, Enter(g, s), {}, Defs(s));
  }

  /** A label ends up at the start of its block, with nothing written there. */
  lemma LabelFacts(f: Gen, g: Gen, l: string, k: Kont)
    requires Emitted(f, g, Label(l)) && Follows(f, g, Label(l), k)
    ensures l in f.lmap && Somehow(f, k, Point(f.lmap[l], 0))
    ensures g.Closed() || Holds(f, Here(g), Jump(f.lmap[l]))
  {
    var g1 := g.LabelBlock(l);
    var g2 := g1.PutOpen(Jump(g1.lmap[l]));
    LabelBlockGrows(g, l);
    assert Emit(g, Label(l)) == g2.(cur := g1.lmap[l]);
    assert g1.blocks[g1.lmap[l]] == EMPTY && g1.lmap[l] != g1.cur;
    WithinMoved(g2, g1.lmap[l], f);
    if !g.Closed() { WrittenHolds(g1, Jump(g1.lmap[l]), f); }
  }

  /** The end of a loop body leads back to the loop. */
  lemma BodyFollows(f: Gen, g: Gen, c: Option<nat>, inc: Option<nat>, b: Stmt, p: Point, db: nat, k: Kont)
    requires LoopAt(f, g, c, inc, b, p, db) && Somehow(f, k, Point(db, 0))
    ensures Match(f, Loop(c, inc, b, k), p, 0)
    ensures Follows(f, g, b, Inc(c, inc, b, k))
  {
    assert Match(f, Loop(c, inc, b, k), p, 0);
    if !Emit(g, b).Closed() {
      assert p == Point(p.b, 0);
      SomehowNow(f, Inc(c, inc, b, k), Here(Emit(g, b)));
    }
  }

  /** The labels of s are found, and only those. */
  lemma {:induction false} FoundIff(s: Stmt, l: string, k: Kont)
    ensures FindLabel(s, l, k).Some? <==> l in Defs(s)
    decreases s, 1
  {
    match s
    case Block(ss) => FoundInListIff(ss, l, k);
    case If(_, t, e) =>
      FoundIff(t, l, k);
      if e.Some? { FoundIff(e.value, l, k); }
    case While(c, b) => FoundIff(b, l, Inc(Some(c), None, b, k));
    case DoWhile(b, c) => FoundIff(b, l, Inc(Some(c), None, b, k));
    case For(c, inc, b) => FoundIff(b, l, Inc(c, inc, b, k));
    case _ =>
  }

  lemma {:induction false} FoundInListIff(ss: seq<Stmt>, l: string, k: Kont)
    ensures FindInList(ss, l, k).Some? <==> l in ListDefs(ss)
    decreases ss, 0
  {
    if ss != [] {
      FoundIff(ss[0], l, PushAll(ss[1..], k));
      FoundInListIff(ss[1..], l, k);
    }
  }

  ghost predicate Lands(f: Gen, r: Option<Kont>, l: string) {
    r.Some? && l in f.lmap && Somehow(f, r.value, Point(f.lmap[l], 0))
  }

  lemma {:induction false} LabelMatch(f: Gen, g: Gen, s: Stmt, l: string, k: Kont)
    requires Emitted(f, g, s) && l in Defs(s) && Follows(f, g, s, k)
    ensures Lands(f, FindLabel(s, l, k), l)
    decreases s, 1
  {
    if s.Label? {
      LabelFacts(f, g, l, k);
    } else {
      EnterFacts(f, g, s);
      var g1 := Enter(g, s);
      match s
      case Block(ss) => ListLabelMatch(f, g1, ss, l, k);
      case If(c, t, None) => IfLabelMatch(f, g1, c, t, l, k);
      case If(c, t, Some(e)) => IfElseLabelMatch(f, g1, c, t, e, l, k);
      case While(c, b) => LoopLabelMatch(f, g1, Some(c), None, b, l, k);
      case For(c, inc, b) => LoopLabelMatch(f, g1, c, inc, b, l, k);
      case DoWhile(b, c) => DoLabelMatch(f, g1, b, c, l, k);
    }
  }

  lemma {:induction false} IfLabelMatch(f: Gen, g: Gen, c: nat, t: Stmt, l: string, k: Kont)
    requires Valid(g) && !g.Closed() && Unique(t) && Unplaced(g, Defs(t)) && l in Defs(t)
    requires var g1 := EmitIf(g, c, t); Within(g1, f) && (g1.Closed() || Somehow(f, k, Here(g1)))
    ensures Lands(f, FindLabel(t, l, k), l)
    decreases t, 2
  {
    var gt := IfThenFacts(f, g, c, t, k);
    LabelMatch(f, gt, t, l, k);
  }

  lemma {:induction false} IfElseLabelMatch(f: Gen, g: Gen, c: nat, t: Stmt, e: Stmt, l: string, k: Kont)
    requires Valid(g) && !g.Closed() && Unique(If(c, t, Some(e))) && Unplaced(g, Defs(t)) && Unplaced(g, Defs(e))
             && l in Defs(t) + Defs(e)
    requires var g1 := EmitIfElse(g, c, t, e); Within(g1, f) && (g1.Closed() || Somehow(f, k, Here(g1)))
    ensures Lands(f, FindLabel(If(c, t, Some(e)), l, k), l)
    decreases If(c, t, Some(e)), 0
  {
    var gt, ge := IfElseFacts(f, g, c, t, e, k);
    FoundIff(t, l, k);
    if l in Defs(t) { LabelMatch(f, gt, t, l, k); } else { LabelMatch(f, ge, e, l, k); }
  }

  lemma {:induction false} LoopLabelMatch(f: Gen, g: Gen, c: Option<nat>, inc: Option<nat>, b: Stmt, l: string, k: Kont)
    requires Valid(g) && !g.Closed() && Unique(b) && Unplaced(g, Defs(b)) && l in Defs(b)
    requires var g1 := EmitLoop(g, c, inc, b); Within(g1, f) && (g1.Closed() || Somehow(f, k, Here(g1)))
    ensures Lands(f, FindLabel(b, l, Inc(c, inc, b, k)), l)
    decreases b, 2
  {
    var gb := LoopFacts(f, g, c, inc, b, k);
    BodyFollows(f, gb, c, inc, b, Point(|g.blocks|, 0), |g.blocks| + 2, k);
    LabelMatch(f, gb, b, l, Inc(c, inc, b, k));
  }

  lemma {:induction false} DoLabelMatch(f: Gen, g: Gen, b: Stmt, c: nat, l: string, k: Kont)
    requires Valid(g) && !g.Closed() && Unique(b) && Unplaced(g, Defs(b)) && l in Defs(b)
    requires var g1 := EmitDo(g, b, c); Within(g1, f) && (g1.Closed() || Somehow(f, k, Here(g1)))
    ensures Lands(f, FindLabel(b, l, Inc(Some(c), None, b, k)), l)
    decreases b, 2
  {
    var gb := DoWhileFacts(f, g, b, c, k);
    BodyFollows(f, gb, Some(c), None, b, Point(|g.blocks| + 1, 0), |g.blocks| + 2, k);
    LabelMatch(f, gb, b, l, Inc(Some(c), None, b, k));
  }

  lemma {:induction false} ListLabelMatch(f: Gen, g: Gen, ss: seq<Stmt>, l: string, k: Kont)
    requires EmittedList(f, g, ss) && l in ListDefs(ss)
    requires EmitList(g, ss).Closed() || Somehow(f, k, Here(EmitList(g, ss)))
    ensures Lands(f, FindInList(ss, l, k), l)
    decreases ss, 0
  {
    FirstOfList(f, g, ss);
    var g1 := Emit(g, ss[0]);
    FoundIff(ss[0], l, PushAll(ss[1..], k));
    if l in Defs(ss[0]) {
      if !g1.Closed() { ListMatch(f, g1, ss[1..], k); }
      LabelMatch(f, g, ss[0], l, PushAll(ss[1..], k));
    } else {
      ListLabelMatch(f, g1, ss[1..], l, k);
    }
  }
}
