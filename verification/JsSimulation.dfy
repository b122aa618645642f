/** The pc machine and the structured program end alike. */
module JsSimulation {
  import opened Basics
  import opened JsControl
  import opened JsBlocks
  import opened JsMachine

  // ----- what the code of each statement looks like -----

  /** Two states of the emitter around a branch that ends in a jump to the spare block
      db, where emission continues. */
  lemma JoinGlue(f: Gen, g: Gen, g1: Gen, d: set<string>, db: nat)
    requires Grows(g, g1, d) && Spare(g, db) && Within(g1.PutOpen(Jump(db)).(cur := db), f)
    ensures Within(g1, f) && Within(g, f)
    ensures g1.Closed() || Holds(f, Here(g1), Jump(db))
    ensures var g2 := g1.PutOpen(Jump(db)).(cur := db); !g2.Closed() && Here(g2) == Point(db, 0)
  {
    var g2 := g1.PutOpen(Jump(db));
    PutOpenGrows(g1, Jump(db));
    SpareStays(g, g1, d, db);
    SpareStays(g1, g2, {}, db);
    WithinMoved(g2, db, f);
    GrowsWithin(g1, g2, {}, f);
    GrowsWithin(g, g1, d, f);
    if !g1.Closed() { WrittenHolds(g1, Jump(db), f); }
  }

  lemma JumpFollows(f: Gen, g: Gen, s: Stmt, k: Kont, db: nat)
    requires InRange(g) && Somehow(f, k, Point(db, 0))
    requires Emit(g, s).Closed() || Holds(f, Here(Emit(g, s)), Jump(db))
    ensures Follows(f, g, s, k)
  {
    if !Emit(g, s).Closed() { SomehowJump(f, k, Here(Emit(g, s)), db); }
  }

  /** A branch emitted into a fresh block, ended by a jump to the spare block db where
      k goes on. */
  lemma JoinFacts(f: Gen, g: Gen, s: Stmt, k: Kont, db: nat)
    requires Valid(g) && Unique(s) && Unplaced(g, Defs(s)) && Spare(g, db)
    requires var g1 := Emit(g, s).PutOpen(Jump(db)).(cur := db);
             Within(g1, f) && (g1.Closed() || Somehow(f, k, Here(g1)))
    ensures Within(g, f) && Emitted(f, g, s) && Follows(f, g, s, k) && Somehow(f, k, Point(db, 0))
  {
    EmitGrows(g, s);
    JoinGlue(f, g, Emit(g, s), Defs(s), db);
    JumpFollows(f, g, s, k, db);
  }

  /** The parts of an `if` without else: its branch and the join. */
  lemma IfThenFacts(f: Gen, g: Gen, c: nat, t: Stmt, k: Kont) returns (gt: Gen)
    requires Valid(g) && !g.Closed() && Unique(t) && Unplaced(g, Defs(t))
    requires var g1 := EmitIf(g, c, t); Within(g1, f) && (g1.Closed() || Somehow(f, k, Here(g1)))
    ensures Holds(f, Here(g), Cond(c, gt.cur, |g.blocks| + 1))
    ensures ThenAt(f, gt, t, Point(gt.cur, 0)) && Follows(f, gt, t, k)
    ensures Somehow(f, k, Point(|g.blocks| + 1, 0))
  {
    var n, db := |g.blocks|, |g.blocks| + 1;
    gt := g.New().New().Put(Cond(c, n, db)).(cur := n);
    Fork2Facts(g, Cond(c, n, db), Defs(t));
    JoinFacts(f, gt, t, k, db);
    WithinMoved(g.New().New().Put(Cond(c, n, db)), n, f);
    WrittenHolds(g.New().New(), Cond(c, n, db), f);
  }

  /** Two fresh blocks and a terminator; the emitter moves into the first block. */
  lemma Fork2Facts(g: Gen, i: Instr, labels: set<string>)
    requires Valid(g) && !g.Closed() && Unplaced(g, labels)
    ensures var n := |g.blocks|; var g1 := g.New().New().Put(i).(cur := n);
            Valid(g1) && Unplaced(g1, labels) && !g1.Closed() && Here(g1) == Point(n, 0) && Spare(g1, n + 1)
  {
    var g0 := g.New().New().Put(i);
    Fork2(g, i);
    UnplacedStays(g, g0, {}, labels);
    MoveFacts(g0, |g.blocks|, labels);
  }

  /** The current block does not matter for what is in the code. */
  lemma WithinMoved(g: Gen, b: nat, f: Gen)
    requires InRange(g) && b < |g.blocks| && Within(g.(cur := b), f)
    ensures Within(g, f)
  {
  }

  /** Three fresh blocks and a terminator; the emitter moves into the first block. */
  lemma ForkFacts(g: Gen, i: Instr, labels: set<string>)
    requires Valid(g) && !g.Closed() && Unplaced(g, labels)
    ensures var n := |g.blocks|; var g0 := g.New().New().New().Put(i); var g1 := g0.(cur := n);
            Valid(g1) && Unplaced(g1, labels) && !g1.Closed() && Here(g1) == Point(n, 0) && Spare(g1, n + 1)
              && Spare(g1, n + 2)
  {
    var g0 := g.New().New().New().Put(i);
    Fork3(g, i);
    UnplacedStays(g, g0, {}, labels);
    MoveFacts(g0, |g.blocks|, labels);
  }

  lemma ForkHolds(f: Gen, g: Gen, i: Instr)
    requires Valid(g) && !g.Closed() && Within(g.New().New().New().Put(i).(cur := |g.blocks|), f)
    ensures Holds(f, Here(g), i)
  {
    WithinMoved(g.New().New().New().Put(i), |g.blocks|, f);
    WrittenHolds(g.New().New().New(), i, f);
  }

  lemma IfElseFacts(f: Gen, g: Gen, c: nat, t: Stmt, e: Stmt, k: Kont) returns (gt: Gen, ge: Gen)
    requires Valid(g) && !g.Closed() && Unique(If(c, t, Some(e))) && Unplaced(g, Defs(t)) && Unplaced(g, Defs(e))
    requires var g1 := EmitIfElse(g, c, t, e); Within(g1, f) && (g1.Closed() || Somehow(f, k, Here(g1)))
    ensures Holds(f, Here(g), Cond(c, gt.cur, ge.cur))
    ensures ThenAt(f, gt, t, Point(gt.cur, 0)) && Follows(f, gt, t, k)
    ensures ThenAt(f, ge, e, Point(ge.cur, 0)) && Follows(f, ge, e, k)
  {
    ge := ThenPart(g, c, t).(cur := |g.blocks| + 1);
    ElseFacts(f, g, c, t, e, k);
    gt := ThenFacts(f, g, c, t, k);
  }

  /** The else branch starts in its spare block. */
  lemma ElseFacts(f: Gen, g: Gen, c: nat, t: Stmt, e: Stmt, k: Kont)
    requires Valid(g) && !g.Closed() && Unique(e) && Defs(t) !! Defs(e) && Unplaced(g, Defs(e))
    requires var g1 := EmitIfElse(g, c, t, e); Within(g1, f) && (g1.Closed() || Somehow(f, k, Here(g1)))
    ensures var ge := ThenPart(g, c, t).(cur := |g.blocks| + 1);
            ThenAt(f, ge, e, Point(ge.cur, 0)) && Follows(f, ge, e, k)
    ensures Within(ThenPart(g, c, t), f) && Somehow(f, k, Point(|g.blocks| + 2, 0))
  {
    var eb, db := |g.blocks| + 1, |g.blocks| + 2;
    var g2 := ThenPart(g, c, t);
    ElseReady(g, c, t, e);
    assert EmitIfElse(g, c, t, e) == Emit(g2.(cur := eb), e).PutOpen(Jump(db)).(cur := db);
    JoinFacts(f, g2.(cur := eb), e, k, db);
    WithinMoved(g2, eb, f);
  }

  lemma ElseReady(g: Gen, c: nat, t: Stmt, e: Stmt)
    requires Valid(g) && !g.Closed() && Defs(t) !! Defs(e) && Unplaced(g, Defs(e))
    ensures var ge := ThenPart(g, c, t).(cur := |g.blocks| + 1);
            Valid(ge) && Unplaced(ge, Defs(e)) && !ge.Closed() && Here(ge) == Point(ge.cur, 0)
              && Spare(ge, |g.blocks| + 2)
  {
    var g2 := ThenPart(g, c, t);
    ThenPartGrows(g, c, t);
    UnplacedStays(g, g2, Defs(t), Defs(e));
    MoveFacts(g2, |g.blocks| + 1, Defs(e));
  }

  lemma ThenFacts(f: Gen, g: Gen, c: nat, t: Stmt, k: Kont) returns (gt: Gen)
    requires Valid(g) && !g.Closed() && Unique(t) && Unplaced(g, Defs(t))
    requires Within(ThenPart(g, c, t), f) && Somehow(f, k, Point(|g.blocks| + 2, 0))
    ensures gt.cur == |g.blocks| && Holds(f, Here(g), Cond(c, gt.cur, |g.blocks| + 1))
    ensures ThenAt(f, gt, t, Point(gt.cur, 0)) && Follows(f, gt, t, k)
  {
    gt := g.New().New().New().Put(Cond(c, |g.blocks|, |g.blocks| + 1)).(cur := |g.blocks|);
    ForkFacts(g, Cond(c, |g.blocks|, |g.blocks| + 1), Defs(t));
    EndedBranch(f, gt, t, k, |g.blocks| + 2);
    ForkHolds(f, g, Cond(c, |g.blocks|, |g.blocks| + 1));
  }

  lemma EndedBranch(f: Gen, g: Gen, s: Stmt, k: Kont, db: nat)
    requires Valid(g) && Unique(s) && Unplaced(g, Defs(s))
    requires Within(Emit(g, s).PutOpen(Jump(db)), f) && Somehow(f, k, Point(db, 0))
    ensures Within(g, f) && Emitted(f, g, s) && Follows(f, g, s, k)
  {
    var g1 := Emit(g, s);
    EmitGrows(g, s);
    PutOpenGrows(g1, Jump(db));
    GrowsWithin(g1, g1.PutOpen(Jump(db)), {}, f);
    GrowsWithin(g, g1, Defs(s), f);
    BranchFollows(f, g, s, k, db);
  }

  lemma LoopCode(f: Gen, g: Gen, c: Option<nat>, inc: Option<nat>, b: Stmt, k: Kont)
    requires Valid(g) && !g.Closed()
    requires var g1 := EmitLoop(g, c, inc, b); Within(g1, f) && (g1.Closed() || Somehow(f, k, Here(g1)))
    ensures Within(LoopBody(g, c, b), f) && Somehow(f, k, Point(|g.blocks| + 2, 0))
    ensures LoopBody(g, c, b).Closed() || BackEdge(f, Here(LoopBody(g, c, b)), inc, |g.blocks|)
  {
    var n, g2 := |g.blocks|, LoopBody(g, c, b);
    var g3 := LoopBack(g2, inc, n);
    assert EmitLoop(g, c, inc, b) == g3.(cur := n + 2);
    LoopBodyGrows(g, c, b);
    BackGrows(g2, inc, n);
    SpareStays(g2, g3, {}, n + 2);
    WithinMoved(g3, n + 2, f);
    GrowsWithin(g2, g3, {}, f);
    BackFacts(f, g2, inc, n);
  }

  /** A `while` or `for`: the jump to the head, and the head itself. */
  lemma LoopFacts(f: Gen, g: Gen, c: Option<nat>, inc: Option<nat>, b: Stmt, k: Kont) returns (gb: Gen)
    requires Valid(g) && !g.Closed() && Unique(b) && Unplaced(g, Defs(b))
    requires var g1 := EmitLoop(g, c, inc, b); Within(g1, f) && (g1.Closed() || Somehow(f, k, Here(g1)))
    ensures Holds(f, Here(g), Jump(|g.blocks|))
    ensures LoopAt(f, gb, c, inc, b, Point(|g.blocks|, 0), |g.blocks| + 2) && Somehow(f, k, Point(|g.blocks| + 2, 0))
  {
    gb := LoopHead(g, c).(cur := |g.blocks| + 1);
    LoopCode(f, g, c, inc, b, k);
    HeadFacts(f, g, c, b);
  }

  lemma BackFacts(f: Gen, g: Gen, inc: Option<nat>, hb: nat)
    requires Valid(g) && Within(LoopBack(g, inc, hb), f)
    ensures g.Closed() || BackEdge(f, Here(g), inc, hb)
  {
    if !g.Closed() {
      if inc.Some? {
        var g1 := g.Put(Do(inc.value));
        PutGrows(g, Do(inc.value));
        PutGrows(g1, Jump(hb));
        WrittenHolds(g1, Jump(hb), f);
        GrowsWithin(g1, g1.Put(Jump(hb)), {}, f);
        WrittenHolds(g, Do(inc.value), f);
      } else {
        WrittenHolds(g, Jump(hb), f);
      }
    }
  }

  lemma HeadFacts(f: Gen, g: Gen, c: Option<nat>, b: Stmt)
    requires Valid(g) && !g.Closed() && Unique(b) && Unplaced(g, Defs(b)) && Within(LoopBody(g, c, b), f)
    ensures var n := |g.blocks|; var gb := LoopHead(g, c).(cur := n + 1);
            && Holds(f, Here(g), Jump(n))
              && Holds(f, Point(n, 0), if c.Some? then Cond(c.value, n + 1, n + 2) else Jump(n + 1))
            && Emitted(f, gb, b) && !gb.Closed() && Here(gb) == Point(n + 1, 0)
  {
    var n := |g.blocks|;
    var gb := LoopHead(g, c).(cur := n + 1);
    HeadReady(g, c, Defs(b));
    EmitGrows(gb, b);
    GrowsWithin(gb, LoopBody(g, c, b), Defs(b), f);
    WithinMoved(LoopHead(g, c), n + 1, f);
    HeadHolds(f, g, c);
  }

  lemma HeadReady(g: Gen, c: Option<nat>, labels: set<string>)
    requires Valid(g) && !g.Closed() && Unplaced(g, labels)
    ensures var gb := LoopHead(g, c).(cur := |g.blocks| + 1);
            Valid(gb) && Unplaced(gb, labels) && !gb.Closed() && Here(gb) == Point(|g.blocks| + 1, 0)
  {
    HeadGrows(g, c);
    UnplacedStays(g, LoopHead(g, c), {}, labels);
    MoveFacts(LoopHead(g, c), |g.blocks| + 1, labels);
  }

  lemma HeadHolds(f: Gen, g: Gen, c: Option<nat>)
    requires Valid(g) && !g.Closed() && Within(LoopHead(g, c), f)
    ensures var n := |g.blocks|;
            Holds(f, Here(g), Jump(n))
              && Holds(f, Point(n, 0), if c.Some? then Cond(c.value, n + 1, n + 2) else Jump(n + 1))
  {
    var n := |g.blocks|;
    var i := if c.Some? then Cond(c.value, n + 1, n + 2) else Jump(n + 1);
    var g2 := g.New().New().New().Put(Jump(n)).(cur := n);
    ForkFacts(g, Jump(n), {});
    PutGrows(g2, i);
    WrittenHolds(g2, i, f);
    GrowsWithin(g2, g2.Put(i), {}, f);
    ForkHolds(f, g, Jump(n));
  }

  /** The state in which the body of a `do` is emitted. */
  function DoBody(g: Gen): (r: Gen)
    requires InRange(g)
    ensures InRange(r) && |r.blocks| == |g.blocks| + 3
  {
    g.New().New().New().Put(Jump(|g.blocks|)).(cur := |g.blocks|)
  }

  /** What follows the start of a `do`, seen from the state g at the start of its body. */
  function DoRest(g: Gen, b: Stmt, c: nat, n: nat): (r: Gen)
    requires InRange(g) && n + 2 < |g.blocks|
    ensures InRange(r)
  {
    Emit(g, b).PutOpen(Jump(n + 1)).(cur := n + 1).Put(Cond(c, n, n + 2)).(cur := n + 2)
  }

  lemma DoCode(f: Gen, gb: Gen, b: Stmt, c: nat, n: nat, k: Kont)
    requires Valid(gb) && Spare(gb, n + 1) && Spare(gb, n + 2) && gb.cur == n && Unique(b) && Unplaced(gb, Defs(b))
    requires var g1 := DoRest(gb, b, c, n); Within(g1, f) && (g1.Closed() || Somehow(f, k, Here(g1)))
    ensures Within(gb, f) && Emitted(f, gb, b)
    ensures Emit(gb, b).Closed() || Holds(f, Here(Emit(gb, b)), Jump(n + 1))
    ensures Holds(f, Point(n + 1, 0), Cond(c, n, n + 2)) && Somehow(f, k, Point(n + 2, 0))
  {
    EmitGrows(gb, b);
    TestGlue(f, gb, Emit(gb, b), Defs(b), c, n + 1, n + 2);
  }

  /** A `do`: the jump to the body, which is also the body of the loop behind it. */
  lemma DoWhileFacts(f: Gen, g: Gen, b: Stmt, c: nat, k: Kont) returns (gb: Gen)
    requires Valid(g) && !g.Closed() && Unique(b) && Unplaced(g, Defs(b))
    requires var g1 := EmitDo(g, b, c); Within(g1, f) && (g1.Closed() || Somehow(f, k, Here(g1)))
    ensures Holds(f, Here(g), Jump(gb.cur))
    ensures LoopAt(f, gb, Some(c), None, b, Point(|g.blocks| + 1, 0), |g.blocks| + 2)
            && Somehow(f, k, Point(|g.blocks| + 2, 0))
  {
    gb := DoBody(g);
    ForkFacts(g, Jump(|g.blocks|), Defs(b));
    assert EmitDo(g, b, c) == DoRest(gb, b, c, |g.blocks|);
    DoCode(f, gb, b, c, |g.blocks|, k);
    ForkHolds(f, g, Jump(|g.blocks|));
  }

  /** The body of a `do` from g to g1, ended by a jump to the test in the spare block hb. */
  lemma TestGlue(f: Gen, g: Gen, g1: Gen, d: set<string>, c: nat, hb: nat, db: nat)
    requires Grows(g, g1, d) && Spare(g, hb) && Spare(g, db) && hb != db
    requires Within(g1.PutOpen(Jump(hb)).(cur := hb).Put(Cond(c, g.cur, db)).(cur := db), f)
    ensures Within(g1, f) && Within(g, f)
    ensures g1.Closed() || Holds(f, Here(g1), Jump(hb))
    ensures Holds(f, Point(hb, 0), Cond(c, g.cur, db))
    ensures var g4 := g1.PutOpen(Jump(hb)).(cur := hb).Put(Cond(c, g.cur, db)).(cur := db);
            !g4.Closed() && Here(g4) == Point(db, 0)
  {
    var i, g2 := Cond(c, g.cur, db), g1.PutOpen(Jump(hb));
    var g3 := g2.(cur := hb);
    assert Spare(g2, hb) && Spare(g2, db) && Valid(g2) by {
      PutOpenGrows(g1, Jump(hb));
      SpareStays(g, g1, d, hb);
      SpareStays(g, g1, d, db);
      SpareStays(g1, g2, {}, hb);
      SpareStays(g1, g2, {}, db);
    }
    PutGrows(g3, i);
    SpareStays(g3, g3.Put(i), {}, db);
    WithinMoved(g3.Put(i), db, f);
    WrittenHolds(g3, i, f);
    GrowsWithin(g3, g3.Put(i), {}, f);
    JoinGlue(f, g, g1, d, hb);
  }

  /** A statement list, one statement at a time. */
  ghost predicate EmittedList(f: Gen, g: Gen, ss: seq<Stmt>) {
    Valid(g) && ListUnique(ss) && Unplaced(g, ListDefs(ss)) && Within(EmitList(g, ss), f)
  }

  lemma FirstOfList(f: Gen, g: Gen, ss: seq<Stmt>)
    requires EmittedList(f, g, ss) && ss != []
    ensures Emitted(f, g, ss[0]) && EmittedList(f, Emit(g, ss[0]), ss[1..])
  {
    EmitGrows(g, ss[0]);
    EmitListGrows(Emit(g, ss[0]), ss[1..]);
    GrowsWithin(Emit(g, ss[0]), EmitList(g, ss), ListDefs(ss[1..]), f);
    UnplacedStays(g, Emit(g, ss[0]), Defs(ss[0]), ListDefs(ss[1..]));
  }

  lemma {:induction false} ListMatch(f: Gen, g: Gen, ss: seq<Stmt>, k: Kont)
    requires EmittedList(f, g, ss) && !g.Closed()
    requires EmitList(g, ss).Closed() || Somehow(f, k, Here(EmitList(g, ss)))
    ensures Somehow(f, PushAll(ss, k), Here(g))
    decreases |ss|
  {
    if ss != [] {
      FirstOfList(f, g, ss);
      var g1 := Emit(g, ss[0]);
      if !g1.Closed() { ListMatch(f, g1, ss[1..], k); }
      assert ThenAt(f, g, ss[0], Here(g));
      SomehowNow(f, PushAll(ss, k), Here(g));
    }
  }
}
