/** What the emitter may touch, and that every block ends in exactly one terminator. */
module JsBlocks {
  import opened Basics
  import opened JsControl

  /** The labels a statement defines. */
  function Defs(s: Stmt): set<string>
    decreases s, 1
  {
    match s
    case Block(ss) => ListDefs(ss)
    case If(_, t, e) => Defs(t) + if e.Some? then Defs(e.value) else {}
    case While(_, b) => Defs(b)
    case DoWhile(b, _) => Defs(b)
    case For(_, _, b) => Defs(b)
    case Label(l) => {l}
    case _ => {}
  }

  function ListDefs(ss: seq<Stmt>): set<string>
    decreases ss, 0
  {
    if ss == [] then {} else Defs(ss[0]) + ListDefs(ss[1..])
  }

  /** No label is defined twice. */
  predicate Unique(s: Stmt)
    decreases s, 1
  {
    match s
    case Block(ss) => ListUnique(ss)
    case If(_, t, e) => Unique(t) && (e.Some? ==> Unique(e.value) && Defs(t) !! Defs(e.value))
    case While(_, b) => Unique(b)
    case DoWhile(b, _) => Unique(b)
    case For(_, _, b) => Unique(b)
    case _ => true
  }

  predicate ListUnique(ss: seq<Stmt>)
    decreases ss, 0
  {
    ss == [] || (Unique(ss[0]) && ListUnique(ss[1..]) && Defs(ss[0]) !! ListDefs(ss[1..]))
  }

  /** The labels gotos name. */
  function Uses(s: Stmt): set<string>
    decreases s, 1
  {
    match s
    case Block(ss) => ListUses(ss)
    case If(_, t, e) => Uses(t) + if e.Some? then Uses(e.value) else {}
    case While(_, b) => Uses(b)
    case DoWhile(b, _) => Uses(b)
    case For(_, _, b) => Uses(b)
    case Goto(l) => {l}
    case _ => {}
  }

  function ListUses(ss: seq<Stmt>): set<string>
    decreases ss, 0
  {
    if ss == [] then {} else Uses(ss[0]) + ListUses(ss[1..])
  }

  // ----- one block -----

  /** Straight-line code, ended by one terminator exactly when it is marked so. */
  predicate WellEnded(b: Blk) {
    && (forall i | 0 <= i < |b.text| - 1 :: !Terminator(b.text[i]))
    && (b.term <==> b.text != [] && Terminator(b.text[|b.text| - 1]))
  }

  predicate Later(a: Blk, b: Blk) {
    a.text <= b.text && (a.term ==> b == a)
  }

  // ----- the emitter's state -----

  ghost predicate Valid(g: Gen) {
    && InRange(g)
    && (forall b | 0 <= b < |g.blocks| :: WellEnded(g.blocks[b]))
    && (forall k, l | k in g.lmap && l in g.lmap && g.lmap[k] == g.lmap[l] :: k == l)
  }

  /** b is the block of one of the labels. */
  ghost predicate Of(g: Gen, b: nat, labels: set<string>) {
    exists l | l in labels :: l in g.lmap && g.lmap[l] == b
  }

  /** g1 is a later state than g, reached by code that defines the labels `defs`:
      ended blocks stay, other blocks than the current one and those of the labels are
      untouched, blocks of new labels still to be placed are empty. */
  ghost predicate Grows(g: Gen, g1: Gen, defs: set<string>) {
    && Valid(g) && Valid(g1)
    && |g.blocks| <= |g1.blocks|
    && (forall b | 0 <= b < |g.blocks| :: Later(g.blocks[b], g1.blocks[b]))
    && (forall b | 0 <= b < |g.blocks| && b != g.cur && !Of(g, b, defs) :: g1.blocks[b] == g.blocks[b])
    && (forall l | l in g.lmap :: l in g1.lmap && g1.lmap[l] == g.lmap[l])
    && (forall l | l in g1.lmap && l !in g.lmap :: |g.blocks| <= g1.lmap[l])
    && (forall l | l in g1.lmap && l !in g.lmap && l !in defs :: g1.blocks[g1.lmap[l]] == EMPTY && g1.lmap[l] != g1.cur)
    && (g1.cur == g.cur || g1.cur >= |g.blocks| || Of(g, g1.cur, defs))
  }

  lemma GrowsTrans(g: Gen, g1: Gen, g2: Gen, d1: set<string>, d2: set<string>)
    requires Grows(g, g1, d1) && Grows(g1, g2, d2)
    ensures Grows(g, g2, d1 + d2)
  {
    BlocksTrans(g, g1, g2, d1, d2);
    LabelsTrans(g, g1, g2, d1, d2);
  }

  lemma BlocksTrans(g: Gen, g1: Gen, g2: Gen, d1: set<string>, d2: set<string>)
    requires Grows(g, g1, d1) && Grows(g1, g2, d2)
    ensures forall b | 0 <= b < |g.blocks| :: Later(g.blocks[b], g2.blocks[b])
    ensures forall b | 0 <= b < |g.blocks| && b != g.cur && !Of(g, b, d1 + d2) :: g2.blocks[b] == g.blocks[b]
    ensures g2.cur == g.cur || g2.cur >= |g.blocks| || Of(g, g2.cur, d1 + d2)
  {
    var d := d1 + d2;
    forall b | 0 <= b < |g.blocks| && b != g.cur && !Of(g, b, d) ensures g2.blocks[b] == g.blocks[b] {
      assert !Of(g, b, d1);
      assert !Of(g1, b, d2);
    }
    if Of(g1, g2.cur, d2) && g2.cur < |g.blocks| {
      assert Of(g, g2.cur, d2);
    }
    if Of(g, g1.cur, d1) { assert Of(g, g1.cur, d); }
    if Of(g, g2.cur, d2) { assert Of(g, g2.cur, d); }
  }

  lemma LabelsTrans(g: Gen, g1: Gen, g2: Gen, d1: set<string>, d2: set<string>)
    requires Grows(g, g1, d1) && Grows(g1, g2, d2)
    ensures forall l | l in g2.lmap && l !in g.lmap && l !in d1 + d2 :: g2.blocks[g2.lmap[l]] == EMPTY
                                                                        && g2.lmap[l] != g2.cur
  {
    forall l | l in g2.lmap && l !in g.lmap && l !in d1 + d2 ensures g2.blocks[g2.lmap[l]] == EMPTY
      && g2.lmap[l] != g2.cur {
      if l in g1.lmap {
        assert !Of(g1, g1.lmap[l], d2);
      }
    }
  }

  /** A block allocated for later use. */
  ghost predicate Spare(g: Gen, b: nat) {
    b < |g.blocks| && g.blocks[b] == EMPTY && b != g.cur && forall l | l in g.lmap :: g.lmap[l] != b
  }

  lemma SpareStays(g: Gen, g1: Gen, d: set<string>, b: nat)
    requires Grows(g, g1, d) && Spare(g, b)
    ensures Spare(g1, b)
  {
    assert !Of(g, b, d);
  }

  lemma MoveTo(g0: Gen, g: Gen, d: set<string>, b: nat)
    requires Grows(g0, g, d) && Spare(g, b) && |g0.blocks| <= b
    ensures Grows(g0, g.(cur := b), d)
  {
    forall c | 0 <= c < |g0.blocks| && c != g0.cur && !Of(g0, c, d) ensures g.blocks[c] == g0.blocks[c] {
    }
  }

  lemma GrowsRefl(g: Gen)
    requires Valid(g)
    ensures Grows(g, g, {})
  {
  }

  lemma PutGrows(g: Gen, i: Instr)
    requires Valid(g) && !g.Closed()
    ensures Grows(g, g.Put(i), {})
  {
    var b := g.blocks[g.cur];
    var b1 := Blk(b.text + [i], b.term || Terminator(i));
    assert WellEnded(b1) by {
      forall k | 0 <= k < |b1.text| - 1 ensures !Terminator(b1.text[k]) {
        assert b1.text[k] == b.text[k];
        assert k < |b.text| - 1 || k == |b.text| - 1;
      }
    }
  }

  lemma PutOpenGrows(g: Gen, i: Instr)
    requires Valid(g)
    ensures Grows(g, g.PutOpen(i), {})
  {
    if g.Closed() { GrowsRefl(g); } else { PutGrows(g, i); }
  }

  lemma NewGrows(g: Gen)
    requires Valid(g)
    ensures Grows(g, g.New(), {}) && Spare(g.New(), |g.blocks|)
  {
  }

  lemma LabelBlockGrows(g: Gen, l: string)
    requires Valid(g)
    ensures Grows(g, g.LabelBlock(l), {})
    ensures l !in g.lmap ==> g.LabelBlock(l).lmap[l] == |g.blocks| && g.LabelBlock(l).blocks[|g.blocks|] == EMPTY
  {
  }

  lemma GrowsMore(g: Gen, g1: Gen, d: set<string>, e: set<string>)
    requires Grows(g, g1, d) && d <= e
    ensures Grows(g, g1, e)
  {
    if Of(g, g1.cur, d) { assert Of(g, g1.cur, e); }
    forall b | 0 <= b < |g.blocks| && b != g.cur && !Of(g, b, e) ensures !Of(g, b, d) {
    }
  }

  lemma EnterGrows(g: Gen, s: Stmt)
    requires Valid(g)
    ensures Grows(g, Enter(g, s), {})
    ensures !s.Label? ==> !Enter(g, s).Closed()
  {
    NewGrows(g);
    GrowsRefl(g);
    if g.Closed() && !s.Label? { MoveTo(g, g.New(), {}, |g.blocks|); }
  }

  /** Two spare blocks and a terminator in the current block. */
  lemma Fork2(g: Gen, i: Instr)
    requires Valid(g) && !g.Closed()
    ensures var g1 := g.New().New().Put(i); var n := |g.blocks|;
            Grows(g, g1, {}) && Spare(g1, n) && Spare(g1, n + 1)
  {
    var n, a, b := |g.blocks|, g.New(), g.New().New();
    NewGrows(g);
    NewGrows(a);
    PutGrows(b, i);
    SpareStays(a, b, {}, n);
    SpareStays(b, b.Put(i), {}, n);
    SpareStays(b, b.Put(i), {}, n + 1);
    GrowsTrans(g, a, b, {}, {});
    GrowsTrans(g, b, b.Put(i), {}, {});
  }

  lemma Fork3(g: Gen, i: Instr)
    requires Valid(g) && !g.Closed()
    ensures var g1 := g.New().New().New().Put(i); var n := |g.blocks|;
            Grows(g, g1, {}) && Spare(g1, n) && Spare(g1, n + 1) && Spare(g1, n + 2)
  {
    var n, a := |g.blocks|, g.New();
    NewGrows(g);
    Fork2(a, i);
    var g1 := a.New().New().Put(i);
    SpareStays(a, g1, {}, n);
    GrowsTrans(g, a, g1, {}, {});
  }

  /** Ending a branch leaves spare blocks alone. */
  lemma EndBranch(g0: Gen, g: Gen, d: set<string>, i: Instr, keep: nat, keep2: nat)
    requires Grows(g0, g, d) && Spare(g, keep) && Spare(g, keep2) && Terminator(i)
    ensures Grows(g0, g.PutOpen(i), d) && g.PutOpen(i).Closed()
    ensures Spare(g.PutOpen(i), keep) && Spare(g.PutOpen(i), keep2)
  {
    PutOpenGrows(g, i);
    GrowsTrans(g0, g, g.PutOpen(i), d, {});
    assert d + {} == d;
    SpareStays(g, g.PutOpen(i), {}, keep);
    SpareStays(g, g.PutOpen(i), {}, keep2);
  }

  lemma EndAndMove(g0: Gen, g: Gen, d: set<string>, i: Instr, to: nat)
    requires Grows(g0, g, d) && Spare(g, to) && Terminator(i) && |g0.blocks| <= to
    ensures Grows(g0, g.PutOpen(i).(cur := to), d)
  {
    EndBranch(g0, g, d, i, to, to);
    MoveTo(g0, g.PutOpen(i), d, to);
  }

  /** Emitting s into the spare block `at`. */
  lemma {:induction false} BranchGrows(g0: Gen, g: Gen, d0: set<string>, d1: set<string>, at: nat, s: Stmt, keep: nat,
                                       keep2: nat)
    requires d1 == d0 + Defs(s) && Grows(g0, g, d0) && Spare(g, at) && |g0.blocks| <= at
    requires Spare(g, keep) && Spare(g, keep2) && keep != at && keep2 != at
    ensures Grows(g0, Emit(g.(cur := at), s), d1)
    ensures Spare(Emit(g.(cur := at), s), keep) && Spare(Emit(g.(cur := at), s), keep2)
    decreases s, 3
  {
    MoveTo(g0, g, d0, at);
    var g1 := g.(cur := at);
    EmitGrows(g1, s);
    GrowsTrans(g0, g1, Emit(g1, s), d0, Defs(s));
    SpareStays(g1, Emit(g1, s), Defs(s), keep);
    SpareStays(g1, Emit(g1, s), Defs(s), keep2);
  }

  lemma {:induction false} EmitGrows(g: Gen, s: Stmt)
    requires Valid(g)
    ensures Grows(g, Emit(g, s), Defs(s))
    decreases s, 2
  {
    EnterGrows(g, s);
    var g1 := Enter(g, s);
    EmitInGrows(g1, s);
    GrowsTrans(g, g1, EmitIn(g1, s), {}, Defs(s));
    assert {} + Defs(s) == Defs(s);
  }

  lemma {:induction false} EmitInGrows(g: Gen, s: Stmt)
    requires Valid(g) && (!s.Label? ==> !g.Closed())
    ensures Grows(g, EmitIn(g, s), Defs(s))
    decreases s, 1
  {
    match s
    case Nop => GrowsRefl(g);
    case Act(a) => PutGrows(g, Do(a));
    case Return(e) => PutGrows(g, Ret(e));
    case Block(ss) => EmitListGrows(g, ss);
    case If(c, t, None) =>
      IfThenGrows(g, c, t);
      assert Defs(s) == Defs(t);
    case If(c, t, Some(e)) => IfElseGrows(g, c, t, e);
    case While(c, b) => LoopGrows(g, Some(c), None, b);
    case For(c, inc, b) => LoopGrows(g, c, inc, b);
    case DoWhile(b, c) => DoWhileGrows(g, b, c);
    case Goto(l) => GotoGrows(g, l);
    case Label(l) => LabelGrows(g, l);
  }

  lemma GotoGrows(g: Gen, l: string)
    requires Valid(g) && !g.Closed()
    ensures Grows(g, EmitIn(g, Goto(l)), {})
  {
    var g1 := g.LabelBlock(l);
    LabelBlockGrows(g, l);
    assert EmitIn(g, Goto(l)) == g1.Put(Jump(g1.lmap[l]));
    PutAfter(g, g1, Jump(g1.lmap[l]));
  }

  lemma PutAfter(g0: Gen, g: Gen, i: Instr)
    requires Grows(g0, g, {}) && !g.Closed()
    ensures Grows(g0, g.Put(i), {})
  {
    PutGrows(g, i);
    GrowsTrans(g0, g, g.Put(i), {}, {});
  }

  /** The label's block, and the jump into it. */
  function LabelJump(g: Gen, l: string): (r: Gen)
    requires InRange(g)
    ensures InRange(r) && l in r.lmap
  {
    var g1 := g.LabelBlock(l);
    g1.PutOpen(Jump(g1.lmap[l]))
  }

  lemma LabelJumpGrows(g: Gen, l: string)
    requires Valid(g)
    ensures Grows(g, LabelJump(g, l), {l})
  {
    var g1 := g.LabelBlock(l);
    var g2 := LabelJump(g, l);
    LabelBlockGrows(g, l);
    PutOpenGrows(g1, Jump(g1.lmap[l]));
    GrowsTrans(g, g1, g2, {}, {});
    GrowsMore(g, g2, {} + {}, {l});
  }

  lemma LabelGrows(g: Gen, l: string)
    requires Valid(g)
    ensures Grows(g, EmitIn(g, Label(l)), {l})
  {
    var g2 := LabelJump(g, l);
    assert EmitIn(g, Label(l)) == g2.(cur := g2.lmap[l]);
    LabelJumpGrows(g, l);
    MoveToLabel(g, g2, l);
  }

  /** On to the block of a label that the code defines. */
  lemma MoveToLabel(g0: Gen, g: Gen, l: string)
    requires Grows(g0, g, {l}) && l in g.lmap
    ensures Grows(g0, g.(cur := g.lmap[l]), {l})
  {
    if l in g0.lmap { assert Of(g0, g0.lmap[l], {l}); }
  }

  lemma {:induction false} EmitListGrows(g: Gen, ss: seq<Stmt>)
    requires Valid(g)
    ensures Grows(g, EmitList(g, ss), ListDefs(ss))
    decreases ss, 0
  {
    if ss == [] {
      GrowsRefl(g);
    } else {
      EmitGrows(g, ss[0]);
      var g1 := Emit(g, ss[0]);
      EmitListGrows(g1, ss[1..]);
      GrowsTrans(g, g1, EmitList(g1, ss[1..]), Defs(ss[0]), ListDefs(ss[1..]));
    }
  }

  lemma {:induction false} IfThenGrows(g: Gen, c: nat, t: Stmt)
    requires Valid(g) && !g.Closed()
    ensures Grows(g, EmitIf(g, c, t), Defs(t))
    decreases t, 5
  {
    var n, db := |g.blocks|, |g.blocks| + 1;
    var g0 := g.New().New().Put(Cond(c, n, db));
    var g1 := Emit(g0.(cur := n), t);
    assert Grows(g, g1, Defs(t)) && Spare(g1, db) by {
      Fork2(g, Cond(c, n, db));
      FirstBranchGrows(g, g0, n, t, db, db);
    }
    EndAndMove(g, g1, Defs(t), Jump(db), db);
  }

  lemma {:induction false} ThenPartGrows(g: Gen, c: nat, t: Stmt)
    requires Valid(g) && !g.Closed()
    ensures Grows(g, ThenPart(g, c, t), Defs(t)) && Spare(ThenPart(g, c, t), |g.blocks| + 1)
            && Spare(ThenPart(g, c, t), |g.blocks| + 2)
    decreases t, 6
  {
    var n := |g.blocks|;
    ForkBodyGrows(g, Cond(c, n, n + 1), t);
    EndBranch(g, ForkBody(g, Cond(c, n, n + 1), t), Defs(t), Jump(n + 2), n + 1, n + 2);
  }

  /** Three fresh blocks, i in the current one, and s in the first of them. */
  function ForkBody(g: Gen, i: Instr, s: Stmt): (r: Gen)
    requires InRange(g)
    ensures InRange(r)
  {
    Emit(g.New().New().New().Put(i).(cur := |g.blocks|), s)
  }

  lemma {:induction false} ForkBodyGrows(g: Gen, i: Instr, s: Stmt)
    requires Valid(g) && !g.Closed()
    ensures Grows(g, ForkBody(g, i, s), Defs(s)) && Spare(ForkBody(g, i, s), |g.blocks| + 1)
            && Spare(ForkBody(g, i, s), |g.blocks| + 2)
    decreases s, 5
  {
    Fork3(g, i);
    FirstBranchGrows(g, g.New().New().New().Put(i), |g.blocks|, s, |g.blocks| + 1, |g.blocks| + 2);
  }

  lemma {:induction false} FirstBranchGrows(g0: Gen, g: Gen, at: nat, s: Stmt, keep: nat, keep2: nat)
    requires Grows(g0, g, {}) && Spare(g, at) && |g0.blocks| <= at
    requires Spare(g, keep) && Spare(g, keep2) && keep != at && keep2 != at
    ensures var g1 := Emit(g.(cur := at), s); Grows(g0, g1, Defs(s)) && Spare(g1, keep) && Spare(g1, keep2)
    decreases s, 4
  {
    assert {} + Defs(s) == Defs(s);
    BranchGrows(g0, g, {}, Defs(s), at, s, keep, keep2);
  }

  lemma {:induction false} IfElseGrows(g: Gen, c: nat, t: Stmt, e: Stmt)
    requires Valid(g) && !g.Closed()
    ensures Grows(g, EmitIfElse(g, c, t, e), Defs(t) + Defs(e))
    decreases If(c, t, Some(e)), 0
  {
    ThenPartGrows(g, c, t);
    IfElseRest(g, ThenPart(g, c, t), Defs(t), e, |g.blocks| + 1, |g.blocks| + 2);
  }

  lemma {:induction false} IfElseRest(g: Gen, g2: Gen, d: set<string>, e: Stmt, eb: nat, db: nat)
    requires Grows(g, g2, d) && Spare(g2, eb) && Spare(g2, db) && eb != db && |g.blocks| <= eb && |g.blocks| <= db
    ensures Grows(g, Emit(g2.(cur := eb), e).PutOpen(Jump(db)).(cur := db), d + Defs(e))
    decreases e, 4
  {
    BranchGrows(g, g2, d, d + Defs(e), eb, e, db, db);
    EndAndMove(g, Emit(g2.(cur := eb), e), d + Defs(e), Jump(db), db);
  }

  lemma HeadGrows(g: Gen, c: Option<nat>)
    requires Valid(g) && !g.Closed()
    ensures var g1 := LoopHead(g, c); var n := |g.blocks|;
            Grows(g, g1, {}) && g1.cur == n && g1.Closed() && Spare(g1, n + 1) && Spare(g1, n + 2)
  {
    var n := |g.blocks|;
    var g0 := g.New().New().New().Put(Jump(n));
    Fork3(g, Jump(n));
    MoveTo(g, g0, {}, n);
    var g1 := g0.(cur := n);
    var i := if c.Some? then Cond(c.value, n + 1, n + 2) else Jump(n + 1);
    PutGrows(g1, i);
    GrowsTrans(g, g1, g1.Put(i), {}, {});
    SpareStays(g1, g1.Put(i), {}, n + 1);
    SpareStays(g1, g1.Put(i), {}, n + 2);
  }

  lemma BackGrows(g: Gen, inc: Option<nat>, hb: nat)
    requires Valid(g)
    ensures Grows(g, LoopBack(g, inc, hb), {}) && LoopBack(g, inc, hb).Closed()
  {
    GrowsRefl(g);
    if !g.Closed() {
      if inc.Some? {
        PutGrows(g, Do(inc.value));
        var g1 := g.Put(Do(inc.value));
        PutGrows(g1, Jump(hb));
        GrowsTrans(g, g1, g1.Put(Jump(hb)), {}, {});
      } else {
        PutGrows(g, Jump(hb));
      }
    }
  }

  function LoopBody(g: Gen, c: Option<nat>, b: Stmt): (r: Gen)
    requires InRange(g)
    ensures InRange(r) && |g.blocks| + 3 <= |r.blocks|
  {
    Emit(LoopHead(g, c).(cur := |g.blocks| + 1), b)
  }

  lemma {:induction false} LoopBodyGrows(g: Gen, c: Option<nat>, b: Stmt)
    requires Valid(g) && !g.Closed()
    ensures Grows(g, LoopBody(g, c, b), Defs(b))
    ensures Spare(LoopBody(g, c, b), |g.blocks| + 2)
    decreases b, 5
  {
    HeadGrows(g, c);
    FirstBranchGrows(g, LoopHead(g, c), |g.blocks| + 1, b, |g.blocks| + 2, |g.blocks| + 2);
  }

  lemma {:induction false} LoopGrows(g: Gen, c: Option<nat>, inc: Option<nat>, b: Stmt)
    requires Valid(g) && !g.Closed()
    ensures Grows(g, EmitLoop(g, c, inc, b), Defs(b))
    decreases b, 6
  {
    var n := |g.blocks|;
    var g2 := LoopBody(g, c, b);
    assert EmitLoop(g, c, inc, b) == LoopBack(g2, inc, n).(cur := n + 2);
    LoopBodyGrows(g, c, b);
    BackGrows(g2, inc, n);
    LoopRest(g, g2, LoopBack(g2, inc, n), Defs(b), n + 2);
  }

  lemma LoopRest(g: Gen, g2: Gen, g3: Gen, d: set<string>, db: nat)
    requires Grows(g, g2, d) && Grows(g2, g3, {}) && Spare(g2, db) && |g.blocks| <= db
    ensures Grows(g, g3.(cur := db), d)
  {
    SpareStays(g2, g3, {}, db);
    GrowsTrans(g, g2, g3, d, {});
    assert d + {} == d;
    MoveTo(g, g3, d, db);
  }

  lemma {:induction false} DoWhileGrows(g: Gen, b: Stmt, c: nat)
    requires Valid(g) && !g.Closed()
    ensures Grows(g, EmitDo(g, b, c), Defs(b))
    decreases b, 6
  {
    var n := |g.blocks|;
    ForkBodyGrows(g, Jump(n), b);
    TestRest(g, ForkBody(g, Jump(n), b), Defs(b), Jump(n + 1), Cond(c, n, n + 2), n + 1, n + 2);
  }

  lemma TestRest(g: Gen, g1: Gen, d: set<string>, j: Instr, i: Instr, hb: nat, db: nat)
    requires Grows(g, g1, d) && Spare(g1, hb) && Spare(g1, db) && hb != db && |g.blocks| <= hb && |g.blocks| <= db
             && Terminator(j)
    ensures Grows(g, g1.PutOpen(j).(cur := hb).Put(i).(cur := db), d)
  {
    var g3 := g1.PutOpen(j).(cur := hb);
    assert Grows(g, g3, d) && Spare(g3, db) && !g3.Closed() by {
      EndBranch(g, g1, d, j, hb, db);
      MoveTo(g, g1.PutOpen(j), d, hb);
    }
    PutGrows(g3, i);
    LoopRest(g, g3, g3.Put(i), d, db);
  }
}
