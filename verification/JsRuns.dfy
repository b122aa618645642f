/** The emitted pc machine ends with a value and a state exactly when the source does. */
module JsRuns {
  import opened Basics
  import opened JsControl
  import opened JsBlocks
  import opened JsMachine
  import opened JsSimulation
  import opened JsLabels

  // ----- gotos stay within the labels of the function -----

  predicate GotosIn(k: Kont, labels: set<string>) {
    match k
    case Halt => true
    case Then(s, k1) => Uses(s) <= labels && GotosIn(k1, labels)
    case Loop(_, _, b, k1) => Uses(b) <= labels && GotosIn(k1, labels)
    case Inc(_, _, b, k1) => Uses(b) <= labels && GotosIn(k1, labels)
  }

  lemma {:induction false} PushGotos(ss: seq<Stmt>, k: Kont, labels: set<string>)
    requires ListUses(ss) <= labels && GotosIn(k, labels)
    ensures GotosIn(PushAll(ss, k), labels)
  {
    if ss != [] { PushGotos(ss[1..], k, labels); }
  }

  lemma {:induction false} FoundGotos(s: Stmt, l: string, k: Kont, labels: set<string>)
    requires Uses(s) <= labels && GotosIn(k, labels)
    ensures FindLabel(s, l, k).Some? ==> GotosIn(FindLabel(s, l, k).value, labels)
    decreases s, 1
  {
    match s
    case Block(ss) => FoundInListGotos(ss, l, k, labels);
    case If(_, t, e) =>
      FoundGotos(t, l, k, labels);
      if e.Some? { FoundGotos(e.value, l, k, labels); }
    case While(c, b) => FoundGotos(b, l, Inc(Some(c), None, b, k), labels);
    case DoWhile(b, c) => FoundGotos(b, l, Inc(Some(c), None, b, k), labels);
    case For(c, inc, b) => FoundGotos(b, l, Inc(c, inc, b, k), labels);
    case _ =>
  }

  lemma {:induction false} FoundInListGotos(ss: seq<Stmt>, l: string, k: Kont, labels: set<string>)
    requires ListUses(ss) <= labels && GotosIn(k, labels)
    ensures FindInList(ss, l, k).Some? ==> GotosIn(FindInList(ss, l, k).value, labels)
    decreases ss, 0
  {
    if ss != [] {
      PushGotos(ss[1..], k, labels);
      FoundGotos(ss[0], l, PushAll(ss[1..], k), labels);
      FoundInListGotos(ss[1..], l, k, labels);
    }
  }

  lemma StepGotos<S>(m: Sem<S>, body: Stmt, k: Kont, st: S)
    requires GotosIn(k, Uses(body))
    ensures var r := Step(m, body, k, st); r.Going? ==> GotosIn(r.k, Uses(body))
  {
    match k
    case Then(s, k1) =>
      match s {
        case Block(ss) => PushGotos(ss, k1, Uses(body));
        case Goto(l) => FoundGotos(body, l, Halt, Uses(body));
        case _ =>
      }
    case _ =>
  }

  // ----- one step -----

  /** How much a continuation can do without the machine moving. */
  function Weight(k: Kont): nat {
    match k
    case Then(s, k1) => Bulk(s) + Weight(k1)
    case _ => 0
  }

  function Bulk(s: Stmt): nat
    decreases s, 1
  {
    match s
    case Block(ss) => 1 + ListBulk(ss)
    case _ => 1
  }

  function ListBulk(ss: seq<Stmt>): nat
    decreases ss, 0
  {
    if ss == [] then 0 else Bulk(ss[0]) + ListBulk(ss[1..])
  }

  lemma {:induction false} PushWeight(ss: seq<Stmt>, k: Kont)
    ensures Weight(PushAll(ss, k)) == ListBulk(ss) + Weight(k)
  {
    if ss != [] { PushWeight(ss[1..], k); }
  }

  function Place<S>(p: Point, st: S): Target<S> {
    At(p.b, p.i, st)
  }

  /** Every label of the body is the start of what a goto to it should run. */
  ghost predicate Compiled(f: Gen, body: Stmt) {
    forall l | l in Defs(body) :: Lands(f, FindLabel(body, l, Halt), l)
  }

  /** The machine, t instructions later, is where r goes on, or has ended as r did. */
  ghost predicate Follow<S>(m: Sem<S>, f: Gen, p: Point, st: S, r: Source<S>, t: nat, p1: Point, w: nat) {
    match r
    case Ended(v, st1) => t > 0 && Ticks(m, f.blocks, t, Place(p, st)) == Stopped(v, st1)
    case Going(k1, st1) =>
      Somehow(f, k1, p1) && Ticks(m, f.blocks, t, Place(p, st)) == Place(p1, st1) && (t == 0 ==> Weight(k1) < w)
  }

  lemma JumpTick<S>(m: Sem<S>, f: Gen, p: Point, st: S, b: nat, k: Kont)
    requires Holds(f, p, Jump(b)) && Somehow(f, k, Point(b, 0))
    ensures Follow(m, f, p, st, Going(k, st), 1, Point(b, 0), 0)
  {
  }

  lemma CondTick<S>(m: Sem<S>, f: Gen, p: Point, st: S, c: nat, x: nat, y: nat, k: Kont) returns (p1: Point)
    requires Holds(f, p, Cond(c, x, y)) && Somehow(f, k, Point(if m.test(c, st) then x else y, 0))
    ensures Follow(m, f, p, st, Going(k, st), 1, p1, 0)
  {
    p1 := Point(if m.test(c, st) then x else y, 0);
  }

  lemma DoTick<S>(m: Sem<S>, f: Gen, p: Point, st: S, a: nat, k: Kont)
    requires Holds(f, p, Do(a)) && Somehow(f, k, Point(p.b, p.i + 1))
    ensures Follow(m, f, p, st, Going(k, m.act(a, st)), 1, Point(p.b, p.i + 1), 0)
  {
  }

  lemma StepSim<S>(m: Sem<S>, body: Stmt, f: Gen, k: Kont, p: Point, st: S) returns (t: nat, p1: Point)
    requires Compiled(f, body) && Match(f, k, p, 0) && GotosIn(k, Uses(body)) && Uses(body) <= Defs(body)
    ensures Follow(m, f, p, st, Step(m, body, k, st), t, p1, Weight(k))
  {
    match k
    case Halt => t, p1 := 1, p;
    case Then(s, k1) =>
      var g: Gen :| ThenAt(f, g, s, p) && Follows(f, g, s, k1);
      t, p1 := StmtStep(m, body, f, g, s, k1, st);
    case Inc(c, inc, b, k1) => t, p1 := BackStep(m, body, f, k, p, st);
    case Loop(c, inc, b, k1) => t := 1; p1 := HeadStep(m, body, f, k, p, st);
  }

  /** From the end of a loop body, through the increment, to the head. */
  lemma BackStep<S>(m: Sem<S>, body: Stmt, f: Gen, k: Kont, p: Point, st: S) returns (t: nat, p1: Point)
    requires Match(f, k, p, 0) && k.Inc?
    ensures Follow(m, f, p, st, Step(m, body, k, st), t, p1, 0)
  {
    var head := Loop(k.c, k.inc, k.b, k.k);
    var hb: nat :| BackEdge(f, p, k.inc, hb) && Match(f, head, Point(hb, 0), 0);
    t, p1 := BackTicks(m, f, p, st, k.inc, hb, head);
  }

  lemma BackTicks<S>(m: Sem<S>, f: Gen, p: Point, st: S, inc: Option<nat>, hb: nat, k: Kont) returns (t: nat, p1: Point)
    requires BackEdge(f, p, inc, hb) && Somehow(f, k, Point(hb, 0))
    ensures Follow(m, f, p, st, Going(k, if inc.Some? then m.act(inc.value, st) else st), t, p1, 0)
  {
    p1 := Point(hb, 0);
    if inc.Some? {
      var q := Point(p.b, p.i + 1);
      t := 2;
      SomehowJump(f, k, q, hb);
      DoTick(m, f, p, st, inc.value, k);
      JumpTick(m, f, q, m.act(inc.value, st), hb, k);
      TicksAdd(m, f.blocks, 1, 1, Place(p, st));
    } else {
      t := 1;
      JumpTick(m, f, p, st, hb, k);
    }
  }

  lemma HeadStep<S>(m: Sem<S>, body: Stmt, f: Gen, k: Kont, p: Point, st: S) returns (p1: Point)
    requires Match(f, k, p, 0) && k.Loop?
    ensures Follow(m, f, p, st, Step(m, body, k, st), 1, p1, 0)
  {
    var g: Gen, db: nat :| LoopAt(f, g, k.c, k.inc, k.b, p, db) && Somehow(f, k.k, Point(db, 0));
    var turn := Then(k.b, Inc(k.c, k.inc, k.b, k.k));
    assert Somehow(f, turn, Point(g.cur, 0)) by {
      BodyFollows(f, g, k.c, k.inc, k.b, p, db, k.k);
      ThenNow(f, g, k.b, Inc(k.c, k.inc, k.b, k.k), Here(g));
    }
    p1 := TestTick(m, f, p, st, k.c, g.cur, db, turn, k.k);
  }

  lemma TestTick<S>(m: Sem<S>, f: Gen, p: Point, st: S, c: Option<nat>, x: nat, y: nat, k1: Kont,
                    k2: Kont) returns (p1: Point)
    requires Holds(f, p, if c.Some? then Cond(c.value, x, y) else Jump(x))
    requires Somehow(f, k1, Point(x, 0)) && Somehow(f, k2, Point(y, 0))
    ensures Follow(m, f, p, st, Going(if c.None? || m.test(c.value, st) then k1 else k2, st), 1, p1, 0)
  {
    if c.Some? {
      p1 := CondTick(m, f, p, st, c.value, x, y, if m.test(c.value, st) then k1 else k2);
    } else {
      p1 := Point(x, 0);
      JumpTick(m, f, p, st, x, k1);
    }
  }

  lemma ThenNow(f: Gen, g: Gen, s: Stmt, k: Kont, p: Point)
    requires ThenAt(f, g, s, p) && Follows(f, g, s, k)
    ensures Somehow(f, Then(s, k), p)
  {
    SomehowNow(f, Then(s, k), p);
  }

  lemma StmtStep<S>(m: Sem<S>, body: Stmt, f: Gen, g: Gen, s: Stmt, k: Kont, st: S) returns (t: nat, p1: Point)
    requires Emitted(f, g, s) && !g.Closed() && Follows(f, g, s, k)
    requires Compiled(f, body) && Uses(s) <= Uses(body) <= Defs(body)
    ensures Follow(m, f, Here(g), st, Step(m, body, Then(s, k), st), t, p1, Weight(Then(s, k)))
  {
    match s
    case Nop => t, p1 := 0, Here(g);
    case Act(a) => t, p1 := ActStep(m, body, f, g, a, k, st);
    case Label(l) => t := 1; p1 := LabelStep(m, body, f, g, l, k, st);
    case Block(ss) => t, p1 := 0, Here(g); BlockStep(m, body, f, g, ss, k, st);
    case If(c, thn, None) => t := 1; p1 := IfStep(m, body, f, g, c, thn, k, st);
    case If(c, thn, Some(e)) => t := 1; p1 := IfElseStep(m, body, f, g, c, thn, e, k, st);
    case Goto(l) => t := 1; p1 := GotoStep(m, body, f, g, l, k, st);
    case Return(e) => t := 1; p1 := ReturnStep(m, body, f, g, e, k, st);
    case DoWhile(b, c) => t := 1; p1 := DoStep(m, f, g, b, c, k, st);
    case _ => t := 1; p1 := LoopStep(m, f, g, s, k, st);
  }

  lemma ReturnStep<S>(m: Sem<S>, body: Stmt, f: Gen, g: Gen, e: Option<nat>, k: Kont, st: S) returns (p1: Point)
    requires Emitted(f, g, Return(e)) && !g.Closed()
    ensures Follow(m, f, Here(g), st, Step(m, body, Then(Return(e), k), st), 1, p1, 0)
  {
    assert Emit(g, Return(e)) == g.Put(Ret(e));
    WrittenHolds(g, Ret(e), f);
    p1 := Here(g);
  }

  lemma ActStep<S>(m: Sem<S>, body: Stmt, f: Gen, g: Gen, a: nat, k: Kont, st: S) returns (t: nat, p1: Point)
    requires Emitted(f, g, Act(a)) && !g.Closed() && Follows(f, g, Act(a), k)
    ensures Follow(m, f, Here(g), st, Going(k, m.act(a, st)), t, p1, 0)
  {
    assert Emit(g, Act(a)) == g.Put(Do(a));
    WrittenHolds(g, Do(a), f);
    t, p1 := 1, Here(g.Put(Do(a)));
  }

  lemma LabelStep<S>(m: Sem<S>, body: Stmt, f: Gen, g: Gen, l: string, k: Kont, st: S) returns (p1: Point)
    requires Emitted(f, g, Label(l)) && !g.Closed() && Follows(f, g, Label(l), k)
    ensures Follow(m, f, Here(g), st, Going(k, st), 1, p1, 0)
  {
    LabelFacts(f, g, l, k);
    p1 := Point(f.lmap[l], 0);
  }

  lemma BlockStep<S>(m: Sem<S>, body: Stmt, f: Gen, g: Gen, ss: seq<Stmt>, k: Kont, st: S)
    requires Emitted(f, g, Block(ss)) && !g.Closed() && Follows(f, g, Block(ss), k)
    ensures Follow(m, f, Here(g), st, Going(PushAll(ss, k), st), 0, Here(g), 1 + ListBulk(ss) + Weight(k))
  {
    assert Emit(g, Block(ss)) == EmitList(g, ss);
    ListMatch(f, g, ss, k);
    PushWeight(ss, k);
  }

  lemma IfStep<S>(m: Sem<S>, body: Stmt, f: Gen, g: Gen, c: nat, thn: Stmt, k: Kont, st: S) returns (p1: Point)
    requires Emitted(f, g, If(c, thn, None)) && !g.Closed() && Follows(f, g, If(c, thn, None), k)
    ensures Follow(m, f, Here(g), st, Going(if m.test(c, st) then Then(thn, k) else k, st), 1, p1, 0)
  {
    assert Emit(g, If(c, thn, None)) == EmitIf(g, c, thn);
    var gt := IfThenFacts(f, g, c, thn, k);
    ThenNow(f, gt, thn, k, Point(gt.cur, 0));
    p1 := TestTick(m, f, Here(g), st, Some(c), gt.cur, |g.blocks| + 1, Then(thn, k), k);
  }

  lemma IfElseStep<S>(m: Sem<S>, body: Stmt, f: Gen, g: Gen, c: nat, thn: Stmt, e: Stmt, k: Kont,
                      st: S) returns (p1: Point)
    requires Emitted(f, g, If(c, thn, Some(e))) && !g.Closed() && Follows(f, g, If(c, thn, Some(e)), k)
    ensures Follow(m, f, Here(g), st, Going(if m.test(c, st) then Then(thn, k) else Then(e, k), st), 1, p1, 0)
  {
    assert Emit(g, If(c, thn, Some(e))) == EmitIfElse(g, c, thn, e);
    var gt, ge := IfElseFacts(f, g, c, thn, e, k);
    ThenNow(f, gt, thn, k, Point(gt.cur, 0));
    ThenNow(f, ge, e, k, Point(ge.cur, 0));
    p1 := TestTick(m, f, Here(g), st, Some(c), gt.cur, ge.cur, Then(thn, k), Then(e, k));
  }

  lemma LoopStep<S>(m: Sem<S>, f: Gen, g: Gen, s: Stmt, k: Kont, st: S) returns (p1: Point)
    requires (s.While? || s.For?) && Emitted(f, g, s) && !g.Closed() && Follows(f, g, s, k)
    ensures Follow(m, f, Here(g), st, Going(LoopOf(s, k), st), 1, p1, 0)
  {
    p1 := Point(|g.blocks|, 0);
    LoopLink(f, g, s, k);
    JumpTick(m, f, Here(g), st, |g.blocks|, LoopOf(s, k));
  }

  function LoopOf(s: Stmt, k: Kont): Kont
    requires s.While? || s.For?
  {
    if s.While? then Loop(Some(s.c), None, s.body, k) else Loop(s.test, s.inc, s.body, k)
  }

  /** The code of a loop statement is a jump to the head of its loop. */
  lemma LoopLink(f: Gen, g: Gen, s: Stmt, k: Kont)
    requires (s.While? || s.For?) && Emitted(f, g, s) && !g.Closed() && Follows(f, g, s, k)
    ensures Holds(f, Here(g), Jump(|g.blocks|)) && Somehow(f, LoopOf(s, k), Point(|g.blocks|, 0))
  {
    var l, n := LoopOf(s, k), |g.blocks|;
    assert Emit(g, s) == EmitLoop(g, l.c, l.inc, l.b);
    var gb := LoopFacts(f, g, l.c, l.inc, l.b, k);
    LoopNow(f, gb, l.c, l.inc, l.b, Point(n, 0), n + 2, k);
  }

  lemma LoopNow(f: Gen, g: Gen, c: Option<nat>, inc: Option<nat>, b: Stmt, p: Point, db: nat, k: Kont)
    requires LoopAt(f, g, c, inc, b, p, db) && Somehow(f, k, Point(db, 0))
    ensures Somehow(f, Loop(c, inc, b, k), p)
  {
    BodyFollows(f, g, c, inc, b, p, db, k);
    SomehowNow(f, Loop(c, inc, b, k), p);
  }

  lemma DoBodyNow(f: Gen, gb: Gen, b: Stmt, c: nat, hp: Point, db: nat, k: Kont)
    requires LoopAt(f, gb, Some(c), None, b, hp, db) && Somehow(f, k, Point(db, 0))
    ensures Somehow(f, Then(b, Inc(Some(c), None, b, k)), Point(gb.cur, 0))
  {
    BodyFollows(f, gb, Some(c), None, b, hp, db, k);
    ThenNow(f, gb, b, Inc(Some(c), None, b, k), Point(gb.cur, 0));
  }

  lemma DoStep<S>(m: Sem<S>, f: Gen, g: Gen, b: Stmt, c: nat, k: Kont, st: S) returns (p1: Point)
    requires Emitted(f, g, DoWhile(b, c)) && !g.Closed() && Follows(f, g, DoWhile(b, c), k)
    ensures Follow(m, f, Here(g), st, Going(Then(b, Inc(Some(c), None, b, k)), st), 1, p1, 0)
  {
    assert Emit(g, DoWhile(b, c)) == EmitDo(g, b, c);
    var gb := DoWhileFacts(f, g, b, c, k);
    p1 := Point(gb.cur, 0);
    DoBodyNow(f, gb, b, c, Point(|g.blocks| + 1, 0), |g.blocks| + 2, k);
    JumpTick(m, f, Here(g), st, gb.cur, Then(b, Inc(Some(c), None, b, k)));
  }

  lemma GotoStep<S>(m: Sem<S>, body: Stmt, f: Gen, g: Gen, l: string, k: Kont, st: S) returns (p1: Point)
    requires Emitted(f, g, Goto(l)) && !g.Closed() && Compiled(f, body) && l in Defs(body)
    ensures Follow(m, f, Here(g), st, Step(m, body, Then(Goto(l), k), st), 1, p1, 0)
  {
    var r := FindLabel(body, l, Halt);
    assert Lands(f, r, l);
    GotoHolds(f, g, l);
    p1 := Point(f.lmap[l], 0);
    JumpTick(m, f, Here(g), st, f.lmap[l], r.value);
  }

  lemma GotoHolds(f: Gen, g: Gen, l: string)
    requires Emitted(f, g, Goto(l)) && !g.Closed() && l in f.lmap
    ensures Holds(f, Here(g), Jump(f.lmap[l]))
  {
    var g1 := g.LabelBlock(l);
    assert Emit(g, Goto(l)) == g1.Put(Jump(g1.lmap[l]));
    WrittenHolds(g1, Jump(g1.lmap[l]), f);
  }

  // ----- whole runs -----

  /** A place that matches what is to do, after j jumps. */
  ghost predicate Linked(f: Gen, body: Stmt, k: Kont, p: Point, j: nat) {
    Match(f, k, p, j) && GotosIn(k, Uses(body))
  }

  /** The machine is where r is, a instructions later, or has ended as r did. */
  ghost predicate Reaches<S>(m: Sem<S>, f: Gen, p: Point, st: S, r: Source<S>, a: nat, p1: Point) {
    match r
    case Ended(v, st1) => Ticks(m, f.blocks, a, Place(p, st)) == Stopped(v, st1)
    case Going(_, st1) => Ticks(m, f.blocks, a, Place(p, st)) == Place(p1, st1)
  }

  /** u source steps and a instructions, not both none; from matching to matching. */
  lemma Advance<S>(m: Sem<S>, body: Stmt, f: Gen, k: Kont, p: Point, j: nat, st: S)
      returns (u: nat, a: nat, p1: Point, j1: nat)
    requires Compiled(f, body) && Uses(body) <= Defs(body) && Linked(f, body, k, p, j)
    ensures u <= 1 && (u == 0 ==> a > 0 && j1 < j)
    ensures var r := Steps(m, body, u, Going(k, st));
            && Reaches(m, f, p, st, r, a, p1)
            && (r.Going? ==> Linked(f, body, r.k, p1, j1) && (a == 0 ==> Weight(r.k) < Weight(k)))
  {
    if j > 0 {
      u, a, p1, j1 := 0, 1, Point(Fetch(f, p).b, 0), j - 1;
    } else {
      u, j1 := 1, 0;
      a, p1 := StepSim(m, body, f, k, p, st);
      StepGotos(m, body, k, st);
      var r := Step(m, body, k, st);
      if r.Going? { j1 := JumpsTo(f, r.k, p1); }
    }
  }

  lemma JumpsTo(f: Gen, k: Kont, p: Point) returns (j: nat)
    requires Somehow(f, k, p)
    ensures Match(f, k, p, j)
  {
    j :| Match(f, k, p, j);
  }

  lemma {:induction false} StepsAdd<S>(m: Sem<S>, body: Stmt, a: nat, b: nat, s: Source<S>)
    ensures Steps(m, body, a + b, s) == Steps(m, body, b, Steps(m, body, a, s))
    decreases a
  {
    if a > 0 && s.Going? { StepsAdd(m, body, a - 1, b, Step(m, body, s.k, s.st)); }
  }

  /** From a matching place the machine ends as the source ends after n steps. */
  lemma {:induction false} RunForward<S>(m: Sem<S>, body: Stmt, f: Gen, k: Kont, p: Point, j: nat, st: S, n: nat,
                                         v: int, st1: S) returns (t: nat)
    requires Compiled(f, body) && Uses(body) <= Defs(body) && Linked(f, body, k, p, j)
    requires Steps(m, body, n, Going(k, st)) == Ended(v, st1)
    ensures Ticks(m, f.blocks, t, Place(p, st)) == Stopped(v, st1)
    decreases n, j
  {
    var u, a, p1, j1 := Advance(m, body, f, k, p, j, st);
    var r := Steps(m, body, u, Going(k, st));
    StepsAdd(m, body, u, n - u, Going(k, st));
    if r.Ended? {
      t := a;
    } else {
      var b := RunForward(m, body, f, r.k, p1, j1, r.st, n - u, v, st1);
      TicksAdd(m, f.blocks, a, b, Place(p, st));
      t := a + b;
    }
  }

  /** A machine that ends after t instructions is at most t away from where r is. */
  lemma SameEnd<S>(m: Sem<S>, f: Gen, p: Point, st: S, r: Source<S>, a: nat, p1: Point, t: nat, v: int, st1: S)
    requires Reaches(m, f, p, st, r, a, p1) && Ticks(m, f.blocks, t, Place(p, st)) == Stopped(v, st1)
    ensures r.Ended? ==> r == Ended(v, st1)
    ensures r.Going? ==> a <= t && Ticks(m, f.blocks, t - a, Place(p1, r.st)) == Stopped(v, st1)
  {
    if t < a {
      TicksAdd(m, f.blocks, t, a - t, Place(p, st));
    } else {
      TicksAdd(m, f.blocks, a, t - a, Place(p, st));
    }
  }

  /** The source ends as the machine ends after t instructions. */
  lemma {:induction false} RunBackward<S>(m: Sem<S>, body: Stmt, f: Gen, k: Kont, p: Point, j: nat, st: S, t: nat,
                                          v: int, st1: S) returns (n: nat)
    requires Compiled(f, body) && Uses(body) <= Defs(body) && Linked(f, body, k, p, j)
    requires Ticks(m, f.blocks, t, Place(p, st)) == Stopped(v, st1)
    ensures Steps(m, body, n, Going(k, st)) == Ended(v, st1)
    decreases t, Weight(k)
  {
    var u, a, p1, j1 := Advance(m, body, f, k, p, j, st);
    var r := Steps(m, body, u, Going(k, st));
    SameEnd(m, f, p, st, r, a, p1, t, v, st1);
    if r.Ended? {
      n := u;
    } else {
      var n1 := RunBackward(m, body, f, r.k, p1, j1, r.st, t - a, v, st1);
      StepsAdd(m, body, u, n1, Going(k, st));
      n := u + n1;
    }
  }

  /** The emitted function starts with its body and lands its labels. */
  lemma BodyCompiled(body: Stmt)
    requires Unique(body)
    ensures Compiled(EmitBody(body), body) && Match(EmitBody(body), Then(body, Halt), Point(0, 0), 0)
  {
    var f, g := EmitBody(body), Emit(START, body);
    EmitGrows(START, body);
    PutOpenGrows(g, Ret(None));
    GrowsWithin(g, f, {}, f);
    if !g.Closed() {
      WrittenHolds(g, Ret(None), f);
      SomehowNow(f, Halt, Here(g));
    }
    assert ThenAt(f, START, body, Point(0, 0));
    forall l | l in Defs(body) ensures Lands(f, FindLabel(body, l, Halt), l) {
      LabelMatch(f, START, body, l, Halt);
    }
  }

  ghost predicate SourceEnds<S>(m: Sem<S>, body: Stmt, st: S, v: int, st1: S) {
    exists n: nat :: Steps(m, body, n, Going(Then(body, Halt), st)) == Ended(v, st1)
  }

  ghost predicate MachineEnds<S>(m: Sem<S>, body: Stmt, st: S, v: int, st1: S) {
    exists t: nat :: Ticks(m, EmitBody(body).blocks, t, At(0, 0, st)) == Stopped(v, st1)
  }

  /** For every body whose labels are distinct and whose gotos name them, every meaning
      of its expressions and every start: the same results, and divergence alike.  With a
      history as state, the same actions in the same order. */
  lemma MachineMeaning<S>(m: Sem<S>, body: Stmt, st: S, v: int, st1: S)
    requires Unique(body) && Uses(body) <= Defs(body)
    ensures MachineEnds(m, body, st, v, st1) <==> SourceEnds(m, body, st, v, st1)
  {
    var f, k := EmitBody(body), Then(body, Halt);
    BodyCompiled(body);
    if SourceEnds(m, body, st, v, st1) {
      var n: nat :| Steps(m, body, n, Going(k, st)) == Ended(v, st1);
      var t := RunForward(m, body, f, k, Point(0, 0), 0, st, n, v, st1);
    }
    if MachineEnds(m, body, st, v, st1) {
      var t: nat :| Ticks(m, f.blocks, t, At(0, 0, st)) == Stopped(v, st1);
      var n := RunBackward(m, body, f, k, Point(0, 0), 0, st, t, v, st1);
    }
  }
}
