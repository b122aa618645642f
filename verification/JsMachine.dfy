/** Structured programs with goto, the pc machine, and their agreement. */
module JsMachine {
  import opened Basics
  import opened JsControl
  import opened JsBlocks

  /** What the expressions named in statements do to a state. */
  datatype Sem<!S> = Sem(act: (nat, S) -> S, test: (nat, S) -> bool, ret: (nat, S) -> int)

  // ----- the source: statements under a continuation -----

  /** What is still to do.  `Loop` is a loop about to test, `Inc` one whose body ended. */
  datatype Kont =
    | Halt
    | Then(s: Stmt, k: Kont)
    | Loop(c: Option<nat>, inc: Option<nat>, b: Stmt, k: Kont)
    | Inc(c: Option<nat>, inc: Option<nat>, b: Stmt, k: Kont)

  datatype Source<S> = Going(k: Kont, st: S) | Ended(v: int, st: S)

  function PushAll(ss: seq<Stmt>, k: Kont): Kont {
    if ss == [] then k else Then(ss[0], PushAll(ss[1..], k))
  }

  /** The rest of the program behind a label of s, when k follows s. */
  function FindLabel(s: Stmt, l: string, k: Kont): Option<Kont>
    decreases s, 1
  {
    match s
    case Label(n) => if n == l then Some(k) else None
    case Block(ss) => FindInList(ss, l, k)
    case If(_, t, e) =>
      var r := FindLabel(t, l, k);
      if r.Some? || e.None? then r else FindLabel(e.value, l, k)
    case While(c, b) => FindLabel(b, l, Inc(Some(c), None, b, k))
    case DoWhile(b, c) => FindLabel(b, l, Inc(Some(c), None, b, k))
    case For(c, inc, b) => FindLabel(b, l, Inc(c, inc, b, k))
    case _ => None
  }

  function FindInList(ss: seq<Stmt>, l: string, k: Kont): Option<Kont>
    decreases ss, 0
  {
    if ss == [] then None else
    var r := FindLabel(ss[0], l, PushAll(ss[1..], k));
    if r.Some? then r else FindInList(ss[1..], l, k)
  }

  /** One step of a function with this body. */
  function Step<S>(m: Sem<S>, body: Stmt, k: Kont, st: S): Source<S> {
    match k
    case Halt => Ended(0, st)
    case Loop(c, inc, b, k1) =>
      if c.None? || m.test(c.value, st) then Going(Then(b, Inc(c, inc, b, k1)), st) else Going(k1, st)
    case Inc(c, inc, b, k1) => Going(Loop(c, inc, b, k1), if inc.Some? then m.act(inc.value, st) else st)
    case Then(s, k1) =>
      match s
      case Nop => Going(k1, st)
      case Label(_) => Going(k1, st)
      case Act(a) => Going(k1, m.act(a, st))
      case Block(ss) => Going(PushAll(ss, k1), st)
      case If(c, t, e) =>
        Going(if m.test(c, st) then Then(t, k1) else if e.Some? then Then(e.value, k1) else k1, st)
      case While(c, b) => Going(Loop(Some(c), None, b, k1), st)
      case For(c, inc, b) => Going(Loop(c, inc, b, k1), st)
      case DoWhile(b, c) => Going(Then(b, Inc(Some(c), None, b, k1)), st)
      case Return(e) => Ended(if e.Some? then m.ret(e.value, st) else 0, st)
      case Goto(l) =>
        var r := FindLabel(body, l, Halt);
        Going(if r.Some? then r.value else Halt, st)
  }

  function Steps<S>(m: Sem<S>, body: Stmt, n: nat, s: Source<S>): Source<S> {
    if n == 0 || s.Ended? then s else Steps(m, body, n - 1, Step(m, body, s.k, s.st))
  }

  // ----- the target: blocks and a program counter -----

  datatype Target<S> = At(b: nat, i: nat, st: S) | Stopped(v: int, st: S)

  /** One instruction.  Text without a terminator would run into the next case of the
      switch, and a pc without a case returns 0. */
  function Tick<S>(m: Sem<S>, code: seq<Blk>, t: Target<S>): Target<S>
    requires t.At?
  {
    if t.b >= |code| then Stopped(0, t.st)
    else if t.i >= |code[t.b].text| then At(t.b + 1, 0, t.st)
    else
      match code[t.b].text[t.i]
      case Do(a) => At(t.b, t.i + 1, m.act(a, t.st))
      case Jump(b) => At(b, 0, t.st)
      case Cond(c, x, y) => At(if m.test(c, t.st) then x else y, 0, t.st)
      case Ret(e) => Stopped(if e.Some? then m.ret(e.value, t.st) else 0, t.st)
  }

  function Ticks<S>(m: Sem<S>, code: seq<Blk>, n: nat, t: Target<S>): Target<S> {
    if n == 0 || t.Stopped? then t else Ticks(m, code, n - 1, Tick(m, code, t))
  }

  lemma {:induction false} TicksAdd<S>(m: Sem<S>, code: seq<Blk>, a: nat, b: nat, t: Target<S>)
    ensures Ticks(m, code, a + b, t) == Ticks(m, code, b, Ticks(m, code, a, t))
    decreases a
  {
    if a > 0 && t.At? { TicksAdd(m, code, a - 1, b, Tick(m, code, t)); }
  }

  // ----- a place in the code matches a continuation -----

  datatype Point = Point(b: nat, i: nat)

  predicate InCode(g: Gen, p: Point) {
    p.b < |g.blocks| && p.i < |g.blocks[p.b].text|
  }

  function Fetch(g: Gen, p: Point): Instr
    requires InCode(g, p)
  {
    g.blocks[p.b].text[p.i]
  }

  predicate Holds(g: Gen, p: Point, i: Instr) {
    InCode(g, p) && Fetch(g, p) == i
  }

  /** Where the emitter writes next. */
  function Here(g: Gen): Point
    requires InRange(g)
  {
    Point(g.cur, |g.blocks[g.cur].text|)
  }

  /** The finished code f contains everything written up to g. */
  ghost predicate Within(g: Gen, f: Gen) {
    && InRange(g) && InRange(f) && |g.blocks| <= |f.blocks|
    && (forall b | 0 <= b < |g.blocks| :: Later(g.blocks[b], f.blocks[b]))
    && (forall l | l in g.lmap :: l in f.lmap && f.lmap[l] == g.lmap[l])
  }

  /** Labels that s will place have no code yet. */
  ghost predicate Unplaced(g: Gen, labels: set<string>) {
    forall l | l in labels && l in g.lmap :: g.lmap[l] < |g.blocks| && g.blocks[g.lmap[l]] == EMPTY
                                             && g.lmap[l] != g.cur
  }

  /** s is emitted from the state g, and the result is part of f. */
  ghost predicate Emitted(f: Gen, g: Gen, s: Stmt) {
    Valid(g) && Unique(s) && Unplaced(g, Defs(s)) && Within(Emit(g, s), f)
  }

  /** After a loop body: the increment, and the jump to the head. */
  predicate BackEdge(f: Gen, p: Point, inc: Option<nat>, hb: nat) {
    if inc.None? then Holds(f, p, Jump(hb))
    else Holds(f, p, Do(inc.value)) && Holds(f, Point(p.b, p.i + 1), Jump(hb))
  }

  function Size(k: Kont): nat {
    match k
    case Halt => 0
    case Then(_, k1) => 2 + Size(k1)
    case Loop(_, _, _, k1) => 2 + Size(k1)
    case Inc(_, _, _, k1) => 3 + Size(k1)
  }

  /** Running f from p does what k says, after n jumps that only lead there. */
  ghost predicate Match(f: Gen, k: Kont, p: Point, n: nat)
    decreases Size(k), n
  {
    if n > 0 then InCode(f, p) && Fetch(f, p).Jump? && Match(f, k, Point(Fetch(f, p).b, 0), n - 1) else
    match k
    case Halt => Holds(f, p, Ret(None))
    case Then(s, k1) => exists g: Gen :: ThenAt(f, g, s, p) && (Emit(g, s).Closed() || Somehow(f, k1, Here(Emit(g, s))))
    case Inc(c, inc, b, k1) => exists hb: nat :: BackEdge(f, p, inc, hb)
                                                 && Match(f, Loop(c, inc, b, k1), Point(hb, 0), 0)
    case Loop(c, inc, b, k1) => exists g: Gen, db: nat :: LoopAt(f, g, c, inc, b, p, db) && Somehow(f, k1, Point(db, 0))
  }

  ghost predicate Somehow(f: Gen, k: Kont, p: Point)
    decreases Size(k) + 1, 0
  {
    exists n: nat :: Match(f, k, p, n)
  }

  ghost predicate ThenAt(f: Gen, g: Gen, s: Stmt, p: Point) {
    Emitted(f, g, s) && !g.Closed() && p == Here(g)
  }

  /** A loop head at p: the test, the body emitted from g, and the way back. */
  ghost predicate LoopAt(f: Gen, g: Gen, c: Option<nat>, inc: Option<nat>, b: Stmt, p: Point, db: nat) {
    && Emitted(f, g, b) && !g.Closed() && Here(g) == Point(g.cur, 0) && p.i == 0
    && Holds(f, p, if c.Some? then Cond(c.value, g.cur, db) else Jump(g.cur))
    && (Emit(g, b).Closed() || BackEdge(f, Here(Emit(g, b)), inc, p.b))
  }

  // ----- reading back what was written -----

  lemma GrowsWithin(g: Gen, g1: Gen, d: set<string>, f: Gen)
    requires Grows(g, g1, d) && Within(g1, f)
    ensures Within(g, f)
  {
    forall b | 0 <= b < |g.blocks| ensures Later(g.blocks[b], f.blocks[b]) {
      assert Later(g.blocks[b], g1.blocks[b]) && Later(g1.blocks[b], f.blocks[b]);
    }
  }

  lemma WrittenHolds(g: Gen, i: Instr, f: Gen)
    requires InRange(g) && Within(g.Put(i), f)
    ensures Holds(f, Here(g), i)
  {
    var a, b := g.blocks[g.cur], g.Put(i).blocks[g.cur];
    assert b.text == a.text + [i] && Later(b, f.blocks[g.cur]);
  }

  lemma UnplacedStays(g: Gen, g1: Gen, d: set<string>, labels: set<string>)
    requires Grows(g, g1, d) && d !! labels && Unplaced(g, labels)
    ensures Unplaced(g1, labels)
  {
    forall l | l in labels && l in g1.lmap
      ensures g1.lmap[l] < |g1.blocks| && g1.blocks[g1.lmap[l]] == EMPTY && g1.lmap[l] != g1.cur {
      if l in g.lmap { assert !Of(g, g.lmap[l], d); }
    }
  }

  /** Moving the emitter into a spare block. */
  lemma MoveFacts(g: Gen, b: nat, labels: set<string>)
    requires Valid(g) && Spare(g, b) && Unplaced(g, labels)
    ensures var g1 := g.(cur := b); Valid(g1) && Unplaced(g1, labels) && !g1.Closed() && Here(g1) == Point(b, 0)
  {
  }

  lemma SomehowNow(f: Gen, k: Kont, p: Point)
    requires Match(f, k, p, 0)
    ensures Somehow(f, k, p)
  {
  }

  lemma SomehowJump(f: Gen, k: Kont, p: Point, b: nat)
    requires Holds(f, p, Jump(b)) && Somehow(f, k, Point(b, 0))
    ensures Somehow(f, k, p)
  {
    var n: nat :| Match(f, k, Point(b, 0), n);
    assert Match(f, k, p, n + 1);
  }

  /** k follows the code of s emitted from g. */
  ghost predicate Follows(f: Gen, g: Gen, s: Stmt, k: Kont)
    requires InRange(g)
  {
    Emit(g, s).Closed() || Somehow(f, k, Here(Emit(g, s)))
  }

  /** A branch that ends by jumping to the join. */
  lemma BranchFollows(f: Gen, g: Gen, s: Stmt, k: Kont, to: nat)
    requires InRange(g) && Within(Emit(g, s).PutOpen(Jump(to)), f) && Somehow(f, k, Point(to, 0))
    ensures Follows(f, g, s, k)
  {
    if !Emit(g, s).Closed() {
      WrittenHolds(Emit(g, s), Jump(to), f);
      SomehowJump(f, k, Here(Emit(g, s)), to);
    }
  }
}
