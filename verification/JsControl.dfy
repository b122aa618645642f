/** src/back_js.c: a function with goto becomes a `switch (pc)` over basic blocks. */
module JsControl {
  import opened Basics

  /** Statements.  Numbers name expressions: a condition, a returned value, or an
      expression statement.  The init clause of a `for` is the statements before it. */
  datatype Stmt =
    | Nop
    | Act(a: nat)
    | Block(ss: seq<Stmt>)
    | If(c: nat, thn: Stmt, els: Option<Stmt>)
    | While(c: nat, body: Stmt)
    | DoWhile(body: Stmt, c: nat)
    | For(test: Option<nat>, inc: Option<nat>, body: Stmt)
    | Return(e: Option<nat>)
    | Goto(target: string)
    | Label(name: string)

  datatype Instr = Do(a: nat) | Jump(b: nat) | Cond(c: nat, t: nat, f: nat) | Ret(e: Option<nat>)

  predicate Terminator(i: Instr) { !i.Do? }

  datatype Blk = Blk(text: seq<Instr>, term: bool)

  const EMPTY := Blk([], false)

  /** The emitter's state: the blocks, the current one, and the block of each label. */
  datatype Gen = Gen(blocks: seq<Blk>, cur: nat, lmap: map<string, nat>) {
    predicate Closed()
      requires cur < |blocks|
    {
      blocks[cur].term
    }

    /** Append to the current block. */
    function Put(i: Instr): (g: Gen)
      requires cur < |blocks|
      ensures g.cur == cur && |g.blocks| == |blocks|
    {
      var b := blocks[cur];
      this.(blocks := blocks[cur := Blk(b.text + [i], b.term || Terminator(i))])
    }

    function New(): Gen {
      this.(blocks := blocks + [EMPTY])
    }

    /** Jump unless the block is already ended. */
    function PutOpen(i: Instr): (g: Gen)
      requires cur < |blocks|
      ensures g.cur == cur && |g.blocks| == |blocks|
    {
      if Closed() then this else Put(i)
    }

    function LabelBlock(l: string): (g: Gen)
      ensures l in g.lmap
    {
      if l in lmap then this else Gen(blocks + [EMPTY], cur, lmap[l := |blocks|])
    }
  }

  /** The current block and the label blocks exist. */
  predicate InRange(g: Gen) {
    g.cur < |g.blocks| && forall l | l in g.lmap :: g.lmap[l] < |g.blocks|
  }

  function Enter(g: Gen, s: Stmt): (r: Gen)
    requires InRange(g)
    ensures InRange(r) && |g.blocks| <= |r.blocks|
  {
    if g.Closed() && !s.Label? then g.New().(cur := |g.blocks|) else g
  }

  function Emit(g: Gen, s: Stmt): (r: Gen)
    requires InRange(g)
    ensures InRange(r) && |g.blocks| <= |r.blocks|
    decreases s, 2
  {
    EmitIn(Enter(g, s), s)
  }

  function EmitIn(g: Gen, s: Stmt): (r: Gen)
    requires InRange(g)
    ensures InRange(r) && |g.blocks| <= |r.blocks|
    decreases s, 1
  {
    match s
    case Nop => g
    case Act(a) => g.Put(Do(a))
    case Block(ss) => EmitList(g, ss)
    case If(c, t, None) => EmitIf(g, c, t)
    case If(c, t, Some(e)) => EmitIfElse(g, c, t, e)
    case While(c, b) => EmitLoop(g, Some(c), None, b)
    case For(c, inc, b) => EmitLoop(g, c, inc, b)
    case DoWhile(b, c) => EmitDo(g, b, c)
    case Return(e) => g.Put(Ret(e))
    case Goto(l) => var g1 := g.LabelBlock(l); g1.Put(Jump(g1.lmap[l]))
    case Label(l) =>
      var g1 := g.LabelBlock(l);
      g1.PutOpen(Jump(g1.lmap[l])).(cur := g1.lmap[l])
  }

  function EmitIf(g: Gen, c: nat, t: Stmt): (r: Gen)
    requires InRange(g)
    ensures InRange(r) && |g.blocks| + 2 <= |r.blocks|
    decreases t, 3
  {
    var tb, db := |g.blocks|, |g.blocks| + 1;
    Emit(g.New().New().Put(Cond(c, tb, db)).(cur := tb), t).PutOpen(Jump(db)).(cur := db)
  }

  function EmitIfElse(g: Gen, c: nat, t: Stmt, e: Stmt): (r: Gen)
    requires InRange(g)
    ensures InRange(r) && |g.blocks| <= |r.blocks|
    decreases If(c, t, Some(e)), 0
  {
    var eb, db := |g.blocks| + 1, |g.blocks| + 2;
    Emit(ThenPart(g, c, t).(cur := eb), e).PutOpen(Jump(db)).(cur := db)
  }

  /** The three blocks of an if with else; the then part is emitted and ended. */
  function ThenPart(g: Gen, c: nat, t: Stmt): (r: Gen)
    requires InRange(g)
    ensures InRange(r) && |g.blocks| + 3 <= |r.blocks|
    decreases t, 3
  {
    var n := |g.blocks|;
    Emit(g.New().New().New().Put(Cond(c, n, n + 1)).(cur := n), t).PutOpen(Jump(n + 2))
  }

  /** `do`: body, head and exit block. */
  function EmitDo(g: Gen, b: Stmt, c: nat): (r: Gen)
    requires InRange(g)
    ensures InRange(r) && |g.blocks| <= |r.blocks|
    decreases b, 3
  {
    var bb, hb, db := |g.blocks|, |g.blocks| + 1, |g.blocks| + 2;
    var g1 := Emit(g.New().New().New().Put(Jump(bb)).(cur := bb), b);
    g1.PutOpen(Jump(hb)).(cur := hb).Put(Cond(c, bb, db)).(cur := db)
  }

  /** `while` and `for`: head, body and exit block. */
  function EmitLoop(g: Gen, c: Option<nat>, inc: Option<nat>, b: Stmt): (r: Gen)
    requires InRange(g)
    ensures InRange(r) && |g.blocks| <= |r.blocks|
    decreases b, 3
  {
    var hb, bb, db := |g.blocks|, |g.blocks| + 1, |g.blocks| + 2;
    var g1 := Emit(LoopHead(g, c).(cur := bb), b);
    LoopBack(g1, inc, hb).(cur := db)
  }

  /** The jump to the head and the test in it. */
  function LoopHead(g: Gen, c: Option<nat>): (r: Gen)
    requires InRange(g)
    ensures InRange(r) && |r.blocks| == |g.blocks| + 3
  {
    var hb, bb, db := |g.blocks|, |g.blocks| + 1, |g.blocks| + 2;
    g.New().New().New().Put(Jump(hb)).(cur := hb).Put(if c.Some? then Cond(c.value, bb, db) else Jump(bb))
  }

  /** What follows a loop body that is still open. */
  function LoopBack(g: Gen, inc: Option<nat>, hb: nat): (r: Gen)
    requires InRange(g)
    ensures InRange(r) && |r.blocks| == |g.blocks|
  {
    if g.Closed() then g else (if inc.Some? then g.Put(Do(inc.value)) else g).Put(Jump(hb))
  }

  function EmitList(g: Gen, ss: seq<Stmt>): (r: Gen)
    requires InRange(g)
    ensures InRange(r) && |g.blocks| <= |r.blocks|
    decreases ss, 0
  {
    if ss == [] then g else EmitList(Emit(g, ss[0]), ss[1..])
  }

  const START := Gen([EMPTY], 0, map[])

  /** All blocks of a function body, the last one returning 0 if still open. */
  function EmitBody(s: Stmt): Gen {
    Emit(START, s).PutOpen(Ret(None))
  }
}
