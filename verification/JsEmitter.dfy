/** The emitter itself, with its fixed tables: 1024 blocks and 512 labels a function. */
module JsEmitter {
  import opened Basics
  import opened JsControl

  const BLOCK_MAX := 1024
  const LABEL_MAX := 512

  predicate Fits(g: Gen) {
    |g.blocks| <= BLOCK_MAX && |g.lmap| <= LABEL_MAX
  }

  // ----- code that fits was made from code that fits -----

  lemma {:induction false} EmitFits(g: Gen, s: Stmt)
    requires InRange(g) && Fits(Emit(g, s))
    ensures Fits(Enter(g, s)) && Fits(g)
    decreases s, 2
  {
    var g1 := Enter(g, s);
    EmitInFits(g1, s);
  }

  lemma {:induction false} EmitInFits(g1: Gen, s: Stmt)
    requires InRange(g1) && Fits(EmitIn(g1, s))
    ensures Fits(g1)
    decreases s, 1
  {
    match s
    case Block(ss) => ListFits(g1, ss);
    case If(c, t, None) => IfFits(g1, c, t);
    case If(c, t, Some(e)) => IfElseFits(g1, c, t, e); ThenFits(g1, c, t);
    case While(c, b) => LoopFits(g1, Some(c), None, b);
    case For(c, inc, b) => LoopFits(g1, c, inc, b);
    case DoWhile(b, c) => DoFits(g1, b, c);
    case _ =>
  }

  lemma {:induction false} ListFits(g: Gen, ss: seq<Stmt>)
    requires InRange(g) && Fits(EmitList(g, ss))
    ensures Fits(g) && (ss != [] ==> Fits(Emit(g, ss[0])))
    decreases ss, 0
  {
    if ss != [] {
      ListFits(Emit(g, ss[0]), ss[1..]);
      EmitFits(g, ss[0]);
    }
  }

  lemma {:induction false} IfFits(g: Gen, c: nat, t: Stmt)
    requires InRange(g)
    ensures var n := |g.blocks|; var g1 := g.New().New().Put(Cond(c, n, n + 1)).(cur := n);
            && (Fits(EmitIf(g, c, t)) <==> Fits(g.New().New()) && Fits(Emit(g1, t)))
            && EmitIf(g, c, t) == Emit(g1, t).PutOpen(Jump(n + 1)).(cur := n + 1)
    decreases t, 3
  {
    var g1 := g.New().New().Put(Cond(c, |g.blocks|, |g.blocks| + 1)).(cur := |g.blocks|);
    if Fits(Emit(g1, t)) { EmitFits(g1, t); }
  }

  lemma {:induction false} ThenFits(g: Gen, c: nat, t: Stmt)
    requires InRange(g)
    ensures var n := |g.blocks|; var g1 := g.New().New().New().Put(Cond(c, n, n + 1)).(cur := n);
            && (Fits(ThenPart(g, c, t)) <==> Fits(g.New().New().New()) && Fits(Emit(g1, t)))
            && ThenPart(g, c, t) == Emit(g1, t).PutOpen(Jump(n + 2))
    decreases t, 3
  {
    var g1 := g.New().New().New().Put(Cond(c, |g.blocks|, |g.blocks| + 1)).(cur := |g.blocks|);
    if Fits(Emit(g1, t)) { EmitFits(g1, t); }
  }

  lemma {:induction false} IfElseFits(g: Gen, c: nat, t: Stmt, e: Stmt)
    requires InRange(g)
    ensures var g1 := ThenPart(g, c, t).(cur := |g.blocks| + 1);
            Fits(EmitIfElse(g, c, t, e)) <==> Fits(ThenPart(g, c, t)) && Fits(Emit(g1, e))
    decreases If(c, t, Some(e)), 0
  {
    IfElseIs(g, c, t, e);
    if Fits(Emit(ThenPart(g, c, t).(cur := |g.blocks| + 1), e)) {
      EmitFits(ThenPart(g, c, t).(cur := |g.blocks| + 1), e);
    }
  }

  lemma IfElseIs(g: Gen, c: nat, t: Stmt, e: Stmt)
    requires InRange(g)
    ensures var n := |g.blocks|;
            EmitIfElse(g, c, t, e) == Emit(ThenPart(g, c, t).(cur := n + 1), e).PutOpen(Jump(n + 2)).(cur := n + 2)
  {
  }

  lemma {:induction false} DoFits(g: Gen, b: Stmt, c: nat)
    requires InRange(g)
    ensures var n := |g.blocks|; var g1 := g.New().New().New().Put(Jump(n)).(cur := n);
            && (Fits(EmitDo(g, b, c)) <==> Fits(g.New().New().New()) && Fits(Emit(g1, b)))
            && EmitDo(g, b, c) == Emit(g1, b).PutOpen(Jump(n + 1)).(cur := n + 1).Put(Cond(c, n, n + 2)).(cur := n + 2)
    decreases b, 3
  {
    var g1 := g.New().New().New().Put(Jump(|g.blocks|)).(cur := |g.blocks|);
    if Fits(Emit(g1, b)) { EmitFits(g1, b); }
  }

  lemma {:induction false} LoopFits(g: Gen, c: Option<nat>, inc: Option<nat>, b: Stmt)
    requires InRange(g)
    ensures var n := |g.blocks|; var g1 := LoopHead(g, c).(cur := n + 1);
            && (Fits(EmitLoop(g, c, inc, b)) <==> Fits(g.New().New().New()) && Fits(Emit(g1, b)))
            && EmitLoop(g, c, inc, b) == LoopBack(Emit(g1, b), inc, n).(cur := n + 2)
    decreases b, 3
  {
    var g1 := LoopHead(g, c).(cur := |g.blocks| + 1);
    if Fits(Emit(g1, b)) { EmitFits(g1, b); }
  }

  // ----- the emitter -----

  class JsGen {
    var blocks: seq<Blk>
    var cur: nat
    var lmap: map<string, nat>

    ghost function State(): Gen
      reads this
    {
      Gen(blocks, cur, lmap)
    }

    ghost predicate Ready()
      reads this
    {
      InRange(State()) && Fits(State())
    }

    constructor ()
      ensures Ready() && State() == START
    {
      blocks, cur, lmap := [EMPTY], 0, map[];
    }

    /** A fresh block, or failure when the table is full. */
    method NewBlock() returns (ok: bool, b: nat)
      requires Ready()
      modifies this
      ensures ok <==> Fits(old(State()).New())
      ensures ok ==> Ready() && State() == old(State()).New() && b == |old(blocks)|
    {
      b := |blocks|;
      ok := |blocks| < BLOCK_MAX;
      if ok { blocks := blocks + [EMPTY]; }
    }

    method Write(i: Instr)
      requires Ready()
      modifies this
      ensures Ready() && State() == old(State()).Put(i)
    {
      var b := blocks[cur];
      blocks := blocks[cur := Blk(b.text + [i], b.term || Terminator(i))];
    }

    method JumpIfOpen(b: nat)
      requires Ready()
      modifies this
      ensures Ready() && State() == old(State()).PutOpen(Jump(b))
    {
      if !blocks[cur].term { Write(Jump(b)); }
    }

    /** Close the branch and go on in another block. */
    method Leave(to: nat, next: nat)
      requires Ready() && next < |blocks|
      modifies this
      ensures Ready() && State() == old(State()).PutOpen(Jump(to)).(cur := next)
    {
      JumpIfOpen(to);
      cur := next;
    }

    /** Three fresh blocks, a terminator, and into the first block. */
    method Fork(i: Instr) returns (ok: bool)
      requires Ready()
      modifies this
      ensures ok <==> Fits(old(State()).New().New().New())
      ensures ok ==> Ready() && State() == old(State()).New().New().New().Put(i).(cur := |old(blocks)|)
    {
      var n, b: nat;
      ok, n := NewBlock();
      if ok { ok, b := NewBlock(); }
      if ok { ok, b := NewBlock(); }
      if ok { Write(i); cur := n; }
    }

    method LabelBlock(l: string) returns (ok: bool, b: nat)
      requires Ready()
      modifies this
      ensures ok <==> Fits(old(State()).LabelBlock(l))
      ensures ok ==> Ready() && State() == old(State()).LabelBlock(l) && b == lmap[l]
    {
      if l in lmap {
        return true, lmap[l];
      }
      if |lmap| >= LABEL_MAX {
        return false, 0;
      }
      ok, b := NewBlock();
      if ok { lmap := lmap[l := b]; }
    }

    /** Emission succeeds exactly when the code fits, and then is the specified code. */
    method EmitStmt(s: Stmt) returns (ok: bool)
      requires Ready()
      modifies this
      ensures ok <==> Fits(Emit(old(State()), s))
      ensures ok ==> Ready() && State() == Emit(old(State()), s)
      decreases s, 2
    {
      ok := true;
      ghost var g := State();
      if Fits(Emit(g, s)) { EmitFits(g, s); }
      if blocks[cur].term && !s.Label? {
        var b: nat;
        ok, b := NewBlock();
        if !ok { return; }
        cur := b;
      }
      ok := EmitOpen(s);
    }

    method EmitOpen(s: Stmt) returns (ok: bool)
      requires Ready()
      modifies this
      ensures ok <==> Fits(EmitIn(old(State()), s))
      ensures ok ==> Ready() && State() == EmitIn(old(State()), s)
      decreases s, 1
    {
      ok := true;
      match s
      case Nop =>
      case Act(a) => Write(Do(a));
      case Return(e) => Write(Ret(e));
      case Block(ss) => ok := EmitAll(ss);
      case If(c, t, None) => ok := EmitIfStmt(c, t);
      case If(c, t, Some(e)) => ok := EmitIfElseStmt(c, t, e);
      case While(c, b) => ok := EmitLoopStmt(Some(c), None, b);
      case For(c, inc, b) => ok := EmitLoopStmt(c, inc, b);
      case DoWhile(b, c) => ok := EmitDoStmt(b, c);
      case Goto(l) =>
        var b: nat;
        ok, b := LabelBlock(l);
        if ok { Write(Jump(b)); }
      case Label(l) =>
        var b: nat;
        ok, b := LabelBlock(l);
        if ok { Leave(b, b); }
    }

    method EmitAll(ss: seq<Stmt>) returns (ok: bool)
      requires Ready()
      modifies this
      ensures ok <==> Fits(EmitList(old(State()), ss))
      ensures ok ==> Ready() && State() == EmitList(old(State()), ss)
      decreases ss, 0
    {
      var i := 0;
      ok := true;
      while i < |ss|
        invariant 0 <= i <= |ss| && Ready()
        invariant EmitList(State(), ss[i..]) == EmitList(old(State()), ss)
      {
        ghost var g := State();
        assert ss[i..][1..] == ss[i + 1..];
        if Fits(EmitList(g, ss[i..])) { ListFits(g, ss[i..]); }
        ok := EmitStmt(ss[i]);
        if !ok { return; }
        i := i + 1;
      }
    }

    /** A branch that ends by jumping to `to`; emission goes on in `next`. */
    method EmitBranch(s: Stmt, to: nat, next: nat) returns (ok: bool)
      requires Ready() && next < |blocks|
      modifies this
      ensures ok <==> Fits(Emit(old(State()), s))
      ensures ok ==> Ready() && State() == Emit(old(State()), s).PutOpen(Jump(to)).(cur := next)
      decreases s, 3
    {
      ok := EmitStmt(s);
      if ok { Leave(to, next); }
    }

    method EmitIfStmt(c: nat, t: Stmt) returns (ok: bool)
      requires Ready()
      modifies this
      ensures ok <==> Fits(EmitIf(old(State()), c, t))
      ensures ok ==> Ready() && State() == EmitIf(old(State()), c, t)
      decreases t, 4
    {
      IfFits(State(), c, t);
      var n := |blocks|;
      ok := ForkTwo(Cond(c, n, n + 1));
      if ok { ok := EmitBranch(t, n + 1, n + 1); }
    }

    /** Two blocks, a terminator, and into the first block. */
    method ForkTwo(i: Instr) returns (ok: bool)
      requires Ready()
      modifies this
      ensures ok <==> Fits(old(State()).New().New())
      ensures ok ==> Ready() && State() == old(State()).New().New().Put(i).(cur := |old(blocks)|)
    {
      var n, b: nat;
      ok, n := NewBlock();
      if ok { ok, b := NewBlock(); }
      if ok { Write(i); cur := n; }
    }

    method EmitIfElseStmt(c: nat, t: Stmt, e: Stmt) returns (ok: bool)
      requires Ready()
      modifies this
      ensures ok <==> Fits(EmitIfElse(old(State()), c, t, e))
      ensures ok ==> Ready() && State() == EmitIfElse(old(State()), c, t, e)
      decreases If(c, t, Some(e)), 0
    {
      IfElseFits(State(), c, t, e);
      IfElseIs(State(), c, t, e);
      var n := |blocks|;
      ok := EmitThenPart(c, t);
      if !ok { return; }
      ok := EmitBranch(e, n + 2, n + 2);
    }

    method EmitThenPart(c: nat, t: Stmt) returns (ok: bool)
      requires Ready()
      modifies this
      ensures ok <==> Fits(ThenPart(old(State()), c, t))
      ensures ok ==> Ready() && State() == ThenPart(old(State()), c, t).(cur := |old(blocks)| + 1)
      decreases t, 4
    {
      ThenFits(State(), c, t);
      var n := |blocks|;
      ok := Fork(Cond(c, n, n + 1));
      if !ok { return; }
      ok := EmitBranch(t, n + 2, n + 1);
    }

    method EmitDoStmt(b: Stmt, c: nat) returns (ok: bool)
      requires Ready()
      modifies this
      ensures ok <==> Fits(EmitDo(old(State()), b, c))
      ensures ok ==> Ready() && State() == EmitDo(old(State()), b, c)
      decreases b, 4
    {
      DoFits(State(), b, c);
      var n := |blocks|;
      ok := Fork(Jump(n));
      if !ok { return; }
      ok := EmitBranch(b, n + 1, n + 1);
      if !ok { return; }
      Write(Cond(c, n, n + 2));
      cur := n + 2;
    }

    method EmitLoopStmt(c: Option<nat>, inc: Option<nat>, b: Stmt) returns (ok: bool)
      requires Ready()
      modifies this
      ensures ok <==> Fits(EmitLoop(old(State()), c, inc, b))
      ensures ok ==> Ready() && State() == EmitLoop(old(State()), c, inc, b)
      decreases b, 3
    {
      LoopFits(State(), c, inc, b);
      var n := |blocks|;
      ok := OpenLoop(c);
      if !ok { return; }
      ok := EmitStmt(b);
      if ok { CloseLoop(inc, n, n + 2); }
    }

    method OpenLoop(c: Option<nat>) returns (ok: bool)
      requires Ready()
      modifies this
      ensures ok <==> Fits(old(State()).New().New().New())
      ensures ok ==> Ready() && State() == LoopHead(old(State()), c).(cur := |old(blocks)| + 1)
    {
      var n := |blocks|;
      ok := Fork(Jump(n));
      if !ok { return; }
      Write(if c.Some? then Cond(c.value, n + 1, n + 2) else Jump(n + 1));
      cur := n + 1;
    }

    /** Back to the head; emission goes on in db. */
    method CloseLoop(inc: Option<nat>, hb: nat, db: nat)
      requires Ready() && db < |blocks|
      modifies this
      ensures Ready() && State() == LoopBack(old(State()), inc, hb).(cur := db)
    {
      if inc.Some? && !blocks[cur].term { Write(Do(inc.value)); }
      JumpIfOpen(hb);
      cur := db;
    }

    /** The blocks of a whole function. */
    method EmitFunc(body: Stmt) returns (ok: bool)
      requires Ready() && State() == START
      modifies this
      ensures ok <==> Fits(EmitBody(body))
      ensures ok ==> State() == EmitBody(body)
    {
      ok := EmitStmt(body);
      if ok && !blocks[cur].term { Write(Ret(None)); }
    }
  }
}
