/** src/back_ll.c: the emitter, which writes the lines of a function one by one. */
module LlEmitter {
  import opened Basics
  import opened LlCode
  import opened LlBlocks
  import opened LlLabels
  import opened LlRuns

  class LlGen {
    var out: seq<Line>
    var open: bool
    var nlab: nat
    var ntmp: nat
    var handlers: seq<Handler>
    var depth: nat
    const retVoid: bool
    ghost var g: Gen

    ghost predicate Valid()
      reads this
    {
      && out == Listed(g.out) && open == g.open && nlab == g.nlab && ntmp == g.ntmp
      && |handlers| <= HANDLER_MAX
    }

    ghost function Now(): Env
      reads this
    {
      Env(handlers, depth, retVoid)
    }

    /** n more handlers fit. */
    ghost predicate Room(n: nat)
      reads this
    {
      |handlers| + n <= HANDLER_MAX
    }

    /** The function starts in its entry block. */
    constructor (retVoid: bool)
      ensures Valid() && g == ENTRY && this.retVoid == retVoid && Now() == Env([], 0, retVoid)
    {
      this.retVoid := retVoid;
      out, open, nlab, ntmp, handlers, depth := [Place(Temp(0))], true, 0, 0, [], 0;
      g := ENTRY;
      assert Listed(Snoc(Nil, Place(Temp(0)))) == [] + [Place(Temp(0))];
    }

    // ----- lines -----

    method Write(x: Line)
      requires Valid()
      modifies this`out, this`open, this`g
      ensures Valid() && g == old(g).Write(x)
    {
      out, open := out + [x], !x.Ends();
      g := g.Write(x);
    }

    method NewLab() returns (n: nat)
      requires Valid()
      modifies this`nlab, this`g
      ensures Valid() && n == g.nlab && g == old(g).Labels(1)
    {
      nlab := nlab + 1;
      g := g.Labels(1);
      n := nlab;
    }

    method NewLabs(k: nat) returns (n: nat)
      requires Valid()
      modifies this`nlab, this`g
      ensures Valid() && n == old(g).nlab + 1 && g == old(g).Labels(k)
    {
      n := nlab + 1;
      nlab := nlab + k;
      g := g.Labels(k);
    }

    method NewTmp() returns (n: nat)
      requires Valid()
      modifies this`ntmp, this`g
      ensures Valid() && n == g.ntmp && g == old(g).Temps(1)
    {
      ntmp := ntmp + 1;
      g := g.Temps(1);
      n := ntmp;
    }

    /** A fresh block for code that cannot be reached. */
    method EnsureBlock()
      requires Valid()
      modifies this`out, this`open, this`nlab, this`g
      ensures Valid() && g == old(g).Ensure()
    {
      if !open {
        var n := NewLab();
        Write(Place(Temp(n)));
      }
    }

    method Put(i: Instr)
      requires Valid()
      modifies this`out, this`open, this`nlab, this`g
      ensures Valid() && g == old(g).Put(i)
    {
      EnsureBlock();
      Write(Ins(i));
    }

    method BrTo(l: Label)
      requires Valid()
      modifies this`out, this`open, this`nlab, this`g
      ensures Valid() && g == old(g).BrTo(l)
    {
      EnsureBlock();
      Write(Br(l));
    }

    /** An open block falls through into the label. */
    method PlaceLabel(l: Label)
      requires Valid()
      modifies this`out, this`open, this`g
      ensures Valid() && g == old(g).Lab(l)
    {
      if open { Write(Br(l)); }
      Write(Place(l));
    }

    // ----- expressions -----

    method EmitAll(es: seq<Expr>) returns (xs: seq<Opnd>)
      requires Valid()
      modifies this`out, this`open, this`nlab, this`ntmp, this`g
      ensures Valid() && (g, xs) == EmitArgs(old(g), es)
      decreases es, 0
    {
      xs := [];
      var i := 0;
      assert es[0..] == es && [] + EmitArgs(g, es).1 == EmitArgs(g, es).1;
      while i < |es|
        invariant 0 <= i <= |es| && Valid()
        invariant ArgsFrom(g, xs, es[i..]) == EmitArgs(old(g), es)
      {
        ghost var g0 := g;
        assert es[i..][0] == es[i] && es[i..][1..] == es[i + 1..];
        var x := EmitExpr(es[i]);
        ArgStep(g0, xs, es[i..], g, x);
        xs := xs + [x];
        i := i + 1;
      }
      assert ArgsFrom(g, xs, es[i..]) == (g, xs + []);
      assert xs + [] == xs;
    }

    /** emit_val */
    method EmitExpr(e: Expr) returns (x: Opnd)
      requires Valid()
      modifies this`out, this`open, this`nlab, this`ntmp, this`g
      ensures Valid() && (g, x) == EmitVal(old(g), e)
      decreases e, 2
    {
      match e
      case Const(v) => x := Imm(v);
      case Code(f, args) =>
        var xs := EmitAll(args);
        x := EmitOp(f, xs);
      case Logic(conj, l, r) => x := EmitShortcircuit(e);
    }

    method EmitOp(f: nat, xs: seq<Opnd>) returns (x: Opnd)
      requires Valid()
      modifies this`out, this`open, this`nlab, this`ntmp, this`g
      ensures Valid() && (g, x) == Operate((old(g), xs), f)
    {
      EnsureBlock();
      var d := NewTmp();
      Put(Op(d, f, xs));
      x := Reg(d);
    }

    /** A test of the value, and a branch on it. */
    method EmitCondBr(c: Expr, t: Label, f: Label)
      requires Valid()
      modifies this`out, this`open, this`nlab, this`ntmp, this`g
      ensures Valid() && g == EmitCond(old(g), c, t, f)
      decreases c, 3
    {
      var x := EmitExpr(c);
      EmitBranch(x, t, f);
    }

    method EmitBranch(x: Opnd, t: Label, f: Label)
      requires Valid()
      modifies this`out, this`open, this`nlab, this`ntmp, this`g
      ensures Valid() && g == Branch((old(g), x), t, f)
    {
      var c := EmitBool(x);
      Write(CondBr(Reg(c), t, f));
    }

    /** bool_of */
    method EmitBool(x: Opnd) returns (c: nat)
      requires Valid()
      modifies this`out, this`open, this`nlab, this`ntmp, this`g
      ensures Valid() && c == old(g).ntmp + 1 && g == old(g).Put(Bool(c, x)).Temps(1)
    {
      EnsureBlock();
      c := NewTmp();
      Put(Bool(c, x));
    }

    /** && and ||, through a slot in memory. */
    method EmitShortcircuit(e: Expr) returns (x: Opnd)
      requires Valid() && e.Logic?
      modifies this`out, this`open, this`nlab, this`ntmp, this`g
      ensures Valid() && (g, x) == EmitVal(old(g), e)
      decreases e, 1
    {
      var slot, n := EmitSlot();
      var a := EmitExpr(e.l);
      ghost var g1 := g;
      EmitSplit(a, e.conj, n);
      ghost var g2 := g;
      var b := EmitExpr(e.r);
      LogicIs(old(g), e, slot, n, g1, a, g2, g, b);
      x := EmitJoin(b, e.conj, slot, n);
    }

    method EmitSlot() returns (slot: nat, n: nat)
      requires Valid()
      modifies this`out, this`open, this`nlab, this`ntmp, this`g
      ensures Valid() && slot == Slot(old(g)).ntmp && n == Slot(old(g)).nlab + 1 && g == Slot(old(g)).Labels(3)
    {
      EnsureBlock();
      slot := NewTmp();
      Put(Alloca(slot));
      assert g == Slot(old(g));
      n := NewLabs(3);
    }

    method EmitSplit(a: Opnd, conj: bool, n: nat)
      requires Valid()
      modifies this`out, this`open, this`nlab, this`ntmp, this`g
      ensures Valid() && g == Split((old(g), a), conj, n)
    {
      EmitBranch(a, Temp(if conj then n else n + 1), Temp(if conj then n + 1 else n));
      PlaceLabel(Temp(n));
    }

    /** From the end of the right side to the value. */
    method EmitJoin(b: Opnd, conj: bool, slot: nat, n: nat) returns (x: Opnd)
      requires Valid()
      modifies this`out, this`open, this`nlab, this`ntmp, this`g
      ensures Valid() && (g, x) == EndLogic((old(g), b), conj, slot, n)
    {
      var c := EmitBool(b);
      Put(Store(Reg(c), slot));
      assert g == StoreTruth((old(g), b), slot);
      BrTo(Temp(n + 2));
      EmitOther(conj, slot, n);
      x := EmitResult(slot, n);
    }

    method EmitOther(conj: bool, slot: nat, n: nat)
      requires Valid()
      modifies this`out, this`open, this`nlab, this`ntmp, this`g
      ensures Valid() && g == StoreOther(old(g), conj, slot, n)
    {
      PlaceLabel(Temp(n + 1));
      Put(Store(Imm(if conj then 0 else 1), slot));
      BrTo(Temp(n + 2));
    }

    method EmitResult(slot: nat, n: nat) returns (x: Opnd)
      requires Valid()
      modifies this`out, this`open, this`nlab, this`ntmp, this`g
      ensures Valid() && (g, x) == Result(old(g), slot, n)
    {
      PlaceLabel(Temp(n + 2));
      var r := NewTmp();
      Put(Load(r, slot));
      x := Reg(r);
    }

    // ----- statements -----

    /** A statement; fails when try nests too deep. */
    method EmitStmt(s: Stmt) returns (ok: bool)
      requires Valid()
      modifies this
      ensures ok <==> old(Room(Nest(s)))
      ensures ok ==> Valid() && g == Emit(old(g), s, old(Now())) && Now() == old(Now())
      decreases s, 3
    {
      ok := true;
      match s
      case Nop =>
      case Do(e) => var _ := EmitExpr(e);
      case Throws(e) => EmitThrowTo(e);
      case InlineAsm(f) => Put(Asm(f));
      case Seq(ss) => ok := EmitBlock(ss);
      case Return(e) => EmitRet(e);
      case Goto(l) => BrTo(Named(l));
      case Mark(l) => PlaceLabel(Named(l));
      case TryNone(b) => ok := EmitStmt(b);
      case _ => ok := EmitConstruct(s);
    }

    /** A statement with labels of its own. */
    method EmitConstruct(s: Stmt) returns (ok: bool)
      requires Valid()
      requires s.If? || s.IfElse? || s.While? || s.DoWhile? || s.For? || s.TryLocal? || s.TryDynamic?
      modifies this
      ensures ok <==> old(Room(Nest(s)))
      ensures ok ==> Valid() && g == Emit(old(g), s, old(Now())) && Now() == old(Now())
      decreases s, 2
    {
      match s
      case If(_, _) => ok := EmitIf(s);
      case IfElse(_, _, _) => ok := EmitIfElse(s);
      case While(_, _) => ok := EmitWhile(s);
      case DoWhile(_, _) => ok := EmitDo(s);
      case For(_, _, _, _) => ok := EmitFor(s);
      case TryLocal(_, _) => ok := EmitTryLocal(s);
      case TryDynamic(_, _) => ok := EmitTryDynamic(s);
    }

    method EmitBlock(ss: seq<Stmt>) returns (ok: bool)
      requires Valid()
      modifies this
      ensures ok <==> old(Room(ListNest(ss)))
      ensures ok ==> Valid() && g == EmitList(old(g), ss, old(Now())) && Now() == old(Now())
      decreases ss, 0
    {
      ok := true;
      var i := 0;
      while i < |ss|
        invariant 0 <= i <= |ss| && Valid() && Now() == old(Now())
        invariant old(Room(ListNest(ss))) <==> Room(ListNest(ss[i..]))
        invariant EmitList(g, ss[i..], Now()) == EmitList(old(g), ss, old(Now()))
      {
        assert ss[i..][0] == ss[i] && ss[i..][1..] == ss[i + 1..];
        ok := EmitStmt(ss[i]);
        if !ok { return; }
        i := i + 1;
      }
    }

    /** With a handler in this function the throw stores its value and branches. */
    method EmitThrowTo(e: Expr)
      requires Valid()
      modifies this`out, this`open, this`nlab, this`ntmp, this`g
      ensures Valid() && g == EmitThrow(old(g), e, Now())
    {
      var x := EmitExpr(e);
      var hs := handlers;
      if hs != [] && !hs[|hs| - 1].dynamic {
        Put(Raise(x));
        BrTo(hs[|hs| - 1].target);
      } else {
        Put(Throw(x));
      }
    }

    /** The frames are popped before the operand. */
    method EmitRet(e: Option<Expr>)
      requires Valid()
      modifies this`out, this`open, this`nlab, this`ntmp, this`g
      ensures Valid() && g == EmitReturn(old(g), e, Now())
    {
      EnsureBlock();
      var i := 0;
      while i < depth
        invariant 0 <= i <= depth && Valid() && g == EmitPops(old(g).Ensure(), i)
      {
        Put(Pop);
        i := i + 1;
      }
      if retVoid {
        Write(Ret(None));
      } else if e.Some? {
        var x := EmitExpr(e.value);
        EnsureBlock();
        Write(Ret(Some(x)));
      } else {
        Write(Ret(Some(Imm(0))));
      }
    }

    /** The labels of an if, its test, and the start of its first branch. */
    method EmitTest(c: Expr, els: bool) returns (n: nat)
      requires Valid()
      modifies this`out, this`open, this`nlab, this`ntmp, this`g
      ensures Valid() && n == old(g).nlab + 1 && g == Test(old(g), c, n, if els then n + 1 else n + 2)
    {
      n := NewLabs(3);
      EnsureBlock();
      EmitCondBr(c, Temp(n), Temp(if els then n + 1 else n + 2));
      PlaceLabel(Temp(n));
    }

    method EmitIf(s: Stmt) returns (ok: bool)
      requires Valid() && s.If?
      modifies this
      ensures ok <==> old(Room(Nest(s)))
      ensures ok ==> Valid() && g == Emit(old(g), s, old(Now())) && Now() == old(Now())
      decreases s, 1
    {
      var n := EmitTest(s.c, false);
      ghost var g1 := g;
      ok := EmitStmt(s.t);
      if !ok { return; }
      IfIs(old(g), s, Now(), n, g1, g);
      BrTo(Temp(n + 2));
      PlaceLabel(Temp(n + 2));
    }

    method EmitIfElse(s: Stmt) returns (ok: bool)
      requires Valid() && s.IfElse?
      modifies this
      ensures ok <==> old(Room(Nest(s)))
      ensures ok ==> Valid() && g == Emit(old(g), s, old(Now())) && Now() == old(Now())
      decreases s, 1
    {
      var n := EmitTest(s.c, true);
      ghost var g1 := g;
      ok := EmitStmt(s.t);
      if !ok { return; }
      ghost var g2 := g;
      BrTo(Temp(n + 2));
      PlaceLabel(Temp(n + 1));
      ghost var h := g;
      ok := EmitStmt(s.els);
      if !ok { return; }
      IfElseIs(old(g), s, Now(), n, g1, g2, h, g);
      BrTo(Temp(n + 2));
      PlaceLabel(Temp(n + 2));
    }

    /** The jump to the head of a loop, its test, and the start of its body. */
    method EmitHead(c: Option<Expr>, n: nat)
      requires Valid()
      modifies this`out, this`open, this`nlab, this`ntmp, this`g
      ensures Valid() && g == Head(old(g), c, n)
    {
      BrTo(Temp(n));
      PlaceLabel(Temp(n));
      if c.Some? { EmitCondBr(c.value, Temp(n + 1), Temp(n + 2)); } else { BrTo(Temp(n + 1)); }
      PlaceLabel(Temp(n + 1));
    }

    method EmitWhile(s: Stmt) returns (ok: bool)
      requires Valid() && s.While?
      modifies this
      ensures ok <==> old(Room(Nest(s)))
      ensures ok ==> Valid() && g == Emit(old(g), s, old(Now())) && Now() == old(Now())
      decreases s, 1
    {
      var n := NewLabs(3);
      EmitHead(Some(s.c), n);
      ghost var h := g;
      ok := EmitStmt(s.b);
      if !ok { return; }
      WhileIs(old(g), s, Now(), n, h, g);
      BrTo(Temp(n));
      PlaceLabel(Temp(n + 2));
    }

    method EmitFor(s: Stmt) returns (ok: bool)
      requires Valid() && s.For?
      modifies this
      ensures ok <==> old(Room(Nest(s)))
      ensures ok ==> Valid() && g == Emit(old(g), s, old(Now())) && Now() == old(Now())
      decreases s, 1
    {
      var n := NewLabs(3);
      ok := EmitStmt(s.init);
      if !ok { return; }
      ghost var g1 := g;
      EmitHead(s.test, n);
      ghost var h := g;
      ok := EmitStmt(s.b);
      if !ok { return; }
      ghost var g2 := g;
      ok := EmitStmt(s.inc);
      if !ok { return; }
      ForIs(old(g), s, Now(), n, g1, h, g2, g);
      BrTo(Temp(n));
      PlaceLabel(Temp(n + 2));
    }

    method EmitDo(s: Stmt) returns (ok: bool)
      requires Valid() && s.DoWhile?
      modifies this
      ensures ok <==> old(Room(Nest(s)))
      ensures ok ==> Valid() && g == Emit(old(g), s, old(Now())) && Now() == old(Now())
      decreases s, 1
    {
      var n := NewLabs(3);
      BrTo(Temp(n));
      PlaceLabel(Temp(n));
      ghost var g1 := g;
      ok := EmitStmt(s.b);
      if !ok { return; }
      DoIs(old(g), s, Now(), n, g1, g);
      EmitDoTest(s.c, n);
    }

    method EmitDoTest(c: Expr, n: nat)
      requires Valid()
      modifies this`out, this`open, this`nlab, this`ntmp, this`g
      ensures Valid() && g == EndDo(old(g), c, n)
    {
      BrTo(Temp(n + 1));
      PlaceLabel(Temp(n + 1));
      EmitCondBr(c, Temp(n), Temp(n + 2));
      PlaceLabel(Temp(n + 2));
    }

    /** The body of a try under its handler. */
    method EmitUnder(b: Stmt, h: Handler) returns (ok: bool)
      requires Valid()
      modifies this
      ensures ok <==> old(Room(1 + Nest(b)))
      ensures ok ==> Valid() && g == Emit(old(g), b, old(Now()).Under(h)) && Now() == old(Now())
      decreases b, 4
    {
      var hs, d := handlers, depth;
      ok := Enter(h);
      if !ok { return; }
      ok := EmitStmt(b);
      if ok { Leave(hs, d); }
    }

    method Enter(h: Handler) returns (ok: bool)
      requires Valid()
      modifies this`handlers, this`depth
      ensures ok <==> old(Room(1))
      ensures ok ==> Valid() && Now() == old(Now()).Under(h) && |handlers| == |old(handlers)| + 1
    {
      ok := |handlers| < HANDLER_MAX;
      if ok { handlers, depth := handlers + [h], if h.dynamic then depth + 1 else depth; }
    }

    method Leave(hs: seq<Handler>, d: nat)
      requires Valid() && |hs| <= HANDLER_MAX
      modifies this`handlers, this`depth
      ensures Valid() && Now() == Env(hs, d, retVoid)
    {
      handlers, depth := hs, d;
    }

    method EmitTryLocal(s: Stmt) returns (ok: bool)
      requires Valid() && s.TryLocal?
      modifies this
      ensures ok <==> old(Room(Nest(s)))
      ensures ok ==> Valid() && g == Emit(old(g), s, old(Now())) && Now() == old(Now())
      decreases s, 1
    {
      var n := NewLabs(2);
      ok := EmitUnder(s.b, Handler(false, Temp(n)));
      if !ok { return; }
      ghost var g1 := g;
      BrTo(Temp(n + 1));
      PlaceLabel(Temp(n));
      ghost var h := g;
      ok := EmitStmt(s.h);
      if !ok { return; }
      LocalIs(old(g), s, Now(), n, Now().Under(Handler(false, Temp(n))), g1, h, g);
      EmitCatchEnd(n + 1);
    }

    /** To the outer handler of the function, or to a throw of the runtime. */
    method EmitCatchEnd(el: nat)
      requires Valid()
      modifies this`out, this`open, this`nlab, this`ntmp, this`g
      ensures Valid() && g == EndCatch(old(g), el, Now())
    {
      EnsureBlock();
      var c := NewTmp();
      Put(Uncaught(c));
      assert g == old(g).Put(Uncaught(c)).Temps(1);
      var hs := handlers;
      if hs != [] && !hs[|hs| - 1].dynamic {
        Write(CondBr(Reg(c), hs[|hs| - 1].target, Temp(el)));
      } else {
        var n := NewLab();
        Write(CondBr(Reg(c), Temp(n), Temp(el)));
        PlaceLabel(Temp(n));
        Put(Rethrow);
        BrTo(Temp(el));
      }
      PlaceLabel(Temp(el));
    }

    method EmitTryDynamic(s: Stmt) returns (ok: bool)
      requires Valid() && s.TryDynamic?
      modifies this
      ensures ok <==> old(Room(Nest(s)))
      ensures ok ==> Valid() && g == Emit(old(g), s, old(Now())) && Now() == old(Now())
      decreases s, 1
    {
      var m := EmitSetjmp();
      ghost var r := g;
      ok := EmitUnder(s.b, Handler(true, Temp(m + 1)));
      if !ok { return; }
      ghost var g1 := g;
      EmitPopped(m);
      ghost var h := g;
      ok := EmitStmt(s.h);
      if !ok { return; }
      DynamicIs(old(g), s, Now(), m, r, Now().Under(Handler(true, Temp(m + 1))), g1, h, g);
      EmitCatchEnd(m + 2);
    }

    /** The end of the body: the frame is popped. */
    method EmitPopped(m: nat)
      requires Valid()
      modifies this`out, this`open, this`nlab, this`ntmp, this`g
      ensures Valid() && g == Catch(old(g).Put(Pop), m + 1, m + 2)
    {
      Put(Pop);
      BrTo(Temp(m + 2));
      PlaceLabel(Temp(m + 1));
    }

    /** The push, and the test of setjmp. */
    method EmitSetjmp() returns (m: nat)
      requires Valid()
      modifies this`out, this`open, this`nlab, this`ntmp, this`g
      ensures Valid() && g == Setjmp(old(g)) && m == g.nlab - 2
    {
      EnsureBlock();
      var d := NewTmp();
      Put(Push(d));
      m := NewLabs(3);
      Write(CondBr(Reg(d), Temp(m), Temp(m + 1)));
      PlaceLabel(Temp(m));
    }

    /** A whole function. */
    method EmitFunc(body: Stmt) returns (ok: bool)
      requires Valid() && g == ENTRY && Now() == Env([], 0, retVoid)
      modifies this
      ensures ok <==> Nest(body) <= HANDLER_MAX
      ensures ok ==> out == FuncOf(body, retVoid).code
    {
      ok := EmitStmt(body);
      if !ok { return; }
      if open { Write(Ret(if retVoid then None else Some(Imm(0)))); }
    }
  }

  lemma {:induction false} LogicIs(g: Gen, e: Expr, slot: nat, n: nat, g1: Gen, a: Opnd, g2: Gen, g3: Gen, b: Opnd)
    requires e.Logic? && slot == Slot(g).ntmp && n == Slot(g).nlab + 1
    requires (g1, a) == EmitVal(Slot(g).Labels(3), e.l)
    requires g2 == Split((g1, a), e.conj, n)
    requires (g3, b) == EmitVal(g2, e.r)
    ensures EmitVal(g, e) == EndLogic((g3, b), e.conj, slot, n)
  {
  }

  /** Operands so far, and those still to come. */
  ghost function ArgsFrom(g: Gen, xs: seq<Opnd>, es: seq<Expr>): (Gen, seq<Opnd>) {
    (EmitArgs(g, es).0, xs + EmitArgs(g, es).1)
  }

  lemma {:induction false} ArgStep(g: Gen, xs: seq<Opnd>, es: seq<Expr>, g1: Gen, x: Opnd)
    requires es != [] && (g1, x) == EmitVal(g, es[0])
    ensures ArgsFrom(g, xs, es) == ArgsFrom(g1, xs + [x], es[1..])
  {
    var r := EmitArgs(g1, es[1..]).1;
    assert xs + ([x] + r) == xs + [x] + r;
  }
}
