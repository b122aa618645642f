/** The analysis of src/effects.c from above, on the syntax: nothing is flagged and no try gets
    a handler without a call or a throw that is the reason. */
module EffectBounds {
  import opened Basics
  import opened ExceptionAst
  import opened Effects

  /** A call of a named function, `throw` included, or through a pointer. */
  datatype Site = Direct(f: string) | Pointer

  /** It may raise, as far as the flags say. */
  predicate Loud(c: Site, can: set<string>) {
    c.Pointer? || c.f == "throw" || c.f in can
  }

  predicate AnyLoud(sites: set<Site>, can: set<string>) {
    exists c | c in sites :: Loud(c, can)
  }

  // ----- expressions -----

  /** All calls in e and its parts. */
  function Calls(e: Expr): set<Site>
    decreases e, 1
  {
    match e
    case Bin(_, a, b) => Calls(a) + Calls(b)
    case Assign(_, a) => Calls(a)
    case Store(_, a) => Calls(a)
    case Call(f, args) => {Direct(f)} + CallsOfAll(args)
    case CallPtr(c, args) => {Pointer} + Calls(c) + CallsOfAll(args)
    case _ => {}
  }

  function CallsOfAll(es: seq<Expr>): set<Site>
    decreases es, 0
  {
    if es == [] then {} else Calls(es[0]) + CallsOfAll(es[1..])
  }

  /** An expression has an effect exactly if one of its calls may raise, and only that of a call. */
  lemma {:induction false} ExprEffectIff(e: Expr, can: set<string>)
    ensures ExprEffect(e, can) == Effect(false, AnyLoud(Calls(e), can))
    decreases e, 1
  {
    match e
    case Bin(_, a, b) =>
      ExprEffectIff(a, can);
      ExprEffectIff(b, can);
      LoudUnion(Calls(a), Calls(b), can);
    case Assign(_, a) => ExprEffectIff(a, can);
    case Store(_, a) => ExprEffectIff(a, can);
    case Call(f, args) =>
      ArgsEffectIff(args, can);
      LoudUnion({Direct(f)}, CallsOfAll(args), can);
      LoudOne(Direct(f), can);
    case CallPtr(c, args) =>
      ExprEffectIff(c, can);
      ArgsEffectIff(args, can);
      assert Pointer in Calls(e);
    case _ =>
  }

  lemma {:induction false} ArgsEffectIff(es: seq<Expr>, can: set<string>)
    ensures ArgsEffect(es, can) == Effect(false, AnyLoud(CallsOfAll(es), can))
    decreases es, 0
  {
    if es != [] {
      ExprEffectIff(es[0], can);
      ArgsEffectIff(es[1..], can);
      LoudUnion(Calls(es[0]), CallsOfAll(es[1..]), can);
    }
  }

  lemma LoudUnion(a: set<Site>, b: set<Site>, can: set<string>)
    ensures AnyLoud(a + b, can) <==> AnyLoud(a, can) || AnyLoud(b, can)
  {
    if AnyLoud(a, can) {
      var c :| c in a && Loud(c, can);
      assert c in a + b;
    }
    if AnyLoud(b, can) {
      var c :| c in b && Loud(c, can);
      assert c in a + b;
    }
  }

  lemma LoudOne(c: Site, can: set<string>)
    ensures AnyLoud({c}, can) <==> Loud(c, can)
  {
    assert c in {c};
  }

  // ----- statements -----

  /** The calls whose exceptions would leave a statement, and whether it throws itself: by a
      statement `throw(..)`, or again behind a handler. */
  datatype Reach = Reach(calls: set<Site>, throws: bool) {
    function Join(that: Reach): Reach { Reach(calls + that.calls, throws || that.throws) }
    predicate Silent(can: set<string>) { !throws && !AnyLoud(calls, can) }
  }

  const NOTHING := Reach({}, false)

  /** A try whose body is silent never runs its handler; another one holds back what its body
      calls, and may throw again. */
  function Exposed(s: Stmt, can: set<string>): Reach
    decreases s, 1
  {
    match s
    case ExprStmt(Call("throw", args)) => Reach(CallsOfAll(args), true)
    case ExprStmt(e) => Reach(Calls(e), false)
    case Block(ss) => ExposedAll(ss, can)
    case If(c, a, b) => Reach(Calls(c), false).Join(Exposed(a, can)).Join(Exposed(b, can))
    case While(c, b) => Reach(Calls(c), false).Join(Exposed(b, can))
    case Return(Some(e)) => Reach(Calls(e), false)
    case Try(b, h) => if Exposed(b, can).Silent(can) then NOTHING else Reach(Exposed(h, can).calls, true)
    case _ => NOTHING
  }

  function ExposedAll(ss: seq<Stmt>, can: set<string>): Reach
    decreases ss, 0
  {
    if ss == [] then NOTHING else Exposed(ss[0], can).Join(ExposedAll(ss[1..], can))
  }

  /** The effect of a statement, both bits. */
  lemma {:induction false} StmtEffectIff(s: Stmt, can: set<string>)
    ensures var r := Exposed(s, can); StmtEffect(s, can) == Effect(r.throws, AnyLoud(r.calls, can))
    decreases s, 1
  {
    match s
    case ExprStmt(e) => if IsThrowCall(e) { ArgsEffectIff(e.args, can); } else { ExprEffectIff(e, can); }
    case Block(ss) => ListEffectIff(ss, can);
    case If(c, a, b) =>
      ExprEffectIff(c, can);
      StmtEffectIff(a, can);
      StmtEffectIff(b, can);
      LoudUnion(Calls(c), Exposed(a, can).calls, can);
      LoudUnion(Calls(c) + Exposed(a, can).calls, Exposed(b, can).calls, can);
    case While(c, b) =>
      ExprEffectIff(c, can);
      StmtEffectIff(b, can);
      LoudUnion(Calls(c), Exposed(b, can).calls, can);
    case Return(e) => if e.Some? { ExprEffectIff(e.value, can); }
    case Try(b, h) =>
      StmtEffectIff(b, can);
      StmtEffectIff(h, can);
    case _ =>
  }

  lemma {:induction false} ListEffectIff(ss: seq<Stmt>, can: set<string>)
    ensures var r := ExposedAll(ss, can); ListEffect(ss, can) == Effect(r.throws, AnyLoud(r.calls, can))
    decreases ss, 0
  {
    if ss != [] {
      StmtEffectIff(ss[0], can);
      ListEffectIff(ss[1..], can);
      LoudUnion(Exposed(ss[0], can).calls, ExposedAll(ss[1..], can).calls, can);
    }
  }

  /** A try needs no handler exactly if its body neither throws nor calls what may raise; it is
      lowered to branches exactly if it throws only by itself. */
  lemma ModeIff(body: Stmt, can: set<string>)
    ensures Mode(body, can).TryNone? <==> !Exposed(body, can).throws && !AnyLoud(Exposed(body, can).calls, can)
    ensures Mode(body, can).TryLocal? <==> Exposed(body, can).throws && !AnyLoud(Exposed(body, can).calls, can)
    ensures Mode(body, can).TryDynamic? <==> AnyLoud(Exposed(body, can).calls, can)
  {
    StmtEffectIff(body, can);
  }

  // ----- why a function is flagged -----

  /** All calls in the visited part of a statement: all but the handlers that never run. */
  function Visited(s: Stmt, can: set<string>): set<Site>
    decreases s, 1
  {
    match s
    case ExprStmt(e) => Calls(e)
    case Block(ss) => VisitedAll(ss, can)
    case If(c, a, b) => Calls(c) + Visited(a, can) + Visited(b, can)
    case While(c, b) => Calls(c) + Visited(b, can)
    case Return(Some(e)) => Calls(e)
    case Try(b, h) => Visited(b, can) + if AnyLoud(Visited(b, can), can) then Visited(h, can) else {}
    case _ => {}
  }

  function VisitedAll(ss: seq<Stmt>, can: set<string>): set<Site>
    decreases ss, 0
  {
    if ss == [] then {} else Visited(ss[0], can) + VisitedAll(ss[1..], can)
  }

  /** A statement has an effect exactly if a call in its visited part may raise. */
  lemma {:induction false} AnyIff(s: Stmt, can: set<string>)
    ensures StmtEffect(s, can).Any() <==> AnyLoud(Visited(s, can), can)
    decreases s, 1
  {
    match s
    case ExprStmt(e) =>
      if IsThrowCall(e) { assert Direct("throw") in Calls(e); } else { ExprEffectIff(e, can); }
    case Block(ss) => ListAnyIff(ss, can);
    case If(c, a, b) =>
      ExprEffectIff(c, can);
      AnyIff(a, can);
      AnyIff(b, can);
      LoudUnion(Calls(c), Visited(a, can), can);
      LoudUnion(Calls(c) + Visited(a, can), Visited(b, can), can);
    case While(c, b) =>
      ExprEffectIff(c, can);
      AnyIff(b, can);
      LoudUnion(Calls(c), Visited(b, can), can);
    case Return(e) => if e.Some? { ExprEffectIff(e.value, can); }
    case Try(b, h) =>
      AnyIff(b, can);
      LoudUnion(Visited(b, can), Visited(h, can), can);
      assert Visited(b, can) + {} == Visited(b, can);
    case _ =>
  }

  lemma {:induction false} ListAnyIff(ss: seq<Stmt>, can: set<string>)
    ensures ListEffect(ss, can).Any() <==> AnyLoud(VisitedAll(ss, can), can)
    decreases ss, 0
  {
    if ss != [] {
      AnyIff(ss[0], can);
      ListAnyIff(ss[1..], can);
      LoudUnion(Visited(ss[0], can), VisitedAll(ss[1..], can), can);
    }
  }

  /** More flags, more is visited. */
  lemma {:induction false} VisitedMore(s: Stmt, a: set<string>, b: set<string>)
    requires a <= b
    ensures Visited(s, a) <= Visited(s, b)
    decreases s, 1
  {
    match s
    case Block(ss) => VisitedAllMore(ss, a, b);
    case If(_, t, e) => VisitedMore(t, a, b); VisitedMore(e, a, b);
    case While(_, t) => VisitedMore(t, a, b);
    case Try(t, h) =>
      VisitedMore(t, a, b);
      VisitedMore(h, a, b);
      if AnyLoud(Visited(t, a), a) {
        var c :| c in Visited(t, a) && Loud(c, a);
        assert c in Visited(t, b) && Loud(c, b);
      }
    case _ =>
  }

  lemma {:induction false} VisitedAllMore(ss: seq<Stmt>, a: set<string>, b: set<string>)
    requires a <= b
    ensures VisitedAll(ss, a) <= VisitedAll(ss, b)
    decreases ss, 0
  {
    if ss != [] {
      VisitedMore(ss[0], a, b);
      VisitedAllMore(ss[1..], a, b);
    }
  }

  /** A function named f calls g in its visited part. */
  ghost predicate CallsFunc(p: Program, can: set<string>, f: string, g: string) {
    exists fn | fn in p.funcs :: fn.name == f && fn.body.Some? && Direct(g) in Visited(fn.body.value, can)
  }

  /** It throws, calls a pointer, or is an extern that may throw. */
  ghost predicate Throws(p: Program, can: set<string>, f: string) {
    exists fn | fn in p.funcs :: fn.name == f && Reason(fn, can)
  }

  predicate Reason(fn: Func, can: set<string>) {
    match fn.body
    case Some(s) => Pointer in Visited(s, can) || Direct("throw") in Visited(s, can)
    case None =>
      !fn.fromPrelude || fn.name in ["throw", "MAlloc", "CAlloc", "StrNew", "MStrPrint", "StrPrintJoin", "GetStr"]
  }

  /** n direct calls lead from f to a function that throws. */
  ghost predicate Chain(p: Program, can: set<string>, f: string, n: nat)
    decreases n
  {
    if n == 0 then Throws(p, can, f) else exists g :: CallsFunc(p, can, f, g) && Chain(p, can, g, n - 1)
  }

  ghost predicate Justified(p: Program, can: set<string>, f: string) {
    exists n: nat :: Chain(p, can, f, n)
  }

  /** Such a function is flagged by any closed set of flags. */
  lemma {:induction false} ChainFlagged(p: Program, can: set<string>, f: string, n: nat)
    requires Closed(p, can) && Chain(p, can, f, n)
    ensures f in can
    decreases n
  {
    if n == 0 {
      var fn :| fn in p.funcs && fn.name == f && Reason(fn, can);
      if fn.body.Some? { AnyIff(fn.body.value, can); }
      assert FlagNeeded(fn, can);
    } else {
      var g :| CallsFunc(p, can, f, g) && Chain(p, can, g, n - 1);
      ChainFlagged(p, can, g, n - 1);
      var fn :| fn in p.funcs && fn.name == f && fn.body.Some? && Direct(g) in Visited(fn.body.value, can);
      assert Loud(Direct(g), can);
      AnyIff(fn.body.value, can);
      assert FlagNeeded(fn, can);
    }
  }

  /** The justified flags are closed. */
  lemma JustifiedClosed(p: Program, can: set<string>)
    requires Closed(p, can)
    ensures Closed(p, set f | f in can && Justified(p, can, f))
  {
    var good := set f | f in can && Justified(p, can, f);
    forall fn | fn in p.funcs && FlagNeeded(fn, good) ensures fn.name in good {
      if fn.body.Some? {
        EffectMonotone(fn.body.value, good, can);
        FlagJustified(p, can, good, fn);
      } else {
        assert Reason(fn, can);
        assert Chain(p, can, fn.name, 0);
      }
    }
  }

  lemma FlagJustified(p: Program, can: set<string>, good: set<string>, fn: Func)
    requires good <= can && fn in p.funcs && fn.body.Some? && FlagNeeded(fn, good)
    requires forall f | f in good :: Justified(p, can, f)
    ensures Justified(p, can, fn.name)
  {
    AnyIff(fn.body.value, good);
    var c :| c in Visited(fn.body.value, good) && Loud(c, good);
    VisitedMore(fn.body.value, good, can);
    if c.Direct? && c.f != "throw" {
      var n: nat :| Chain(p, can, c.f, n);
      assert CallsFunc(p, can, fn.name, c.f);
      assert Chain(p, can, fn.name, n + 1);
    } else {
      assert Reason(fn, can);
      assert Chain(p, can, fn.name, 0);
    }
  }

  /** The flags of the analysis are exactly the functions from which a finite chain of direct
      calls leads to a throw, a call through a pointer or an extern that may throw. */
  lemma FlaggedIff(p: Program, can: set<string>, f: string)
    requires LeastClosed(p, can)
    ensures f in can <==> Justified(p, can, f)
  {
    JustifiedClosed(p, can);
    if Justified(p, can, f) {
      var n: nat :| Chain(p, can, f, n);
      ChainFlagged(p, can, f, n);
    }
  }
}
