/** The labels of the emitted code: each is defined once, every goto has one. */
module TryLabels {
  import opened Basics
  import opened ExceptionAst
  import opened Effects
  import opened TryLowering

  function Defined(code: seq<CStmt>): set<Label>
    decreases code, 0
  {
    if code == [] then {} else DefinedIn(code[0]) + Defined(code[1..])
  }

  function DefinedIn(c: CStmt): set<Label>
    decreases c, 1
  {
    match c
    case CLabel(l) => {l}
    case CIf(_, a, b) => Defined(a) + Defined(b)
    case CWhile(_, b) => Defined(b)
    case CBlock(cs) => Defined(cs)
    case CSetjmp(b, h) => Defined(b) + Defined(h)
    case _ => {}
  }

  /** No label is defined at two places. */
  predicate Once(code: seq<CStmt>)
    decreases code, 0
  {
    code == [] || (OnceIn(code[0]) && Once(code[1..]) && DefinedIn(code[0]) !! Defined(code[1..]))
  }

  predicate OnceIn(c: CStmt)
    decreases c, 1
  {
    match c
    case CIf(_, a, b) => Once(a) && Once(b) && Defined(a) !! Defined(b)
    case CWhile(_, b) => Once(b)
    case CBlock(cs) => Once(cs)
    case CSetjmp(b, h) => Once(b) && Once(h) && Defined(b) !! Defined(h)
    case _ => true
  }

  function Targets(code: seq<CStmt>): set<Label>
    decreases code, 0
  {
    if code == [] then {} else TargetsOf(code[0]) + Targets(code[1..])
  }

  function TargetsOf(c: CStmt): set<Label>
    decreases c, 1
  {
    match c
    case CGoto(l) => {l}
    case CRethrow(Some(l)) => {l}
    case CIf(_, a, b) => Targets(a) + Targets(b)
    case CWhile(_, b) => Targets(b)
    case CBlock(cs) => Targets(cs)
    case CSetjmp(b, h) => Targets(b) + Targets(h)
    case _ => {}
  }

  lemma {:induction false} LabelsConcat(a: seq<CStmt>, b: seq<CStmt>)
    ensures Defined(a + b) == Defined(a) + Defined(b)
    ensures Targets(a + b) == Targets(a) + Targets(b)
    ensures Once(a + b) <==> Once(a) && Once(b) && Defined(a) !! Defined(b)
  {
    if a == [] {
      assert a + b == b;
    } else {
      assert (a + b)[0] == a[0] && (a + b)[1..] == a[1..] + b;
      LabelsConcat(a[1..], b);
    }
  }

  lemma LabelsOne(c: CStmt)
    ensures Defined([c]) == DefinedIn(c) && Targets([c]) == TargetsOf(c) && (Once([c]) <==> OnceIn(c))
  {
    assert [c][1..] == [];
  }

  function OuterLabel(h: seq<Handler>): set<Label> {
    if Nearest(h).Some? then {Nearest(h).value} else {}
  }

  predicate Numbered(labels: set<Label>, lo: nat, hi: nat) {
    forall l | l in labels :: lo < l.n <= hi
  }

  /** The labels defined by code have numbers in (lo, hi], each defined once, and its
      gotos stay inside or go to the nearest handler around it. */
  ghost predicate Tidy(code: seq<CStmt>, lo: nat, hi: nat, h: seq<Handler>) {
    && lo <= hi
    && Once(code)
    && Numbered(Defined(code), lo, hi)
    && Targets(code) <= Defined(code) + OuterLabel(h)
  }

  lemma TidyConcat(a: seq<CStmt>, b: seq<CStmt>, lo: nat, mid: nat, hi: nat, h: seq<Handler>)
    requires Tidy(a, lo, mid, h) && Tidy(b, mid, hi, h)
    ensures Tidy(a + b, lo, hi, h)
  {
    LabelsConcat(a, b);
  }

  lemma TidyPlain(c: CStmt, lo: nat, h: seq<Handler>)
    requires DefinedIn(c) == {} && OnceIn(c) && TargetsOf(c) <= OuterLabel(h)
    ensures Tidy([c], lo, lo, h)
  {
    LabelsOne(c);
  }

  lemma TidyAround(c: CStmt, inner: seq<CStmt>, lo: nat, hi: nat, h: seq<Handler>)
    requires Tidy(inner, lo, hi, h)
    requires DefinedIn(c) == Defined(inner) && OnceIn(c) == Once(inner) && TargetsOf(c) == Targets(inner)
    ensures Tidy([c], lo, hi, h)
  {
    LabelsOne(c);
  }

  lemma SkipLabels(n: nat)
    ensures var code := [CGoto(EndLabel(n))] + [CLabel(CatchLabel(n))];
            Defined(code) == {CatchLabel(n)} && Targets(code) == {EndLabel(n)} && Once(code)
  {
    LabelsConcat([CGoto(EndLabel(n))], [CLabel(CatchLabel(n))]);
    LabelsOne(CGoto(EndLabel(n)));
    LabelsOne(CLabel(CatchLabel(n)));
  }

  lemma RethrowLabels(n: nat, h: seq<Handler>)
    ensures var code := [CRethrow(Nearest(h))] + [CLabel(EndLabel(n))];
            Defined(code) == {EndLabel(n)} && Targets(code) == OuterLabel(h) && Once(code)
  {
    LabelsConcat([CRethrow(Nearest(h))], [CLabel(EndLabel(n))]);
    LabelsOne(CRethrow(Nearest(h)));
    LabelsOne(CLabel(EndLabel(n)));
  }

  lemma TidyLocal(cb: seq<CStmt>, ck: seq<CStmt>, n: nat, l1: nat, l2: nat, h: seq<Handler>)
    requires n > 0 && Tidy(cb, n, l1, h + [Lexical(n)]) && Tidy(ck, l1, l2, h)
    ensures Tidy([CBlock(LocalTry(cb, ck, n, Nearest(h)))], n - 1, l2, h)
  {
    var jump, name, rethrow, end := CGoto(EndLabel(n)), CLabel(CatchLabel(n)), CRethrow(Nearest(h)),
      CLabel(EndLabel(n));
    var all, before, after := LocalTry(cb, ck, n, Nearest(h)), [jump] + [name], [rethrow] + [end];
    assert all == cb + (before + (ck + after));
    LabelsConcat(cb, before + (ck + after));
    LabelsConcat(before, ck + after);
    LabelsConcat(ck, after);
    SkipLabels(n);
    RethrowLabels(n, h);
    assert OuterLabel(h + [Lexical(n)]) == {CatchLabel(n)};
    LabelsOne(CBlock(all));
  }

  lemma TidyDynamic(cb: seq<CStmt>, ck: seq<CStmt>, l0: nat, l1: nat, l2: nat, h: seq<Handler>)
    requires Tidy(cb, l0, l1, h + [Dynamic]) && Tidy(ck, l1, l2, h)
    ensures Tidy([DynamicTry(cb, ck, Nearest(h))], l0, l2, h)
  {
    assert OuterLabel(h + [Dynamic]) == {};
    LabelsConcat(cb, [CPop]);
    LabelsConcat(ck, [CRethrow(Nearest(h))]);
    LabelsOne(CPop);
    LabelsOne(CRethrow(Nearest(h)));
    LabelsOne(DynamicTry(cb, ck, Nearest(h)));
  }

  lemma TidyIf(c: Expr, ca: seq<CStmt>, cb: seq<CStmt>, l0: nat, l1: nat, l2: nat, h: seq<Handler>)
    requires Tidy(ca, l0, l1, h) && Tidy(cb, l1, l2, h)
    ensures Tidy([CIf(c, ca, cb)], l0, l2, h)
  {
    LabelsOne(CIf(c, ca, cb));
  }

  lemma {:induction false} TidyPops(n: nat, lo: nat, h: seq<Handler>)
    ensures Tidy(Pops(n), lo, lo, h)
  {
    if n > 0 {
      assert Pops(n) == [CPop] + Pops(n - 1);
      TidyPops(n - 1, lo, h);
      TidyPlain(CPop, lo, h);
      TidyConcat([CPop], Pops(n - 1), lo, lo, lo, h);
    }
  }

  lemma {:induction false} LoweredIsTidy(s: Stmt, can: set<string>, h: seq<Handler>, lab: nat)
    requires Lower(s, can, h, lab).Ok?
    ensures Tidy(Lower(s, can, h, lab).code, lab, Lower(s, can, h, lab).lab, h)
    decreases s, 2
  {
    match s
    case Nop =>
    case Break => TidyPlain(CBreak, lab, h);
    case ExprStmt(e) =>
      TidyPlain(CExpr(e), lab, h);
      if IsThrowCall(e) && Nearest(h).Some? {
        var arg := CExpr(Store(ExceptCh, if e.args == [] then Num(0) else e.args[0]));
        var clear, jump := CExpr(Store(CatchExcept, Num(0))), CGoto(Nearest(h).value);
        assert LocalThrow(e.args, Nearest(h).value) == [arg] + ([clear] + [jump]);
        TidyPlain(arg, lab, h);
        TidyPlain(clear, lab, h);
        TidyPlain(jump, lab, h);
        TidyConcat([clear], [jump], lab, lab, lab, h);
        TidyConcat([arg], [clear] + [jump], lab, lab, lab, h);
      }
    case Block(ss) => ListIsTidy(ss, can, h, lab);
    case If(c, a, b) =>
      LoweredIsTidy(a, can, h, lab);
      var la := Lower(a, can, h, lab);
      LoweredIsTidy(b, can, h, la.lab);
      var lb := Lower(b, can, h, la.lab);
      TidyIf(c, la.code, lb.code, lab, la.lab, lb.lab, h);
    case While(c, b) =>
      LoweredIsTidy(b, can, h, lab);
      var lb := Lower(b, can, h, lab);
      TidyAround(CWhile(c, lb.code), lb.code, lab, lb.lab, h);
    case Return(e) =>
      TidyPops(DynamicCount(h), lab, h);
      TidyPlain(CReturn(e), lab, h);
      TidyConcat(Pops(DynamicCount(h)), [CReturn(e)], lab, lab, lab, h);
    case Try(b, k) => TryIsTidy(b, k, can, h, lab);
  }

  lemma {:induction false} TryIsTidy(b: Stmt, k: Stmt, can: set<string>, h: seq<Handler>, lab: nat)
    requires Lower(Try(b, k), can, h, lab).Ok?
    ensures Tidy(Lower(Try(b, k), can, h, lab).code, lab, Lower(Try(b, k), can, h, lab).lab, h)
    decreases Try(b, k), 0
  {
    match Mode(b, can)
    case TryNone =>
      LoweredIsTidy(b, can, h, lab);
      var lb := Lower(b, can, h, lab);
      TidyAround(CBlock(lb.code), lb.code, lab, lb.lab, h);
    case TryLocal =>
      assert Lower(Try(b, k), can, h, lab) == LowerLocal(b, k, can, h, lab);
      var n, h1 := lab + 1, h + [Lexical(lab + 1)];
      LoweredIsTidy(b, can, h1, n);
      var lb := Lower(b, can, h1, n);
      LoweredIsTidy(k, can, h, lb.lab);
      var lk := Lower(k, can, h, lb.lab);
      TidyLocal(lb.code, lk.code, n, lb.lab, lk.lab, h);
    case TryDynamic =>
      assert Lower(Try(b, k), can, h, lab) == LowerDynamic(b, k, can, h, lab);
      LoweredIsTidy(b, can, h + [Dynamic], lab);
      var lb := Lower(b, can, h + [Dynamic], lab);
      LoweredIsTidy(k, can, h, lb.lab);
      var lk := Lower(k, can, h, lb.lab);
      TidyDynamic(lb.code, lk.code, lab, lb.lab, lk.lab, h);
  }

  lemma {:induction false} ListIsTidy(ss: seq<Stmt>, can: set<string>, h: seq<Handler>, lab: nat)
    requires LowerList(ss, can, h, lab).Ok?
    ensures Tidy(LowerList(ss, can, h, lab).code, lab, LowerList(ss, can, h, lab).lab, h)
    decreases ss, 0
  {
    if ss != [] {
      LoweredIsTidy(ss[0], can, h, lab);
      var l0 := Lower(ss[0], can, h, lab);
      ListIsTidy(ss[1..], can, h, l0.lab);
      var l1 := LowerList(ss[1..], can, h, l0.lab);
      TidyConcat(l0.code, l1.code, lab, l0.lab, l1.lab, h);
    }
  }

  /** In every emitted function no label is defined twice and no goto is without one. */
  lemma FunctionLabels(f: Func, can: set<string>, c: CFunc)
    requires LoweredFunc(f, can, c) && f.body.Some?
    ensures Once(c.code.value)
    ensures Targets(c.code.value) <= Defined(c.code.value)
  {
    LoweredIsTidy(f.body.value, can, [], 0);
  }
}
