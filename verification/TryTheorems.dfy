/** The results about exception lowering for whole programs. */
module TryTheorems {
  import opened Basics
  import opened ExceptionAst
  import opened Effects
  import opened SourceSemantics
  import opened TryFrames
  import opened TryDepth
  import opened TryLowering
  import opened TargetSemantics
  import opened TryCorrectness

  /** What an observer sees of a finished program. */
  datatype Ending =
    | Exited(value: int, glob: map<string, int>)
    | UncaughtException(glob: map<string, int>, ch: int)
    | NoEnd
    | TooManyTries
    | Broken

  ghost function SourceEnding(o: Outcome): Ending {
    match o
    case Done(d) => Exited(0, d.glob)
    case Broke(_) => Broken
    case Returned(v, d) => Exited(v, d.glob)
    case Thrown(d) => UncaughtException(d.glob, d.exceptCh)
    case Escaped(d) => UncaughtException(d.glob, d.exceptCh)
    case OutOfFuel => NoEnd
  }

  ghost function TargetEnding(o: COutcome): Ending {
    match o
    case CDone(m) => Exited(0, m.d.glob)
    case CBroke(_) => Broken
    case CReturned(v, m) => Exited(v, m.d.glob)
    case CGoing(_, _) => Broken
    case CLeft(Unhandled(g, ch)) => UncaughtException(g, ch)
    case CLeft(NestingLimit) => TooManyTries
    case CLeft(CDiverge) => NoEnd
    case CLeft(_) => Broken
  }

  ghost function RunSource(p: Program, w: World, o: Order, fuel: nat, d: Data): Outcome {
    Exec(p, w, o, fuel, p.startup, d)
  }

  ghost function RunTarget(c: CProgram, w: World, fuel: nat, d: Data): COutcome {
    RunSeq(c, w, fuel, c.startup, Machine(d, [], 0))
  }

  /** The run of the source needs more dynamic tries at once than the runtime has room for. */
  ghost predicate ExceedsTries(p: Program, can: set<string>, w: World, fuel: nat, d: Data) {
    StmtExceeds(p, can, w, fuel, p.startup, d, 0, 0)
  }

  /** For every program: the C code stops for too many tries exactly when the run of the
      source exceeds their number; otherwise it ends as the source does when a return pops
      its frames before its operand.  It leaves no frame behind. */
  lemma LoweringPreservesMeaning(p: Program, can: set<string>, c: CProgram, w: World, fuel: nat, d: Data)
    requires Setting(p, can, c, w)
    ensures TargetEnding(RunTarget(c, w, fuel, d))
         == if ExceedsTries(p, can, w, fuel, d) then TooManyTries else SourceEnding(RunSource(p, w, PopFirst, fuel, d))
    ensures TargetEnding(RunTarget(c, w, fuel, d)) != Broken
    ensures RunTarget(c, w, fuel, d).CDone? || RunTarget(c, w, fuel, d).CReturned?
            ==> RunTarget(c, w, fuel, d).m.frames == []
  {
    var m := Machine(d, [], 0);
    assert m.frames == [] + [];
    StmtSim(p, can, c, w, fuel, p.startup, [], 0, [], [], m);
    NoLooseBreakNoBroke(p, w, PopFirst, fuel, p.startup, d);
    assert SourceEnding(RunSource(p, w, PopFirst, fuel, d)) != TooManyTries;
    var none: seq<nat> := [];
    assert none + none == none;
  }

  // ----- where the native backends differ from a handler at every try -----

  /** Inside a try body every return operand is free of calls that can throw. */
  predicate ReturnsSafe(s: Stmt, can: set<string>, inTry: bool)
    decreases s, 1
  {
    match s
    case Block(ss) => ListReturnsSafe(ss, can, inTry)
    case If(_, a, b) => ReturnsSafe(a, can, inTry) && ReturnsSafe(b, can, inTry)
    case While(_, b) => ReturnsSafe(b, can, inTry)
    case Return(Some(e)) => inTry ==> !ExprEffect(e, can).call
    case Try(b, k) => ReturnsSafe(b, can, true) && ReturnsSafe(k, can, inTry)
    case _ => true
  }

  predicate ListReturnsSafe(ss: seq<Stmt>, can: set<string>, inTry: bool)
    decreases ss, 0
  {
    ss == [] || (ReturnsSafe(ss[0], can, inTry) && ListReturnsSafe(ss[1..], can, inTry))
  }

  ghost predicate FunctionsSafe(p: Program, can: set<string>) {
    forall f | f in p.funcs && f.body.Some? :: ReturnsSafe(f.body.value, can, false)
  }

  /** Equal, except that outside every try body it makes no difference whether an
      exception from a return operand can still see the handlers. */
  ghost predicate Agree(a: Outcome, b: Outcome, inTry: bool) {
    a == b || (!inTry && a.Thrown? && b == Escaped(a.d))
  }

  ghost predicate Safe(p: Program, can: set<string>, w: World) {
    Closed(p, can) && Honest(p, w) && FunctionsSafe(p, can)
  }

  lemma {:induction false} ExprOrders(p: Program, can: set<string>, w: World, fuel: nat, e: Expr, d: Data)
    requires Safe(p, can, w)
    ensures Eval(p, w, Direct, fuel, e, d) == Eval(p, w, PopFirst, fuel, e, d)
    decreases fuel, e, 1
  {
    match e
    case Num(_) =>
    case Var(_) =>
    case Load(_) =>
    case Bin(op, l, r) =>
      ExprOrders(p, can, w, fuel, l, d);
      var a := Eval(p, w, Direct, fuel, l, d);
      if a.Val? { ExprOrders(p, can, w, fuel, r, a.d); }
    case Assign(_, r) => ExprOrders(p, can, w, fuel, r, d);
    case Store(_, r) => ExprOrders(p, can, w, fuel, r, d);
    case Call(f, args) =>
      ArgsOrders(p, can, w, fuel, args, d);
      var vs := EvalArgs(p, w, Direct, fuel, args, d);
      if vs.Val? && fuel > 0 { CallOrders(p, can, w, fuel - 1, f, vs.v, vs.d); }
    case CallPtr(callee, args) =>
      ExprOrders(p, can, w, fuel, callee, d);
      var a := Eval(p, w, Direct, fuel, callee, d);
      if a.Val? {
        ArgsOrders(p, can, w, fuel, args, a.d);
        var vs := EvalArgs(p, w, Direct, fuel, args, a.d);
        if vs.Val? && fuel > 0 && a.v in p.table { CallOrders(p, can, w, fuel - 1, p.table[a.v], vs.v, vs.d); }
      }
  }

  lemma {:induction false} ArgsOrders(p: Program, can: set<string>, w: World, fuel: nat, es: seq<Expr>, d: Data)
    requires Safe(p, can, w)
    ensures EvalArgs(p, w, Direct, fuel, es, d) == EvalArgs(p, w, PopFirst, fuel, es, d)
    decreases fuel, es, 0
  {
    if es != [] {
      ExprOrders(p, can, w, fuel, es[0], d);
      var a := Eval(p, w, Direct, fuel, es[0], d);
      if a.Val? { ArgsOrders(p, can, w, fuel, es[1..], a.d); }
    }
  }

  lemma {:induction false} CallOrders(p: Program, can: set<string>, w: World, fuel: nat, f: string, vs: seq<int>,
                                      d: Data)
    requires Safe(p, can, w)
    ensures Invoke(p, w, Direct, fuel, f, vs, d) == Invoke(p, w, PopFirst, fuel, f, vs, d)
    decreases fuel
  {
    var fn := Lookup(p.funcs, f);
    if f != "throw" && fn.Some? && fn.value.body.Some? {
      StmtOrders(p, can, w, fuel, fn.value.body.value, false, d.(loc := Bind(fn.value.params, vs)));
    }
  }

  lemma {:induction false} StmtOrders(p: Program, can: set<string>, w: World, fuel: nat, s: Stmt, inTry: bool, d: Data)
    requires Safe(p, can, w) && ReturnsSafe(s, can, inTry)
    ensures Agree(Exec(p, w, Direct, fuel, s, d), Exec(p, w, PopFirst, fuel, s, d), inTry)
    decreases fuel, s, 1
  {
    match s
    case Nop =>
    case Break =>
    case ExprStmt(e) => ExprOrders(p, can, w, fuel, e, d);
    case Block(ss) => ListOrders(p, can, w, fuel, ss, inTry, d);
    case If(c, a, b) =>
      ExprOrders(p, can, w, fuel, c, d);
      var v := Eval(p, w, Direct, fuel, c, d);
      if v.Val? { StmtOrders(p, can, w, fuel, if v.v != 0 then a else b, inTry, v.d); }
    case While(c, b) =>
      ExprOrders(p, can, w, fuel, c, d);
      var v := Eval(p, w, Direct, fuel, c, d);
      if v.Val? && v.v != 0 {
        StmtOrders(p, can, w, fuel, b, inTry, v.d);
        var r := Exec(p, w, Direct, fuel, b, v.d);
        if r.Done? && fuel > 0 { StmtOrders(p, can, w, fuel - 1, s, inTry, r.d); }
      }
    case Return(e) =>
      if e.Some? {
        ExprOrders(p, can, w, fuel, e.value, d);
        ExprThrowsOnlyIfFlagged(p, w, Direct, can, fuel, e.value, d);
      }
    case Try(b, k) =>
      StmtOrders(p, can, w, fuel, b, true, d);
      var r := Exec(p, w, Direct, fuel, b, d);
      if r.Thrown? { StmtOrders(p, can, w, fuel, k, inTry, r.d); }
  }

  lemma {:induction false} ListOrders(p: Program, can: set<string>, w: World, fuel: nat, ss: seq<Stmt>, inTry: bool,
                                      d: Data)
    requires Safe(p, can, w) && ListReturnsSafe(ss, can, inTry)
    ensures Agree(ExecList(p, w, Direct, fuel, ss, d), ExecList(p, w, PopFirst, fuel, ss, d), inTry)
    decreases fuel, ss, 0
  {
    if ss != [] {
      StmtOrders(p, can, w, fuel, ss[0], inTry, d);
      var r := Exec(p, w, Direct, fuel, ss[0], d);
      if r.Done? { ListOrders(p, can, w, fuel, ss[1..], inTry, r.d); }
    }
  }

  /** For programs whose return operands inside try bodies cannot throw, the C code
      ends as under a handler at every try. */
  lemma LoweringMatchesDirect(p: Program, can: set<string>, c: CProgram, w: World, fuel: nat, d: Data)
    requires Setting(p, can, c, w)
    requires FunctionsSafe(p, can) && ReturnsSafe(p.startup, can, false)
    ensures TargetEnding(RunTarget(c, w, fuel, d))
         == if ExceedsTries(p, can, w, fuel, d) then TooManyTries else SourceEnding(RunSource(p, w, Direct, fuel, d))
  {
    LoweringPreservesMeaning(p, can, c, w, fuel, d);
    StmtOrders(p, can, w, fuel, p.startup, false, d);
  }

  /** A return directly inside a try body is compiled faithfully for every handler
      if and only if evaluating its operand raises no exception. */
  lemma ReturnInTryFaithfulIff(p: Program, can: set<string>, w: World, fuel: nat, e: Expr, d: Data)
    requires Safe(p, can, w)
    ensures !Eval(p, w, Direct, fuel, e, d).Exc?
       <==> forall k: Stmt :: Agree(Exec(p, w, Direct, fuel, Try(Return(Some(e)), k), d),
                                    Exec(p, w, PopFirst, fuel, Try(Return(Some(e)), k), d), false)
  {
    ExprOrders(p, can, w, fuel, e, d);
    var r := Eval(p, w, Direct, fuel, e, d);
    if r.Exc? {
      var k := ExprStmt(Store(CatchExcept, Num(1)));
      assert Eval(p, w, Direct, fuel, Num(1), r.d) == Val(1, r.d);
      assert Eval(p, w, Direct, fuel, k.e, r.d) == Val(1, WriteField(r.d, CatchExcept, 1));
      assert Exec(p, w, Direct, fuel, k, r.d) == Done(WriteField(r.d, CatchExcept, 1));
      assert !Agree(Exec(p, w, Direct, fuel, Try(Return(Some(e)), k), d),
                    Exec(p, w, PopFirst, fuel, Try(Return(Some(e)), k), d), false);
    }
  }

  /** With the handlers still there no exception passes them. */
  lemma {:induction false} DirectStays(p: Program, w: World, fuel: nat, s: Stmt, d: Data)
    ensures !Exec(p, w, Direct, fuel, s, d).Escaped?
    decreases fuel, s, 1
  {
    match s
    case Block(ss) => DirectStaysList(p, w, fuel, ss, d);
    case If(c, a, b) =>
      var v := Eval(p, w, Direct, fuel, c, d);
      if v.Val? { DirectStays(p, w, fuel, if v.v != 0 then a else b, v.d); }
    case While(c, b) =>
      var v := Eval(p, w, Direct, fuel, c, d);
      if v.Val? && v.v != 0 {
        DirectStays(p, w, fuel, b, v.d);
        var r := Exec(p, w, Direct, fuel, b, v.d);
        if r.Done? && fuel > 0 { DirectStays(p, w, fuel - 1, s, r.d); }
      }
    case Try(b, k) =>
      DirectStays(p, w, fuel, b, d);
      var r := Exec(p, w, Direct, fuel, b, d);
      if r.Thrown? { DirectStays(p, w, fuel, k, r.d); }
    case _ =>
  }

  lemma {:induction false} DirectStaysList(p: Program, w: World, fuel: nat, ss: seq<Stmt>, d: Data)
    ensures !ExecList(p, w, Direct, fuel, ss, d).Escaped?
    decreases fuel, ss, 0
  {
    if ss != [] {
      DirectStays(p, w, fuel, ss[0], d);
      var r := Exec(p, w, Direct, fuel, ss[0], d);
      if r.Done? { DirectStaysList(p, w, fuel, ss[1..], r.d); }
    }
  }

  /** As long as no return operand raises an exception the orders agree. */
  lemma {:induction false} SameUnlessEscaped(p: Program, can: set<string>, w: World, fuel: nat, s: Stmt, d: Data)
    requires Safe(p, can, w) && !Exec(p, w, PopFirst, fuel, s, d).Escaped?
    ensures Exec(p, w, Direct, fuel, s, d) == Exec(p, w, PopFirst, fuel, s, d)
    decreases fuel, s, 1
  {
    match s
    case Nop =>
    case Break =>
    case ExprStmt(e) => ExprOrders(p, can, w, fuel, e, d);
    case Block(ss) => SameListUnlessEscaped(p, can, w, fuel, ss, d);
    case If(c, a, b) =>
      ExprOrders(p, can, w, fuel, c, d);
      var v := Eval(p, w, Direct, fuel, c, d);
      if v.Val? { SameUnlessEscaped(p, can, w, fuel, if v.v != 0 then a else b, v.d); }
    case While(c, b) =>
      ExprOrders(p, can, w, fuel, c, d);
      var v := Eval(p, w, Direct, fuel, c, d);
      if v.Val? && v.v != 0 {
        SameUnlessEscaped(p, can, w, fuel, b, v.d);
        var r := Exec(p, w, Direct, fuel, b, v.d);
        if r.Done? && fuel > 0 { SameUnlessEscaped(p, can, w, fuel - 1, s, r.d); }
      }
    case Return(e) => if e.Some? { ExprOrders(p, can, w, fuel, e.value, d); }
    case Try(b, k) =>
      SameUnlessEscaped(p, can, w, fuel, b, d);
      var r := Exec(p, w, Direct, fuel, b, d);
      if r.Thrown? { SameUnlessEscaped(p, can, w, fuel, k, r.d); }
  }

  lemma {:induction false} SameListUnlessEscaped(p: Program, can: set<string>, w: World, fuel: nat, ss: seq<Stmt>,
                                                 d: Data)
    requires Safe(p, can, w) && !ExecList(p, w, PopFirst, fuel, ss, d).Escaped?
    ensures ExecList(p, w, Direct, fuel, ss, d) == ExecList(p, w, PopFirst, fuel, ss, d)
    decreases fuel, ss, 0
  {
    if ss != [] {
      SameUnlessEscaped(p, can, w, fuel, ss[0], d);
      var r := Exec(p, w, Direct, fuel, ss[0], d);
      if r.Done? { SameListUnlessEscaped(p, can, w, fuel, ss[1..], r.d); }
    }
  }

  /** A try is compiled faithfully for every handler if and only if the run of its body,
      with any tries inside, reaches no return operand that raises an exception. */
  lemma TryFaithfulIff(p: Program, can: set<string>, w: World, fuel: nat, b: Stmt, d: Data)
    requires Safe(p, can, w)
    ensures !Exec(p, w, PopFirst, fuel, b, d).Escaped?
       <==> forall k: Stmt | ReturnsSafe(k, can, false) ::
              Agree(Exec(p, w, Direct, fuel, Try(b, k), d), Exec(p, w, PopFirst, fuel, Try(b, k), d), false)
  {
    var r := Exec(p, w, PopFirst, fuel, b, d);
    if r.Escaped? {
      DirectStays(p, w, fuel, b, d);
      CatchAll(p, w, fuel, b, d);
      var k := ExprStmt(Store(CatchExcept, Num(1)));
      assert ReturnsSafe(k, can, false);
      assert !Agree(Exec(p, w, Direct, fuel, Try(b, k), d), Exec(p, w, PopFirst, fuel, Try(b, k), d), false);
    } else {
      SameUnlessEscaped(p, can, w, fuel, b, d);
      forall k: Stmt | ReturnsSafe(k, can, false)
        ensures Agree(Exec(p, w, Direct, fuel, Try(b, k), d), Exec(p, w, PopFirst, fuel, Try(b, k), d), false)
      {
        if r.Thrown? { StmtOrders(p, can, w, fuel, k, false, r.d); }
      }
    }
  }

  /** A handler that marks every exception as caught. */
  lemma CatchAll(p: Program, w: World, fuel: nat, b: Stmt, d: Data)
    ensures !Exec(p, w, Direct, fuel, Try(b, ExprStmt(Store(CatchExcept, Num(1)))), d).Thrown?
    ensures Exec(p, w, Direct, fuel, b, d).Escaped?
            <==> Exec(p, w, Direct, fuel, Try(b, ExprStmt(Store(CatchExcept, Num(1)))), d).Escaped?
  {
    var r := Exec(p, w, Direct, fuel, b, d);
    if r.Thrown? {
      assert Eval(p, w, Direct, fuel, Num(1), r.d) == Val(1, r.d);
      assert Eval(p, w, Direct, fuel, Store(CatchExcept, Num(1)), r.d) == Val(1, WriteField(r.d, CatchExcept, 1));
    }
  }

  // ----- a program that shows the difference -----

  const THROWER := Func("f", [], false, Some(ExprStmt(Call("throw", [Num(7)]))))
  const CATCHER := Try(Return(Some(Call("f", []))), ExprStmt(Store(CatchExcept, Num(1))))
  const WITNESS := Program([THROWER], CATCHER, map[])

  lemma WitnessCall(w: World, o: Order, d: Data)
    ensures Eval(WITNESS, w, o, 1, Call("f", []), d) == Exc(Raise(d, 7))
  {
    var callee := d.(loc := Bind([], []));
    assert EvalArgs(WITNESS, w, o, 0, [Num(7)], callee) == Val([7], callee) by {
      assert [Num(7)][1..] == [] && [7] + [] == [7];
      assert EvalArgs(WITNESS, w, o, 0, [Num(7)][1..], callee) == Val([], callee);
    }
    assert Exec(WITNESS, w, o, 0, THROWER.body.value, callee) == Thrown(Raise(callee, 7));
    assert Lookup([THROWER], "f") == Some(THROWER);
    assert Invoke(WITNESS, w, o, 0, "f", [], d) == Exc(Raise(d, 7));
  }

  lemma WitnessSource(w: World, o: Order, d: Data)
    ensures RunSource(WITNESS, w, o, 1, d) == if o.Direct? then Done(Raise(d, 7).(catchExcept := 1))
                                              else Escaped(Raise(d, 7))
  {
    WitnessCall(w, o, d);
    var d1 := Raise(d, 7);
    assert Eval(WITNESS, w, o, 1, Num(1), d1) == Val(1, d1);
    assert Eval(WITNESS, w, o, 1, Store(CatchExcept, Num(1)), d1) == Val(1, d1.(catchExcept := 1));
    assert Exec(WITNESS, w, o, 1, CATCHER.handler, d1) == Done(d1.(catchExcept := 1));
  }

  lemma WitnessFlags()
    ensures LeastClosed(WITNESS, {"f"})
  {
    assert WITNESS.funcs == [THROWER];
    assert StmtEffect(THROWER.body.value, {"f"}).local;
    forall other: set<string> | Closed(WITNESS, other) ensures {"f"} <= other {
      assert StmtEffect(THROWER.body.value, other).local;
      assert THROWER in WITNESS.funcs && FlagNeeded(THROWER, other);
    }
  }

  const WITNESS_BODY: seq<CStmt> := [CPop, CReturn(Some(Call("f", []))), CPop]
  const WITNESS_CATCH: seq<CStmt> := [CExpr(Store(CatchExcept, Num(1))), CRethrow(None)]

  lemma WitnessCode(c: CProgram)
    requires LoweredTo(WITNESS, {"f"}, c)
    ensures c.startup == [CSetjmp(WITNESS_BODY, WITNESS_CATCH)]
    ensures LookupC(c.funcs, "f") == Some(CFunc("f", [], false, Some([CExpr(Call("throw", [Num(7)]))])))
  {
    var b, k, h := Return(Some(Call("f", []))), ExprStmt(Store(CatchExcept, Num(1))), [] + [Dynamic];
    assert Mode(b, {"f"}).TryDynamic?;
    assert DynamicCount(h) == 1;
    assert Pops(1) == [CPop];
    assert Lower(b, {"f"}, h, 0).code == [CPop, CReturn(Some(Call("f", [])))];
    assert Lower(k, {"f"}, [], 0).code == [CExpr(Store(CatchExcept, Num(1)))];
    assert Lower(CATCHER, {"f"}, [], 0) == LowerDynamic(b, k, {"f"}, [], 0);
    assert [CPop, CReturn(Some(Call("f", [])))] + [CPop] == WITNESS_BODY;
    assert [CExpr(Store(CatchExcept, Num(1)))] + [CRethrow(None)] == WITNESS_CATCH;
    assert LoweredFunc(WITNESS.funcs[0], {"f"}, c.funcs[0]);
    LookupLowered(WITNESS.funcs, c.funcs, {"f"}, "f");
    assert Lookup([THROWER], "f") == Some(THROWER);
  }

  lemma WitnessTarget(c: CProgram, w: World, d: Data)
    requires LoweredTo(WITNESS, {"f"}, c)
    ensures RunTarget(c, w, 1, d) == CLeft(Unhandled(d.glob, 7))
  {
    WitnessCode(c);
    var call := Call("throw", [Num(7)]);
    var popped := Machine(d, [], 1);
    var inside := WithLocals(popped, Bind([], []));
    assert EvalArgsC(c, w, 0, [Num(7)], inside) == CVal([7], inside) by {
      assert [Num(7)][1..] == [] && [7] + [] == [7];
      assert EvalArgsC(c, w, 0, [Num(7)][1..], inside) == CVal([], inside);
    }
    RunOne(c, w, 0, CExpr(call), inside);
    assert InvokeC(c, w, 0, "f", [], popped) == Unhandled(d.glob, 7);
    assert EvalArgsC(c, w, 1, [], popped) == CVal([], popped);
    assert EvalC(c, w, 1, Call("f", []), popped) == Unhandled(d.glob, 7);
    WitnessRun(c, w, d, popped);
  }

  lemma WitnessRun(c: CProgram, w: World, d: Data, popped: Machine)
    requires c.startup == [CSetjmp(WITNESS_BODY, WITNESS_CATCH)] && popped == Machine(d, [], 1)
    requires EvalC(c, w, 1, Call("f", []), popped) == Unhandled(d.glob, 7)
    ensures RunTarget(c, w, 1, d) == CLeft(Unhandled(d.glob, 7))
  {
    var ret := CReturn(Some(Call("f", [])));
    var pushed := Machine(d, [0], 1);
    assert WITNESS_BODY == [CPop] + ([ret] + [CPop]);
    RunConcat(c, w, 1, [CPop], [ret] + [CPop], pushed);
    RunOne(c, w, 1, CPop, pushed);
    assert pushed.frames[..0] == [];
    RunConcat(c, w, 1, [ret], [CPop], popped);
    RunOne(c, w, 1, ret, popped);
    assert [] + [0 as nat] == pushed.frames;
    RunOne(c, w, 1, CSetjmp(WITNESS_BODY, WITNESS_CATCH), Machine(d, [], 0));
  }

  /** `f` throws 7; startup is `try { return f(); } catch { Fs->catch_except = 1; }`.
      With a handler at every try the exception is caught; the C code dies of it. */
  lemma ReturnOperandSkipsCatch(c: CProgram, w: World, d: Data)
    requires LoweredTo(WITNESS, {"f"}, c)
    ensures LeastClosed(WITNESS, {"f"})
    ensures SourceEnding(RunSource(WITNESS, w, Direct, 1, d)) == Exited(0, d.glob)
    ensures TargetEnding(RunTarget(c, w, 1, d)) == UncaughtException(d.glob, 7)
  {
    WitnessFlags();
    WitnessSource(w, Direct, d);
    WitnessTarget(c, w, d);
  }
}
