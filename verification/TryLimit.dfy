/** A program that needs one dynamic try more than the runtime has room for. */
module TryLimit {
  import opened Basics
  import opened ExceptionAst
  import opened Effects
  import opened SourceSemantics
  import opened TryFrames
  import opened TryDepth
  import opened TryLowering
  import opened TargetSemantics
  import opened TryCorrectness
  import opened TryTheorems

  /** f() { try { f(); } catch { } throw(1); } */
  const INNER := Try(ExprStmt(Call("f", [])), Nop)
  const BODY := Block([INNER, ExprStmt(Call("throw", [Num(1)]))])
  const DEEP_FUNC := Func("f", [], false, Some(BODY))
  const DEEP := Program([DEEP_FUNC], ExprStmt(Call("f", [])), map[])

  lemma DeepFlags()
    ensures LeastClosed(DEEP, {"f"}) && WellFormed(DEEP) && Mode(INNER.body, {"f"}).TryDynamic?
  {
    assert DEEP.funcs == [DEEP_FUNC];
    assert WellFormedBody(BODY) by {
      forall i | 0 <= i < 2 ensures WellFormedStmt(BODY.stmts[i]) && !LooseBreak(BODY.stmts[i]) {
        if i == 0 { assert BODY.stmts[i] == INNER; }
      }
    }
    assert BODY.stmts[1..] == [ExprStmt(Call("throw", [Num(1)]))];
    forall can: set<string> ensures StmtEffect(BODY, can).Any() {
      assert StmtEffect(BODY.stmts[1], can).local;
      assert ListEffect(BODY.stmts[1..], can).local;
    }
    forall other: set<string> | Closed(DEEP, other) ensures {"f"} <= other {
      assert DEEP_FUNC in DEEP.funcs && FlagNeeded(DEEP_FUNC, other);
    }
  }

  /** From n active tries on, 256 - n further calls use up the rest. */
  lemma {:induction false} Deeper(w: World, fuel: nat, d: Data, n: nat)
    requires n <= TRY_MAX && fuel >= TRY_MAX - n
    ensures CallExceeds(DEEP, {"f"}, w, fuel, "f", [], d, n)
    decreases TRY_MAX - n
  {
    var inside := d.(loc := Bind([], []));
    DeepFlags();
    assert Lookup([DEEP_FUNC], "f") == Some(DEEP_FUNC);
    if n < TRY_MAX {
      Deeper(w, fuel - 1, inside, n + 1);
      CallInside(w, fuel, inside, n + 1);
    }
    assert StmtExceeds(DEEP, {"f"}, w, fuel, INNER, inside, n, n);
    assert ListExceeds(DEEP, {"f"}, w, fuel, BODY.stmts, inside, n, n);
  }

  lemma CallInside(w: World, fuel: nat, d: Data, n: nat)
    requires fuel > 0 && CallExceeds(DEEP, {"f"}, w, fuel - 1, "f", [], d, n)
    ensures ExprExceeds(DEEP, {"f"}, w, fuel, Call("f", []), d, n)
  {
    assert EvalArgs(DEEP, w, PopFirst, fuel, [], d) == Val([], d);
  }

  /** The compiled program stops for too many tries, with any fuel that lets it get there. */
  lemma TriesRunOut(c: CProgram, w: World, fuel: nat, d: Data)
    requires LoweredTo(DEEP, {"f"}, c) && fuel > TRY_MAX
    ensures LeastClosed(DEEP, {"f"}) && ExceedsTries(DEEP, {"f"}, w, fuel, d)
    ensures TargetEnding(RunTarget(c, w, fuel, d)) == TooManyTries
  {
    DeepFlags();
    Deeper(w, fuel - 1, d, 0);
    CallInside(w, fuel, d, 0);
    LoweringPreservesMeaning(DEEP, {"f"}, c, w, fuel, d);
  }
}
