/** The lowered code means what the source means: every run of the C code over the
    frame stack ends as the run of the tree it was emitted from. */
module TryCorrectness {
  import opened Basics
  import opened ExceptionAst
  import opened Effects
  import opened SourceSemantics
  import opened TryFrames
  import opened TryDepth
  import opened TryLowering
  import opened TargetSemantics

  // ----- corresponding ends -----

  /** The machine carries this data, these frames, and has used no smaller number. */
  predicate At(m: Machine, d: Data, frames: seq<nat>, next: nat) {
    m.d == d && m.frames == frames && next <= m.next
  }

  /** Every active frame is older than the next one. */
  predicate Fresh(m: Machine) {
    forall i | 0 <= i < |m.frames| :: m.frames[i] < m.next
  }

  /** An exception left through the top of `frames`, popping exactly that frame, or
      ended the process when there was none. */
  ghost predicate RaisedAt<T>(r: CResult<T>, d: Data, frames: seq<nat>, next: nat) {
    match UnwindTop(frames)
    case NoFrame => r == CResult<T>.Unhandled(d.glob, d.exceptCh)
    case Resume(f, rest) => r.Jump? && r.frame == f && At(r.m, d, rest, next)
  }

  /** Both end alike, unless the run exceeds the number of tries: then the machine stops. */
  ghost predicate SameResult<T>(over: bool, src: Result<T>, r: CResult<T>, frames: seq<nat>, next: nat) {
    if over then r.NestingLimit? else
    match src
    case Val(v, d) => r.CVal? && r.v == v && At(r.m, d, frames, next)
    case Exc(d) => RaisedAt(r, d, frames, next)
    case Diverge => r.CDiverge?
  }

  /** The end of a statement inside the handlers h, in a function entered with the
      frames `base`, whose dynamic handlers own the frames `mine`: the frame count is
      unchanged at a normal end and back at the entry count at a return; an exception
      branches to a lexical handler or leaves through the top frame. */
  ghost predicate SameOutcome(over: bool, src: Outcome, r: COutcome, h: seq<Handler>, base: seq<nat>, mine: seq<nat>,
                              next: nat) {
    if over then r == CLeft(NestingLimit) else
    match src
    case Done(d) => r.CDone? && At(r.m, d, base + mine, next)
    case Broke(d) => r.CBroke? && At(r.m, d, base + mine, next)
    case Returned(v, d) => r.CReturned? && r.v == v && At(r.m, d, base, next)
    case Thrown(d) =>
      if Nearest(h).Some? then r.CGoing? && r.target == Nearest(h).value && At(r.m, d, base + mine, next)
      else r.CLeft? && RaisedAt(r.r, d, base + mine, next)
    case Escaped(d) => r.CLeft? && RaisedAt(r.r, d, base, next)
    case OutOfFuel => r == CLeft(CDiverge)
  }

  ghost predicate Setting(p: Program, can: set<string>, c: CProgram, w: World) {
    WellFormed(p) && Closed(p, can) && Honest(p, w) && LoweredTo(p, can, c)
  }

  /** Where a statement is emitted and run. */
  ghost predicate Placed(s: Stmt, can: set<string>, h: seq<Handler>, lab: nat, base: seq<nat>, mine: seq<nat>,
                         m: Machine) {
    && WellFormedStmt(s)
    && Lower(s, can, h, lab).Ok?
    && m.frames == base + mine && |mine| == DynamicCount(h) && Fresh(m)
    && (Nearest(h).Some? ==> !StmtEffect(s, can).call)
  }

  ghost predicate PlacedList(ss: seq<Stmt>, can: set<string>, h: seq<Handler>, lab: nat, base: seq<nat>,
                             mine: seq<nat>, m: Machine) {
    && (forall i | 0 <= i < |ss| :: WellFormedStmt(ss[i]))
    && LowerList(ss, can, h, lab).Ok?
    && m.frames == base + mine && |mine| == DynamicCount(h) && Fresh(m)
    && (Nearest(h).Some? ==> !ListEffect(ss, can).call)
  }

  // ----- small facts -----

  lemma {:induction false} LookupLowered(fs: seq<Func>, cs: seq<CFunc>, can: set<string>, name: string)
    requires |fs| == |cs| && forall i | 0 <= i < |fs| :: LoweredFunc(fs[i], can, cs[i])
    ensures Lookup(fs, name).None? ==> LookupC(cs, name).None?
    ensures Lookup(fs, name).Some?
            ==> LookupC(cs, name).Some? && LoweredFunc(Lookup(fs, name).value, can, LookupC(cs, name).value)
  {
    if fs != [] && fs[0].name != name {
      LookupLowered(fs[1..], cs[1..], can, name);
    }
  }

  /** Labels are emitted only inside the braces of a TRY_LOCAL. */
  predicate NoTopLabels(code: seq<CStmt>) {
    forall i | 0 <= i < |code| :: !code[i].CLabel?
  }

  lemma {:induction false} LowerNoTopLabels(s: Stmt, can: set<string>, h: seq<Handler>, lab: nat)
    requires Lower(s, can, h, lab).Ok?
    ensures NoTopLabels(Lower(s, can, h, lab).code)
    decreases s, 1
  {
    match s
    case Block(ss) => LowerListNoTopLabels(ss, can, h, lab);
    case _ =>
  }

  lemma {:induction false} LowerListNoTopLabels(ss: seq<Stmt>, can: set<string>, h: seq<Handler>, lab: nat)
    requires LowerList(ss, can, h, lab).Ok?
    ensures NoTopLabels(LowerList(ss, can, h, lab).code)
    decreases ss, 0
  {
    if ss != [] {
      LowerNoTopLabels(ss[0], can, h, lab);
      LowerListNoTopLabels(ss[1..], can, h, Lower(ss[0], can, h, lab).lab);
    }
  }

  lemma {:induction false} NoLabelFound(code: seq<CStmt>, l: Label)
    requires NoTopLabels(code)
    ensures FindLabel(code, l) == |code|
  {
    if code != [] { NoLabelFound(code[1..], l); }
  }

  // ----- expressions and calls -----

  lemma {:induction false} ExprSim(p: Program, can: set<string>, c: CProgram, w: World, fuel: nat, e: Expr, m: Machine)
    requires Setting(p, can, c, w) && Fresh(m)
    ensures SameResult(ExprExceeds(p, can, w, fuel, e, m.d, |m.frames|), Eval(p, w, PopFirst, fuel, e, m.d),
                       EvalC(c, w, fuel, e, m), m.frames, m.next)
    decreases fuel, e, 1
  {
    match e
    case Num(_) =>
    case Var(_) =>
    case Load(_) =>
    case Bin(op, l, r) => BinSim(p, can, c, w, fuel, op, l, r, m);
    case Assign(_, r) => ExprSim(p, can, c, w, fuel, r, m);
    case Store(_, r) => ExprSim(p, can, c, w, fuel, r, m);
    case Call(f, args) =>
      ArgsSim(p, can, c, w, fuel, args, m);
      var vs := EvalArgsC(c, w, fuel, args, m);
      if vs.CVal? && fuel > 0 { CallSim(p, can, c, w, fuel - 1, f, vs.v, vs.m); }
    case CallPtr(callee, args) => PointerSim(p, can, c, w, fuel, callee, args, m);
  }

  lemma {:induction false} BinSim(p: Program, can: set<string>, c: CProgram, w: World, fuel: nat, op: BinOp, l: Expr,
                                  r: Expr, m: Machine)
    requires Setting(p, can, c, w) && Fresh(m)
    ensures SameResult(ExprExceeds(p, can, w, fuel, Bin(op, l, r), m.d, |m.frames|),
                       Eval(p, w, PopFirst, fuel, Bin(op, l, r), m.d), EvalC(c, w, fuel, Bin(op, l, r), m), m.frames,
                       m.next)
    decreases fuel, Bin(op, l, r), 0
  {
    ExprSim(p, can, c, w, fuel, l, m);
    var a := EvalC(c, w, fuel, l, m);
    if a.CVal? { ExprSim(p, can, c, w, fuel, r, a.m); }
  }

  lemma {:induction false} PointerSim(p: Program, can: set<string>, c: CProgram, w: World, fuel: nat, callee: Expr,
                                      args: seq<Expr>, m: Machine)
    requires Setting(p, can, c, w) && Fresh(m)
    ensures SameResult(ExprExceeds(p, can, w, fuel, CallPtr(callee, args), m.d, |m.frames|),
                       Eval(p, w, PopFirst, fuel, CallPtr(callee, args), m.d),
                       EvalC(c, w, fuel, CallPtr(callee, args), m), m.frames, m.next)
    decreases fuel, CallPtr(callee, args), 0
  {
    ExprSim(p, can, c, w, fuel, callee, m);
    var a := EvalC(c, w, fuel, callee, m);
    if a.CVal? {
      ArgsSim(p, can, c, w, fuel, args, a.m);
      var vs := EvalArgsC(c, w, fuel, args, a.m);
      if vs.CVal? && fuel > 0 && a.v in p.table { CallSim(p, can, c, w, fuel - 1, p.table[a.v], vs.v, vs.m); }
    }
  }

  lemma {:induction false} ArgsSim(p: Program, can: set<string>, c: CProgram, w: World, fuel: nat, es: seq<Expr>,
                                   m: Machine)
    requires Setting(p, can, c, w) && Fresh(m)
    ensures SameResult(ArgsExceed(p, can, w, fuel, es, m.d, |m.frames|), EvalArgs(p, w, PopFirst, fuel, es, m.d),
                       EvalArgsC(c, w, fuel, es, m), m.frames, m.next)
    decreases fuel, es, 0
  {
    if es != [] {
      ExprSim(p, can, c, w, fuel, es[0], m);
      var a := EvalC(c, w, fuel, es[0], m);
      if a.CVal? { ArgsSim(p, can, c, w, fuel, es[1..], a.m); }
    }
  }

  lemma {:induction false} CallSim(p: Program, can: set<string>, c: CProgram, w: World, fuel: nat, f: string,
                                   vs: seq<int>, m: Machine)
    requires Setting(p, can, c, w) && Fresh(m)
    ensures SameResult(CallExceeds(p, can, w, fuel, f, vs, m.d, |m.frames|), Invoke(p, w, PopFirst, fuel, f, vs, m.d),
                       InvokeC(c, w, fuel, f, vs, m), m.frames, m.next)
    decreases fuel
  {
    if f != "throw" {
      LookupLowered(p.funcs, c.funcs, can, f);
      var fn := Lookup(p.funcs, f);
      if fn.Some? && fn.value.body.Some? {
        var s, m0 := fn.value.body.value, WithLocals(m, Bind(fn.value.params, vs));
        assert m0.frames == m.frames + [];
        StmtSim(p, can, c, w, fuel, s, [], 0, m.frames, [], m0);
        NoLooseBreakNoBroke(p, w, PopFirst, fuel, s, m0.d);
      }
    }
  }

  // ----- statements -----

  lemma {:induction false} StmtSim(p: Program, can: set<string>, c: CProgram, w: World, fuel: nat, s: Stmt,
                                   h: seq<Handler>, lab: nat, base: seq<nat>, mine: seq<nat>, m: Machine)
    requires Setting(p, can, c, w) && Placed(s, can, h, lab, base, mine, m)
    ensures SameOutcome(StmtExceeds(p, can, w, fuel, s, m.d, |base|, |m.frames|), Exec(p, w, PopFirst, fuel, s, m.d),
                        RunSeq(c, w, fuel, Lower(s, can, h, lab).code, m), h, base, mine, m.next)
    decreases fuel, s, 3
  {
    match s
    case Nop =>
    case Break => RunOne(c, w, fuel, CBreak, m);
    case ExprStmt(e) => ExprStmtSim(p, can, c, w, fuel, e, h, lab, base, mine, m);
    case Block(ss) => ListSim(p, can, c, w, fuel, ss, h, lab, base, mine, m);
    case If(e, a, b) => IfSim(p, can, c, w, fuel, e, a, b, h, lab, base, mine, m);
    case While(e, b) =>
      RunOne(c, w, fuel, CWhile(e, Lower(b, can, h, lab).code), m);
      WhileSim(p, can, c, w, fuel, e, b, h, lab, base, mine, m);
    case Return(e) => ReturnSim(p, can, c, w, fuel, e, h, lab, base, mine, m);
    case Try(b, k) => TrySim(p, can, c, w, fuel, b, k, h, lab, base, mine, m);
  }

  lemma {:induction false} TrySim(p: Program, can: set<string>, c: CProgram, w: World, fuel: nat, b: Stmt, k: Stmt,
                                  h: seq<Handler>, lab: nat, base: seq<nat>, mine: seq<nat>, m: Machine)
    requires Setting(p, can, c, w) && Placed(Try(b, k), can, h, lab, base, mine, m)
    ensures SameOutcome(StmtExceeds(p, can, w, fuel, Try(b, k), m.d, |base|, |m.frames|),
                        Exec(p, w, PopFirst, fuel, Try(b, k), m.d),
                        RunSeq(c, w, fuel, Lower(Try(b, k), can, h, lab).code, m), h, base, mine, m.next)
    decreases fuel, Try(b, k), 2
  {
    var l := Lower(Try(b, k), can, h, lab);
    match Mode(b, can)
    case TryNone =>
      RunOne(c, w, fuel, l.code[0], m);
      StmtSim(p, can, c, w, fuel, b, h, lab, base, mine, m);
      StmtThrowsOnlyIfFlagged(p, w, PopFirst, can, fuel, b, m.d);
    case TryLocal =>
      assert l == LowerLocal(b, k, can, h, lab);
      RunOne(c, w, fuel, l.code[0], m);
      var lb := Lower(b, can, h + [Lexical(lab + 1)], lab + 1);
      LocalTrySim(p, can, c, w, fuel, b, k, lb, Lower(k, can, h, lb.lab), h, lab, base, mine, m);
    case TryDynamic =>
      assert l == LowerDynamic(b, k, can, h, lab);
      RunOne(c, w, fuel, l.code[0], m);
      var lb := Lower(b, can, h + [Dynamic], lab);
      DynamicTrySim(p, can, c, w, fuel, b, k, lb, Lower(k, can, h, lb.lab), h, lab, base, mine, m);
  }

  lemma {:induction false} IfSim(p: Program, can: set<string>, c: CProgram, w: World, fuel: nat, e: Expr, a: Stmt,
                                 b: Stmt,
                                 h: seq<Handler>, lab: nat, base: seq<nat>, mine: seq<nat>, m: Machine)
    requires Setting(p, can, c, w) && Placed(If(e, a, b), can, h, lab, base, mine, m)
    ensures SameOutcome(StmtExceeds(p, can, w, fuel, If(e, a, b), m.d, |base|, |m.frames|),
                        Exec(p, w, PopFirst, fuel, If(e, a, b), m.d),
                        RunSeq(c, w, fuel, Lower(If(e, a, b), can, h, lab).code, m), h, base, mine, m.next)
    decreases fuel, If(e, a, b), 2
  {
    IfRun(c, w, fuel, e, Lower(a, can, h, lab).code, Lower(b, can, h, Lower(a, can, h, lab).lab).code, m);
    ExprSim(p, can, c, w, fuel, e, m);
    ExprThrowsOnlyIfFlagged(p, w, PopFirst, can, fuel, e, m.d);
    var r := EvalC(c, w, fuel, e, m);
    if r.CVal? && r.v != 0 {
      StmtSim(p, can, c, w, fuel, a, h, lab, base, mine, r.m);
    } else if r.CVal? {
      StmtSim(p, can, c, w, fuel, b, h, Lower(a, can, h, lab).lab, base, mine, r.m);
    }
  }

  lemma IfRun(c: CProgram, w: World, fuel: nat, e: Expr, a: seq<CStmt>, b: seq<CStmt>, m: Machine)
    ensures var r := EvalC(c, w, fuel, e, m);
            RunSeq(c, w, fuel, [CIf(e, a, b)], m) == if !r.CVal? then CLeft(r)
                                                     else RunSeq(c, w, fuel, if r.v != 0 then a else b, r.m)
  {
    RunOne(c, w, fuel, CIf(e, a, b), m);
  }

  /** A return pops the function's own frames first, then evaluates its operand. */
  lemma {:induction false} ReturnSim(p: Program, can: set<string>, c: CProgram, w: World, fuel: nat, e: Option<Expr>,
                                     h: seq<Handler>, lab: nat, base: seq<nat>, mine: seq<nat>, m: Machine)
    requires Setting(p, can, c, w) && Placed(Return(e), can, h, lab, base, mine, m)
    ensures SameOutcome(StmtExceeds(p, can, w, fuel, Return(e), m.d, |base|, |m.frames|),
                        Exec(p, w, PopFirst, fuel, Return(e), m.d),
                        RunSeq(c, w, fuel, Lower(Return(e), can, h, lab).code, m), h, base, mine, m.next)
    decreases fuel, Return(e), 2
  {
    RunConcat(c, w, fuel, Pops(|mine|), [CReturn(e)], m);
    RunPops(c, w, fuel, base, mine, m);
    var m1 := m.(frames := base);
    RunOne(c, w, fuel, CReturn(e), m1);
    assert Fresh(m1) by { assert forall i | 0 <= i < |base| :: m1.frames[i] == m.frames[i]; }
    if e.Some? { ExprSim(p, can, c, w, fuel, e.value, m1); }
  }

  lemma {:induction false} ListSim(p: Program, can: set<string>, c: CProgram, w: World, fuel: nat, ss: seq<Stmt>,
                                   h: seq<Handler>, lab: nat, base: seq<nat>, mine: seq<nat>, m: Machine)
    requires Setting(p, can, c, w) && PlacedList(ss, can, h, lab, base, mine, m)
    ensures SameOutcome(ListExceeds(p, can, w, fuel, ss, m.d, |base|, |m.frames|),
                        ExecList(p, w, PopFirst, fuel, ss, m.d),
                        RunSeq(c, w, fuel, LowerList(ss, can, h, lab).code, m), h, base, mine, m.next)
    decreases fuel, ss, 2
  {
    if ss != [] {
      var l := Lower(ss[0], can, h, lab);
      var rest := LowerList(ss[1..], can, h, l.lab);
      RunConcat(c, w, fuel, l.code, rest.code, m);
      StmtSim(p, can, c, w, fuel, ss[0], h, lab, base, mine, m);
      LowerListNoTopLabels(ss[1..], can, h, l.lab);
      var r := RunSeq(c, w, fuel, l.code, m);
      if r.CGoing? { NoLabelFound(rest.code, r.target); }
      if r.CDone? { ListSim(p, can, c, w, fuel, ss[1..], h, l.lab, base, mine, r.m); }
    }
  }

  function LocalRaise(r: CResult<int>, l: Label): COutcome {
    if r.CVal? then CGoing(l, r.m.(d := Raise(r.m.d, r.v))) else CLeft(r)
  }

  /** The three statements of a local throw set the task fields and branch. */
  lemma LocalThrowRun(c: CProgram, w: World, fuel: nat, arg: Expr, l: Label, m: Machine)
    ensures RunSeq(c, w, fuel, [CExpr(Store(ExceptCh, arg)), CExpr(Store(CatchExcept, Num(0))), CGoto(l)], m)
         == LocalRaise(EvalC(c, w, fuel, arg, m), l)
  {
    var r := EvalC(c, w, fuel, arg, m);
    var s0, s1, s2 := CExpr(Store(ExceptCh, arg)), CExpr(Store(CatchExcept, Num(0))), CGoto(l);
    assert [s0, s1, s2] == [s0] + ([s1] + [s2]);
    RunConcat(c, w, fuel, [s0], [s1] + [s2], m);
    RunOne(c, w, fuel, s0, m);
    if r.CVal? {
      var m1 := r.m.(d := WriteField(r.m.d, ExceptCh, r.v));
      RunConcat(c, w, fuel, [s1], [s2], m1);
      RunOne(c, w, fuel, s1, m1);
      var m2 := m1.(d := WriteField(m1.d, CatchExcept, 0));
      assert EvalC(c, w, fuel, Num(0), m1) == CVal(0, m1);
      assert Run(c, w, fuel, s1, m1) == CDone(m2);
      RunOne(c, w, fuel, s2, m2);
      assert m2.d == Raise(r.m.d, r.v);
    }
  }

  lemma {:induction false} ExprStmtSim(p: Program, can: set<string>, c: CProgram, w: World, fuel: nat, e: Expr,
                                       h: seq<Handler>, lab: nat, base: seq<nat>, mine: seq<nat>, m: Machine)
    requires Setting(p, can, c, w) && Placed(ExprStmt(e), can, h, lab, base, mine, m)
    ensures SameOutcome(StmtExceeds(p, can, w, fuel, ExprStmt(e), m.d, |base|, |m.frames|),
                        Exec(p, w, PopFirst, fuel, ExprStmt(e), m.d),
                        RunSeq(c, w, fuel, Lower(ExprStmt(e), can, h, lab).code, m), h, base, mine, m.next)
    decreases fuel, e, 2
  {
    if IsThrowCall(e) && Nearest(h).Some? {
      LocalThrowSim(p, can, c, w, fuel, e.args, h, base, mine, m);
      assert Exec(p, w, PopFirst, fuel, ExprStmt(e), m.d)
             == AfterThrow(EvalArgs(p, w, PopFirst, fuel, e.args, m.d)) by {
        var vs := EvalArgs(p, w, PopFirst, fuel, e.args, m.d);
        assert vs.Val? ==> Eval(p, w, PopFirst, fuel, e, m.d) == Exc(Raise(vs.d, ThrowArg(vs.v)));
      }
      assert ExprExceeds(p, can, w, fuel, e, m.d, |m.frames|)
             <==> ArgsExceed(p, can, w, fuel, e.args, m.d, |m.frames|) by {
        var vs := EvalArgs(p, w, PopFirst, fuel, e.args, m.d);
        assert vs.Val? && fuel > 0 ==> !CallExceeds(p, can, w, fuel - 1, "throw", vs.v, vs.d, |m.frames|);
      }
      assert Lower(ExprStmt(e), can, h, lab).code == LocalThrow(e.args, Nearest(h).value);
    } else {
      ExprSim(p, can, c, w, fuel, e, m);
      ExprThrowsOnlyIfFlagged(p, w, PopFirst, can, fuel, e, m.d);
      RunOne(c, w, fuel, CExpr(e), m);
    }
  }

  /** How a throw ends, given its operand. */
  function AfterThrow(vs: Result<seq<int>>): Outcome {
    match vs
    case Val(vs, d) => Thrown(Raise(d, ThrowArg(vs)))
    case Exc(d) => Thrown(d)
    case Diverge => OutOfFuel
  }

  /** A throw at a lexical handler: its operand, the task fields, and the branch. */
  lemma {:induction false} LocalThrowSim(p: Program, can: set<string>, c: CProgram, w: World, fuel: nat,
                                         args: seq<Expr>,
                                         h: seq<Handler>, base: seq<nat>, mine: seq<nat>, m: Machine)
    requires Setting(p, can, c, w) && Fresh(m) && m.frames == base + mine && |args| <= 1
    requires Nearest(h).Some? && !ArgsEffect(args, can).call
    ensures SameOutcome(ArgsExceed(p, can, w, fuel, args, m.d, |m.frames|),
                        AfterThrow(EvalArgs(p, w, PopFirst, fuel, args, m.d)),
                        RunSeq(c, w, fuel, LocalThrow(args, Nearest(h).value), m), h, base, mine, m.next)
    decreases fuel, args, 1
  {
    var arg := if args == [] then Num(0) else args[0];
    LocalThrowRun(c, w, fuel, arg, Nearest(h).value, m);
    ArgsThrowOnlyIfFlagged(p, w, PopFirst, can, fuel, args, m.d);
    assert Eval(p, w, PopFirst, fuel, Num(0), m.d) == Val(0, m.d) && EvalC(c, w, fuel, Num(0), m) == CVal(0, m);
    if args != [] {
      ExprSim(p, can, c, w, fuel, arg, m);
      assert args[1..] == [];
      var a := Eval(p, w, PopFirst, fuel, arg, m.d);
      assert a.Val? ==> EvalArgs(p, w, PopFirst, fuel, args[1..], a.d) == Val([], a.d) && [a.v] + [] == [a.v];
      assert a.Val? ==> !ArgsExceed(p, can, w, fuel, args[1..], a.d, |m.frames|);
    }
  }

  lemma {:induction false} WhileSim(p: Program, can: set<string>, c: CProgram, w: World, fuel: nat, e: Expr, b: Stmt,
                                    h: seq<Handler>, lab: nat, base: seq<nat>, mine: seq<nat>, m: Machine)
    requires Setting(p, can, c, w) && Placed(While(e, b), can, h, lab, base, mine, m)
    ensures SameOutcome(StmtExceeds(p, can, w, fuel, While(e, b), m.d, |base|, |m.frames|),
                        Exec(p, w, PopFirst, fuel, While(e, b), m.d),
                        Run(c, w, fuel, CWhile(e, Lower(b, can, h, lab).code), m), h, base, mine, m.next)
    decreases fuel, While(e, b), 2
  {
    ExprSim(p, can, c, w, fuel, e, m);
    ExprThrowsOnlyIfFlagged(p, w, PopFirst, can, fuel, e, m.d);
    var r := EvalC(c, w, fuel, e, m);
    if r.CVal? && r.v != 0 {
      StmtSim(p, can, c, w, fuel, b, h, lab, base, mine, r.m);
      var q := RunSeq(c, w, fuel, Lower(b, can, h, lab).code, r.m);
      if q.CDone? && fuel > 0 { WhileSim(p, can, c, w, fuel - 1, e, b, h, lab, base, mine, q.m); }
    }
  }

  predicate EndLabels(after: seq<CStmt>) {
    forall i | 0 <= i < |after| :: after[i].CLabel? && after[i].name.EndLabel?
  }

  /** What the rethrow after a catch block makes of the block's end. */
  lemma CatchGlue(over: bool, c: CProgram, w: World, fuel: nat, src: Outcome, r: COutcome, after: seq<CStmt>,
                  h: seq<Handler>, base: seq<nat>, mine: seq<nat>, next: nat)
    requires SameOutcome(over, src, r, h, base, mine, next) && EndLabels(after)
    ensures SameOutcome(over, CatchEnd(src), Continue(c, w, fuel, r, [CRethrow(Nearest(h))] + after), h, base, mine,
                        next)
  {
    var tail := [CRethrow(Nearest(h))] + after;
    assert tail[0] == CRethrow(Nearest(h)) && tail[1..] == after;
    if r.CDone? {
      RunLabels(c, w, fuel, after, r.m);
      assert RunSeq(c, w, fuel, tail, r.m) == Continue(c, w, fuel, Run(c, w, fuel, tail[0], r.m), after);
      assert r.m.d.catchExcept == 0 ==> Raise(r.m.d, r.m.d.exceptCh) == r.m.d;
      if Nearest(h).Some? { NoCatchLabel(after, Nearest(h).value); }
    } else if r.CGoing? {
      NoCatchLabel(after, r.target);
      assert FindLabel(tail, r.target) == 1 + FindLabel(after, r.target) == |tail|;
    }
  }

  /** The catch block with its rethrow, once control is at the handler. */
  lemma {:induction false} HandlerSim(p: Program, can: set<string>, c: CProgram, w: World, fuel: nat, k: Stmt,
                                      after: seq<CStmt>,
                                      h: seq<Handler>, lab: nat, base: seq<nat>, mine: seq<nat>, m: Machine)
    requires Setting(p, can, c, w) && Placed(k, can, h, lab, base, mine, m) && EndLabels(after)
    ensures SameOutcome(StmtExceeds(p, can, w, fuel, k, m.d, |base|, |m.frames|),
                        CatchEnd(Exec(p, w, PopFirst, fuel, k, m.d)),
                        RunSeq(c, w, fuel, Lower(k, can, h, lab).code + ([CRethrow(Nearest(h))] + after), m), h, base,
                          mine, m.next)
    decreases fuel, k, 4
  {
    var code := Lower(k, can, h, lab).code;
    StmtSim(p, can, c, w, fuel, k, h, lab, base, mine, m);
    RunConcat(c, w, fuel, code, [CRethrow(Nearest(h))] + after, m);
    CatchGlue(StmtExceeds(p, can, w, fuel, k, m.d, |base|, |m.frames|), c, w, fuel, Exec(p, w, PopFirst, fuel, k, m.d),
              RunSeq(c, w, fuel, code, m), after, h, base, mine, m.next);
  }

  lemma {:induction false} NoCatchLabel(after: seq<CStmt>, l: Label)
    requires EndLabels(after) && l.CatchLabel?
    ensures FindLabel(after, l) == |after|
  {
    if after != [] { NoCatchLabel(after[1..], l); }
  }

  lemma {:induction false} RunLabels(c: CProgram, w: World, fuel: nat, after: seq<CStmt>, m: Machine)
    requires forall i | 0 <= i < |after| :: after[i].CLabel?
    ensures RunSeq(c, w, fuel, after, m) == CDone(m)
  {
    if after != [] { RunLabels(c, w, fuel, after[1..], m); }
  }

  predicate CaughtBy(r: COutcome, f: nat) {
    r.CLeft? && r.r.Jump? && r.r.frame == f
  }

  /** The end of a dynamic try body for which the frame f was pushed: an exception is
      caught by exactly that frame, every other end takes the frame off. */
  ghost predicate DynamicEnd(over: bool, src: Outcome, q: COutcome, h: seq<Handler>, base: seq<nat>, mine: seq<nat>,
                             f: nat) {
    if over then q == CLeft(NestingLimit)
    else if src.Thrown? then CaughtBy(q, f) && At(q.r.m, src.d, base + mine, f + 1)
    else !CaughtBy(q, f) && SameOutcome(false, src, q, h, base, mine, f)
  }

  lemma DynamicGlue(over: bool, c: CProgram, w: World, fuel: nat, src: Outcome, r: COutcome,
                    h: seq<Handler>, base: seq<nat>, mine: seq<nat>, f: nat)
    requires SameOutcome(over, src, r, h + [Dynamic], base, mine + [f], f + 1) && !src.Broke?
    requires forall i | 0 <= i < |base| :: base[i] < f
    ensures DynamicEnd(over, src, Continue(c, w, fuel, r, [CPop]), h, base, mine, f)
  {
    assert Nearest(h + [Dynamic]).None?;
    var all := base + (mine + [f]);
    assert all[..|all| - 1] == base + mine && all[|all| - 1] == f;
    if r.CDone? { RunOne(c, w, fuel, CPop, r.m); }
  }

  lemma {:induction false} DynamicTrySim(p: Program, can: set<string>, c: CProgram, w: World, fuel: nat, b: Stmt,
                                         k: Stmt,
                                         lb: Lowered, lk: Lowered, h: seq<Handler>, lab: nat, base: seq<nat>,
                                           mine: seq<nat>, m: Machine)
    requires Setting(p, can, c, w) && Placed(Try(b, k), can, h, lab, base, mine, m) && Mode(b, can).TryDynamic?
    requires lb == Lower(b, can, h + [Dynamic], lab) && lb.Ok? && lk == Lower(k, can, h, lb.lab) && lk.Ok?
    ensures SameOutcome(StmtExceeds(p, can, w, fuel, Try(b, k), m.d, |base|, |m.frames|),
                        Exec(p, w, PopFirst, fuel, Try(b, k), m.d),
                        Run(c, w, fuel, DynamicTry(lb.code, lk.code, Nearest(h)), m), h, base, mine, m.next)
    decreases fuel, Try(b, k), 1
  {
    if |m.frames| < TRY_MAX {
      var q := DynamicBodySim(p, can, c, w, fuel, b, h, lab, base, mine, m);
      DynamicRun(c, w, fuel, lb.code, lk.code, Nearest(h), m, q);
      if CaughtBy(q, m.next) {
        assert Fresh(q.r.m);
        HandlerSim(p, can, c, w, fuel, k, [], h, lb.lab, base, mine, q.r.m);
      }
    }
  }

  /** An exception of the body goes to the handler, anything else leaves the try. */
  lemma DynamicRun(c: CProgram, w: World, fuel: nat, body: seq<CStmt>, handler: seq<CStmt>, outer: Option<Label>,
                   m: Machine, q: COutcome)
    requires |m.frames| < TRY_MAX
             && q == RunSeq(c, w, fuel, body + [CPop], Machine(m.d, m.frames + [m.next], m.next + 1))
    ensures Run(c, w, fuel, DynamicTry(body, handler, outer), m)
         == if CaughtBy(q, m.next) then RunSeq(c, w, fuel, handler + ([CRethrow(outer)] + []), q.r.m) else q
  {
    assert [CRethrow(outer)] + [] == [CRethrow(outer)];
  }

  /** The body of a dynamic try with the pop after it, from the pushed frame on. */
  lemma {:induction false} DynamicBodySim(p: Program, can: set<string>, c: CProgram, w: World, fuel: nat, b: Stmt,
                                          h: seq<Handler>, lab: nat, base: seq<nat>, mine: seq<nat>,
                                            m: Machine) returns (q: COutcome)
    requires Setting(p, can, c, w) && WellFormedStmt(b) && !LooseBreak(b) && Lower(b, can, h + [Dynamic], lab).Ok?
    requires m.frames == base + mine && |mine| == DynamicCount(h) && Fresh(m)
    ensures q == RunSeq(c, w, fuel, Lower(b, can, h + [Dynamic], lab).code + [CPop],
                        Machine(m.d, m.frames + [m.next], m.next + 1))
    ensures DynamicEnd(StmtExceeds(p, can, w, fuel, b, m.d, |base|, |m.frames| + 1),
                       Exec(p, w, PopFirst, fuel, b, m.d), q, h, base, mine, m.next)
    decreases fuel, b, 4
  {
    var h1, mine1 := h + [Dynamic], mine + [m.next];
    var m1 := Machine(m.d, m.frames + [m.next], m.next + 1);
    var l := Lower(b, can, h1, lab);
    DynamicCountPush(h, Dynamic);
    assert m1.frames == base + mine1;
    StmtSim(p, can, c, w, fuel, b, h1, lab, base, mine1, m1);
    NoLooseBreakNoBroke(p, w, PopFirst, fuel, b, m.d);
    RunConcat(c, w, fuel, l.code, [CPop], m1);
    var r := RunSeq(c, w, fuel, l.code, m1);
    assert forall i | 0 <= i < |base| :: base[i] == m.frames[i];
    DynamicGlue(StmtExceeds(p, can, w, fuel, b, m.d, |base|, |m.frames| + 1), c, w, fuel,
                Exec(p, w, PopFirst, fuel, b, m.d), r, h, base, mine, m.next);
    q := Continue(c, w, fuel, r, [CPop]);
  }

  lemma {:induction false} LocalTrySim(p: Program, can: set<string>, c: CProgram, w: World, fuel: nat, b: Stmt,
                                       k: Stmt, lb: Lowered, lk: Lowered, h: seq<Handler>, lab: nat, base: seq<nat>,
                                       mine: seq<nat>, m: Machine)
    requires Setting(p, can, c, w) && Placed(Try(b, k), can, h, lab, base, mine, m) && Mode(b, can).TryLocal?
    requires lb == Lower(b, can, h + [Lexical(lab + 1)], lab + 1) && lb.Ok? && lk == Lower(k, can, h, lb.lab) && lk.Ok?
    ensures SameOutcome(StmtExceeds(p, can, w, fuel, Try(b, k), m.d, |base|, |m.frames|),
                        Exec(p, w, PopFirst, fuel, Try(b, k), m.d),
                        RunSeq(c, w, fuel, LocalTry(lb.code, lk.code, lab + 1, Nearest(h)), m), h, base, mine, m.next)
    decreases fuel, Try(b, k), 1
  {
    var r := LocalBodySim(p, can, c, w, fuel, b, h, lab, base, mine, m);
    LowerNoTopLabels(k, can, h, lb.lab);
    LocalRun(c, w, fuel, lb.code, lk.code, lab + 1, Nearest(h), m);
    var src := Exec(p, w, PopFirst, fuel, b, m.d);
    LocalGlue(StmtExceeds(p, can, w, fuel, b, m.d, |base|, |m.frames|), c, w, fuel, src, r, lk.code, lab + 1, h, base,
              mine, m.next);
    if r.CGoing? { HandlerSim(p, can, c, w, fuel, k, [CLabel(EndLabel(lab + 1))], h, lb.lab, base, mine, r.m); }
  }

  lemma LocalRun(c: CProgram, w: World, fuel: nat, body: seq<CStmt>, handler: seq<CStmt>, n: nat, outer: Option<Label>,
                 m: Machine)
    ensures RunSeq(c, w, fuel, LocalTry(body, handler, n, outer), m)
         == Continue(c, w, fuel, RunSeq(c, w, fuel, body, m), LocalRest(handler, n, outer))
  {
    assert LocalTry(body, handler, n, outer) == body + LocalRest(handler, n, outer);
    RunConcat(c, w, fuel, body, LocalRest(handler, n, outer), m);
  }

  /** The body of a local try. */
  lemma {:induction false} LocalBodySim(p: Program, can: set<string>, c: CProgram, w: World, fuel: nat, b: Stmt,
                                        h: seq<Handler>, lab: nat, base: seq<nat>, mine: seq<nat>,
                                          m: Machine) returns (r: COutcome)
    requires Setting(p, can, c, w) && WellFormedStmt(b) && !LooseBreak(b)
             && Lower(b, can, h + [Lexical(lab + 1)], lab + 1).Ok?
    requires m.frames == base + mine && |mine| == DynamicCount(h) && Fresh(m) && Mode(b, can).TryLocal?
    ensures r == RunSeq(c, w, fuel, Lower(b, can, h + [Lexical(lab + 1)], lab + 1).code, m)
    ensures SameOutcome(StmtExceeds(p, can, w, fuel, b, m.d, |base|, |m.frames|), Exec(p, w, PopFirst, fuel, b, m.d), r,
                        h + [Lexical(lab + 1)], base, mine, m.next)
    ensures !Exec(p, w, PopFirst, fuel, b, m.d).Broke?
    decreases fuel, b, 4
  {
    DynamicCountPush(h, Lexical(lab + 1));
    StmtSim(p, can, c, w, fuel, b, h + [Lexical(lab + 1)], lab + 1, base, mine, m);
    NoLooseBreakNoBroke(p, w, PopFirst, fuel, b, m.d);
    r := RunSeq(c, w, fuel, Lower(b, can, h + [Lexical(lab + 1)], lab + 1).code, m);
  }

  /** What follows the body inside the braces of a TRY_LOCAL. */
  function LocalRest(handler: seq<CStmt>, n: nat, outer: Option<Label>): seq<CStmt> {
    [CGoto(EndLabel(n)), CLabel(CatchLabel(n))] + (handler + ([CRethrow(outer)] + [CLabel(EndLabel(n))]))
  }

  /** The end of a local try body: an exception branches to the catch block, a normal
      end jumps over it, and nothing else stops there. */
  lemma LocalGlue(over: bool, c: CProgram, w: World, fuel: nat, src: Outcome, r: COutcome, handler: seq<CStmt>, n: nat,
                  h: seq<Handler>, base: seq<nat>, mine: seq<nat>, next: nat)
    requires SameOutcome(over, src, r, h + [Lexical(n)], base, mine, next) && !src.Broke? && NoTopLabels(handler)
    ensures r.CGoing? ==> src.Thrown? && At(r.m, src.d, base + mine, next)
    ensures r.CGoing? ==> (Continue(c, w, fuel, r, LocalRest(handler, n, Nearest(h)))
                           == RunSeq(c, w, fuel, handler + ([CRethrow(Nearest(h))] + [CLabel(EndLabel(n))]), r.m))
    ensures !r.CGoing? ==> SameOutcome(over, src, Continue(c, w, fuel, r, LocalRest(handler, n, Nearest(h))), h, base,
                                       mine, next)
    ensures r.CGoing? <==> !over && src.Thrown?
  {
    assert Nearest(h + [Lexical(n)]) == Some(CatchLabel(n));
    if r.CDone? { SkipHandler(c, w, fuel, handler, Nearest(h), n, r.m); }
    if r.CGoing? { EnterHandler(c, w, fuel, handler + ([CRethrow(Nearest(h))] + [CLabel(EndLabel(n))]), n, r.m); }
  }

  /** A branch to the catch label runs the catch block. */
  lemma EnterHandler(c: CProgram, w: World, fuel: nat, handler: seq<CStmt>, n: nat, m: Machine)
    ensures Continue(c, w, fuel, CGoing(CatchLabel(n), m), [CGoto(EndLabel(n)), CLabel(CatchLabel(n))] + handler)
         == RunSeq(c, w, fuel, handler, m)
  {
    var rest := [CGoto(EndLabel(n)), CLabel(CatchLabel(n))] + handler;
    assert rest[1..] == [CLabel(CatchLabel(n))] + handler;
    assert FindLabel(rest, CatchLabel(n)) == 1 + FindLabel(rest[1..], CatchLabel(n)) == 1;
    assert rest[1..][0] == CLabel(CatchLabel(n)) && rest[1..][1..] == handler;
    assert Run(c, w, fuel, rest[1..][0], m) == CDone(m);
    assert RunSeq(c, w, fuel, rest[1..], m) == RunSeq(c, w, fuel, handler, m);
  }

  /** A try body that ends normally jumps over the catch block. */
  lemma SkipHandler(c: CProgram, w: World, fuel: nat, code: seq<CStmt>, outer: Option<Label>, n: nat, m: Machine)
    requires NoTopLabels(code)
    ensures RunSeq(c, w, fuel, [CGoto(EndLabel(n)), CLabel(CatchLabel(n))] +
                   (code + ([CRethrow(outer)] + [CLabel(EndLabel(n))])), m) == CDone(m)
  {
    var end := [CLabel(EndLabel(n))];
    var all := [CGoto(EndLabel(n)), CLabel(CatchLabel(n))] + (code + ([CRethrow(outer)] + end));
    var skipped := [CLabel(CatchLabel(n))] + (code + [CRethrow(outer)]);
    assert all[1..] == skipped + end;
    assert FindLabel(skipped, EndLabel(n)) == |skipped| by {
      assert skipped[1..] == code + [CRethrow(outer)];
      NoLabelFound(skipped[1..], EndLabel(n));
    }
    FindLabelConcat(skipped, end, EndLabel(n));
    assert all[1..][|skipped|..] == end;
    RunLabels(c, w, fuel, end, m);
  }
}
