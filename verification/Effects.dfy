/** src/effects.c: which functions can throw, and how each `try` is lowered. */
module Effects {
  import opened Basics
  import opened ExceptionAst

  /** The two bits of the effect mask: a throw or rethrow in the current function,
      and an exception that may cross a call boundary. */
  datatype Effect = Effect(local: bool, call: bool) {
    predicate Any() { local || call }
    function Join(that: Effect): Effect { Effect(local || that.local, call || that.call) }
    predicate Leq(that: Effect) { (local ==> that.local) && (call ==> that.call) }
  }

  const NO_EFFECT := Effect(false, false)
  const LOCAL := Effect(true, false)
  const CALL := Effect(false, true)

  const THROWING_EXTERNS: seq<string> :=
    ["throw", "MAlloc", "CAlloc", "StrNew", "MStrPrint", "StrPrintJoin", "GetStr"]

  predicate ExternCanThrow(f: Func) {
    !f.fromPrelude || f.name in THROWING_EXTERNS
  }

  /** A set of names stands for the `can_throw` flags that are set. */
  function ExprEffect(e: Expr, can: set<string>): Effect
    decreases e, 1
  {
    match e
    case Num(_) => NO_EFFECT
    case Var(_) => NO_EFFECT
    case Bin(_, a, b) => ExprEffect(a, can).Join(ExprEffect(b, can))
    case Assign(_, a) => ExprEffect(a, can)
    case Load(_) => NO_EFFECT
    case Store(_, a) => ExprEffect(a, can)
    case Call(f, args) =>
      var below := ArgsEffect(args, can);
      if f == "throw" || f in can then below.Join(CALL) else below
    case CallPtr(c, args) => ExprEffect(c, can).Join(ArgsEffect(args, can)).Join(CALL)
  }

  function ArgsEffect(es: seq<Expr>, can: set<string>): Effect
    decreases es, 0
  {
    if es == [] then NO_EFFECT else ExprEffect(es[0], can).Join(ArgsEffect(es[1..], can))
  }

  function StmtEffect(s: Stmt, can: set<string>): Effect
    decreases s, 1
  {
    match s
    case Nop => NO_EFFECT
    case ExprStmt(e) => if IsThrowCall(e) then ArgsEffect(e.args, can).Join(LOCAL) else ExprEffect(e, can)
    case Block(ss) => ListEffect(ss, can)
    case If(c, a, b) => ExprEffect(c, can).Join(StmtEffect(a, can)).Join(StmtEffect(b, can))
    case While(c, b) => ExprEffect(c, can).Join(StmtEffect(b, can))
    case Break => NO_EFFECT
    case Return(e) => if e.Some? then ExprEffect(e.value, can) else NO_EFFECT
    case Try(b, h) => if StmtEffect(b, can).Any() then StmtEffect(h, can).Join(LOCAL) else NO_EFFECT
  }

  function ListEffect(ss: seq<Stmt>, can: set<string>): Effect
    decreases ss, 0
  {
    if ss == [] then NO_EFFECT else StmtEffect(ss[0], can).Join(ListEffect(ss[1..], can))
  }

  datatype TryMode = TryNone | TryLocal | TryDynamic

  /** The lowering chosen for a try with this body. */
  function Mode(body: Stmt, can: set<string>): TryMode {
    var e := StmtEffect(body, can);
    if !e.Any() then TryNone else if e.call then TryDynamic else TryLocal
  }

  // ----- the fixed point -----

  /** One function's flag is justified by the other flags. */
  predicate FlagNeeded(f: Func, can: set<string>) {
    match f.body
    case None => ExternCanThrow(f)
    case Some(s) => StmtEffect(s, can).Any()
  }

  /** The flags account for every exception that can leave a listed function. */
  ghost predicate Closed(p: Program, can: set<string>) {
    forall f | f in p.funcs :: FlagNeeded(f, can) ==> f.name in can
  }

  ghost predicate LeastClosed(p: Program, can: set<string>) {
    Closed(p, can) && forall other: set<string> :: Closed(p, other) ==> can <= other
  }

  lemma {:induction false} ExprEffectMonotone(e: Expr, a: set<string>, b: set<string>)
    requires a <= b
    ensures ExprEffect(e, a).Leq(ExprEffect(e, b))
    decreases e, 1
  {
    match e
    case Num(_) =>
    case Var(_) =>
    case Load(_) =>
    case Bin(_, l, r) => ExprEffectMonotone(l, a, b); ExprEffectMonotone(r, a, b);
    case Assign(_, r) => ExprEffectMonotone(r, a, b);
    case Store(_, r) => ExprEffectMonotone(r, a, b);
    case Call(_, args) => ArgsEffectMonotone(args, a, b);
    case CallPtr(c, args) => ExprEffectMonotone(c, a, b); ArgsEffectMonotone(args, a, b);
  }

  lemma {:induction false} ArgsEffectMonotone(es: seq<Expr>, a: set<string>, b: set<string>)
    requires a <= b
    ensures ArgsEffect(es, a).Leq(ArgsEffect(es, b))
    decreases es, 0
  {
    if es != [] {
      ExprEffectMonotone(es[0], a, b);
      ArgsEffectMonotone(es[1..], a, b);
    }
  }

  /** Setting more flags never removes an effect bit. */
  lemma {:induction false} EffectMonotone(s: Stmt, a: set<string>, b: set<string>)
    requires a <= b
    ensures StmtEffect(s, a).Leq(StmtEffect(s, b))
    decreases s, 1
  {
    match s
    case Nop =>
    case Break =>
    case ExprStmt(e) =>
      ExprEffectMonotone(e, a, b);
      if IsThrowCall(e) { ArgsEffectMonotone(e.args, a, b); }
    case Block(ss) => ListEffectMonotone(ss, a, b);
    case If(c, t, f) => ExprEffectMonotone(c, a, b); EffectMonotone(t, a, b); EffectMonotone(f, a, b);
    case While(c, t) => ExprEffectMonotone(c, a, b); EffectMonotone(t, a, b);
    case Return(e) => if e.Some? { ExprEffectMonotone(e.value, a, b); }
    case Try(t, h) => EffectMonotone(t, a, b); EffectMonotone(h, a, b);
  }

  lemma {:induction false} ListEffectMonotone(ss: seq<Stmt>, a: set<string>, b: set<string>)
    requires a <= b
    ensures ListEffect(ss, a).Leq(ListEffect(ss, b))
    decreases ss, 0
  {
    if ss != [] {
      EffectMonotone(ss[0], a, b);
      ListEffectMonotone(ss[1..], a, b);
    }
  }

  /** The inferred flags, and with them every try mode, do not depend on the order
      in which the functions are listed. */
  lemma FlagsIgnoreOrder(p: Program, q: Program, a: set<string>, b: set<string>, body: Stmt)
    requires multiset(p.funcs) == multiset(q.funcs)
    requires LeastClosed(p, a) && LeastClosed(q, b)
    ensures a == b
    ensures Mode(body, a) == Mode(body, b)
  {
    assert forall f :: f in p.funcs <==> f in multiset(p.funcs);
    assert forall f :: f in q.funcs <==> f in multiset(q.funcs);
    assert Closed(p, b) && Closed(q, a);
  }

  /** The modes of the tries of a statement, in the order in which they are visited: the
      body of a try first; the handler of a try that needs none is not visited. */
  function Modes(s: Stmt, can: set<string>): seq<TryMode>
    decreases s, 1
  {
    match s
    case Block(ss) => ListModes(ss, can)
    case If(_, a, b) => Modes(a, can) + Modes(b, can)
    case While(_, b) => Modes(b, can)
    case Try(b, h) => Modes(b, can) + [Mode(b, can)] + if StmtEffect(b, can).Any() then Modes(h, can) else []
    case _ => []
  }

  function ListModes(ss: seq<Stmt>, can: set<string>): seq<TryMode>
    decreases ss, 0
  {
    if ss == [] then [] else Modes(ss[0], can) + ListModes(ss[1..], can)
  }

  lemma ListFrom(ss: seq<Stmt>, i: nat, can: set<string>, before: seq<TryMode>)
    requires i < |ss|
    ensures ListEffect(ss[i..], can) == StmtEffect(ss[i], can).Join(ListEffect(ss[i + 1..], can))
    ensures before + ListModes(ss[i..], can) == before + Modes(ss[i], can) + ListModes(ss[i + 1..], can)
  {
    assert ss[i..][0] == ss[i] && ss[i..][1..] == ss[i + 1..];
    Associates(before, Modes(ss[i], can), ListModes(ss[i + 1..], can));
  }

  lemma Associates(a: seq<TryMode>, b: seq<TryMode>, c: seq<TryMode>)
    ensures a + (b + c) == a + b + c
  {
  }

  function BodyModes(f: Func, can: set<string>): seq<TryMode> {
    if f.body.Some? then Modes(f.body.value, can) else []
  }

  function Names(funcs: seq<Func>): set<string> {
    set f | f in funcs :: f.name
  }

  /** The `can_throw` flags of the functions being analysed. */
  class ExceptionAnalysis {
    var canThrow: set<string>
    var tryModes: seq<TryMode>

    constructor ()
      ensures canThrow == {} && tryModes == []
    {
      canThrow, tryModes := {}, [];
    }

    /** effect: what a statement can throw; the modes of its tries are set on the way. */
    method Effect(s: Stmt) returns (e: Effect)
      modifies this`tryModes
      ensures e == StmtEffect(s, canThrow) && tryModes == old(tryModes) + Modes(s, canThrow)
      decreases s, 1
    {
      match s
      case Nop => e := NO_EFFECT;
      case Break => e := NO_EFFECT;
      case ExprStmt(x) => e := if IsThrowCall(x) then ArgsEffect(x.args, canThrow).Join(LOCAL)
                               else ExprEffect(x, canThrow);
      case Block(ss) => e := EffectOfAll(ss);
      case If(c, a, b) =>
        var ea := Effect(a);
        var eb := Effect(b);
        e := ExprEffect(c, canThrow).Join(ea).Join(eb);
      case While(c, b) =>
        var eb := Effect(b);
        e := ExprEffect(c, canThrow).Join(eb);
      case Return(x) => e := if x.Some? then ExprEffect(x.value, canThrow) else NO_EFFECT;
      case Try(b, h) => e := EffectOfTry(b, h);
    }

    method EffectOfAll(ss: seq<Stmt>) returns (e: Effect)
      modifies this`tryModes
      ensures e == ListEffect(ss, canThrow) && tryModes == old(tryModes) + ListModes(ss, canThrow)
      decreases ss, 0
    {
      e := NO_EFFECT;
      for i := 0 to |ss|
        invariant e.Join(ListEffect(ss[i..], canThrow)) == ListEffect(ss, canThrow)
        invariant tryModes + ListModes(ss[i..], canThrow) == old(tryModes) + ListModes(ss, canThrow)
      {
        ListFrom(ss, i, canThrow, tryModes);
        var x := Effect(ss[i]);
        e := e.Join(x);
      }
    }

    /** effect of a try: its mode is set between body and handler. */
    method EffectOfTry(b: Stmt, h: Stmt) returns (e: Effect)
      modifies this`tryModes
      ensures e == StmtEffect(Try(b, h), canThrow) && tryModes == old(tryModes) + Modes(Try(b, h), canThrow)
      decreases Try(b, h), 0
    {
      ghost var before, m := tryModes, Mode(b, canThrow);
      var body := Effect(b);
      tryModes := tryModes + [if !body.Any() then TryNone else if body.call then TryDynamic else TryLocal];
      e := NO_EFFECT;
      if body.Any() {
        var eh := Effect(h);
        e := eh.Join(LOCAL);
        Associates(before, Modes(b, canThrow), [m]);
        Associates(before, Modes(b, canThrow) + [m], Modes(h, canThrow));
      } else {
        Associates(before, Modes(b, canThrow), [m]);
        assert Modes(b, canThrow) + [m] + [] == Modes(b, canThrow) + [m];
      }
    }

    /** Start values: a bodiless function throws if the extern list says so. */
    method Initialize(p: Program)
      modifies this
      ensures canThrow <= Names(p.funcs)
      ensures forall f | f in p.funcs && f.body.None? && ExternCanThrow(f) :: f.name in canThrow
      ensures forall other | Closed(p, other) :: canThrow <= other
    {
      canThrow := {};
      for i := 0 to |p.funcs|
        invariant canThrow <= Names(p.funcs)
        invariant forall k | 0 <= k < i :: p.funcs[k].body.None? && ExternCanThrow(p.funcs[k])
                                           ==> p.funcs[k].name in canThrow
        invariant forall other | Closed(p, other) :: canThrow <= other
      {
        var f := p.funcs[i];
        if f.body.None? && ExternCanThrow(f) {
          assert f in p.funcs && FlagNeeded(f, canThrow);
          assert forall other | Closed(p, other) :: FlagNeeded(f, other);
          canThrow := canThrow + {f.name};
        }
      }
    }

    /** One sweep of the do-while loop: flags grow in place while it runs. */
    method Sweep(p: Program) returns (changed: bool)
      requires canThrow <= Names(p.funcs)
      requires forall other | Closed(p, other) :: canThrow <= other
      modifies this
      ensures old(canThrow) <= canThrow <= Names(p.funcs)
      ensures forall other | Closed(p, other) :: canThrow <= other
      ensures changed ==> old(canThrow) < canThrow
      ensures !changed ==> canThrow == old(canThrow)
      ensures !changed ==> forall f | f in p.funcs && f.body.Some? :: FlagNeeded(f, canThrow) ==> f.name in canThrow
    {
      changed := false;
      for i := 0 to |p.funcs|
        invariant old(canThrow) <= canThrow <= Names(p.funcs)
        invariant forall other | Closed(p, other) :: canThrow <= other
        invariant changed ==> old(canThrow) < canThrow
        invariant !changed ==> canThrow == old(canThrow)
        invariant !changed ==> forall k | 0 <= k < i :: p.funcs[k].body.Some? && FlagNeeded(p.funcs[k], canThrow)
                                                        ==> p.funcs[k].name in canThrow
      {
        var f := p.funcs[i];
        if f.body.Some? && f.name !in canThrow && StmtEffect(f.body.value, canThrow).Any() {
          forall other | Closed(p, other) ensures f.name in other {
            EffectMonotone(f.body.value, canThrow, other);
            assert f in p.funcs && FlagNeeded(f, other);
          }
          canThrow := canThrow + {f.name};
          changed := true;
        }
      }
    }

    /** The last pass, under the final flags: the modes of every function in turn, then those
        of the startup code; does an exception leave that? */
    method AssignModes(p: Program) returns (modes: seq<seq<TryMode>>, startup: bool)
      modifies this`tryModes
      ensures |modes| == |p.funcs| && forall i | 0 <= i < |p.funcs| :: modes[i] == BodyModes(p.funcs[i], canThrow)
      ensures tryModes == Modes(p.startup, canThrow) && (startup <==> StmtEffect(p.startup, canThrow).Any())
    {
      modes := [];
      for i := 0 to |p.funcs|
        invariant |modes| == i && forall k | 0 <= k < i :: modes[k] == BodyModes(p.funcs[k], canThrow)
      {
        tryModes := [];
        if p.funcs[i].body.Some? { var _ := Effect(p.funcs[i].body.value); }
        modes := modes + [tryModes];
      }
      tryModes := [];
      var e := Effect(p.startup);
      startup := e.Any();
    }

    /** The whole analysis ends in the least closed set of flags, and with the modes and the
        startup flag that belong to it. */
    method Analyze(p: Program) returns (modes: seq<seq<TryMode>>, startup: bool)
      modifies this
      ensures LeastClosed(p, canThrow)
      ensures |modes| == |p.funcs| && forall i | 0 <= i < |p.funcs| :: modes[i] == BodyModes(p.funcs[i], canThrow)
      ensures tryModes == Modes(p.startup, canThrow) && (startup <==> StmtEffect(p.startup, canThrow).Any())
    {
      FindFlags(p);
      modes, startup := AssignModes(p);
    }

    method FindFlags(p: Program)
      modifies this
      ensures LeastClosed(p, canThrow)
    {
      Initialize(p);
      var changed := true;
      while changed
        invariant canThrow <= Names(p.funcs)
        invariant forall other | Closed(p, other) :: canThrow <= other
        invariant forall f | f in p.funcs && f.body.None? && ExternCanThrow(f) :: f.name in canThrow
        invariant !changed ==> forall f | f in p.funcs && f.body.Some? :: FlagNeeded(f, canThrow) ==> f.name in canThrow
        decreases Names(p.funcs) - canThrow, changed
      {
        changed := Sweep(p);
      }
    }
  }
}
