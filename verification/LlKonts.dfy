/** Statements under a continuation, and places in LLVM code that do what a continuation says. */
module LlKonts {
  import opened Basics
  import opened LlCode
  import opened LlBlocks
  import opened LlMachine

  // ----- the source -----

  /** What is still to do.  `Loop` is a loop about to test, `Guard` the end of the body of a try
      with its handler, `Popping` the end of one whose handler the runtime reaches, `Caught` the
      end of a handler. */
  datatype Kont =
    | Halt
    | Then(s: Stmt, k: Kont)
    | Loop(c: Option<Expr>, inc: Stmt, b: Stmt, k: Kont)
    | Guard(h: Stmt, k: Kont)
    | Popping(k: Kont)
    | Caught(k: Kont)

  datatype Source<S> = Going(k: Kont, st: S) | Ended(how: End, st: S)

  function Size(k: Kont): nat {
    match k
    case Halt => 0
    case Then(_, k1) => 3 + Size(k1)
    case Loop(_, _, _, k1) => 3 + Size(k1)
    case Guard(_, k1) => 8 + Size(k1)
    case Popping(k1) => 3 + Size(k1)
    case Caught(k1) => 3 + Size(k1)
  }

  function PushAll(ss: seq<Stmt>, k: Kont): Kont {
    if ss == [] then k else Then(ss[0], PushAll(ss[1..], k))
  }

  /** The frames that are pushed. */
  function Frames(k: Kont): nat {
    match k
    case Halt => 0
    case Popping(k1) => 1 + Frames(k1)
    case _ => Frames(k.k)
  }

  function Popped<S>(m: Sem<S>, n: nat, st: S): S {
    if n == 0 then st else m.pop(Popped(m, n - 1, st))
  }

  /** Where a throw goes on: in the handler of the innermost try around, if the function reaches
      it by itself. */
  function Unwind(k: Kont): (r: Option<Kont>)
    ensures r.Some? ==> Size(r.value) < Size(k)
  {
    match k
    case Halt => None
    case Then(_, k1) => Unwind(k1)
    case Loop(_, _, _, k1) => Unwind(k1)
    case Guard(h, k1) => Some(Then(h, Caught(k1)))
    case Popping(_) => None
    case Caught(k1) => Unwind(k1)
  }

  /** The rest of the program behind a label of s, when k follows s. */
  function FindLabel(s: Stmt, l: string, k: Kont): Option<Kont>
    decreases s, 1
  {
    match s
    case Mark(n) => if n == l then Some(k) else None
    case Seq(ss) => FindInList(ss, l, k)
    case If(_, t) => FindLabel(t, l, k)
    case IfElse(_, t, e) => Either(FindLabel(t, l, k), FindLabel(e, l, k))
    case While(c, b) => FindLabel(b, l, Then(Nop, Loop(Some(c), Nop, b, k)))
    case DoWhile(b, c) => FindLabel(b, l, Then(Nop, Loop(Some(c), Nop, b, k)))
    case For(i, c, inc, b) =>
      var loop := Loop(c, inc, b, k);
      Either(FindLabel(i, l, loop), Either(FindLabel(b, l, Then(inc, loop)), FindLabel(inc, l, loop)))
    case TryNone(b) => FindLabel(b, l, k)
    case TryLocal(b, h) => Either(FindLabel(b, l, Guard(h, k)), FindLabel(h, l, Caught(k)))
    case TryDynamic(b, h) => Either(FindLabel(b, l, Popping(k)), FindLabel(h, l, Caught(k)))
    case _ => None
  }

  function Either(a: Option<Kont>, b: Option<Kont>): Option<Kont> {
    if a.Some? then a else b
  }

  function FindInList(ss: seq<Stmt>, l: string, k: Kont): Option<Kont>
    decreases ss, 0
  {
    if ss == [] then None else Either(FindLabel(ss[0], l, PushAll(ss[1..], k)), FindInList(ss[1..], l, k))
  }

  function Throwing<S>(m: Sem<S>, k: Kont, st: S): Source<S> {
    var r := Unwind(k);
    if r.Some? then Going(r.value, st) else Ended(Thrown, st)
  }

  function LoopOf(s: Stmt, k: Kont): Kont
    requires s.While? || s.DoWhile? || s.For?
  {
    if s.For? then Loop(s.test, s.inc, s.b, k) else Loop(Some(s.c), Nop, s.b, k)
  }

  /** One statement in front of k, in a function with this body; `void` functions return
      nothing.  The parser gives their returns no operand.  A return pops the frames first. */
  function Perform<S>(m: Sem<S>, body: Stmt, void: bool, s: Stmt, k: Kont, st: S): Source<S> {
    match s
    case Do(e) => Going(k, Val(m, e, st).1)
    case Throws(e) => var (v, st1) := Val(m, e, st); Throwing(m, k, m.raise(v, st1))
    case InlineAsm(f) => Going(k, m.op(f, [], st).1)
    case Seq(ss) => Going(PushAll(ss, k), st)
    case If(c, t) => var (v, st1) := Val(m, c, st); Going(if v != 0 then Then(t, k) else k, st1)
    case IfElse(c, t, e) => var (v, st1) := Val(m, c, st); Going(Then(if v != 0 then t else e, k), st1)
    case While(c, b) => Going(LoopOf(s, k), st)
    case DoWhile(b, c) => Going(Then(b, Then(Nop, LoopOf(s, k))), st)
    case For(i, c, inc, b) => Going(Then(i, LoopOf(s, k)), st)
    case Return(e) =>
      var st0 := Popped(m, Frames(k), st);
      if void || e.None? then Ended(Value(0), st0) else
      var (v, st1) := Val(m, e.value, st0);
      Ended(Value(v), st1)
    case Goto(l) =>
      var r := FindLabel(body, l, Halt);
      Going(if r.Some? then r.value else Halt, st)
    case TryNone(b) => Going(Then(b, k), st)
    case TryLocal(b, h) => Going(Then(b, Guard(h, k)), st)
    case TryDynamic(b, h) =>
      var (v, st1) := m.push(st);
      Going(if v != 0 then Then(b, Popping(k)) else Then(h, Caught(k)), st1)
    case _ => Going(k, st)
  }

  /** One step.  Behind a handler an exception that was not caught is thrown further; out of the
      function, the runtime records it again. */
  function Step<S>(m: Sem<S>, body: Stmt, void: bool, k: Kont, st: S): Source<S> {
    match k
    case Halt => Ended(Value(0), st)
    case Then(s, k1) => Perform(m, body, void, s, k1, st)
    case Loop(c, inc, b, k1) =>
      if c.None? then Going(Then(b, Then(inc, k)), st) else
      var (v, st1) := Val(m, c.value, st);
      Going(if v != 0 then Then(b, Then(inc, k)) else k1, st1)
    case Guard(_, k1) => Going(k1, st)
    case Popping(k1) => Going(k1, m.pop(st))
    case Caught(k1) =>
      if m.caught(st) then Going(k1, st)
      else if Unwind(k1).Some? then Throwing(m, k1, st)
      else Ended(Thrown, m.raise(m.thrown(st), st))
  }

  function Steps<S>(m: Sem<S>, body: Stmt, void: bool, n: nat, s: Source<S>): Source<S> {
    if n == 0 || s.Ended? then s else Steps(m, body, void, n - 1, Step(m, body, void, s.k, s.st))
  }

  /** Gotos only to these labels. */
  predicate Fine(s: Stmt, names: set<string>)
    decreases s, 1
  {
    match s
    case Goto(l) => l in names
    case Seq(ss) => FineAll(ss, names)
    case If(_, t) => Fine(t, names)
    case IfElse(_, t, e) => Fine(t, names) && Fine(e, names)
    case While(_, b) => Fine(b, names)
    case DoWhile(b, _) => Fine(b, names)
    case For(i, _, inc, b) => Fine(i, names) && Fine(b, names) && Fine(inc, names)
    case TryNone(b) => Fine(b, names)
    case TryLocal(b, h) => Fine(b, names) && Fine(h, names)
    case TryDynamic(b, h) => Fine(b, names) && Fine(h, names)
    case _ => true
  }

  predicate FineAll(ss: seq<Stmt>, names: set<string>)
    decreases ss, 0
  {
    ss == [] || (Fine(ss[0], names) && FineAll(ss[1..], names))
  }

  // ----- places in the code -----

  /** A function: its lines, and whether it returns nothing. */
  datatype Func = Func(code: seq<Line>, void: bool)

  /** Running from line pc does what k says, after n branches that only lead there. */
  ghost predicate Match(f: Func, k: Kont, pc: nat, n: nat)
    decreases Size(k), 0, n
  {
    if n > 0 then
      pc < |f.code| && f.code[pc].Br? && Find(f.code, f.code[pc].l, 0) < |f.code|
        && Match(f, k, Find(f.code, f.code[pc].l, 0) + 1, n - 1)
    else
      match k
      case Halt => Holds(f.code, pc, Ret(if f.void then None else Some(Imm(0))))
      case Then(s, k1) => exists g: Gen, env: Env :: g.open && pc == Len(g.out) && Emitted(f, g, s, env, k1)
      case Loop(c, inc, b, k1) => exists at: LoopPlace :: LoopAt(f, at, c, inc, b, pc) && ToLabel(f, k1, Temp(at.el))
                                                          && Handled(f, at.env, k1)
      case Guard(_, k1) => Somehow(f, k1, pc)
      case Popping(k1) =>
        exists l: Label :: Holds(f.code, pc, Ins(Pop)) && Holds(f.code, pc + 1, Br(l)) && ToLabel(f, k1, l)
      case Caught(k1) => exists g: Gen, env: Env, el: nat :: CaughtAt(f, g, env, el, pc) && ToLabel(f, k1, Temp(el))
                                                             && Handled(f, env, k1)
  }

  ghost predicate Somehow(f: Func, k: Kont, pc: nat)
    decreases Size(k), 1, 0
  {
    exists n: nat :: Match(f, k, pc, n)
  }

  /** The label leads to k. */
  ghost predicate ToLabel(f: Func, k: Kont, l: Label)
    decreases Size(k), 2, 0
  {
    Find(f.code, l, 0) < |f.code| && Somehow(f, k, Find(f.code, l, 0) + 1)
  }

  /** At the end of the code g is k, if it is ever reached. */
  ghost predicate Follows(f: Func, g: Gen, k: Kont)
    decreases Size(k), 2, 0
  {
    g.open ==> Somehow(f, k, Len(g.out))
  }

  /** The handler in force, if it is reached by a branch, leads where a throw from k goes on. */
  ghost predicate Handled(f: Func, env: Env, k: Kont)
    decreases Size(k), 3, 0
  {
    && env.depth == Frames(k) && env.retVoid == f.void
    && var l, r := env.Local(), Unwind(k);
       if l.None? then r == None else r.Some? && ToLabel(f, r.value, l.value)
  }

  /** s is emitted from g as part of the code, and k follows it. */
  ghost predicate Emitted(f: Func, g: Gen, s: Stmt, env: Env, k: Kont)
    decreases Size(k), 4, 0
  {
    Part(Emit(g, s, env).out, f.code) && Follows(f, Emit(g, s, env), k) && Handled(f, env, k)
  }

  /** A loop in the code: g at its head, gb at the start of its body, and its labels. */
  datatype LoopPlace = LoopPlace(g: Gen, gb: Gen, env: Env, hl: nat, bl: nat, el: nat)

  ghost predicate LoopAt(f: Func, at: LoopPlace, c: Option<Expr>, inc: Stmt, b: Stmt, pc: nat) {
    && at.g.open && at.gb.open && pc == Len(at.g.out) && Leads(f.code, Temp(at.hl), pc)
    && Leads(f.code, Temp(at.bl), Len(at.gb.out))
    && Part(LoopTest(at.g, c, at.bl, at.el).out, f.code)
    && Part(Emit(Emit(at.gb, b, at.env), inc, at.env).BrTo(Temp(at.hl)).out, f.code)
  }

  function LoopTest(g: Gen, c: Option<Expr>, bl: nat, el: nat): Gen {
    if c.Some? then EmitCond(g, c.value, Temp(bl), Temp(el)) else g.BrTo(Temp(bl))
  }

  ghost predicate CaughtAt(f: Func, g: Gen, env: Env, el: nat, pc: nat) {
    g.open && pc == Len(g.out) && Part(EndCatch(g, el, env).out, f.code)
  }

  // ----- how places follow from each other -----

  lemma {:induction false} SomehowNow(f: Func, k: Kont, pc: nat)
    requires Match(f, k, pc, 0)
    ensures Somehow(f, k, pc)
  {
  }

  lemma {:induction false} SomehowJump(f: Func, k: Kont, pc: nat, l: Label)
    requires Holds(f.code, pc, Br(l)) && ToLabel(f, k, l)
    ensures Somehow(f, k, pc)
  {
    var n: nat :| Match(f, k, Find(f.code, l, 0) + 1, n);
    assert Match(f, k, pc, n + 1);
  }

  /** Code that ends by a branch. */
  lemma {:induction false} BrFollows(f: Func, g: Gen, l: Label, k: Kont)
    requires Part(g.BrTo(l).out, f.code) && ToLabel(f, k, l)
    ensures Follows(f, g, k)
  {
    if g.open { SomehowJump(f, k, Len(g.out), l); }
  }

  /** Code that goes on behind a label. */
  lemma {:induction false} LabFollows(f: Func, g: Gen, l: Label, k: Kont)
    requires Once(f.code) && Part(g.Lab(l).out, f.code) && Follows(f, g.Lab(l), k)
    ensures ToLabel(f, k, l) && Follows(f, g, k)
  {
    if g.open {
      assert Part(Snoc(Snoc(g.out, Br(l)), Place(l)), f.code);
      PlaceLeads(f.code, Snoc(g.out, Br(l)), l);
      SomehowJump(f, k, Len(g.out), l);
    } else {
      PlaceLeads(f.code, g.out, l);
    }
  }

  /** A branch to a label, and another label there. */
  lemma {:induction false} JumpFollows(f: Func, g: Gen, l: Label, n: Label, k: Kont, j: Kont)
    requires Once(f.code) && Part(g.BrTo(l).Lab(n).out, f.code) && Follows(f, g.BrTo(l).Lab(n), j) && ToLabel(f, k, l)
    ensures ToLabel(f, j, n) && Follows(f, g, k) && Part(g.BrTo(l).out, f.code)
  {
    LabFollows(f, g.BrTo(l), n, j);
    assert Part(Snoc(g.BrTo(l).out, Place(n)), f.code);
    BrFollows(f, g, l, k);
  }
}
