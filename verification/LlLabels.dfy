/** src/back_ll.c: which labels the code of a statement places, and which it branches to. */
module LlLabels {
  import opened Basics
  import opened LlCode
  import opened LlBlocks

  // ----- statements -----

  /** A named label is placed k times, a label of the emitter once at most. */
  predicate Placed(g: Gen, r: Gen, l: Label, k: nat, p: nat, own: bool) {
    if l.Named? then p == k else Own(g, r, l, p, own)
  }

  /** How often s places the named label l. */
  function Places(s: Stmt, l: Label): nat {
    if l.Named? then Defs(s)[l.s] else 0
  }

  /** One piece of code after another. */
  lemma {:induction false} Then(g: Gen, r: Gen, q: Gen, l: Label, k1: nat, k2: nat, p1: nat, p2: nat, own1: bool,
                                own2: bool, m1: bool, m2: bool)
    requires Grows(g, r, l, p1, m1) && Placed(g, r, l, k1, p1, own1)
    requires Grows(r, q, l, p2, m2) && Placed(r, q, l, k2, p2, own2)
    requires own1 || own2 ==> l.Temp? && l.n <= g.nlab
    requires !(own1 && own2)
    ensures Grows(g, q, l, p1 + p2, m1 || m2) && Placed(g, q, l, k1 + k2, p1 + p2, own1 || own2)
  {
    GrowsTrans(g, r, q, l, p1, p2, m1, m2);
  }

  /** A construct with labels of its own. */
  lemma {:induction false} Settle(g: Gen, q: Gen, n: nat, l: Label, k: nat, p: nat, own: bool, m: bool, may: bool)
    requires Grows(g.Labels(n), q, l, p, m) && Placed(g.Labels(n), q, l, k, p, own)
    requires own ==> l.Temp? && g.nlab < l.n <= g.nlab + n
    requires m ==> may || own
    ensures Grows(g, q, l, p, may) && Placed(g, q, l, k, p, false)
  {
  }

  /** What emission promises about the label l. */
  predicate Kept(g: Gen, s: Stmt, env: Env, l: Label, p: nat) {
    var r := Emit(g, s, env);
    Grows(g, r, l, p, Uses(s, env.Local(), l)) && Placed(g, r, l, Places(s, l), p, false)
    && (Uses(s, env.Local(), l) ==> Aims(r.out, l))
  }

  lemma {:induction false} KeptIs(g: Gen, s: Stmt, env: Env, l: Label, p: nat, r: Gen, k: nat, m: bool)
    requires r == Emit(g, s, env) && k == Places(s, l) && m == Uses(s, env.Local(), l)
    requires Grows(g, r, l, p, m) && Placed(g, r, l, k, p, false) && (m ==> Aims(r.out, l))
    ensures Kept(g, s, env, l, p)
  {
  }

  lemma {:induction false} StmtGrows(g: Gen, s: Stmt, env: Env, l: Label) returns (p: nat)
    ensures Kept(g, s, env, l, p)
    decreases s, 1
  {
    match s
    case Nop => p := 0;
    case Do(e) => p := ValGrows(g, e, l);
    case Throws(e) => p := ThrowGrows(g, e, env, l);
    case InlineAsm(f) => p := PutGrows(g, Asm(f), l);
    case Seq(ss) => p := ListGrows(g, ss, env, l);
    case If(_, _) => p := IfGrows(g, s, env, l);
    case IfElse(_, _, _) => p := IfElseGrows(g, s, env, l);
    case While(_, _) => p := WhileGrows(g, s, env, l);
    case DoWhile(_, _) => p := DoGrows(g, s, env, l);
    case For(_, _, _, _) => p := ForGrows(g, s, env, l);
    case Return(e) => p := ReturnGrows(g, e, env, l);
    case Goto(n) => p := BrToGrows(g, Named(n), l);
    case Mark(n) => p := if l == Named(n) then 1 else 0; LabGrows(g, Named(n), l);
    case TryNone(b) => p := StmtGrows(g, b, env, l);
    case TryLocal(_, _) => p := TryLocalGrows(g, s, env, l);
    case TryDynamic(_, _) => p := TryDynamicGrows(g, s, env, l);
  }

  lemma {:induction false} ListGrows(g: Gen, ss: seq<Stmt>, env: Env, l: Label) returns (p: nat)
    ensures Kept(g, Seq(ss), env, l, p)
    decreases ss, 0
  {
    p := 0;
    if ss == [] {
      NoneIs(g, env, l);
      KeptIs(g, Seq(ss), env, l, 0, g, 0, false);
    } else {
      var g1, rest, f := Emit(g, ss[0], env), Seq(ss[1..]), env.Local();
      var p1 := StmtGrows(g, ss[0], env, l);
      var p2 := ListGrows(g1, ss[1..], env, l);
      var m1, m2, k1, k2 := Uses(ss[0], f, l), Uses(rest, f, l), Places(ss[0], l), Places(rest, l);
      p := p1 + p2;
      ListIs(g, ss, env);
      ListLabels(ss, f, l);
      Pair(g, g1, Emit(g1, rest, env), l, k1, k2, p1, p2, m1, m2);
      KeptIs(g, Seq(ss), env, l, p, Emit(g1, rest, env), k1 + k2, m1 || m2);
    }
  }

  lemma {:induction false} NoneIs(g: Gen, env: Env, l: Label)
    ensures Emit(g, Seq([]), env) == g && Places(Seq([]), l) == 0 && !Uses(Seq([]), env.Local(), l)
  {
    assert Defs(Seq([])) == multiset{};
  }

  lemma {:induction false} Pair(g: Gen, r: Gen, q: Gen, l: Label, k1: nat, k2: nat, p1: nat, p2: nat, m1: bool,
                                m2: bool)
    requires Grows(g, r, l, p1, m1) && Placed(g, r, l, k1, p1, false) && (m1 ==> Aims(r.out, l))
    requires Grows(r, q, l, p2, m2) && Placed(r, q, l, k2, p2, false) && (m2 ==> Aims(q.out, l))
    ensures Grows(g, q, l, p1 + p2, m1 || m2) && Placed(g, q, l, k1 + k2, p1 + p2, false)
            && (m1 || m2 ==> Aims(q.out, l))
  {
    Then(g, r, q, l, k1, k2, p1, p2, false, false, m1, m2);
  }

  lemma {:induction false} ListIs(g: Gen, ss: seq<Stmt>, env: Env)
    requires ss != []
    ensures Emit(g, Seq(ss), env) == Emit(Emit(g, ss[0], env), Seq(ss[1..]), env)
  {
  }

  lemma {:induction false} ListLabels(ss: seq<Stmt>, f: Option<Label>, l: Label)
    requires ss != []
    ensures Places(Seq(ss), l) == Places(ss[0], l) + Places(Seq(ss[1..]), l)
    ensures Uses(Seq(ss), f, l) <==> Uses(ss[0], f, l) || Uses(Seq(ss[1..]), f, l)
  {
    assert Defs(Seq(ss)) == ListDefs(ss) && Defs(Seq(ss[1..])) == ListDefs(ss[1..]);
  }

  lemma {:induction false} IfIs(g: Gen, s: Stmt, env: Env, n: nat, g1: Gen, g2: Gen)
    requires s.If? && n == g.nlab + 1
    requires g1 == Test(g, s.c, n, n + 2)
    requires g2 == Emit(g1, s.t, env)
    ensures Emit(g, s, env) == EndIf(g2, n)
  {
  }

  lemma {:induction false} IfLabels(s: Stmt, f: Option<Label>, l: Label)
    requires s.If?
    ensures Places(s, l) == Places(s.t, l)
    ensures Uses(s, f, l) <==> Uses(s.t, f, l)
  {
  }

  lemma {:induction false} IfGrows(g: Gen, s: Stmt, env: Env, l: Label) returns (p: nat)
    requires s.If?
    ensures Kept(g, s, env, l, p)
    decreases s, 0
  {
    var n := g.nlab + 1;
    var g1 := Test(g, s.c, n, n + 2);
    var g2 := Emit(g1, s.t, env);
    var m, k := Uses(s.t, env.Local(), l), Places(s.t, l);
    var p1 := TestGrows(g, s.c, n, n + 2, l);
    var p2 := StmtGrows(g1, s.t, env, l);
    p := ArmGrows(g, n, g1, g2, l, k, p1, p2, m);
    IfIs(g, s, env, n, g1, g2);
    IfLabels(s, env.Local(), l);
    KeptIs(g, s, env, l, p, EndIf(g2, n), k, m);
  }

  /** An if without else, with its arm up to g2. */
  lemma {:induction false} ArmGrows(g: Gen, n: nat, g1: Gen, g2: Gen, l: Label, k: nat, p1: nat, p2: nat,
                                    m: bool) returns (p: nat)
    requires n == g.nlab + 1 && Grows(g.Labels(3), g1, l, p1, l == Temp(n + 2))
             && Own(g.Labels(3), g1, l, p1, l == Temp(n))
    requires Grows(g1, g2, l, p2, m) && Placed(g1, g2, l, k, p2, false) && (m ==> Aims(g2.out, l))
    ensures Grows(g, EndIf(g2, n), l, p, m) && Placed(g, EndIf(g2, n), l, k, p, false)
            && (m ==> Aims(EndIf(g2, n).out, l))
  {
    var g0 := g.Labels(3);
    Then(g0, g1, g2, l, 0, k, p1, p2, l == Temp(n), false, l == Temp(n + 2), m);
    var p3 := JumpGrows(g2, Temp(n + 2), n + 2, l);
    p := p1 + p2 + p3;
    Then(g0, g2, EndIf(g2, n), l, k, 0, p1 + p2, p3, l == Temp(n), l == Temp(n + 2), m || l == Temp(n + 2),
         l == Temp(n + 2));
    Settle(g, EndIf(g2, n), 3, l, k, p, l == Temp(n) || l == Temp(n + 2), m || l == Temp(n + 2), m);
  }

  lemma {:induction false} IfElseIs(g: Gen, s: Stmt, env: Env, n: nat, g1: Gen, g2: Gen, h: Gen, g3: Gen)
    requires s.IfElse? && n == g.nlab + 1
    requires g1 == Test(g, s.c, n, n + 1)
    requires g2 == Emit(g1, s.t, env)
    requires h == Else(g2, n)
    requires g3 == Emit(h, s.els, env)
    ensures Emit(g, s, env) == EndIf(g3, n)
  {
  }

  lemma {:induction false} IfElseLabels(s: Stmt, f: Option<Label>, l: Label)
    requires s.IfElse?
    ensures Places(s, l) == Places(s.t, l) + Places(s.els, l)
    ensures Uses(s, f, l) <==> Uses(s.t, f, l) || Uses(s.els, f, l)
  {
  }

  lemma {:induction false} IfElseGrows(g: Gen, s: Stmt, env: Env, l: Label) returns (p: nat)
    requires s.IfElse?
    ensures Kept(g, s, env, l, p)
    decreases s, 0
  {
    var n, f := g.nlab + 1, env.Local();
    var g1 := Test(g, s.c, n, n + 1);
    var g2 := Emit(g1, s.t, env);
    var h := Else(g2, n);
    var g3 := Emit(h, s.els, env);
    var m1, m2, k1, k2 := Uses(s.t, f, l), Uses(s.els, f, l), Places(s.t, l), Places(s.els, l);
    var p0 := TestGrows(g, s.c, n, n + 1, l);
    var p1 := StmtGrows(g1, s.t, env, l);
    var p2 := StmtGrows(h, s.els, env, l);
    var p3 := JumpGrows(g2, Temp(n + 2), n + 1, l);
    var p5 := JumpGrows(g3, Temp(n + 2), n + 2, l);
    p := ArmsGrow(g, n, g1, g2, h, g3, EndIf(g3, n), l, k1, k2, p0, p1, p2, p3, p5, m1, m2);
    IfElseIs(g, s, env, n, g1, g2, h, g3);
    IfElseLabels(s, f, l);
    KeptIs(g, s, env, l, p, EndIf(g3, n), k1 + k2, m1 || m2);
  }

  /** An if with else, with its arms up to g2 and up to g3. */
  lemma {:induction false} ArmsGrow(g: Gen, n: nat, g1: Gen, g2: Gen, h: Gen, g3: Gen, r: Gen, l: Label, k1: nat,
                                    k2: nat, p0: nat, p1: nat, p2: nat, p3: nat, p5: nat, m1: bool,
                                    m2: bool) returns (p: nat)
    requires n == g.nlab + 1 && Grows(g.Labels(3), g1, l, p0, l == Temp(n + 1))
             && Own(g.Labels(3), g1, l, p0, l == Temp(n))
    requires Grows(g1, g2, l, p1, m1) && Placed(g1, g2, l, k1, p1, false) && (m1 ==> Aims(g2.out, l))
    requires Grows(g2, h, l, p3, l == Temp(n + 2)) && Own(g2, h, l, p3, l == Temp(n + 1))
    requires Grows(h, g3, l, p2, m2) && Placed(h, g3, l, k2, p2, false) && (m2 ==> Aims(g3.out, l))
    requires Grows(g3, r, l, p5, l == Temp(n + 2)) && Own(g3, r, l, p5, l == Temp(n + 2))
    ensures Grows(g, r, l, p, m1 || m2) && Placed(g, r, l, k1 + k2, p, false) && (m1 || m2 ==> Aims(r.out, l))
  {
    var g0 := g.Labels(3);
    Then(g0, g1, g2, l, 0, k1, p0, p1, l == Temp(n), false, l == Temp(n + 1), m1);
    p := ElseGrows(g0, g2, h, g3, r, n, l, k1, k2, p0 + p1, p3, p2, p5, m1, m2);
    Settle(g, r, 3, l, k1 + k2, p, Three(l, n), m1 || m2 || Three(l, n), m1 || m2);
  }

  lemma {:induction false} ElseGrows(g0: Gen, g2: Gen, h: Gen, g3: Gen, r: Gen, n: nat, l: Label, k1: nat, k2: nat,
                                     p2: nat, p3: nat, p4: nat, p5: nat, m1: bool, m2: bool) returns (p: nat)
    requires n + 2 <= g0.nlab
    requires Grows(g0, g2, l, p2, m1 || l == Temp(n + 1)) && Placed(g0, g2, l, k1, p2, l == Temp(n))
    requires Grows(g2, h, l, p3, l == Temp(n + 2)) && Own(g2, h, l, p3, l == Temp(n + 1))
    requires Grows(h, g3, l, p4, m2) && Placed(h, g3, l, k2, p4, false)
    requires Grows(g3, r, l, p5, l == Temp(n + 2)) && Own(g3, r, l, p5, l == Temp(n + 2))
    ensures Grows(g0, r, l, p, m1 || m2 || Three(l, n)) && Placed(g0, r, l, k1 + k2, p, Three(l, n))
            && (Aims(g3.out, l) ==> Aims(r.out, l))
  {
    Then(g0, g2, h, l, k1, 0, p2, p3, l == Temp(n), l == Temp(n + 1), m1 || l == Temp(n + 1), l == Temp(n + 2));
    Then(g0, h, g3, l, k1, k2, p2 + p3, p4, l == Temp(n) || l == Temp(n + 1), false,
         m1 || l == Temp(n + 1) || l == Temp(n + 2), m2);
    p := p2 + p3 + p4 + p5;
    Then(g0, g3, r, l, k1 + k2, 0, p2 + p3 + p4, p5, l == Temp(n) || l == Temp(n + 1), l == Temp(n + 2),
         m1 || m2 || l == Temp(n + 1) || l == Temp(n + 2), l == Temp(n + 2));
  }

  /** From the head of a loop to its end. */
  lemma {:induction false} LoopGrows(g0: Gen, g1: Gen, h: Gen, g2: Gen, r: Gen, n: nat, l: Label, k1: nat, k2: nat,
                                     p1: nat, p2: nat, p3: nat, p4: nat, m1: bool, m2: bool) returns (p: nat)
    requires n + 2 <= g0.nlab && Grows(g0, g1, l, p1, m1) && Placed(g0, g1, l, k1, p1, false)
    requires Grows(g1, h, l, p2, l == Temp(n + 2)) && Own(g1, h, l, p2, l == Temp(n) || l == Temp(n + 1))
    requires Grows(h, g2, l, p3, m2) && Placed(h, g2, l, k2, p3, false)
    requires Grows(g2, r, l, p4, l == Temp(n)) && Own(g2, r, l, p4, l == Temp(n + 2))
    ensures Grows(g0, r, l, p, m1 || m2 || Three(l, n)) && Placed(g0, r, l, k1 + k2, p, Three(l, n))
            && (Aims(g1.out, l) || Aims(g2.out, l) ==> Aims(r.out, l))
  {
    Then(g0, g1, h, l, k1, 0, p1, p2, false, l == Temp(n) || l == Temp(n + 1), m1, l == Temp(n + 2));
    Then(g0, h, g2, l, k1, k2, p1 + p2, p3, l == Temp(n) || l == Temp(n + 1), false, m1 || l == Temp(n + 2), m2);
    p := p1 + p2 + p3 + p4;
    Then(g0, g2, r, l, k1 + k2, 0, p1 + p2 + p3, p4, l == Temp(n) || l == Temp(n + 1), l == Temp(n + 2),
         m1 || m2 || l == Temp(n + 2), l == Temp(n));
  }

  lemma {:induction false} WhileIs(g: Gen, s: Stmt, env: Env, n: nat, h: Gen, g2: Gen)
    requires s.While? && n == g.nlab + 1
    requires h == Head(g.Labels(3), Some(s.c), n)
    requires g2 == Emit(h, s.b, env)
    ensures Emit(g, s, env) == EndLoop(g2, n)
  {
  }

  lemma {:induction false} WhileLabels(s: Stmt, f: Option<Label>, l: Label)
    requires s.While?
    ensures Places(s, l) == Places(s.b, l)
    ensures Uses(s, f, l) <==> Uses(s.b, f, l)
  {
  }

  lemma {:induction false} WhileGrows(g: Gen, s: Stmt, env: Env, l: Label) returns (p: nat)
    requires s.While?
    ensures Kept(g, s, env, l, p)
    decreases s, 0
  {
    var g0, n := g.Labels(3), g.nlab + 1;
    var h := Head(g0, Some(s.c), n);
    var g2 := Emit(h, s.b, env);
    var m, k := Uses(s.b, env.Local(), l), Places(s.b, l);
    var p1 := HeadGrows(g0, Some(s.c), n, l);
    var p2 := StmtGrows(h, s.b, env, l);
    p := TurnGrows(g, n, g0, h, g2, g2, l, 0, k, 0, p1, 0, p2, 0, false, m, false);
    WhileIs(g, s, env, n, h, g2);
    WhileLabels(s, env.Local(), l);
    KeptIs(g, s, env, l, p, EndLoop(g2, n), k, m);
  }

  lemma {:induction false} ForIs(g: Gen, s: Stmt, env: Env, n: nat, g1: Gen, h: Gen, g2: Gen, g3: Gen)
    requires s.For? && n == g.nlab + 1
    requires g1 == Emit(g.Labels(3), s.init, env)
    requires h == Head(g1, s.test, n)
    requires g2 == Emit(h, s.b, env)
    requires g3 == Emit(g2, s.inc, env)
    ensures Emit(g, s, env) == EndLoop(g3, n)
  {
  }

  lemma {:induction false} ForLabels(s: Stmt, f: Option<Label>, l: Label)
    requires s.For?
    ensures Places(s, l) == Places(s.init, l) + Places(s.b, l) + Places(s.inc, l)
    ensures Uses(s, f, l) <==> Uses(s.init, f, l) || Uses(s.b, f, l) || Uses(s.inc, f, l)
  {
  }

  lemma {:induction false} ForGrows(g: Gen, s: Stmt, env: Env, l: Label) returns (p: nat)
    requires s.For?
    ensures Kept(g, s, env, l, p)
    decreases s, 0
  {
    var n, f := g.nlab + 1, env.Local();
    var g1 := Emit(g.Labels(3), s.init, env);
    var h := Head(g1, s.test, n);
    var g2 := Emit(h, s.b, env);
    var g3 := Emit(g2, s.inc, env);
    var ki, kb, kc := Places(s.init, l), Places(s.b, l), Places(s.inc, l);
    var p1 := StmtGrows(g.Labels(3), s.init, env, l);
    var p0 := HeadGrows(g1, s.test, n, l);
    var p2 := StmtGrows(h, s.b, env, l);
    var p3 := StmtGrows(g2, s.inc, env, l);
    p := TurnGrows(g, n, g1, h, g2, g3, l, ki, kb, kc, p0, p1, p2, p3, Uses(s.init, f, l), Uses(s.b, f, l),
                   Uses(s.inc, f, l));
    ForIs(g, s, env, n, g1, h, g2, g3);
    ForLabels(s, f, l);
    KeptIs(g, s, env, l, p, EndLoop(g3, n), ki + kb + kc, Uses(s.init, f, l) || Uses(s.b, f, l) || Uses(s.inc, f, l));
  }

  lemma {:induction false} TurnGrows(g: Gen, n: nat, g1: Gen, h: Gen, g2: Gen, g3: Gen, l: Label, ki: nat, kb: nat,
                                     kc: nat, p0: nat, p1: nat, p2: nat, p3: nat, mi: bool, mb: bool,
                                     mc: bool) returns (p: nat)
    requires n == g.nlab + 1 && Grows(g.Labels(3), g1, l, p1, mi) && Placed(g.Labels(3), g1, l, ki, p1, false)
    requires Grows(g1, h, l, p0, l == Temp(n + 2)) && Own(g1, h, l, p0, l == Temp(n) || l == Temp(n + 1))
    requires Grows(h, g2, l, p2, mb) && Placed(h, g2, l, kb, p2, false)
    requires Grows(g2, g3, l, p3, mc) && Placed(g2, g3, l, kc, p3, false)
    requires (mi ==> Aims(g1.out, l)) && (mb ==> Aims(g2.out, l)) && (mc ==> Aims(g3.out, l))
    ensures Grows(g, EndLoop(g3, n), l, p, mi || mb || mc) && Placed(g, EndLoop(g3, n), l, ki + kb + kc, p, false)
            && (mi || mb || mc ==> Aims(EndLoop(g3, n).out, l))
  {
    Then(h, g2, g3, l, kb, kc, p2, p3, false, false, mb, mc);
    var p4 := JumpGrows(g3, Temp(n), n + 2, l);
    p := LoopGrows(g.Labels(3), g1, h, g3, EndLoop(g3, n), n, l, ki, kb + kc, p1, p0, p2 + p3, p4, mi, mb || mc);
    Settle(g, EndLoop(g3, n), 3, l, ki + kb + kc, p, Three(l, n), mi || mb || mc || Three(l, n), mi || mb || mc);
  }

  lemma {:induction false} DoIs(g: Gen, s: Stmt, env: Env, n: nat, g1: Gen, g2: Gen)
    requires s.DoWhile? && n == g.nlab + 1
    requires g1 == g.Labels(3).BrTo(Temp(n)).Lab(Temp(n))
    requires g2 == Emit(g1, s.b, env)
    ensures Emit(g, s, env) == EndDo(g2, s.c, n)
  {
  }

  lemma {:induction false} DoLabels(s: Stmt, f: Option<Label>, l: Label)
    requires s.DoWhile?
    ensures Places(s, l) == Places(s.b, l)
    ensures Uses(s, f, l) <==> Uses(s.b, f, l)
  {
  }

  lemma {:induction false} DoGrows(g: Gen, s: Stmt, env: Env, l: Label) returns (p: nat)
    requires s.DoWhile?
    ensures Kept(g, s, env, l, p)
    decreases s, 0
  {
    var n := g.nlab + 1;
    var g1 := g.Labels(3).BrTo(Temp(n)).Lab(Temp(n));
    var g2 := Emit(g1, s.b, env);
    var m, k := Uses(s.b, env.Local(), l), Places(s.b, l);
    var p1 := JumpGrows(g.Labels(3), Temp(n), n, l);
    var p2 := StmtGrows(g1, s.b, env, l);
    var p3 := EndDoGrows(g2, s.c, n, l);
    p := DoBodyGrows(g, n, g1, g2, EndDo(g2, s.c, n), l, k, p1, p2, p3, m);
    DoIs(g, s, env, n, g1, g2);
    DoLabels(s, env.Local(), l);
    KeptIs(g, s, env, l, p, EndDo(g2, s.c, n), k, m);
  }

  lemma {:induction false} DoBodyGrows(g: Gen, n: nat, g1: Gen, g2: Gen, g3: Gen, l: Label, k: nat, p1: nat, p2: nat,
                                       p3: nat, m: bool) returns (p: nat)
    requires n == g.nlab + 1
    requires Grows(g.Labels(3), g1, l, p1, l == Temp(n)) && Own(g.Labels(3), g1, l, p1, l == Temp(n))
    requires Grows(g1, g2, l, p2, m) && Placed(g1, g2, l, k, p2, false) && (m ==> Aims(g2.out, l))
    requires Grows(g2, g3, l, p3, Three(l, n)) && Own(g2, g3, l, p3, l == Temp(n + 1) || l == Temp(n + 2))
    ensures Grows(g, g3, l, p, m) && Placed(g, g3, l, k, p, false) && (m ==> Aims(g3.out, l))
  {
    var g0 := g.Labels(3);
    Then(g0, g1, g2, l, 0, k, p1, p2, l == Temp(n), false, l == Temp(n), m);
    p := p1 + p2 + p3;
    Then(g0, g2, g3, l, k, 0, p1 + p2, p3, l == Temp(n), l == Temp(n + 1) || l == Temp(n + 2), m || l == Temp(n),
         Three(l, n));
    Settle(g, g3, 3, l, k, p, Three(l, n), m || Three(l, n), m);
  }

  /** From the end of the body of a try on. */
  lemma {:induction false} CatchGrows(g0: Gen, g1: Gen, h: Gen, g2: Gen, g3: Gen, cl: nat, el: nat, l: Label, k1: nat,
                                      k2: nat, p1: nat, p2: nat, p3: nat, p4: nat, m1: bool, m2: bool,
                                      mf: bool) returns (p: nat)
    requires cl <= g0.nlab && el <= g0.nlab && cl != el
    requires Grows(g0, g1, l, p1, m1) && Placed(g0, g1, l, k1, p1, false)
    requires Grows(g1, h, l, p2, l == Temp(el)) && Own(g1, h, l, p2, l == Temp(cl))
    requires Grows(h, g2, l, p3, m2) && Placed(h, g2, l, k2, p3, false)
    requires Grows(g2, g3, l, p4, mf) && Own(g2, g3, l, p4, l == Temp(el))
    ensures Grows(g0, g3, l, p, m1 || m2 || l == Temp(el) || mf)
            && Placed(g0, g3, l, k1 + k2, p, l == Temp(cl) || l == Temp(el))
            && (Aims(g1.out, l) || Aims(g2.out, l) ==> Aims(g3.out, l))
  {
    Then(g0, g1, h, l, k1, 0, p1, p2, false, l == Temp(cl), m1, l == Temp(el));
    Then(g0, h, g2, l, k1, k2, p1 + p2, p3, l == Temp(cl), false, m1 || l == Temp(el), m2);
    p := p1 + p2 + p3 + p4;
    Then(g0, g2, g3, l, k1 + k2, 0, p1 + p2 + p3, p4, l == Temp(cl), l == Temp(el), m1 || m2 || l == Temp(el), mf);
  }

  /** Only what is thrown depends on the handler. */
  lemma {:induction false} UsesForce(s: Stmt, force: Option<Label>, l: Label)
    ensures Uses(s, None, l) ==> Uses(s, force, l)
    ensures Uses(s, force, l) ==> Uses(s, None, l) || force == Some(l)
    decreases s, 1
  {
    match s
    case Seq(ss) => ListForce(ss, force, l);
    case If(_, t) => UsesForce(t, force, l);
    case IfElse(_, t, e) => UsesForce(t, force, l); UsesForce(e, force, l);
    case While(_, b) => UsesForce(b, force, l);
    case DoWhile(b, _) => UsesForce(b, force, l);
    case For(i, _, inc, b) => UsesForce(i, force, l); UsesForce(b, force, l); UsesForce(inc, force, l);
    case TryNone(b) => UsesForce(b, force, l);
    case TryLocal(b, h) => UsesForce(h, force, l);
    case TryDynamic(b, h) => UsesForce(h, force, l);
    case _ =>
  }

  lemma {:induction false} ListForce(ss: seq<Stmt>, force: Option<Label>, l: Label)
    ensures ListUses(ss, None, l) ==> ListUses(ss, force, l)
    ensures ListUses(ss, force, l) ==> ListUses(ss, None, l) || force == Some(l)
    decreases ss, 0
  {
    if ss != [] {
      UsesForce(ss[0], force, l);
      ListForce(ss[1..], force, l);
    }
  }

  lemma {:induction false} LocalIs(g: Gen, s: Stmt, env: Env, n: nat, inner: Env, g1: Gen, h: Gen, g2: Gen)
    requires s.TryLocal? && n == g.nlab + 1
    requires inner == env.Under(Handler(false, Temp(n)))
    requires g1 == Emit(g.Labels(2), s.b, inner)
    requires h == Catch(g1, n, n + 1)
    requires g2 == Emit(h, s.h, env)
    ensures Emit(g, s, env) == EndCatch(g2, n + 1, env)
  {
  }

  lemma {:induction false} LocalLabels(s: Stmt, f: Option<Label>, l: Label)
    requires s.TryLocal?
    ensures Places(s, l) == Places(s.b, l) + Places(s.h, l)
    ensures Uses(s, f, l) <==> Uses(s.b, None, l) || Uses(s.h, f, l) || f == Some(l)
  {
  }

  lemma {:induction false} TryLocalGrows(g: Gen, s: Stmt, env: Env, l: Label) returns (p: nat)
    requires s.TryLocal?
    ensures Kept(g, s, env, l, p)
    decreases s, 0
  {
    var n, f := g.nlab + 1, env.Local();
    var inner := env.Under(Handler(false, Temp(n)));
    var g1 := Emit(g.Labels(2), s.b, inner);
    var h := Catch(g1, n, n + 1);
    var g2 := Emit(h, s.h, env);
    var p1 := StmtGrows(g.Labels(2), s.b, inner, l);
    var p2 := StmtGrows(h, s.h, env, l);
    p := LocalJoins(g, s, env, n, inner, g1, h, g2, l, p1, p2);
    LocalIs(g, s, env, n, inner, g1, h, g2);
    LocalLabels(s, f, l);
    KeptIs(g, s, env, l, p, EndCatch(g2, n + 1, env), Places(s.b, l) + Places(s.h, l),
           Uses(s.b, None, l) || Uses(s.h, f, l) || f == Some(l));
  }

  lemma {:induction false} LocalJoins(g: Gen, s: Stmt, env: Env, n: nat, inner: Env, g1: Gen, h: Gen, g2: Gen, l: Label,
                                      p1: nat, p2: nat) returns (p: nat)
    requires s.TryLocal? && n == g.nlab + 1 && h == Catch(g1, n, n + 1)
    requires inner == env.Under(Handler(false, Temp(n)))
    requires Grows(g.Labels(2), g1, l, p1, Uses(s.b, inner.Local(), l))
             && Placed(g.Labels(2), g1, l, Places(s.b, l), p1, false)
             && (Uses(s.b, inner.Local(), l) ==> Aims(g1.out, l))
    requires Grows(h, g2, l, p2, Uses(s.h, env.Local(), l)) && Placed(h, g2, l, Places(s.h, l), p2, false)
             && (Uses(s.h, env.Local(), l) ==> Aims(g2.out, l))
    ensures var r := EndCatch(g2, n + 1, env);
            var m := Uses(s.b, None, l) || Uses(s.h, env.Local(), l) || env.Local() == Some(l);
            Grows(g, r, l, p, m) && Placed(g, r, l, Places(s.b, l) + Places(s.h, l), p, false) && (m ==> Aims(r.out, l))
  {
    var m0, m1, m2, k1, k2 := Uses(s.b, None, l), Uses(s.b, inner.Local(), l), Uses(s.h, env.Local(), l),
                              Places(s.b, l), Places(s.h, l);
    assert inner.Local() == Some(Temp(n));
    UsesForce(s.b, Some(Temp(n)), l);
    var p3 := JumpGrows(g1, Temp(n + 1), n, l);
    var p4 := EndCatchGrows(g2, n + 1, env, l);
    p := LocalGrows(g, n, g1, h, g2, EndCatch(g2, n + 1, env), l, k1, k2, p1, p3, p2, p4, m0, m1, m2,
                    env.Local() == Some(l));
  }

  lemma {:induction false} LocalGrows(g: Gen, n: nat, g1: Gen, h: Gen, g2: Gen, g3: Gen, l: Label, k1: nat, k2: nat,
                                      p1: nat, p2: nat, p3: nat, p4: nat, m0: bool, m1: bool, m2: bool,
                                      mf: bool) returns (p: nat)
    requires n == g.nlab + 1 && Grows(g.Labels(2), g1, l, p1, m1) && Placed(g.Labels(2), g1, l, k1, p1, false)
    requires (m1 ==> Aims(g1.out, l)) && (m1 ==> m0 || l == Temp(n)) && (m0 ==> m1)
    requires Grows(g1, h, l, p2, l == Temp(n + 1)) && Own(g1, h, l, p2, l == Temp(n))
    requires Grows(h, g2, l, p3, m2) && Placed(h, g2, l, k2, p3, false) && (m2 ==> Aims(g2.out, l))
    requires Grows(g2, g3, l, p4, mf) && Own(g2, g3, l, p4, l == Temp(n + 1)) && (mf ==> Aims(g3.out, l))
    ensures Grows(g, g3, l, p, m0 || m2 || mf) && Placed(g, g3, l, k1 + k2, p, false)
            && (m0 || m2 || mf ==> Aims(g3.out, l))
  {
    p := CatchGrows(g.Labels(2), g1, h, g2, g3, n, n + 1, l, k1, k2, p1, p2, p3, p4, m1, m2, mf);
    Settle(g, g3, 2, l, k1 + k2, p, l == Temp(n) || l == Temp(n + 1), m1 || m2 || l == Temp(n + 1) || mf,
           m0 || m2 || mf);
  }

  lemma {:induction false} DynamicIs(g: Gen, s: Stmt, env: Env, m: nat, r: Gen, inner: Env, g1: Gen, h: Gen, g2: Gen)
    requires s.TryDynamic? && r == Setjmp(g)
    requires m == r.nlab - 2
    requires inner == env.Under(Handler(true, Temp(m + 1)))
    requires g1 == Emit(r, s.b, inner)
    requires h == Catch(g1.Put(Pop), m + 1, m + 2)
    requires g2 == Emit(h, s.h, env)
    ensures Emit(g, s, env) == EndCatch(g2, m + 2, env)
  {
  }

  lemma {:induction false} DynamicLabels(s: Stmt, f: Option<Label>, l: Label)
    requires s.TryDynamic?
    ensures Places(s, l) == Places(s.b, l) + Places(s.h, l)
    ensures Uses(s, f, l) <==> Uses(s.b, None, l) || Uses(s.h, f, l) || f == Some(l)
  {
  }

  lemma {:induction false} TryDynamicGrows(g: Gen, s: Stmt, env: Env, l: Label) returns (p: nat)
    requires s.TryDynamic?
    ensures Kept(g, s, env, l, p)
    decreases s, 0
  {
    var r, m, f := Setjmp(g), Setjmp(g).nlab - 2, env.Local();
    var inner := env.Under(Handler(true, Temp(m + 1)));
    var g1 := Emit(r, s.b, inner);
    var h := Catch(g1.Put(Pop), m + 1, m + 2);
    var g2 := Emit(h, s.h, env);
    var p1 := StmtGrows(r, s.b, inner, l);
    var p2 := StmtGrows(h, s.h, env, l);
    assert inner.Local() == None;
    p := DynamicJoins(g, r, m, env, g1, h, g2, l, Places(s.b, l), Places(s.h, l), p1, p2, Uses(s.b, None, l),
                      Uses(s.h, f, l));
    DynamicIs(g, s, env, m, r, inner, g1, h, g2);
    DynamicLabels(s, f, l);
    KeptIs(g, s, env, l, p, EndCatch(g2, m + 2, env), Places(s.b, l) + Places(s.h, l),
           Uses(s.b, None, l) || Uses(s.h, f, l) || f == Some(l));
  }

  lemma {:induction false} DynamicJoins(g: Gen, r: Gen, m: nat, env: Env, g1: Gen, h: Gen, g2: Gen, l: Label, k1: nat,
                                        k2: nat, p1: nat, p2: nat, m1: bool, m2: bool) returns (p: nat)
    requires r == Setjmp(g) && m == r.nlab - 2 && h == Catch(g1.Put(Pop), m + 1, m + 2)
    requires Grows(r, g1, l, p1, m1) && Placed(r, g1, l, k1, p1, false) && (m1 ==> Aims(g1.out, l))
    requires Grows(h, g2, l, p2, m2) && Placed(h, g2, l, k2, p2, false) && (m2 ==> Aims(g2.out, l))
    ensures var q, mf := EndCatch(g2, m + 2, env), env.Local() == Some(l);
            Grows(g, q, l, p, m1 || m2 || mf) && Placed(g, q, l, k1 + k2, p, false)
            && (m1 || m2 || mf ==> Aims(q.out, l))
  {
    var q := PopGrows(r, g1, l, k1, p1, m1);
    var p0, _ := SetjmpGrows(g, l);
    var p3 := JumpGrows(g1.Put(Pop), Temp(m + 2), m + 1, l);
    var p4 := EndCatchGrows(g2, m + 2, env, l);
    p := DynamicGrows(g, m, r, g1.Put(Pop), h, g2, EndCatch(g2, m + 2, env), l, k1, k2, p0, q, p3, p2, p4, m1, m2,
                      env.Local() == Some(l));
  }

  lemma {:induction false} DynamicGrows(g: Gen, m: nat, r: Gen, g1: Gen, h: Gen, g2: Gen, g3: Gen, l: Label, k1: nat,
                                        k2: nat, p0: nat, p1: nat, p2: nat, p3: nat, p4: nat, m1: bool, m2: bool,
                                        mf: bool) returns (p: nat)
    requires g.nlab < m && r.nlab == m + 2 && Grows(g, r, l, p0, l == Temp(m + 1))
    requires if l == Temp(m) then p0 == 1 else Made(g, r, l, p0) && (l.Temp? && l.n > m ==> p0 == 0)
    requires Grows(r, g1, l, p1, m1) && Placed(r, g1, l, k1, p1, false) && (m1 ==> Aims(g1.out, l))
    requires Grows(g1, h, l, p2, l == Temp(m + 2)) && Own(g1, h, l, p2, l == Temp(m + 1))
    requires Grows(h, g2, l, p3, m2) && Placed(h, g2, l, k2, p3, false) && (m2 ==> Aims(g2.out, l))
    requires Grows(g2, g3, l, p4, mf) && Own(g2, g3, l, p4, l == Temp(m + 2)) && (mf ==> Aims(g3.out, l))
    ensures Grows(g, g3, l, p, m1 || m2 || mf) && Placed(g, g3, l, k1 + k2, p, false)
            && (m1 || m2 || mf ==> Aims(g3.out, l))
  {
    p := CatchGrows(r, g1, h, g2, g3, m + 1, m + 2, l, k1, k2, p1, p2, p3, p4, m1, m2, mf);
    p := TrySettle(g, r, g3, m, l, k1 + k2, p0, p, m1 || m2 || mf);
  }

  /** The body of a try and the pop behind it. */
  lemma {:induction false} PopGrows(r: Gen, g1: Gen, l: Label, k: nat, p1: nat, m: bool) returns (p: nat)
    requires Grows(r, g1, l, p1, m) && Placed(r, g1, l, k, p1, false) && (m ==> Aims(g1.out, l))
    ensures Grows(r, g1.Put(Pop), l, p, m) && Placed(r, g1.Put(Pop), l, k, p, false)
            && (m ==> Aims(g1.Put(Pop).out, l))
  {
    var p2 := PutGrows(g1, Pop, l);
    Then(r, g1, g1.Put(Pop), l, k, 0, p1, p2, false, false, m, false);
    p := p1 + p2;
  }

  lemma {:induction false} TrySettle(g: Gen, r: Gen, q: Gen, m: nat, l: Label, k: nat, p1: nat, p2: nat, may: bool)
      returns (p: nat)
    requires g.nlab < m && r.nlab == m + 2 && Grows(g, r, l, p1, l == Temp(m + 1))
    requires if l == Temp(m) then p1 == 1 else Made(g, r, l, p1) && (l.Temp? && l.n > m ==> p1 == 0)
    requires Grows(r, q, l, p2, may || l == Temp(m + 2))
    requires Placed(r, q, l, k, p2, l == Temp(m + 1) || l == Temp(m + 2))
    ensures Grows(g, q, l, p, may) && Placed(g, q, l, k, p, false) && p == p1 + p2
  {
    p := p1 + p2;
    GrowsTrans(g, r, q, l, p1, p2, l == Temp(m + 1), may || l == Temp(m + 2));
  }

  // ----- whole functions -----

  /** A whole function: closed blocks; a label of the emitter is placed at most once, a named one
      as often as the body has it; branches go to gotos' labels and to labels placed. */
  lemma {:induction false} BodyBlocks(body: Stmt, retVoid: bool, l: Label)
    ensures var r := EmitBody(body, retVoid);
            && State(r.out) == Closed
            && (if l.Named? then Count(r.out, l) == Defs(body)[l.s] else Count(r.out, l) <= 1)
            && (Uses(body, None, l) ==> Aims(r.out, l))
            && (Aims(r.out, l) ==> Uses(body, None, l) || Count(r.out, l) > 0)
  {
    var env := Env([], 0, retVoid);
    var p := StmtGrows(ENTRY, body, env, l);
    assert env.Local() == None;
    BodyEnds(body, Emit(ENTRY, body, env), Ret(if retVoid then None else Some(Imm(0))), l, p);
  }

  lemma {:induction false} BodyEnds(body: Stmt, g: Gen, ret: Line, l: Label, p: nat)
    requires Grows(ENTRY, g, l, p, Uses(body, None, l)) && Placed(ENTRY, g, l, Places(body, l), p, false)
    requires Uses(body, None, l) ==> Aims(g.out, l)
    requires ret.Ret?
    ensures var r := if g.open then g.Write(ret) else g;
            && State(r.out) == Closed
            && (if l.Named? then Count(r.out, l) == Defs(body)[l.s] else Count(r.out, l) <= 1)
            && (Uses(body, None, l) ==> Aims(r.out, l))
            && (Aims(r.out, l) ==> Uses(body, None, l) || Count(r.out, l) > 0)
  {
    assert Count(ENTRY.out, l) == (if l == Temp(0) then 1 else 0) && !Aims(ENTRY.out, l) && Sound(ENTRY);
    if g.open { WriteGrows(g, ret, l); }
  }

  // ----- the lines in order -----

  /** How often a label is placed. */
  function Placings(code: seq<Line>, l: Label): nat {
    multiset(code)[Place(l)]
  }

  /** A branch goes to it. */
  predicate Targeted(code: seq<Line>, l: Label) {
    exists i | 0 <= i < |code| :: code[i].Targets(l)
  }

  lemma {:induction false} ListedFacts(out: Lines, l: Label)
    ensures After(Listed(out)) == State(out) && Placings(Listed(out), l) == Count(out, l)
    ensures Targeted(Listed(out), l) <==> Aims(out, l)
  {
    if out.Snoc? {
      ListedFacts(out.init, l);
      LastLine(Listed(out.init), out.x, l);
    }
  }

  lemma {:induction false} LastLine(a: seq<Line>, x: Line, l: Label)
    ensures After(a + [x]) == Next(After(a), x)
    ensures Placings(a + [x], l) == Placings(a, l) + if x == Place(l) then 1 else 0
    ensures Targeted(a + [x], l) <==> Targeted(a, l) || x.Targets(l)
  {
    var b := a + [x];
    assert b[..|b| - 1] == a && b[|a|] == x;
    if Targeted(a, l) {
      var i :| 0 <= i < |a| && a[i].Targets(l);
      assert b[i].Targets(l);
    }
  }

  /** A function with distinct labels and gotos to them: closed blocks only; exactly the named
      labels of the body, its gotos among the targets, no label twice, and every target once. */
  lemma {:induction false} FunctionBlocks(body: Stmt, retVoid: bool, l: Label)
    requires forall n: string :: Defs(body)[n] <= 1
    requires forall t | Uses(body, None, t) :: t.Named? && t.s in Defs(body)
    ensures var code := Listed(EmitBody(body, retVoid).out);
            && After(code) == Closed && Placings(code, l) <= 1
            && (l.Named? ==> Placings(code, l) == Defs(body)[l.s])
            && (Uses(body, None, l) ==> Targeted(code, l)) && (Targeted(code, l) ==> Placings(code, l) == 1)
  {
    BodyBlocks(body, retVoid, l);
    ListedFacts(EmitBody(body, retVoid).out, l);
  }
}
