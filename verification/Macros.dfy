/** src/lexpp.c: object macros.  A name is replaced by its body, and the body is scanned
    again; in it the macro's own name is frozen. */
module Macros {
  import opened Basics

  /** Name is an identifier; Other anything else, numbers among them. */
  datatype Tok = Name(s: string, frozen: bool) | Num(v: int) | Other(s: string)

  type Table = map<string, seq<Tok>>

  predicate Expandable(table: Table, t: Tok) {
    t.Name? && !t.frozen && t.s in table
  }

  /** Copy a body, freezing the macro's own name. */
  function Freeze(body: seq<Tok>, name: string): (r: seq<Tok>)
    ensures |r| == |body|
    ensures forall i | 0 <= i < |body| ::
      r[i] == if body[i].Name? && body[i].s == name then Name(name, true) else body[i]
  {
    seq(|body|, i requires 0 <= i < |body| => if body[i].Name? && body[i].s == name then Name(name, true) else body[i])
  }

  function Body(table: Table, t: Tok): seq<Tok>
    requires Expandable(table, t)
  {
    Freeze(table[t.s], t.s)
  }

  // ----- scanning -----

  datatype Scan = Scan(out: seq<Tok>, todo: seq<Tok>)

  function Step(table: Table, s: Scan): Scan
    requires s.todo != []
  {
    var t, rest := s.todo[0], s.todo[1..];
    if Expandable(table, t) then Scan(s.out, Body(table, t) + rest) else Scan(s.out + [t], rest)
  }

  function Steps(table: Table, n: nat, s: Scan): Scan {
    if n == 0 || s.todo == [] then s else Steps(table, n - 1, Step(table, s))
  }

  ghost predicate Ends(table: Table, toks: seq<Tok>) {
    exists n: nat :: Steps(table, n, Scan([], toks)).todo == []
  }

  // ----- full substitution -----

  /** Expansion of t nests at most d levels. */
  predicate Depth(table: Table, t: Tok, d: nat)
    decreases d, 0
  {
    Expandable(table, t) ==> d > 0 && DepthAll(table, Body(table, t), d - 1)
  }

  predicate DepthAll(table: Table, toks: seq<Tok>, d: nat)
    decreases d, 1
  {
    forall i | 0 <= i < |toks| :: Depth(table, toks[i], d)
  }

  /** Every name replaced by the substitution of its body, in order; frozen names stay. */
  function Subst(table: Table, t: Tok, d: nat): seq<Tok>
    requires Depth(table, t, d)
    decreases d, 0, 0
  {
    if Expandable(table, t) then SubstAll(table, Body(table, t), d - 1) else [t]
  }

  function SubstAll(table: Table, toks: seq<Tok>, d: nat): seq<Tok>
    requires DepthAll(table, toks, d)
    decreases d, 1, |toks|
  {
    if toks == [] then [] else
    assert forall i | 0 <= i < |toks[1..]| :: toks[1..][i] == toks[i + 1];
    Subst(table, toks[0], d) + SubstAll(table, toks[1..], d)
  }

  /** One for a token that stays; one more than its body for a name to expand. */
  function Weight(table: Table, t: Tok, d: nat): (w: nat)
    requires Depth(table, t, d)
    ensures w > 0
    decreases d, 0, 0
  {
    if Expandable(table, t) then 1 + WeightAll(table, Body(table, t), d - 1) else 1
  }

  function WeightAll(table: Table, toks: seq<Tok>, d: nat): nat
    requires DepthAll(table, toks, d)
    decreases d, 1, |toks|
  {
    if toks == [] then 0 else
    assert forall i | 0 <= i < |toks[1..]| :: toks[1..][i] == toks[i + 1];
    Weight(table, toks[0], d) + WeightAll(table, toks[1..], d)
  }

  // ----- what is replaced by what -----

  /** r is the body of macro x with the name x itself frozen. */
  predicate Inside(table: Table, x: string, r: seq<Tok>) {
    && x in table && |r| == |table[x]|
    && forall i | 0 <= i < |r| ::
         if table[x][i].Name? && table[x][i].s == x then r[i] == Name(x, true) else r[i] == table[x][i]
  }

  lemma {:induction false} OneToken(table: Table, t: Tok, d: nat)
    requires Depth(table, t, d)
    ensures DepthAll(table, [t], d) && SubstAll(table, [t], d) == Subst(table, t, d)
  {
    assert SubstAll(table, [t][1..], d) == [];
  }

  /** A name of the table becomes what its body becomes, one level less deep. */
  lemma NameReplaced(table: Table, x: string, r: seq<Tok>, d: nat)
    requires Inside(table, x, r) && Depth(table, Name(x, false), d)
    ensures d > 0 && DepthAll(table, r, d - 1) && DepthAll(table, [Name(x, false)], d)
            && SubstAll(table, [Name(x, false)], d) == SubstAll(table, r, d - 1)
  {
    assert r == Body(table, Name(x, false));
    OneToken(table, Name(x, false), d);
  }

  /** Anything else stays: a frozen name, a name that is no macro, and what is no name. */
  lemma OtherStays(table: Table, t: Tok, d: nat)
    requires t.Name? ==> t.frozen || t.s !in table
    ensures DepthAll(table, [t], d) && SubstAll(table, [t], d) == [t]
  {
    OneToken(table, t, d);
  }

  /** A macro whose body has no name of the table but its own ends, with its body and its own name
      frozen, whatever it is called and however often it names itself. */
  lemma SelfNamed(table: Table, x: string, r: seq<Tok>)
    requires Inside(table, x, r) && forall i | 0 <= i < |r| && r[i].Name? :: r[i].s == x || r[i].s !in table
    ensures DepthAll(table, [Name(x, false)], 1) && SubstAll(table, [Name(x, false)], 1) == r
    ensures Steps(table, 1 + |r|, Scan([], [Name(x, false)])) == Scan(r, [])
  {
    assert r == Body(table, Name(x, false));
    assert forall i | 0 <= i < |r| :: Depth(table, r[i], 0);
    StayAll(table, r);
    NameReplaced(table, x, r, 1);
    OneToken(table, Name(x, false), 1);
    ScanIsSubst(table, Scan([], [Name(x, false)]), 1);
    assert WeightAll(table, [Name(x, false)][1..], 1) == 0;
  }

  lemma {:induction false} StayAll(table: Table, toks: seq<Tok>)
    requires forall i | 0 <= i < |toks| :: !Expandable(table, toks[i])
    ensures DepthAll(table, toks, 0) && SubstAll(table, toks, 0) == toks && WeightAll(table, toks, 0) == |toks|
    decreases |toks|
  {
    if toks != [] {
      assert forall i | 0 <= i < |toks| :: Depth(table, toks[i], 0);
      StayAll(table, toks[1..]);
      assert toks == [toks[0]] + toks[1..];
    }
  }

  // ----- depth is no more than needed -----

  lemma {:induction false} Deeper(table: Table, t: Tok, d: nat, e: nat)
    requires Depth(table, t, d) && d <= e
    ensures Depth(table, t, e) && Subst(table, t, e) == Subst(table, t, d) && Weight(table, t, e) == Weight(table, t, d)
    decreases d, 0, 0
  {
    if Expandable(table, t) { DeeperAll(table, Body(table, t), d - 1, e - 1); }
  }

  lemma {:induction false} DeeperAll(table: Table, toks: seq<Tok>, d: nat, e: nat)
    requires DepthAll(table, toks, d) && d <= e
    ensures DepthAll(table, toks, e) && SubstAll(table, toks, e) == SubstAll(table, toks, d)
    ensures WeightAll(table, toks, e) == WeightAll(table, toks, d)
    decreases d, 1, |toks|
  {
    forall i | 0 <= i < |toks| ensures Depth(table, toks[i], e) { Deeper(table, toks[i], d, e); }
    if toks != [] {
      Deeper(table, toks[0], d, e);
      DeeperAll(table, toks[1..], d, e);
    }
  }

  lemma {:induction false} Append(table: Table, a: seq<Tok>, b: seq<Tok>, d: nat)
    requires DepthAll(table, a, d) && DepthAll(table, b, d)
    ensures DepthAll(table, a + b, d) && SubstAll(table, a + b, d) == SubstAll(table, a, d) + SubstAll(table, b, d)
    ensures WeightAll(table, a + b, d) == WeightAll(table, a, d) + WeightAll(table, b, d)
    decreases |a|
  {
    if a == [] {
      assert a + b == b;
    } else {
      assert (a + b)[1..] == a[1..] + b;
      Append(table, a[1..], b, d);
    }
  }

  /** One step keeps the meaning of the list and takes one from its weight. */
  lemma StepKeeps(table: Table, s: Scan, d: nat)
    requires s.todo != [] && DepthAll(table, s.todo, d)
    ensures var s1 := Step(table, s);
            && DepthAll(table, s1.todo, d) && WeightAll(table, s1.todo, d) == WeightAll(table, s.todo, d) - 1
            && s1.out + SubstAll(table, s1.todo, d) == s.out + SubstAll(table, s.todo, d)
  {
    var t, rest := s.todo[0], s.todo[1..];
    if Expandable(table, t) {
      assert Depth(table, t, d);
      DeeperAll(table, Body(table, t), d - 1, d);
      Append(table, Body(table, t), rest, d);
    }
  }

  /** Scanning ends after exactly as many steps as the weight, with the substitution. */
  lemma {:induction false} ScanIsSubst(table: Table, s: Scan, d: nat)
    requires DepthAll(table, s.todo, d)
    ensures Steps(table, WeightAll(table, s.todo, d), s) == Scan(s.out + SubstAll(table, s.todo, d), [])
    decreases WeightAll(table, s.todo, d)
  {
    if s.todo != [] {
      StepKeeps(table, s, d);
      ScanIsSubst(table, Step(table, s), d);
    } else {
      assert s.out + [] == s.out;
    }
  }

  /** A list scanned in n steps has no token that nests deeper. */
  lemma {:induction false} EndsBounded(table: Table, s: Scan, n: nat)
    requires Steps(table, n, s).todo == []
    ensures DepthAll(table, s.todo, n)
    decreases n
  {
    if s.todo != [] {
      var t, s1 := s.todo[0], Step(table, s);
      EndsBounded(table, s1, n - 1);
      DeeperAll(table, s1.todo, n - 1, n);
      if Expandable(table, t) {
        assert forall i | 0 <= i < |Body(table, t)| :: s1.todo[i] == Body(table, t)[i];
        assert forall i | 0 < i < |s.todo| :: s1.todo[|Body(table, t)| + i - 1] == s.todo[i];
        assert DepthAll(table, Body(table, t), n - 1);
      } else {
        assert forall i | 0 < i < |s.todo| :: s1.todo[i - 1] == s.todo[i];
      }
    }
  }

  // ----- no deeper than there are macros -----

  /** A name that nests exactly d levels comes with d names, each of fewer. */
  lemma {:induction false} Tower(table: Table, t: Tok, d: nat) returns (names: set<string>)
    requires Depth(table, t, d) && (d > 0 ==> !Depth(table, t, d - 1))
    ensures |names| == d && names <= table.Keys && forall x | x in names :: Depth(table, Name(x, false), d)
    decreases d
  {
    if d == 0 { return {}; }
    if d == 1 {
      names := {t.s};
    } else {
      var i :| 0 <= i < |Body(table, t)| && !Depth(table, Body(table, t)[i], d - 2);
      var inner := Tower(table, Body(table, t)[i], d - 1);
      assert t == Name(t.s, false) && t.s !in inner;
      names := inner + {t.s};
      forall x | x in names ensures Depth(table, Name(x, false), d) {
        if x in inner { Deeper(table, Name(x, false), d - 1, d); }
      }
    }
  }

  lemma {:induction false} DepthBound(table: Table, t: Tok, d: nat)
    requires Depth(table, t, d)
    ensures Depth(table, t, |table|)
    decreases d
  {
    if d > 0 && Depth(table, t, d - 1) {
      DepthBound(table, t, d - 1);
    } else {
      var names := Tower(table, t, d);
      Fewer(names, table.Keys);
      Deeper(table, t, d, |table|);
    }
  }

  lemma {:induction false} Fewer(a: set<string>, b: set<string>)
    requires a <= b
    ensures |a| <= |b|
  {
    assert b == a + (b - a);
  }

  /** Scanning ends exactly when expansion nests at most as deep as there are macros,
      that is, when no macro reaches itself other than directly. */
  lemma EndsIff(table: Table, toks: seq<Tok>)
    ensures Ends(table, toks) <==> DepthAll(table, toks, |table|)
  {
    var s := Scan([], toks);
    if Ends(table, toks) {
      var n: nat :| Steps(table, n, s).todo == [];
      EndsBounded(table, s, n);
      forall i | 0 <= i < |toks| ensures Depth(table, toks[i], |table|) { DepthBound(table, toks[i], n); }
    }
    if DepthAll(table, toks, |table|) { ScanIsSubst(table, s, |table|); }
  }

  // ----- cycles -----

  /** Macros that each mention another of them. */
  ghost predicate Trap(table: Table, names: set<string>) {
    forall x {:trigger Leads(table, x, names)} | x in names :: Leads(table, x, names)
  }

  predicate Leads(table: Table, x: string, names: set<string>) {
    x in table && Mentions(Body(table, Name(x, false)), names)
  }

  predicate Mentions(body: seq<Tok>, names: set<string>) {
    exists i :: 0 <= i < |body| && Caught(body[i], names)
  }

  predicate Caught(u: Tok, names: set<string>) {
    u.Name? && !u.frozen && u.s in names
  }

  lemma {:induction false} TrapHolds(table: Table, names: set<string>, u: Tok, d: nat)
    requires Trap(table, names) && Caught(u, names)
    ensures !Depth(table, u, d)
    decreases d
  {
    assert u == Name(u.s, false) && Leads(table, u.s, names);
    if d > 0 {
      var body := Body(table, u);
      var i :| 0 <= i < |body| && Caught(body[i], names);
      TrapHolds(table, names, body[i], d - 1);
    }
  }

  /** The macros whose expansion has no bounded depth form a trap. */
  lemma UnboundedTrap(table: Table)
    ensures Trap(table, set x | x in table && !Depth(table, Name(x, false), |table|))
  {
    var names := set x | x in table && !Depth(table, Name(x, false), |table|);
    forall x | x in names ensures Leads(table, x, names) {
      var t := Name(x, false);
      if forall i | 0 <= i < |Body(table, t)| :: Depth(table, Body(table, t)[i], |table|) {
        assert Depth(table, t, |table| + 1);
        DepthBound(table, t, |table| + 1);
        assert false;
      } else {
        var i :| 0 <= i < |Body(table, t)| && !Depth(table, Body(table, t)[i], |table|);
        var u := Body(table, t)[i];
        assert u == Name(u.s, false) && Caught(u, names);
      }
    }
  }

  /** Scanning runs on for ever exactly when a token is caught in a cycle of macros. */
  lemma RunsOnIff(table: Table, toks: seq<Tok>)
    ensures !Ends(table, toks) <==> exists names :: Trap(table, names) && Mentions(toks, names)
  {
    EndsIff(table, toks);
    if !Ends(table, toks) {
      var i :| 0 <= i < |toks| && !Depth(table, toks[i], |table|);
      UnboundedTrap(table);
      var names := set x | x in table && !Depth(table, Name(x, false), |table|);
      assert toks[i] == Name(toks[i].s, false) && Caught(toks[i], names);
    }
    if names :| Trap(table, names) && Mentions(toks, names) {
      var i :| 0 <= i < |toks| && Caught(toks[i], names);
      TrapHolds(table, names, toks[i], |table|);
    }
  }

  /** #define A B, #define B A. */
  const CYCLE: Table := map["A" := [Name("B", false)], "B" := [Name("A", false)]]

  lemma CycleRunsOn()
    ensures !Ends(CYCLE, [Name("A", false)])
  {
    var names := {"A", "B"};
    assert Body(CYCLE, Name("A", false))[0] == Name("B", false) && Body(CYCLE, Name("B", false))[0] == Name("A", false);
    assert Caught(Name("A", false), names) && Caught(Name("B", false), names);
    assert Leads(CYCLE, "A", names) && Leads(CYCLE, "B", names);
    assert Trap(CYCLE, names);
    assert [Name("A", false)][0] == Name("A", false);
    assert Mentions([Name("A", false)], names);
    RunsOnIff(CYCLE, [Name("A", false)]);
  }

  // ----- the loops -----

  /** The macro part of the main loop: an expansion is put back in front of the rest. */
  method ExpandLine(table: Table, toks: seq<Tok>) returns (out: seq<Tok>)
    requires DepthAll(table, toks, |table|)
    ensures out == SubstAll(table, toks, |table|)
  {
    var rest := toks;
    out := [];
    ghost var d := |table|;
    while rest != []
      invariant DepthAll(table, rest, d) && out + SubstAll(table, rest, d) == SubstAll(table, toks, d)
      decreases if DepthAll(table, rest, d) then WeightAll(table, rest, d) else 0
    {
      StepKeeps(table, Scan(out, rest), d);
      if Expandable(table, rest[0]) {
        rest := Body(table, rest[0]) + rest[1..];
      } else {
        out := out + [rest[0]];
        rest := rest[1..];
      }
    }
  }

  // ----- defined X, in the line of #if -----

  predicate IsDefined(t: Tok) {
    t == Name("defined", false)
  }

  /** The tokens `defined X` or `defined(X)` takes, if they are there. */
  function Operand(toks: seq<Tok>): (r: Option<(string, nat)>)
    requires toks != []
    ensures r.Some? ==> 2 <= r.value.1 <= |toks|
  {
    if |toks| > 1 && toks[1] == Other("(") then
      if |toks| > 3 && toks[2].Name? && toks[3] == Other(")") then Some((toks[2].s, 4)) else None
    else if |toks| > 1 && toks[1].Name? then Some((toks[1].s, 2))
    else None
  }

  /** The line so far and what is left of it, or an error. */
  datatype Line = Line(out: seq<Tok>, todo: seq<Tok>) | Failed

  predicate Finished(s: Line) {
    s.Failed? || s.todo == []
  }

  /** One turn of pp_expand: the operand of `defined` is never expanded. */
  function LineStep(table: Table, s: Line): Line
    requires !Finished(s)
  {
    var t, rest := s.todo[0], s.todo[1..];
    if IsDefined(t) then
      var x := Operand(s.todo);
      if x.None? then Failed else Line(s.out + [Answer(table, x.value.0)], s.todo[x.value.1..])
    else if Expandable(table, t) then Line(s.out, Body(table, t) + rest)
    else Line(s.out + [t], rest)
  }

  function Answer(table: Table, name: string): Tok {
    Num(if name in table then 1 else 0)
  }

  function LineSteps(table: Table, n: nat, s: Line): Line {
    if n == 0 || Finished(s) then s else LineSteps(table, n - 1, LineStep(table, s))
  }

  lemma {:induction false} StepsAdd(table: Table, m: nat, n: nat, s: Line)
    ensures LineSteps(table, m + n, s) == LineSteps(table, n, LineSteps(table, m, s))
    decreases m
  {
    if m > 0 && !Finished(s) { StepsAdd(table, m - 1, n, LineStep(table, s)); }
  }

  /** Whatever the bodies ask, a line whose names nest to a bounded depth ends. */
  lemma {:induction false} BoundedLineEnds(table: Table, s: Line, d: nat)
    requires s.Line? && DepthAll(table, s.todo, d)
    ensures Finished(LineSteps(table, WeightAll(table, s.todo, d), s))
    decreases WeightAll(table, s.todo, d)
  {
    if s.todo != [] {
      var s1 := LineStep(table, s);
      var t := s.todo[0];
      if IsDefined(t) {
        var x := Operand(s.todo);
        if x.Some? {
          Consumed(table, s.todo, x.value.1, d);
          BoundedLineEnds(table, s1, d);
          More(table, WeightAll(table, s1.todo, d), WeightAll(table, s.todo, d) - 1, s1);
        }
      } else {
        StepKeeps(table, Scan(s.out, s.todo), d);
        BoundedLineEnds(table, s1, d);
      }
    }
  }

  lemma {:induction false} Consumed(table: Table, toks: seq<Tok>, n: nat, d: nat)
    requires n <= |toks| && DepthAll(table, toks, d)
    ensures DepthAll(table, toks[n..], d) && WeightAll(table, toks[n..], d) + n <= WeightAll(table, toks, d)
    decreases n
  {
    if n > 0 {
      assert forall i | 0 <= i < |toks[1..]| :: toks[1..][i] == toks[i + 1];
      Consumed(table, toks[1..], n - 1, d);
      assert toks[1..][n - 1..] == toks[n..];
    } else {
      assert toks[0..] == toks;
    }
  }

  lemma More(table: Table, m: nat, n: nat, s: Line)
    requires m <= n && Finished(LineSteps(table, m, s))
    ensures LineSteps(table, n, s) == LineSteps(table, m, s)
  {
    StepsAdd(table, m, n - m, s);
  }

  // ----- the meaning of a line -----

  /** A question that what follows could still complete. */
  predicate Open(toks: seq<Tok>)
    requires toks != []
  {
    || |toks| == 1
    || (toks[1] == Other("(") && (|toks| == 2 || (|toks| == 3 && toks[2].Name?)))
  }

  /** Every question of the body ends inside it, or is wrong whatever follows. */
  predicate Whole(toks: seq<Tok>) {
    toks == [] ||
    if IsDefined(toks[0]) then !Open(toks) && (Operand(toks).Some? ==> Whole(toks[Operand(toks).value.1..]))
    else Whole(toks[1..])
  }

  ghost predicate WholeBodies(table: Table) {
    forall t | Expandable(table, t) && !IsDefined(t) :: Whole(Body(table, t))
  }

  /** Every name that is no operand of a `defined` expands to a depth of at most d; what
      stands behind an error does not count. */
  predicate Settled(table: Table, toks: seq<Tok>, d: nat)
    decreases d, |toks|, 0
  {
    toks == [] ||
    if IsDefined(toks[0]) then Operand(toks).Some? ==> Settled(table, toks[Operand(toks).value.1..], d)
    else if Expandable(table, toks[0]) then
      && d > 0 && Settled(table, Body(table, toks[0]), d - 1)
      && (Resolve(table, Body(table, toks[0]), d - 1).Some? ==> Settled(table, toks[1..], d))
    else Settled(table, toks[1..], d)
  }

  /** Questions answered by the table, other names replaced by the meaning of their bodies,
      in order; None on an error. */
  function Resolve(table: Table, toks: seq<Tok>, d: nat): Option<seq<Tok>>
    requires Settled(table, toks, d)
    decreases d, |toks|, 1
  {
    if toks == [] then Some([])
    else if IsDefined(toks[0]) then
      var x := Operand(toks);
      if x.None? then None else Before([Answer(table, x.value.0)], Resolve(table, toks[x.value.1..], d))
    else if Expandable(table, toks[0]) then
      var r := Resolve(table, Body(table, toks[0]), d - 1);
      if r.None? then None else Before(r.value, Resolve(table, toks[1..], d))
    else Before([toks[0]], Resolve(table, toks[1..], d))
  }

  function Before(a: seq<Tok>, r: Option<seq<Tok>>): Option<seq<Tok>> {
    if r.Some? then Some(a + r.value) else None
  }

  function Effort(table: Table, toks: seq<Tok>, d: nat): nat
    requires Settled(table, toks, d)
    decreases d, |toks|
  {
    if toks == [] then 0
    else if IsDefined(toks[0]) then
      var x := Operand(toks);
      1 + if x.None? then 0 else Effort(table, toks[x.value.1..], d)
    else if Expandable(table, toks[0]) then
      var body := Body(table, toks[0]);
      1 + Effort(table, body, d - 1) + if Resolve(table, body, d - 1).None? then 0 else Effort(table, toks[1..], d)
    else 1 + Effort(table, toks[1..], d)
  }

  /** What is left after the tokens a, whose meaning is r. */
  function After(out: seq<Tok>, r: Option<seq<Tok>>, b: seq<Tok>): Line {
    if r.None? then Failed else Line(out + r.value, b)
  }

  lemma AfterBefore(out: seq<Tok>, a: seq<Tok>, r: Option<seq<Tok>>, b: seq<Tok>)
    ensures After(out + a, r, b) == After(out, Before(a, r), b)
  {
    if r.Some? { assert out + a + r.value == out + (a + r.value); }
  }

  /** With whole bodies the scan of a in front of b gives the meaning of a, and goes on
      with b. */
  lemma {:induction false} ScanResolves(table: Table, a: seq<Tok>, b: seq<Tok>, out: seq<Tok>, d: nat)
    requires WholeBodies(table) && Settled(table, a, d) && (b == [] || Whole(a))
    ensures LineSteps(table, Effort(table, a, d), Line(out, a + b)) == After(out, Resolve(table, a, d), b)
    decreases d, |a|
  {
    var s := Line(out, a + b);
    if a == [] {
      assert a + b == b && out + [] == out;
    } else if IsDefined(a[0]) {
      ScanQuestion(table, a, b, out, d);
    } else {
      assert (a + b)[1..] == a[1..] + b;
      if Expandable(table, a[0]) {
        ScanName(table, a, b, out, d);
      } else {
        ScanResolves(table, a[1..], b, out + [a[0]], d);
        AfterBefore(out, [a[0]], Resolve(table, a[1..], d), b);
      }
    }
  }

  lemma {:induction false} ScanQuestion(table: Table, a: seq<Tok>, b: seq<Tok>, out: seq<Tok>, d: nat)
    requires WholeBodies(table) && Settled(table, a, d) && (b == [] || Whole(a)) && a != [] && IsDefined(a[0])
    ensures LineSteps(table, Effort(table, a, d), Line(out, a + b)) == After(out, Resolve(table, a, d), b)
    decreases d, |a|, 0
  {
    if b == [] { assert a + b == a; }
    var x := Operand(a);
    assert Operand(a + b) == x;
    if x.Some? {
      var n := x.value.1;
      assert (a + b)[n..] == a[n..] + b;
      var answer := Answer(table, x.value.0);
      ScanResolves(table, a[n..], b, out + [answer], d);
      AfterBefore(out, [answer], Resolve(table, a[n..], d), b);
    }
  }

  lemma {:induction false} ScanName(table: Table, a: seq<Tok>, b: seq<Tok>, out: seq<Tok>, d: nat)
    requires WholeBodies(table) && Settled(table, a, d) && (b == [] || Whole(a))
    requires a != [] && !IsDefined(a[0]) && Expandable(table, a[0])
    ensures LineSteps(table, Effort(table, a, d), Line(out, a + b)) == After(out, Resolve(table, a, d), b)
    decreases d, |a|, 0
  {
    var body, rest := Body(table, a[0]), a[1..] + b;
    assert (a + b)[1..] == rest;
    var r := Resolve(table, body, d - 1);
    ScanResolves(table, body, rest, out, d - 1);
    if r.Some? {
      StepsAdd(table, Effort(table, body, d - 1), Effort(table, a[1..], d), Line(out, body + rest));
      ScanResolves(table, a[1..], b, out + r.value, d);
      AfterBefore(out, r.value, Resolve(table, a[1..], d), b);
    }
  }

  /** Without questions it is the full substitution. */
  lemma {:induction false} ResolveIsSubst(table: Table, toks: seq<Tok>, d: nat)
    requires (forall t | Expandable(table, t) :: NoQuestion(Body(table, t))) && NoQuestion(toks)
             && DepthAll(table, toks, d)
    ensures Settled(table, toks, d) && Resolve(table, toks, d) == Some(SubstAll(table, toks, d))
    decreases d, |toks|
  {
    if toks != [] {
      assert forall i | 0 <= i < |toks[1..]| :: toks[1..][i] == toks[i + 1];
      if Expandable(table, toks[0]) { ResolveIsSubst(table, Body(table, toks[0]), d - 1); }
      ResolveIsSubst(table, toks[1..], d);
    }
  }

  predicate NoQuestion(toks: seq<Tok>) {
    forall i | 0 <= i < |toks| :: !IsDefined(toks[i])
  }

  /** For every table with whole bodies: questions are answered unexpanded wherever they
      stand, and the rest is substituted. */
  lemma LineMeaning(table: Table, toks: seq<Tok>, d: nat)
    requires WholeBodies(table) && Settled(table, toks, d)
    ensures LineSteps(table, Effort(table, toks, d), Line([], toks)) == After([], Resolve(table, toks, d), [])
  {
    assert toks + [] == toks;
    ScanResolves(table, toks, [], [], d);
  }

  // ----- what a question answers -----

  /** `defined x` and `defined(x)`. */
  function Question(x: Tok, paren: bool): seq<Tok> {
    if paren then [Name("defined", false), Other("("), x, Other(")")] else [Name("defined", false), x]
  }

  /** 1 for a macro, 0 for another name; the tokens of the question are used up. */
  lemma QuestionStep(table: Table, out: seq<Tok>, x: Tok, paren: bool, post: seq<Tok>)
    requires x.Name?
    ensures LineStep(table, Line(out, Question(x, paren) + post))
            == if x.s in table then Line(out + [Num(1)], post) else Line(out + [Num(0)], post)
  {
    var q := Question(x, paren);
    assert (q + post)[|q|..] == post;
  }

  /** Any other tokens behind a `defined` are an error. */
  lemma NoQuestionStep(table: Table, out: seq<Tok>, toks: seq<Tok>)
    requires toks != [] && toks[0] == Name("defined", false)
    requires forall x: Tok, paren: bool | x.Name? :: !(Question(x, paren) <= toks)
    ensures LineStep(table, Line(out, toks)) == Failed
  {
    if |toks| > 1 { assert !(Question(toks[1], false) <= toks) || !toks[1].Name?; }
    if |toks| > 3 { assert !(Question(toks[2], true) <= toks) || !toks[2].Name?; }
  }

  /** At any place of a line, behind tokens that have a meaning of their own. */
  lemma QuestionAnywhere(table: Table, pre: seq<Tok>, x: Tok, paren: bool, post: seq<Tok>, d: nat)
    requires WholeBodies(table) && Whole(pre) && Settled(table, pre, d) && Resolve(table, pre, d).Some? && x.Name?
    ensures LineSteps(table, Effort(table, pre, d) + 1, Line([], pre + (Question(x, paren) + post)))
            == Line(Resolve(table, pre, d).value + [Num(if x.s in table then 1 else 0)], post)
  {
    var b, r := Question(x, paren) + post, Resolve(table, pre, d).value;
    ScanResolves(table, pre, b, [], d);
    StepsAdd(table, Effort(table, pre, d), 1, Line([], pre + b));
    assert [] + r == r;
    QuestionStep(table, r, x, paren, post);
    OneStep(table, Line(r, b));
  }

  lemma OneStep(table: Table, s: Line)
    requires !Finished(s)
    ensures LineSteps(table, 1, s) == LineStep(table, s)
  {
  }

  /** A line that is one question. */
  lemma QuestionLine(table: Table, x: Tok, paren: bool, n: nat)
    requires x.Name? && n > 0
    ensures LineSteps(table, n, Line([], Question(x, paren))) == Line([Num(if x.s in table then 1 else 0)], [])
  {
    assert Question(x, paren) + [] == Question(x, paren);
    QuestionStep(table, [], x, paren, []);
  }

  // ----- exactly the lines that end -----

  /** More depth changes nothing. */
  lemma {:induction false} SettledDeeper(table: Table, toks: seq<Tok>, d: nat, e: nat)
    requires Settled(table, toks, d) && d <= e
    ensures Settled(table, toks, e) && Resolve(table, toks, e) == Resolve(table, toks, d)
    decreases d, |toks|
  {
    if toks != [] {
      if IsDefined(toks[0]) {
        var x := Operand(toks);
        if x.Some? { SettledDeeper(table, toks[x.value.1..], d, e); }
      } else if Expandable(table, toks[0]) {
        SettledDeeper(table, Body(table, toks[0]), d - 1, e - 1);
        if Resolve(table, Body(table, toks[0]), d - 1).Some? { SettledDeeper(table, toks[1..], d, e); }
      } else {
        SettledDeeper(table, toks[1..], d, e);
      }
    }
  }

  /** What is scanned in n steps nests at most n levels. */
  lemma {:induction false} FinishedSettled(table: Table, a: seq<Tok>, b: seq<Tok>, out: seq<Tok>, n: nat)
    requires WholeBodies(table) && (b == [] || Whole(a)) && Finished(LineSteps(table, n, Line(out, a + b)))
    ensures Settled(table, a, n)
    decreases n, 0
  {
    if a != [] {
      if b == [] { assert a + b == a; }
      assert (a + b)[1..] == a[1..] + b;
      if IsDefined(a[0]) {
        FinishedQuestion(table, a, b, out, n);
      } else if Expandable(table, a[0]) {
        FinishedSettled(table, Body(table, a[0]), a[1..] + b, out, n - 1);
        FinishedRest(table, Body(table, a[0]), a[1..], b, out, n - 1);
      } else {
        FinishedSettled(table, a[1..], b, out + [a[0]], n - 1);
        SettledDeeper(table, a[1..], n - 1, n);
      }
    }
  }

  lemma {:induction false} FinishedQuestion(table: Table, a: seq<Tok>, b: seq<Tok>, out: seq<Tok>, n: nat)
    requires WholeBodies(table) && (b == [] || Whole(a)) && Finished(LineSteps(table, n, Line(out, a + b)))
    requires n > 0 && a != [] && IsDefined(a[0])
    ensures Settled(table, a, n)
    decreases n - 1, 1
  {
    if b == [] { assert a + b == a; }
    var x := Operand(a);
    assert Operand(a + b) == x;
    if x.Some? {
      assert (a + b)[x.value.1..] == a[x.value.1..] + b;
      FinishedSettled(table, a[x.value.1..], b, out + [Answer(table, x.value.0)], n - 1);
      SettledDeeper(table, a[x.value.1..], n - 1, n);
    }
  }

  /** Behind a body without error the rest is scanned in the steps that remain. */
  lemma {:induction false} FinishedRest(table: Table, body: seq<Tok>, a: seq<Tok>, b: seq<Tok>, out: seq<Tok>, n: nat)
    requires WholeBodies(table) && Whole(body) && Settled(table, body, n) && (b == [] || Whole(a))
    requires Finished(LineSteps(table, n, Line(out, body + (a + b))))
    ensures Resolve(table, body, n).Some? ==> Settled(table, a, n + 1)
    decreases n, 1
  {
    var m, r, s := Effort(table, body, n), Resolve(table, body, n), Line(out, body + (a + b));
    ScanResolves(table, body, a + b, out, n);
    if r.Some? {
      if m <= n {
        StepsAdd(table, m, n - m, s);
        FinishedSettled(table, a, b, out + r.value, n - m);
        SettledDeeper(table, a, n - m, n + 1);
      } else {
        More(table, n, m, s);
      }
    }
  }

  /** A name that makes d levels necessary. */
  lemma {:induction false} Deepest(table: Table, toks: seq<Tok>, d: nat) returns (t: Tok)
    requires d > 0 && Settled(table, toks, d) && !Settled(table, toks, d - 1)
    ensures Expandable(table, t) && Settled(table, Body(table, t), d - 1)
    ensures d > 1 ==> !Settled(table, Body(table, t), d - 2)
    decreases |toks|
  {
    if IsDefined(toks[0]) {
      t := Deepest(table, toks[Operand(toks).value.1..], d);
    } else if Expandable(table, toks[0]) && (d == 1 || !Settled(table, Body(table, toks[0]), d - 2)) {
      t := toks[0];
    } else {
      if Expandable(table, toks[0]) { SettledDeeper(table, Body(table, toks[0]), d - 2, d - 1); }
      t := Deepest(table, toks[1..], d);
    }
  }

  /** It comes with d names, the bodies of which settle in fewer. */
  lemma {:induction false} SettledTower(table: Table, toks: seq<Tok>, d: nat) returns (names: set<string>)
    requires Settled(table, toks, d) && (d > 0 ==> !Settled(table, toks, d - 1))
    ensures |names| == d && names <= table.Keys
    ensures forall x | x in names :: d > 0 && Settled(table, Body(table, Name(x, false)), d - 1)
    decreases d
  {
    names := {};
    if d > 0 {
      var t := Deepest(table, toks, d);
      var inner := SettledTower(table, Body(table, t), d - 1);
      assert t == Name(t.s, false) && t.s !in inner;
      names := inner + {t.s};
      forall x | x in names ensures Settled(table, Body(table, Name(x, false)), d - 1) {
        if x in inner { SettledDeeper(table, Body(table, Name(x, false)), d - 2, d - 1); }
      }
    }
  }

  lemma {:induction false} SettledBound(table: Table, toks: seq<Tok>, d: nat)
    requires Settled(table, toks, d)
    ensures Settled(table, toks, |table|)
    decreases d
  {
    if d > 0 && Settled(table, toks, d - 1) {
      SettledBound(table, toks, d - 1);
    } else {
      var names := SettledTower(table, toks, d);
      Fewer(names, table.Keys);
      SettledDeeper(table, toks, d, |table|);
    }
  }

  ghost predicate LineEnds(table: Table, toks: seq<Tok>) {
    exists n: nat :: Finished(LineSteps(table, n, Line([], toks)))
  }

  /** With whole bodies the scan of a line ends exactly when its names nest no deeper than
      there are macros, operands of `defined` and what follows an error apart. */
  lemma LineEndsIff(table: Table, toks: seq<Tok>)
    requires WholeBodies(table)
    ensures LineEnds(table, toks) <==> Settled(table, toks, |table|)
  {
    assert toks + [] == toks;
    if LineEnds(table, toks) {
      var n: nat :| Finished(LineSteps(table, n, Line([], toks)));
      FinishedSettled(table, toks, [], [], n);
      SettledBound(table, toks, n);
    }
    if Settled(table, toks, |table|) { LineMeaning(table, toks, |table|); }
  }

  /** pp_expand, on every line that it finishes. */
  method PpExpand(table: Table, toks: seq<Tok>, ghost n: nat) returns (r: Option<seq<Tok>>)
    requires Finished(LineSteps(table, n, Line([], toks)))
    ensures LineSteps(table, n, Line([], toks)) == if r.Some? then Line(r.value, []) else Failed
    ensures forall x: Tok, paren: bool | x.Name? && toks == Question(x, paren) ::
              r == Some([Num(if x.s in table then 1 else 0)])
  {
    forall x: Tok, paren: bool | x.Name? && toks == Question(x, paren)
      ensures LineSteps(table, n, Line([], toks)) == Line([Num(if x.s in table then 1 else 0)], [])
    {
      QuestionLine(table, x, paren, n);
    }
    var w, out := toks, [];
    ghost var left := n;
    while w != []
      invariant LineSteps(table, left, Line(out, w)) == LineSteps(table, n, Line([], toks))
      decreases left
    {
      ghost var s := Line(out, w);
      if IsDefined(w[0]) {
        var x := Operand(w);
        if x.None? { return None; }
        out := out + [Answer(table, x.value.0)];
        w := w[x.value.1..];
      } else if Expandable(table, w[0]) {
        w := Body(table, w[0]) + w[1..];
      } else {
        out := out + [w[0]];
        w := w[1..];
      }
      assert LineStep(table, s) == Line(out, w);
      left := left - 1;
    }
    r := Some(out);
  }

  /** A question that its body leaves open is completed by what follows: with `#define Q
      defined` the tokens Q X ask for X. */
  lemma OpenQuestion(table: Table, x: string)
    requires "Q" in table && table["Q"] == [Name("defined", false)] && x != "defined"
    ensures LineSteps(table, 2, Line([], [Name("Q", false), Name(x, false)])) == Line([Answer(table, x)], [])
  {
    var q, n := Name("Q", false), Name(x, false);
    var s0 := Line([], [q, n]);
    assert Body(table, q) + [q, n][1..] == [Name("defined", false), n];
    var s1 := LineStep(table, s0);
    assert s1 == Line([], [Name("defined", false), n]);
    assert LineStep(table, s1) == Line([Answer(table, x)], []);
    assert LineSteps(table, 1, s1) == LineStep(table, s1);
  }
}
