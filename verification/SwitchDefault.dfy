/** A `default:` in a porch, before the first case of its group: the dispatch jumps
    straight to it, so the group's selectors see a stale selector variable. */
module SwitchDefault {
  import opened Basics
  import opened SwitchLowering
  import opened SwitchCorrectness

  /** Statements among the items from i up to j. */
  function Acts(items: seq<Item>, i: nat, j: nat): nat
    requires i <= j <= |items|
    decreases j - i
  {
    if i == j then 0 else (if items[i].Act? then 1 else 0) + Acts(items, i + 1, j)
  }

  function FirstCase(items: seq<Item>, i: nat): (r: nat)
    requires i <= |items|
    ensures i <= r <= |items|
    ensures r < |items| ==> items[r].IsCase()
    ensures forall j | i <= j < r :: !items[j].IsCase()
    decreases |items| - i
  {
    if i == |items| || items[i].IsCase() then i else FirstCase(items, i + 1)
  }

  lemma {:induction false} ActsAdd(items: seq<Item>, i: nat, j: nat, k: nat)
    requires i <= j <= k <= |items|
    ensures Acts(items, i, k) == Acts(items, i, j) + Acts(items, j, k)
    decreases j - i
  {
    if i < j { ActsAdd(items, i + 1, j, k); }
  }

  /** A group number names one group: cases of the open group have the same start. */
  lemma SameGroup(items: seq<Item>, exit: nat, i: nat, k: nat)
    requires i <= k <= |items| && At(items, exit, i).group == At(items, exit, k).group >= 0
    ensures OpenStart(items, k).Some? && OpenStart(items, k).value < i && OpenStart(items, i) == OpenStart(items, k)
  {
    ScanMeaning(items, exit, k);
    var p := At(items, exit, k).start;
    OpenRun(items, exit, p, p + 1, k);
    assert At(items, exit, p + 1) == Advance(At(items, exit, p), items[p], p);
    if i <= p {
      NumbersGrow(items, exit, i, p);
      NumbersBound(items, exit, i);
    }
    OpenRun(items, exit, p, i, k);
  }

  /** Items without statements make no difference. */
  lemma {:induction false} WalkOverMarks<S>(b: Behaviour<S>, items: seq<Item>, i: nat, j: nat, s: S)
    requires i <= j <= |items| && Acts(items, i, j) == 0
    ensures Walk(b, items, i, None, s) == Walk(b, items, j, None, s)
    decreases j - i
  {
    if i < j { WalkOverMarks(b, items, i + 1, j, s); }
  }

  /** A chosen case without statements between it and the first case of the group is
      as good as falling through to the first. */
  lemma {:induction false} WalkEither<S>(b: Behaviour<S>, items: seq<Item>, exit: nat, p: nat, i: nat, k: nat, s: S)
    requires p < i <= k < |items| && OpenStart(items, k) == Some(p) && items[k].IsCase()
    requires FirstCase(items, i) <= k && Acts(items, FirstCase(items, i) + 1, k + 1) == 0
    ensures Walk(b, items, i, Some(k), s) == Walk(b, items, i, None, s)
    decreases k - i
  {
    if items[i].IsCase() {
      WalkOverMarks(b, items, i + 1, k + 1, s);
    } else {
      OpenRun(items, exit, p, i, k);
      if items[i].Act? {
        var (s1, e) := b.act(items[i].id, s);
        if e.Falls? { WalkEither(b, items, exit, p, i + 1, k, s1); }
      } else {
        WalkEither(b, items, exit, p, i + 1, k, s);
      }
    }
  }

  /** Selects v, and counts the statements executed. */
  function Counting(v: int): Behaviour<int> {
    Behaviour((s: int) => (v, s), (id: nat, s: int) => (s + 1, Falls))
  }

  lemma {:induction false} CountFrom(items: seq<Item>, v: int, i: nat, s: int)
    requires i <= |items|
    ensures Walk(Counting(v), items, i, None, s) == Finished(s + Acts(items, i, |items|))
    decreases |items| - i
  {
    if i < |items| { CountFrom(items, v, i + 1, s + if items[i].Act? then 1 else 0); }
  }

  lemma {:induction false} CountPorch(items: seq<Item>, exit: nat, v: int, p: nat, i: nat, k: nat, s: int)
    requires p < i <= k < |items| && OpenStart(items, k) == Some(p) && items[k].IsCase()
    ensures FirstCase(items, i) <= k
    ensures Walk(Counting(v), items, i, Some(k), s)
            == Finished(s + Acts(items, i, FirstCase(items, i)) + Acts(items, k + 1, |items|))
    decreases k - i
  {
    if items[i].IsCase() {
      CountFrom(items, v, k + 1, s);
    } else {
      OpenRun(items, exit, p, i, k);
      CountPorch(items, exit, v, p, i + 1, k, s + if items[i].Act? then 1 else 0);
    }
  }

  /** No statement lies between the first case of the default's group and the case
      the stale selector picks. */
  predicate Harmless(items: seq<Item>, exit: nat, grp: int) {
    var r := Resume(items, exit, grp);
    r.Some? ==>
      var first := FirstCase(items, LastDefault(items, 0, None).value + 1);
      first <= r.value && Acts(items, first + 1, r.value + 1) == 0
  }

  lemma ResumeGroup(items: seq<Item>, exit: nat, grp: int) returns (p: nat)
    requires Resume(items, exit, grp).Some?
    ensures p < LastDefault(items, 0, None).value + 1 && OpenStart(items, Resume(items, exit, grp).value) == Some(p)
  {
    var i, k := LastDefault(items, 0, None).value + 1, Resume(items, exit, grp).value;
    CaseOfGroup(items, exit, At(items, exit, i).group, i, grp);
    SameGroup(items, exit, i, k);
    p := OpenStart(items, k).value;
  }

  lemma {:induction false} CaseOfGroup(items: seq<Item>, exit: nat, g: int, i: nat, k: int)
    requires i <= |items| && CaseOf(items, exit, g, i, k).Some?
    ensures At(items, exit, CaseOf(items, exit, g, i, k).value).group == g
    decreases |items| - i
  {
    if !(items[i].IsCase() && At(items, exit, i).group == g && At(items, exit, i).nth == k) {
      CaseOfGroup(items, exit, g, i + 1, k);
    }
  }

  lemma HarmlessAgrees<S>(b: Behaviour<S>, items: seq<Item>, exit: nat, s: S, v: int, grp: int)
    requires Accepted(items, exit) && Harmless(items, exit, grp)
    ensures Run(b, Lowered(items, exit), s, v, grp).final == Switch(b, items, s, None)
  {
    SwitchMeaning(b, items, exit, s, v, grp);
    HarmlessSwitch(b, items, exit, s, grp);
  }

  lemma HarmlessSwitch<S>(b: Behaviour<S>, items: seq<Item>, exit: nat, s: S, grp: int)
    requires Harmless(items, exit, grp)
    ensures Switch(b, items, s, Resume(items, exit, grp)) == Switch(b, items, s, None)
  {
    var r := Resume(items, exit, grp);
    if r.Some? {
      var p := ResumeGroup(items, exit, grp);
      WalkEither(b, items, exit, p, LastDefault(items, 0, None).value + 1, r.value, b.cond(s).1);
    }
  }

  /** A value no case covers reaches the default faithfully, whatever the statements
      do, if and only if the stale selector is harmless. */
  lemma PorchDefaultFaithfulIff(items: seq<Item>, exit: nat, v: int, grp: int)
    requires Accepted(items, exit) && FirstMatch(items, 0, v).None?
    ensures Harmless(items, exit, grp) <==>
            forall b: Behaviour<int>, s: int | b.cond(s).0 == v ::
              Run(b, Lowered(items, exit), s, 0, grp).final == Switch(b, items, s, None)
  {
    if Harmless(items, exit, grp) {
      forall b: Behaviour<int>, s: int | b.cond(s).0 == v
        ensures Run(b, Lowered(items, exit), s, 0, grp).final == Switch(b, items, s, None)
      {
        HarmlessAgrees(b, items, exit, s, 0, grp);
      }
    } else {
      var b := Counting(v);
      var k, i := Resume(items, exit, grp).value, LastDefault(items, 0, None).value + 1;
      var p := ResumeGroup(items, exit, grp);
      SwitchMeaning(b, items, exit, 0, 0, grp);
      CountPorch(items, exit, v, p, i, k, 0);
      CountFrom(items, v, i, 0);
      var first := FirstCase(items, i);
      ActsAdd(items, i, first, |items|);
      ActsAdd(items, first, first + 1, |items|);
      ActsAdd(items, first + 1, k + 1, |items|);
      assert b.cond(0).0 == v;
      assert Run(b, Lowered(items, exit), 0, 0, grp).final != Switch(b, items, 0, None);
    }
  }

  /** A switch without a default before the first case of its group always means what
      it says, whatever the selector variable held. */
  lemma SwitchFaithful<S>(b: Behaviour<S>, items: seq<Item>, exit: nat, s: S, v: int, grp: int)
    requires Accepted(items, exit)
    requires var d := LastDefault(items, 0, None);
             d.Some? && OpenStart(items, d.value).Some? ==> FirstCase(items, OpenStart(items, d.value).value) < d.value
    ensures Run(b, Lowered(items, exit), s, v, grp).final == Switch(b, items, s, None)
  {
    var d := LastDefault(items, 0, None);
    if d.Some? {
      ScanMeaning(items, exit, d.value);
      assert At(items, exit, d.value + 1) == Advance(At(items, exit, d.value), items[d.value], d.value);
      if At(items, exit, d.value).group >= 0 && At(items, exit, d.value).porch {
        var p := OpenStart(items, d.value).value;
        var f := FirstCase(items, p);
        OpenRun(items, exit, p, if f > p then f else p + 1, d.value);
        PorchHasNoCase(items, exit, d.value, f);
      }
    }
    HarmlessAgrees(b, items, exit, s, v, grp);
  }

  // ----- what the selector variable can hold -----

  lemma {:induction false} CaseOfFirst(items: seq<Item>, exit: nat, g: int, i: nat, k: int, j: nat)
    requires i <= j < |items| && items[j].IsCase() && At(items, exit, j).group == g && At(items, exit, j).nth == k
    ensures CaseOf(items, exit, g, i, k).Some? && CaseOf(items, exit, g, i, k).value <= j
    decreases j - i
  {
    if i < j { CaseOfFirst(items, exit, g, i + 1, k, j); }
  }

  lemma {:induction false} CaseOfNumber(items: seq<Item>, exit: nat, g: int, i: nat, k: int)
    requires i <= |items| && CaseOf(items, exit, g, i, k).Some?
    ensures At(items, exit, CaseOf(items, exit, g, i, k).value).nth == k
    decreases |items| - i
  {
    if !(items[i].IsCase() && At(items, exit, i).group == g && At(items, exit, i).nth == k) {
      CaseOfNumber(items, exit, g, i + 1, k);
    }
  }

  /** A fresh selector variable is 0, which picks the first case: in every call the first
      run of a switch is faithful. */
  lemma FirstRunHarmless(items: seq<Item>, exit: nat)
    requires Accepted(items, exit)
    ensures Harmless(items, exit, 0)
  {
    var r := Resume(items, exit, 0);
    if r.Some? {
      var i := LastDefault(items, 0, None).value + 1;
      var g, f := At(items, exit, i).group, FirstCase(items, i);
      var p := ResumeGroup(items, exit, 0);
      CaseOfNumber(items, exit, g, i, 0);
      CaseOfGroup(items, exit, g, i, 0);
      OpenRun(items, exit, p, f, r.value);
      CaseOfFirst(items, exit, g, i, 0, f);
    }
  }

  /** A node after which the selector variable may hold g. */
  predicate Sets(n: Node, g: int) {
    match n
    case SetGroup(k) => k == g
    case IfEq(_, Select(k, _)) => k == g
    case IfRange(_, _, Select(k, _)) => k == g
    case _ => false
  }

  predicate SetsNone(code: seq<Node>, g: int) {
    forall i | 0 <= i < |code| :: !Sets(code[i], g)
  }

  /** A run leaves the old value unless the code sets another. */
  lemma {:induction false} SelectorLeft<S>(b: Behaviour<S>, code: seq<Node>, s: S, v: int, grp: int, g: int)
    requires SetsNone(code, g) && grp != g
    ensures Run(b, code, s, v, grp).grp != g
    decreases |code|, 0
  {
    if code != [] {
      var rest := code[1..];
      assert SetsNone(rest, g) && !Sets(code[0], g);
      match code[0]
      case Setup => var (v1, s1) := b.cond(s); SelectorLeft(b, rest, s1, v1, grp, g);
      case IfEq(n, br) =>
        if v == n { TakeLeft(b, rest, br, s, v, grp, g); } else { SelectorLeft(b, rest, s, v, grp, g); }
      case IfRange(lo, hi, br) =>
        if lo <= v && v <= hi { TakeLeft(b, rest, br, s, v, grp, g); } else { SelectorLeft(b, rest, s, v, grp, g); }
      case IfGroup(k, l) =>
        if grp == k { JumpLeft(b, rest, l, s, v, grp, g); } else { SelectorLeft(b, rest, s, v, grp, g); }
      case Goto(l) => JumpLeft(b, rest, l, s, v, grp, g);
      case SetGroup(k) => SelectorLeft(b, rest, s, v, k, g);
      case Body(id, brk) =>
        var (s1, e) := b.act(id, s);
        if e.Falls? {
          SelectorLeft(b, rest, s1, v, grp, g);
        } else if e.Breaks? {
          JumpLeft(b, rest, brk, s1, v, grp, g);
        }
      case _ => SelectorLeft(b, rest, s, v, grp, g);
    }
  }

  lemma {:induction false} TakeLeft<S>(b: Behaviour<S>, rest: seq<Node>, br: Branch, s: S, v: int, grp: int, g: int)
    requires SetsNone(rest, g) && grp != g && (br.Select? ==> br.k != g)
    ensures Take(b, rest, br, s, v, grp).grp != g
    decreases |rest|, 2
  {
    match br
    case To(l) => JumpLeft(b, rest, l, s, v, grp, g);
    case Select(k, l) => JumpLeft(b, rest, l, s, v, k, g);
  }

  lemma {:induction false} JumpLeft<S>(b: Behaviour<S>, rest: seq<Node>, l: Label, s: S, v: int, grp: int, g: int)
    requires SetsNone(rest, g) && grp != g
    ensures Jump(b, rest, l, s, v, grp).grp != g
    decreases |rest|, 1
  {
    var k := Find(rest, l);
    if k < |rest| {
      assert SetsNone(rest[k..], g);
      SelectorLeft(b, rest[k..], s, v, grp, g);
    }
  }

  /** From item i on the emitted body sets the selector only to -1, at a start. */
  lemma {:induction false} TailSetsNone(items: seq<Item>, exit: nat, i: nat, g: int)
    requires i <= |items| && (g == -1 ==> forall j | i <= j < |items| :: !items[j].Start?)
    ensures SetsNone(Tail(items, exit, i), g)
    decreases |items| - i
  {
    if i < |items| {
      TailSetsNone(items, exit, i + 1, g);
      var s := At(items, exit, i);
      if items[i].IsCase() && s.group >= 0 && s.porch { SelectorsSetNone(items, exit, s.group, 0, g); }
    }
  }

  lemma {:induction false} SelectorsSetNone(items: seq<Item>, exit: nat, h: nat, i: nat, g: int)
    requires i <= |items|
    ensures SetsNone(Selectors(items, exit, h, i), g)
    decreases |items| - i
  {
    if i < |items| { SelectorsSetNone(items, exit, h, i + 1, g); }
  }

  predicate Numbers(items: seq<Item>, exit: nat, j: nat, g: int)
    requires j < |items|
  {
    items[j].IsCase() && At(items, exit, j).group >= 0 && At(items, exit, j).nth == g
  }

  lemma {:induction false} DispatchSetsNone(items: seq<Item>, exit: nat, i: nat, g: int)
    requires i <= |items| && forall j | i <= j < |items| :: !Numbers(items, exit, j, g)
    ensures SetsNone(Dispatch(items, exit, i), g)
    decreases |items| - i
  {
    if i < |items| {
      DispatchSetsNone(items, exit, i + 1, g);
      assert !Numbers(items, exit, i, g);
    }
  }

  /** After a run the selector variable holds what it held before, -1, or the number of a
      case in its group. */
  lemma SelectorValues<S>(b: Behaviour<S>, items: seq<Item>, exit: nat, s: S, v: int, grp: int)
    ensures var g := Run(b, Lowered(items, exit), s, v, grp).grp;
            g == grp || g == -1 || exists j | 0 <= j < |items| :: Numbers(items, exit, j, g)
  {
    var g := Run(b, Lowered(items, exit), s, v, grp).grp;
    if g != grp && g != -1 && forall j | 0 <= j < |items| :: !Numbers(items, exit, j, g) {
      LoweredSetsNone(items, exit, g);
      SelectorLeft(b, Lowered(items, exit), s, v, grp, g);
    }
  }

  lemma LoweredSetsNone(items: seq<Item>, exit: nat, g: int)
    requires g != -1 && forall j | 0 <= j < |items| :: !Numbers(items, exit, j, g)
    ensures SetsNone(Lowered(items, exit), g)
  {
    DispatchSetsNone(items, exit, 0, g);
    TailSetsNone(items, exit, 0, g);
    SpliceIsTail(items, exit, 0);
    var head := [Setup] + Dispatch(items, exit, 0) + [Goto(Otherwise(items, exit))];
    assert Lowered(items, exit) == head + Tail(items, exit, 0);
  }

  /** A run that chose a case of the last group leaves the number of that case. */
  lemma SelectorAfterCase<S>(b: Behaviour<S>, items: seq<Item>, exit: nat, i: nat, s: S, v: int, grp: int)
    requires FirstMatch(items, 0, b.cond(s).0) == Some(i) && At(items, exit, i).group >= 0
    requires OpenStart(items, i).Some? && forall j | OpenStart(items, i).value < j < |items| :: !items[j].Start?
    ensures Run(b, Lowered(items, exit), s, v, grp).grp == At(items, exit, i).nth
  {
    var (v1, s1) := b.cond(s);
    LoweredEnters(b, items, exit, s, v, grp);
    EnterKeeps(b, items, exit, i, s1, v1, grp);
  }

  lemma EnterKeeps<S>(b: Behaviour<S>, items: seq<Item>, exit: nat, i: nat, s: S, v: int, grp: int)
    requires i < |items| && items[i].IsCase() && At(items, exit, i).group >= 0
    requires OpenStart(items, i).Some? && forall j | OpenStart(items, i).value < j < |items| :: !items[j].Start?
    ensures Enter(b, items, exit, [Goto(Otherwise(items, exit))] + Tail(items, exit, 0), Some(i), s, v, grp).grp
            == At(items, exit, i).nth
  {
    EnterPorch(b, items, exit, i, s, v, grp);
    TailKeeps(b, items, exit, At(items, exit, i).start + 1, s, v, At(items, exit, i).nth);
  }

  lemma TailKeeps<S>(b: Behaviour<S>, items: seq<Item>, exit: nat, i: nat, s: S, v: int, grp: int)
    requires i <= |items| && forall j | i <= j < |items| :: !items[j].Start?
    ensures Run(b, Tail(items, exit, i), s, v, grp).grp == grp
  {
    var g := Run(b, Tail(items, exit, i), s, v, grp).grp;
    if g != grp {
      TailSetsNone(items, exit, i, g);
      SelectorLeft(b, Tail(items, exit, i), s, v, grp, g);
    }
  }

  // ----- a switch that fails when it is run again -----

  const AGAIN := [Start, Default, Case(1, 1), Act(0, 0), Case(2, 2), Act(1, 0), End]

  lemma ScanAgain(exit: nat)
    ensures Accepted(AGAIN, exit) && At(AGAIN, exit, 2).group == 0 && At(AGAIN, exit, 2).porch
    ensures At(AGAIN, exit, 4).group == 0 && At(AGAIN, exit, 4).nth == 1 && At(AGAIN, exit, 4).start == 0
    ensures At(AGAIN, exit, 2).nth == 0
  {
    var s1 := Advance(Begin(exit), Start, 0);
    assert At(AGAIN, exit, 1) == s1;
    var s2 := Advance(s1, Default, 1);
    assert At(AGAIN, exit, 2) == s2;
    var s3 := Advance(s2, Case(1, 1), 2);
    assert At(AGAIN, exit, 3) == s3;
    var s4 := Advance(s3, Act(0, 0), 3);
    assert At(AGAIN, exit, 4) == s4;
    var s5 := Advance(s4, Case(2, 2), 4);
    assert At(AGAIN, exit, 5) == s5;
    var s6 := Advance(s5, Act(1, 0), 5);
    assert At(AGAIN, exit, 6) == s6;
    var s7 := Advance(s6, End, 6);
    assert At(AGAIN, exit, 7) == s7;
    forall i | 0 <= i < 7 ensures AcceptsAt(AGAIN, exit, i) {
    }
  }

  /** In one call, the value 2 and then the value 9: the first run is faithful and leaves 1
      in the selector variable, so that the second one enters at case 2 instead of running
      both statements. */
  lemma SecondRunFails(exit: nat)
    ensures Accepted(AGAIN, exit)
    ensures Run(Counting(2), Lowered(AGAIN, exit), 0, 0, 0) == Ended(Switch(Counting(2), AGAIN, 0, None), 1)
    ensures Run(Counting(9), Lowered(AGAIN, exit), 0, 0, 1).final == Finished(1)
    ensures Switch(Counting(9), AGAIN, 0, None) == Finished(2)
  {
    ScanAgain(exit);
    FirstRun(exit);
    SecondRun(exit);
  }

  lemma FirstRun(exit: nat)
    requires Accepted(AGAIN, exit)
    ensures Run(Counting(2), Lowered(AGAIN, exit), 0, 0, 0) == Ended(Switch(Counting(2), AGAIN, 0, None), 1)
  {
    FirstRunHarmless(AGAIN, exit);
    HarmlessAgrees(Counting(2), AGAIN, exit, 0, 0, 0);
    FirstSelector(exit);
  }

  lemma FirstSelector(exit: nat)
    ensures Run(Counting(2), Lowered(AGAIN, exit), 0, 0, 0).grp == 1
  {
    ScanAgain(exit);
    assert FirstMatch(AGAIN, 0, 2) == Some(4) by { assert FirstMatch(AGAIN, 3, 2) == Some(4); }
    assert OpenStart(AGAIN, 4) == Some(0) by { assert OpenStart(AGAIN, 2) == Some(0); }
    SelectorAfterCase(Counting(2), AGAIN, exit, 4, 0, 0, 0);
  }

  lemma SecondRun(exit: nat)
    ensures Run(Counting(9), Lowered(AGAIN, exit), 0, 0, 1).final == Finished(1)
    ensures Switch(Counting(9), AGAIN, 0, None) == Finished(2)
  {
    var b := Counting(9);
    DefaultAgain(exit);
    SwitchMeaning(b, AGAIN, exit, 0, 0, 1);
    assert b.cond(0) == (9, 0);
    assert Switch(b, AGAIN, 0, Some(4)) == Walk(b, AGAIN, 2, Some(4), 0);
    assert Switch(b, AGAIN, 0, None) == Walk(b, AGAIN, 2, None, 0);
    CountPorch(AGAIN, exit, 9, 0, 2, 4, 0);
    CountFrom(AGAIN, 9, 2, 0);
  }

  /** The value 9 reaches the default, and 1 picks case 2. */
  lemma DefaultAgain(exit: nat)
    ensures Accepted(AGAIN, exit) && Resume(AGAIN, exit, 1) == Some(4)
    ensures FirstMatch(AGAIN, 0, 9) == None && LastDefault(AGAIN, 0, None) == Some(1)
    ensures OpenStart(AGAIN, 4) == Some(0) && FirstCase(AGAIN, 2) == 2
    ensures Acts(AGAIN, 2, 2) == 0 && Acts(AGAIN, 5, 7) == 1 && Acts(AGAIN, 2, 7) == 2
  {
    ScanAgain(exit);
    assert FirstMatch(AGAIN, 0, 9) == None by { assert FirstMatch(AGAIN, 4, 9) == None; }
    assert LastDefault(AGAIN, 0, None) == Some(1) by { assert LastDefault(AGAIN, 4, Some(1)) == Some(1); }
    assert CaseOf(AGAIN, exit, 0, 2, 1) == Some(4);
    assert OpenStart(AGAIN, 4) == Some(0) by { assert OpenStart(AGAIN, 2) == Some(0); }
    assert Acts(AGAIN, 5, 7) == 1 && Acts(AGAIN, 2, 7) == 2 by { assert Acts(AGAIN, 4, 7) == 1; }
  }
}
