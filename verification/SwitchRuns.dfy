/** One call may run a switch many times, with one selector variable: exactly when every
    run is faithful. */
module SwitchRuns {
  import opened Basics
  import opened SwitchLowering
  import opened SwitchCorrectness
  import opened SwitchDefault

  // ----- what a run leaves in the selector variable -----

  /** From item i on a start comes before any statement; `sel` takes over as in `Walk`. */
  predicate Overwrites(items: seq<Item>, i: nat, sel: Option<nat>)
    requires i <= |items| && (sel.Some? ==> i <= sel.value < |items| && items[sel.value].IsCase())
    decreases |items| - i
  {
    i < |items| &&
    match items[i]
    case Act(_, _) => false
    case Start => true
    case End => Overwrites(items, i + 1, None)
    case Default => Overwrites(items, i + 1, sel)
    case _ => Overwrites(items, if sel.Some? then sel.value + 1 else i + 1, None)
  }

  /** The body leaves the old value or -1. */
  lemma TailLeaves<S>(b: Behaviour<S>, items: seq<Item>, exit: nat, i: nat, s: S, v: int, grp: int)
    requires i <= |items|
    ensures Run(b, Tail(items, exit, i), s, v, grp).grp in {grp, -1}
  {
    var g := Run(b, Tail(items, exit, i), s, v, grp).grp;
    if g != grp && g != -1 {
      TailSetsNone(items, exit, i, g);
      SelectorLeft(b, Tail(items, exit, i), s, v, grp, g);
    }
  }

  /** Where the run goes on behind an item that is no statement. */
  function Onward(items: seq<Item>, exit: nat, i: nat, grp: int): (n: nat)
    requires i < |items| && !items[i].Act?
    ensures i < n <= |items|
  {
    if items[i].IsCase() then Chosen(items, exit, i, grp) + 1 else i + 1
  }

  lemma RunsOnward<S>(b: Behaviour<S>, items: seq<Item>, exit: nat, i: nat, s: S, v: int, grp: int)
    requires i < |items| && !items[i].Act? && !items[i].Start?
    ensures Run(b, Tail(items, exit, i), s, v, grp)
            == Run(b, Tail(items, exit, Onward(items, exit, i, grp)), s, v, grp)
  {
    var now, rest := Nodes(items, exit, i), Tail(items, exit, i + 1);
    if items[i].IsCase() && At(items, exit, i).group >= 0 && At(items, exit, i).porch {
      PorchRuns(b, items, exit, i, s, v, grp);
    } else {
      assert |now| == 1 && now[0].Lab? && (now + rest)[1..] == rest;
    }
  }

  lemma OverwritesOnward(items: seq<Item>, exit: nat, i: nat, grp: int)
    requires i < |items| && !items[i].Act? && !items[i].Start?
    ensures var n := Onward(items, exit, i, grp);
            Overwrites(items, i, Pending(items, exit, i, grp)) <==> Overwrites(items, n, Pending(items, exit, n, grp))
  {
    assert At(items, exit, i + 1) == Advance(At(items, exit, i), items[i], i);
    if items[i].IsCase() { AfterCase(items, exit, Onward(items, exit, i, grp) - 1, grp); }
  }

  /** When a start comes first, -1 is left whatever the statements do. */
  lemma {:induction false} OverwritesSim<S>(b: Behaviour<S>, items: seq<Item>, exit: nat, i: nat, s: S, v: int,
                                            grp: int)
    requires i <= |items| && Overwrites(items, i, Pending(items, exit, i, grp))
    ensures Run(b, Tail(items, exit, i), s, v, grp).grp == -1
    decreases |items| - i
  {
    if items[i].Start? {
      var own, rest := [Lab(PorchL(At(items, exit, i).counter))], Tail(items, exit, i + 1);
      assert Tail(items, exit, i) == [SetGroup(-1)] + (own + rest);
      assert ([SetGroup(-1)] + (own + rest))[1..] == own + rest && (own + rest)[1..] == rest;
      TailLeaves(b, items, exit, i + 1, s, v, -1);
    } else {
      RunsOnward(b, items, exit, i, s, v, grp);
      OverwritesOnward(items, exit, i, grp);
      OverwritesSim(b, items, exit, Onward(items, exit, i, grp), s, v, grp);
    }
  }

  /** Selects v and leaves the switch at the first statement. */
  function Leaving(v: int): Behaviour<int> {
    Behaviour((s: int) => (v, s), (id: nat, s: int) => (s, Leaves(0)))
  }

  /** When a statement or the end comes first, the old value can be left. */
  lemma {:induction false} LeavingKeeps(items: seq<Item>, exit: nat, i: nat, x: int, s: int, v: int, grp: int)
    requires i <= |items| && !Overwrites(items, i, Pending(items, exit, i, grp))
    ensures Run(Leaving(x), Tail(items, exit, i), s, v, grp).grp == grp
    decreases |items| - i
  {
    if i < |items| {
      if items[i].Act? {
        assert Nodes(items, exit, i)[0].Body?;
      } else {
        RunsOnward(Leaving(x), items, exit, i, s, v, grp);
        OverwritesOnward(items, exit, i, grp);
        LeavingKeeps(items, exit, Onward(items, exit, i, grp), x, s, v, grp);
      }
    } else {
      assert Tail(items, exit, i)[1..] == [];
    }
  }

  /** What a run may leave: for a chosen case of a group its number, or -1, and certainly
      -1 if a start comes before any statement; for anything else the old value or -1. */
  predicate MayLeave(items: seq<Item>, exit: nat, chosen: Option<nat>, grp: int, g: int)
    requires chosen.Some? ==> chosen.value < |items| && items[chosen.value].IsCase()
  {
    g == -1 ||
    if chosen.Some? && OpenStart(items, chosen.value).Some? then
      g == At(items, exit, chosen.value).nth && !Overwrites(items, OpenStart(items, chosen.value).value + 1, chosen)
    else g == grp
  }

  lemma RunLeaves<S>(b: Behaviour<S>, items: seq<Item>, exit: nat, s: S, grp: int)
    requires Accepted(items, exit)
    ensures MayLeave(items, exit, FirstMatch(items, 0, b.cond(s).0), grp, Run(b, Lowered(items, exit), s, 0, grp).grp)
  {
    LoweredEnters(b, items, exit, s, 0, grp);
    EnterLeaves(b, items, exit, FirstMatch(items, 0, b.cond(s).0), b.cond(s).1, b.cond(s).0, grp);
  }

  lemma EnterLeaves<S>(b: Behaviour<S>, items: seq<Item>, exit: nat, m: Option<nat>, s: S, v: int, grp: int)
    requires Accepted(items, exit) && (m.Some? ==> m.value < |items| && items[m.value].IsCase())
    ensures MayLeave(items, exit, m, grp,
                     Enter(b, items, exit, [Goto(Otherwise(items, exit))] + Tail(items, exit, 0), m, s, v, grp).grp)
  {
    match m
    case Some(i) =>
      ScanMeaning(items, exit, i);
      if At(items, exit, i).group >= 0 {
        GroupedLeaves(b, items, exit, i, s, v, grp);
      } else {
        PlainLeaves(b, items, exit, i, s, v, grp);
      }
    case None => DefaultLeaves(b, items, exit, s, v, grp);
  }

  lemma PlainLeaves<S>(b: Behaviour<S>, items: seq<Item>, exit: nat, i: nat, s: S, v: int, grp: int)
    requires i < |items| && items[i].IsCase() && At(items, exit, i).group < 0
    ensures Enter(b, items, exit, [Goto(Otherwise(items, exit))] + Tail(items, exit, 0), Some(i), s, v, grp).grp
            in {grp, -1}
  {
    GotoPassed(b, Otherwise(items, exit), Tail(items, exit, 0), OwnLabel(items, exit, i), s, v, grp);
    JumpToItem(b, items, exit, 0, i, s, v, grp);
    TailLeaves(b, items, exit, i + 1, s, v, grp);
  }

  lemma GroupedLeaves<S>(b: Behaviour<S>, items: seq<Item>, exit: nat, i: nat, s: S, v: int, grp: int)
    requires i < |items| && items[i].IsCase() && At(items, exit, i).group >= 0
    ensures OpenStart(items, i).Some?
    ensures var rest := [Goto(Otherwise(items, exit))] + Tail(items, exit, 0);
            MayLeave(items, exit, Some(i), grp, Enter(b, items, exit, rest, Some(i), s, v, grp).grp)
  {
    EnterPorch(b, items, exit, i, s, v, grp);
    BodyLeaves(b, items, exit, i, s, v, grp);
  }

  lemma BodyLeaves<S>(b: Behaviour<S>, items: seq<Item>, exit: nat, i: nat, s: S, v: int, grp: int)
    requires i < |items| && items[i].IsCase() && At(items, exit, i).group >= 0
    requires OpenStart(items, i) == Some(At(items, exit, i).start)
    ensures MayLeave(items, exit, Some(i), grp,
                     Run(b, Tail(items, exit, At(items, exit, i).start + 1), s, v, At(items, exit, i).nth).grp)
  {
    var p, k := At(items, exit, i).start, At(items, exit, i).nth;
    PendingChosen(items, exit, i);
    TailLeaves(b, items, exit, p + 1, s, v, k);
    if Overwrites(items, p + 1, Some(i)) { OverwritesSim(b, items, exit, p + 1, s, v, k); }
  }

  lemma DefaultLeaves<S>(b: Behaviour<S>, items: seq<Item>, exit: nat, s: S, v: int, grp: int)
    requires Accepted(items, exit)
    ensures Run(b, [Goto(Otherwise(items, exit))] + Tail(items, exit, 0), s, v, grp).grp in {grp, -1}
  {
    assert ([Goto(Otherwise(items, exit))] + Tail(items, exit, 0))[1..] == Tail(items, exit, 0);
    match LastDefault(items, 0, None)
    case Some(j) =>
      JumpToItem(b, items, exit, 0, j, s, v, grp);
      TailLeaves(b, items, exit, j + 1, s, v, grp);
    case None => JumpToExit(b, items, exit, 0, s, v, grp);
  }

  // ----- all runs of a call -----

  /** One run: what the statements do this time, and the state before. */
  datatype Turn<!S> = Turn(b: Behaviour<S>, s: S)

  /** Each run does what the switch means, where the selector variable goes from run to run. */
  predicate AllFaithful<S(==)>(items: seq<Item>, exit: nat, turns: seq<Turn<S>>, grp: int)
    decreases |turns|
  {
    turns == [] ||
    var r := Run(turns[0].b, Lowered(items, exit), turns[0].s, 0, grp);
    r.final == Switch(turns[0].b, items, turns[0].s, None) && AllFaithful(items, exit, turns[1..], r.grp)
  }

  /** Some value chooses this case of a group, and its number can be left by that run. */
  ghost predicate Leavable(items: seq<Item>, j: nat)
    requires j < |items|
  {
    && OpenStart(items, j).Some? && (exists v: int :: FirstMatch(items, 0, v) == Some(j))
    && !Overwrites(items, OpenStart(items, j).value + 1, Some(j))
  }

  /** The numbers that a run can leave are harmless. */
  ghost predicate Safe(items: seq<Item>, exit: nat) {
    forall j | 0 <= j < |items| && Leavable(items, j) :: Harmless(items, exit, At(items, exit, j).nth)
  }

  lemma {:induction false} SafeCalls<S>(items: seq<Item>, exit: nat, turns: seq<Turn<S>>, grp: int)
    requires Accepted(items, exit) && Safe(items, exit) && Harmless(items, exit, grp)
    ensures AllFaithful(items, exit, turns, grp)
    decreases |turns|
  {
    if turns != [] {
      HarmlessAgrees(turns[0].b, items, exit, turns[0].s, 0, grp);
      SafeStep(items, exit, turns[0].b, turns[0].s, grp);
      SafeCalls(items, exit, turns[1..], Run(turns[0].b, Lowered(items, exit), turns[0].s, 0, grp).grp);
    }
  }

  lemma SafeStep<S>(items: seq<Item>, exit: nat, b: Behaviour<S>, s: S, grp: int)
    requires Accepted(items, exit) && Safe(items, exit) && Harmless(items, exit, grp)
    ensures Harmless(items, exit, Run(b, Lowered(items, exit), s, 0, grp).grp)
  {
    RunLeaves(b, items, exit, s, grp);
    SafeValue(items, exit, b.cond(s).0, grp, Run(b, Lowered(items, exit), s, 0, grp).grp);
  }

  lemma SafeValue(items: seq<Item>, exit: nat, v: int, grp: int, g: int)
    requires Safe(items, exit) && Harmless(items, exit, grp) && MayLeave(items, exit, FirstMatch(items, 0, v), grp, g)
    ensures Harmless(items, exit, g)
  {
    MinusHarmless(items, exit);
    var m := FirstMatch(items, 0, v);
    if g != -1 && m.Some? && OpenStart(items, m.value).Some? { assert Leavable(items, m.value); }
  }

  lemma MinusHarmless(items: seq<Item>, exit: nat)
    ensures Harmless(items, exit, -1)
  {
    var d := LastDefault(items, 0, None);
    if d.Some? { NoNegativeCase(items, exit, At(items, exit, d.value + 1).group, d.value + 1); }
  }

  /** Beyond all bounds no case covers a value. */
  lemma {:induction false} Beyond(items: seq<Item>, i: nat) returns (m: int)
    requires i <= |items|
    ensures m >= NextValue(items, i) && forall k, v: int | 0 <= k < i && v >= m :: !Covers(items, k, v)
    decreases i
  {
    m := 0;
    if i > 0 {
      m := Beyond(items, i - 1);
      if items[i - 1].Case? && items[i - 1].hi >= m { m := items[i - 1].hi; }
      m := m + 1;
    }
  }

  /** A run that leaves a harmful number, and one that reaches the default. */
  lemma UnsafeCall(items: seq<Item>, exit: nat, j: nat) returns (turns: seq<Turn<int>>)
    requires Accepted(items, exit) && j < |items| && Leavable(items, j)
    requires !Harmless(items, exit, At(items, exit, j).nth)
    ensures |turns| == 2 && !AllFaithful(items, exit, turns, 0)
  {
    var v: int :| FirstMatch(items, 0, v) == Some(j);
    var w := Beyond(items, |items|);
    assert FirstMatch(items, 0, w).None?;
    LeavesNumber(items, exit, j, v);
    PorchDefaultFaithfulIff(items, exit, w, At(items, exit, j).nth);
    var b: Behaviour<int>, s: int :| b.cond(s).0 == w &&
      Run(b, Lowered(items, exit), s, 0, At(items, exit, j).nth).final != Switch(b, items, s, None);
    turns := [Turn(Leaving(v), 0), Turn(b, s)];
    assert turns[1..] == [Turn(b, s)];
  }

  lemma LeavesNumber(items: seq<Item>, exit: nat, j: nat, v: int)
    requires j < |items| && Leavable(items, j) && FirstMatch(items, 0, v) == Some(j)
    ensures Run(Leaving(v), Lowered(items, exit), 0, 0, 0).grp == At(items, exit, j).nth
  {
    assert Leaving(v).cond(0) == (v, 0);
    LoweredEnters(Leaving(v), items, exit, 0, 0, 0);
    ScanMeaning(items, exit, j);
    EntersNumber(items, exit, j, v);
  }

  lemma EntersNumber(items: seq<Item>, exit: nat, j: nat, v: int)
    requires j < |items| && Leavable(items, j) && items[j].IsCase() && At(items, exit, j).group >= 0
    ensures Enter(Leaving(v), items, exit, [Goto(Otherwise(items, exit))] + Tail(items, exit, 0), Some(j), 0, v, 0).grp
            == At(items, exit, j).nth
  {
    EnterPorch(Leaving(v), items, exit, j, 0, v, 0);
    PendingChosen(items, exit, j);
    LeavingKeeps(items, exit, At(items, exit, j).start + 1, v, 0, v, At(items, exit, j).nth);
  }

  /** Every run of every call is faithful, whatever the statements do, exactly when the number
      of each case whose number can be left is harmless. */
  lemma CallsFaithfulIff(items: seq<Item>, exit: nat)
    requires Accepted(items, exit)
    ensures Safe(items, exit) <==> forall turns: seq<Turn<int>> :: AllFaithful(items, exit, turns, 0)
  {
    if Safe(items, exit) {
      forall turns: seq<Turn<int>> ensures AllFaithful(items, exit, turns, 0) {
        FirstRunHarmless(items, exit);
        SafeCalls(items, exit, turns, 0);
      }
    } else {
      var j :| 0 <= j < |items| && Leavable(items, j) && !Harmless(items, exit, At(items, exit, j).nth);
      var turns := UnsafeCall(items, exit, j);
    }
  }
}
