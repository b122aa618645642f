/** The goto form of a switch does what the switch means. */
module SwitchCorrectness {
  import opened Basics
  import opened SwitchLowering

  /** How a statement of the body ends: `Leaves` stands for a return, a goto out of
      the switch or an exception. */
  datatype Exit = Falls | Breaks | Leaves(k: int)

  datatype Behaviour<!S> = Behaviour(cond: S -> (int, S), act: (nat, S) -> (S, Exit))

  datatype Final<S> = Finished(s: S) | LeftBy(k: int, s: S) | Stuck

  /** The end of a run, and what the selector variable holds then. */
  datatype Ended<S> = Ended(final: Final<S>, grp: int)

  // ----- the meaning of a switch, on the items themselves -----

  /** The start: of the group open in front of item i. */
  function OpenStart(items: seq<Item>, i: nat): (r: Option<nat>)
    requires i <= |items|
    ensures r.Some? ==> r.value < i
    decreases i
  {
    if i == 0 then None
    else if items[i - 1].Start? then Some(i - 1)
    else if items[i - 1].End? then None
    else OpenStart(items, i - 1)
  }

  /** The value a bare `case:` in front of item i would stand for. */
  function NextValue(items: seq<Item>, i: nat): int
    requires i <= |items|
    decreases i
  {
    if i == 0 then 0
    else if items[i - 1].Case? then items[i - 1].hi + 1
    else if items[i - 1].NextCase? then NextValue(items, i - 1) + 1
    else NextValue(items, i - 1)
  }

  predicate Covers(items: seq<Item>, i: nat, v: int)
    requires i < |items|
  {
    match items[i]
    case Case(lo, hi) => lo <= v <= hi
    case NextCase => v == NextValue(items, i)
    case _ => false
  }

  /** The first case from i on, in source order, whose range contains v. */
  function FirstMatch(items: seq<Item>, i: nat, v: int): (r: Option<nat>)
    requires i <= |items|
    ensures r.Some? ==> i <= r.value < |items| && Covers(items, r.value, v) && items[r.value].IsCase()
    ensures forall j | i <= j < (if r.Some? then r.value else |items|) :: !Covers(items, j, v)
    decreases |items| - i
  {
    if i == |items| then None else if Covers(items, i, v) then Some(i) else FirstMatch(items, i + 1, v)
  }

  /** The end: that closes the group around i, or the end of the switch. */
  function GroupExit(items: seq<Item>, i: nat): (r: nat)
    requires i <= |items|
    ensures i <= r <= |items|
    ensures r < |items| ==> items[r].End?
    decreases |items| - i
  {
    if i == |items| || items[i].End? then i else GroupExit(items, i + 1)
  }

  function BreakTo(items: seq<Item>, i: nat): (r: nat)
    requires i <= |items|
    ensures i <= r <= |items|
  {
    if OpenStart(items, i).Some? then GroupExit(items, i) else |items|
  }

  /** Executing the body from item i.  While a porch runs for a chosen case, `sel` is
      that case: it takes over when the first case of the group is reached. */
  function Walk<S>(b: Behaviour<S>, items: seq<Item>, i: nat, sel: Option<nat>, s: S): Final<S>
    requires i <= |items|
    requires sel.Some? ==> i <= sel.value < |items| && items[sel.value].IsCase()
    decreases |items| - i
  {
    if i == |items| then Finished(s) else
    match items[i]
    case Act(id, _) => (
      var (s1, e) := b.act(id, s);
      match e
      case Falls => Walk(b, items, i + 1, sel, s1)
      case Breaks => Walk(b, items, BreakTo(items, i + 1), None, s1)
      case Leaves(k) => LeftBy(k, s1))
    case Start => Walk(b, items, i + 1, None, s)
    case End => Walk(b, items, i + 1, None, s)
    case Default => Walk(b, items, i + 1, sel, s)
    case _ => Walk(b, items, if sel.Some? then sel.value + 1 else i + 1, None, s)
  }

  /** The whole switch.  `resume` matters only for a default that stands before the
      first case of its group: the case of the group that takes over from there. */
  function Switch<S>(b: Behaviour<S>, items: seq<Item>, s: S, resume: Option<nat>): Final<S>
    requires resume.Some? ==> resume.value < |items| && items[resume.value].IsCase()
    requires resume.Some? ==> LastDefault(items, 0, None).Some? && LastDefault(items, 0, None).value < resume.value
  {
    var (v, s1) := b.cond(s);
    match FirstMatch(items, 0, v)
    case Some(i) => (
      match OpenStart(items, i)
      case Some(p) => Walk(b, items, p + 1, Some(i), s1)
      case None => Walk(b, items, i + 1, None, s1))
    case None => (
      match LastDefault(items, 0, None)
      case Some(j) => Walk(b, items, j + 1, resume, s1)
      case None => Finished(s1))
  }

  // ----- running the emitted block -----

  function Find(code: seq<Node>, l: Label): (k: nat)
    ensures k <= |code|
    ensures k < |code| ==> code[k] == Lab(l)
  {
    if code == [] then 0 else if code[0] == Lab(l) then 0 else 1 + Find(code[1..], l)
  }

  /** Straight-line execution with forward gotos; v is the switch value, grp the
      group selector variable. */
  function Run<S>(b: Behaviour<S>, code: seq<Node>, s: S, v: int, grp: int): Ended<S>
    decreases |code|, 0
  {
    if code == [] then Ended(Finished(s), grp) else
    var rest := code[1..];
    match code[0]
    case Setup => var (v1, s1) := b.cond(s); Run(b, rest, s1, v1, grp)
    case IfEq(n, br) => if v == n then Take(b, rest, br, s, v, grp) else Run(b, rest, s, v, grp)
    case IfRange(lo, hi, br) => if lo <= v && v <= hi then Take(b, rest, br, s, v, grp) else Run(b, rest, s, v, grp)
    case IfGroup(k, l) => if grp == k then Jump(b, rest, l, s, v, grp) else Run(b, rest, s, v, grp)
    case Goto(l) => Jump(b, rest, l, s, v, grp)
    case Lab(_) => Run(b, rest, s, v, grp)
    case SetGroup(k) => Run(b, rest, s, v, k)
    case Anchor(_) => Run(b, rest, s, v, grp)
    case Body(id, brk) => (
      var (s1, e) := b.act(id, s);
      match e
      case Falls => Run(b, rest, s1, v, grp)
      case Breaks => Jump(b, rest, brk, s1, v, grp)
      case Leaves(k) => Ended(LeftBy(k, s1), grp))
  }

  function Take<S>(b: Behaviour<S>, rest: seq<Node>, br: Branch, s: S, v: int, grp: int): Ended<S>
    decreases |rest|, 2
  {
    match br
    case To(l) => Jump(b, rest, l, s, v, grp)
    case Select(k, l) => Jump(b, rest, l, s, v, k)
  }

  function Jump<S>(b: Behaviour<S>, rest: seq<Node>, l: Label, s: S, v: int, grp: int): Ended<S>
    decreases |rest|, 1
  {
    var k := Find(rest, l);
    if k < |rest| then Run(b, rest[k..], s, v, grp) else Ended(Stuck, grp)
  }

  lemma {:induction false} FindConcat(a: seq<Node>, c: seq<Node>, l: Label)
    requires Lab(l) !in a
    ensures Find(a + c, l) == |a| + Find(c, l)
  {
    if a == [] {
      assert a + c == c;
    } else {
      assert a[0] != Lab(l);
      assert (a + c)[0] == a[0] && (a + c)[1..] == a[1..] + c;
      FindConcat(a[1..], c, l);
    }
  }

  /** Jumps pass over code that does not define the label. */
  lemma JumpOver<S>(b: Behaviour<S>, a: seq<Node>, c: seq<Node>, l: Label, s: S, v: int, grp: int)
    requires Lab(l) !in a
    ensures Jump(b, a + c, l, s, v, grp) == Jump(b, c, l, s, v, grp)
  {
    FindConcat(a, c, l);
    var k := Find(c, l);
    if k < |c| { assert (a + c)[|a| + k..] == c[k..]; }
  }

  lemma JumpHere<S>(b: Behaviour<S>, c: seq<Node>, l: Label, s: S, v: int, grp: int)
    ensures Jump(b, [Lab(l)] + c, l, s, v, grp) == Run(b, c, s, v, grp)
  {
    assert ([Lab(l)] + c)[0..] == [Lab(l)] + c && ([Lab(l)] + c)[1..] == c;
  }

  // ----- the emitted body, item by item -----

  /** The nodes of an item after the anchors were replaced. */
  function Spliced(items: seq<Item>, exit: nat, s: Scan, it: Item): seq<Node> {
    if it.IsCase() then
      (if s.group >= 0 && s.porch then Selectors(items, exit, s.group, 0) else []) + [Lab(CaseL(s.counter))]
    else Emit(s, it, exit)
  }

  function Nodes(items: seq<Item>, exit: nat, i: nat): seq<Node>
    requires i < |items|
  {
    Spliced(items, exit, At(items, exit, i), items[i])
  }

  function Tail(items: seq<Item>, exit: nat, i: nat): seq<Node>
    requires i <= |items|
    decreases |items| - i
  {
    if i == |items| then [Lab(ExitL(exit))] else Nodes(items, exit, i) + Tail(items, exit, i + 1)
  }

  lemma {:induction false} SpliceConcat(items: seq<Item>, exit: nat, a: seq<Node>, c: seq<Node>)
    ensures Splice(items, exit, a + c) == Splice(items, exit, a) + Splice(items, exit, c)
  {
    if a == [] {
      assert a + c == c;
    } else {
      assert (a + c)[0] == a[0] && (a + c)[1..] == a[1..] + c;
      SpliceConcat(items, exit, a[1..], c);
    }
  }

  lemma SpliceOne(items: seq<Item>, exit: nat, n: Node)
    ensures Splice(items, exit, [n]) == if n.Anchor? then Selectors(items, exit, n.group, 0) else [n]
  {
    assert [n][1..] == [] && Splice(items, exit, []) == [];
  }

  lemma SpliceItem(items: seq<Item>, exit: nat, s: Scan, it: Item)
    ensures Splice(items, exit, Emit(s, it, exit)) == Spliced(items, exit, s, it)
  {
    var e := Emit(s, it, exit);
    SpliceOne(items, exit, e[0]);
    if |e| == 2 {
      assert e == [e[0]] + [e[1]];
      SpliceOne(items, exit, e[1]);
      SpliceConcat(items, exit, [e[0]], [e[1]]);
    } else {
      assert e == [e[0]];
    }
  }

  lemma SpliceStep(items: seq<Item>, exit: nat, s: Scan, it: Item, rest: seq<Node>, end: seq<Node>)
    ensures Splice(items, exit, Emit(s, it, exit) + rest) + end
            == Spliced(items, exit, s, it) + (Splice(items, exit, rest) + end)
  {
    SpliceItem(items, exit, s, it);
    SpliceConcat(items, exit, Emit(s, it, exit), rest);
  }

  lemma {:induction false} SpliceIsTail(items: seq<Item>, exit: nat, i: nat)
    requires i <= |items|
    ensures Splice(items, exit, Chain(items, exit, i)) + [Lab(ExitL(exit))] == Tail(items, exit, i)
    decreases |items| - i
  {
    if i < |items| {
      SpliceIsTail(items, exit, i + 1);
      SpliceStep(items, exit, At(items, exit, i), items[i], Chain(items, exit, i + 1), [Lab(ExitL(exit))]);
    }
  }

  // ----- facts about the scan -----

  lemma NumbersStep(s: Scan, it: Item, i: nat)
    ensures s.counter <= Advance(s, it, i).counter && s.groups <= Advance(s, it, i).groups
    ensures s.group < s.groups ==> Advance(s, it, i).group < Advance(s, it, i).groups
  {
  }

  /** Labels and groups are numbered upwards. */
  lemma {:induction false} NumbersGrow(items: seq<Item>, exit: nat, i: nat, j: nat)
    requires i <= j <= |items|
    ensures At(items, exit, i).counter <= At(items, exit, j).counter
    ensures At(items, exit, i).groups <= At(items, exit, j).groups
    decreases j
  {
    if i < j {
      NumbersGrow(items, exit, i, j - 1);
      NumbersStep(At(items, exit, j - 1), items[j - 1], j - 1);
    }
  }

  lemma {:induction false} NumbersBound(items: seq<Item>, exit: nat, i: nat)
    requires i <= |items|
    ensures exit < At(items, exit, i).counter && At(items, exit, i).group < At(items, exit, i).groups
    decreases i
  {
    if i > 0 {
      NumbersBound(items, exit, i - 1);
      NumbersStep(At(items, exit, i - 1), items[i - 1], i - 1);
    }
  }

  predicate TakesLabel(it: Item) {
    it.IsCase() || it.Default? || it.Start?
  }

  lemma LabelsDiffer(items: seq<Item>, exit: nat, i: nat, j: nat)
    requires i < j < |items| && TakesLabel(items[i])
    ensures At(items, exit, i).counter < At(items, exit, j).counter
  {
    NumbersGrow(items, exit, i + 1, j);
    assert At(items, exit, i + 1) == Advance(At(items, exit, i), items[i], i);
  }

  /** The scan knows the open group and the next value, and its labels come from the
      start: that opened the group. */
  lemma {:induction false} ScanMeaning(items: seq<Item>, exit: nat, i: nat)
    requires i <= |items|
    ensures var s := At(items, exit, i);
            && (s.group >= 0 <==> OpenStart(items, i).Some?)
            && s.next == NextValue(items, i)
            && (s.endLabel.GroupEndL? || s.endLabel == ExitL(exit))
            && (s.group >= 0 ==> s.endLabel.GroupEndL? && OpenStart(items, i) == Some(s.start))
            && (s.group >= 0 ==> items[s.start].Start? && s.porchLabel == PorchL(At(items, exit, s.start).counter))
    decreases i
  {
    if i > 0 { ScanMeaning(items, exit, i - 1); }
  }

  /** Inside a group nothing opens or closes one. */
  lemma {:induction false} OpenRun(items: seq<Item>, exit: nat, p: nat, j: nat, i: nat)
    requires p < j <= i <= |items| && OpenStart(items, i) == Some(p)
    ensures OpenStart(items, j) == Some(p)
    ensures j < i ==> !items[j].Start? && !items[j].End?
    ensures At(items, exit, j).group == At(items, exit, i).group
    ensures At(items, exit, j).nth <= At(items, exit, i).nth
    decreases i
  {
    if j < i {
      OpenRun(items, exit, p, j, i - 1);
    }
  }

  /** Before the first case of a group there is no case of it. */
  lemma {:induction false} PorchHasNoCase(items: seq<Item>, exit: nat, i: nat, j: nat)
    requires j < i <= |items| && At(items, exit, i).group >= 0 && At(items, exit, i).porch && items[j].IsCase()
    ensures At(items, exit, j).group != At(items, exit, i).group
    decreases i
  {
    assert At(items, exit, i) == Advance(At(items, exit, i - 1), items[i - 1], i - 1);
    NumbersGrow(items, exit, j, i - 1);
    NumbersBound(items, exit, j);
    if !items[i - 1].Start? { PorchHasNoCase(items, exit, i - 1, j); }
  }

  /** The case number k of group g, at or after i. */
  function CaseOf(items: seq<Item>, exit: nat, g: int, i: nat, k: int): (r: Option<nat>)
    requires i <= |items|
    ensures r.Some? ==> i <= r.value < |items| && items[r.value].IsCase()
    decreases |items| - i
  {
    if i == |items| then None
    else if items[i].IsCase() && At(items, exit, i).group == g && At(items, exit, i).nth == k then Some(i)
    else CaseOf(items, exit, g, i + 1, k)
  }

  lemma {:induction false} CaseOfFromPorch(items: seq<Item>, exit: nat, i: nat, j: nat, k: int)
    requires j <= i <= |items| && At(items, exit, i).group >= 0 && At(items, exit, i).porch
    ensures CaseOf(items, exit, At(items, exit, i).group, j, k) == CaseOf(items, exit, At(items, exit, i).group, i, k)
    decreases i - j
  {
    if j < i {
      CaseOfFromPorch(items, exit, i, j + 1, k);
      if items[j].IsCase() { PorchHasNoCase(items, exit, i, j); }
    }
  }

  lemma {:induction false} NoNegativeCase(items: seq<Item>, exit: nat, g: int, i: nat)
    requires i <= |items|
    ensures CaseOf(items, exit, g, i, -1) == None
    decreases |items| - i
  {
    if i < |items| { NoNegativeCase(items, exit, g, i + 1); }
  }

  /** Within a group the numbers identify the cases. */
  lemma {:induction false} CaseOfItself(items: seq<Item>, exit: nat, p: nat, j: nat, i: nat)
    requires p < j <= i < |items| && OpenStart(items, i) == Some(p) && items[i].IsCase()
    ensures CaseOf(items, exit, At(items, exit, i).group, j, At(items, exit, i).nth) == Some(i)
    decreases i - j
  {
    if j < i {
      CaseOfItself(items, exit, p, j + 1, i);
      OpenRun(items, exit, p, j + 1, i);
      assert At(items, exit, j + 1) == Advance(At(items, exit, j), items[j], j);
    }
  }

  // ----- where the jumps go -----

  lemma {:induction false} SelectorsHaveNoLabel(items: seq<Item>, exit: nat, g: nat, i: nat, l: Label)
    requires i <= |items|
    ensures Lab(l) !in Selectors(items, exit, g, i)
    decreases |items| - i
  {
    if i < |items| { SelectorsHaveNoLabel(items, exit, g, i + 1, l); }
  }

  lemma NodesLabels(items: seq<Item>, exit: nat, i: nat, l: Label)
    requires i < |items| && Lab(l) in Nodes(items, exit, i)
    ensures match items[i]
            case Default => l == DefaultL(At(items, exit, i).counter)
            case Start => l == PorchL(At(items, exit, i).counter)
            case End => l == At(items, exit, i).endLabel
            case Act(_, _) => false
            case _ => l == CaseL(At(items, exit, i).counter)
  {
    var s := At(items, exit, i);
    if items[i].IsCase() && s.group >= 0 && s.porch { SelectorsHaveNoLabel(items, exit, s.group, 0, l); }
  }

  /** The label that item i defines for itself. */
  function OwnLabel(items: seq<Item>, exit: nat, i: nat): Label
    requires i < |items| && TakesLabel(items[i])
  {
    var n := At(items, exit, i).counter;
    if items[i].Default? then DefaultL(n) else if items[i].Start? then PorchL(n) else CaseL(n)
  }

  lemma NodesLackLater(items: seq<Item>, exit: nat, j: nat, i: nat)
    requires j < i < |items| && TakesLabel(items[i])
    ensures Lab(OwnLabel(items, exit, i)) !in Nodes(items, exit, j)
  {
    if Lab(OwnLabel(items, exit, i)) in Nodes(items, exit, j) {
      NodesLabels(items, exit, j, OwnLabel(items, exit, i));
      ScanMeaning(items, exit, j);
      if TakesLabel(items[j]) { LabelsDiffer(items, exit, j, i); }
    }
  }

  lemma NodesLackExit(items: seq<Item>, exit: nat, j: nat)
    requires j < |items| && AcceptsAt(items, exit, j)
    ensures Lab(ExitL(exit)) !in Nodes(items, exit, j)
  {
    if Lab(ExitL(exit)) in Nodes(items, exit, j) {
      NodesLabels(items, exit, j, ExitL(exit));
      ScanMeaning(items, exit, j);
    }
  }

  lemma JumpLands<S>(b: Behaviour<S>, items: seq<Item>, exit: nat, i: nat, rest: seq<Node>, s: S, v: int, grp: int)
    requires i < |items| && TakesLabel(items[i])
    ensures Jump(b, Nodes(items, exit, i) + rest, OwnLabel(items, exit, i), s, v, grp) == Run(b, rest, s, v, grp)
  {
    var l, now, t := OwnLabel(items, exit, i), Nodes(items, exit, i), At(items, exit, i);
    var before := if items[i].Start? then [SetGroup(-1)]
                  else if items[i].IsCase() && t.group >= 0 && t.porch then Selectors(items, exit, t.group, 0)
                  else [];
    assert now == before + [Lab(l)];
    if items[i].IsCase() && t.group >= 0 && t.porch { SelectorsHaveNoLabel(items, exit, t.group, 0, l); }
    AppendStep(before, [Lab(l)], rest);
    JumpOver(b, before, [Lab(l)] + rest, l, s, v, grp);
    JumpHere(b, rest, l, s, v, grp);
  }

  /** A jump to a case, default or porch arrives behind that very item. */
  lemma JumpToItem<S>(b: Behaviour<S>, items: seq<Item>, exit: nat, j: nat, i: nat, s: S, v: int, grp: int)
    requires j <= i < |items| && TakesLabel(items[i])
    ensures Jump(b, Tail(items, exit, j), OwnLabel(items, exit, i), s, v, grp)
            == Run(b, Tail(items, exit, i + 1), s, v, grp)
  {
    forall k | j <= k < i ensures Lab(OwnLabel(items, exit, i)) !in Nodes(items, exit, k) {
      NodesLackLater(items, exit, k, i);
    }
    JumpPast(b, items, exit, j, i, OwnLabel(items, exit, i), s, v, grp);
    JumpLands(b, items, exit, i, Tail(items, exit, i + 1), s, v, grp);
  }

  /** The nodes of the items from j up to i. */
  function Between(items: seq<Item>, exit: nat, j: nat, i: nat): seq<Node>
    requires j <= i <= |items|
    decreases i - j
  {
    if j == i then [] else Nodes(items, exit, j) + Between(items, exit, j + 1, i)
  }

  lemma {:induction false} TailSplit(items: seq<Item>, exit: nat, j: nat, i: nat)
    requires j <= i <= |items|
    ensures Tail(items, exit, j) == Between(items, exit, j, i) + Tail(items, exit, i)
    decreases i - j
  {
    if j < i { TailSplit(items, exit, j + 1, i); }
  }

  lemma {:induction false} BetweenLacks(items: seq<Item>, exit: nat, j: nat, i: nat, x: Node)
    requires j <= i <= |items| && forall k | j <= k < i :: x !in Nodes(items, exit, k)
    ensures x !in Between(items, exit, j, i)
    decreases i - j
  {
    if j < i {
      BetweenLacks(items, exit, j + 1, i, x);
      NotInConcat(x, Nodes(items, exit, j), Between(items, exit, j + 1, i));
    }
  }

  lemma NotInConcat(x: Node, a: seq<Node>, c: seq<Node>)
    requires x !in a && x !in c
    ensures x !in a + c
  {
  }

  /** A jump passes the items without the label. */
  lemma JumpPast<S>(b: Behaviour<S>, items: seq<Item>, exit: nat, j: nat, i: nat, l: Label, s: S, v: int, grp: int)
    requires j <= i <= |items| && forall k | j <= k < i :: Lab(l) !in Nodes(items, exit, k)
    ensures Jump(b, Tail(items, exit, j), l, s, v, grp) == Jump(b, Tail(items, exit, i), l, s, v, grp)
  {
    TailSplit(items, exit, j, i);
    BetweenLacks(items, exit, j, i, Lab(l));
    JumpOver(b, Between(items, exit, j, i), Tail(items, exit, i), l, s, v, grp);
  }

  /** A break outside groups ends the switch. */
  lemma JumpToExit<S>(b: Behaviour<S>, items: seq<Item>, exit: nat, j: nat, s: S, v: int, grp: int)
    requires j <= |items| && Accepted(items, exit)
    ensures Jump(b, Tail(items, exit, j), ExitL(exit), s, v, grp) == Ended(Finished(s), grp)
  {
    forall k | j <= k < |items| ensures Lab(ExitL(exit)) !in Nodes(items, exit, k) {
      assert AcceptsAt(items, exit, k);
      NodesLackExit(items, exit, k);
    }
    JumpPast(b, items, exit, j, |items|, ExitL(exit), s, v, grp);
    assert Tail(items, exit, |items|) == [Lab(ExitL(exit))] + [];
    JumpHere(b, [], ExitL(exit), s, v, grp);
  }

  /** A break inside a group goes to the end: that closes the group. */
  lemma {:induction false} JumpToGroupEnd<S>(b: Behaviour<S>, items: seq<Item>, exit: nat, j: nat, s: S, v: int,
                                             grp: int)
    requires j <= |items| && Accepted(items, exit) && At(items, exit, j).group >= 0
    ensures Jump(b, Tail(items, exit, j), At(items, exit, j).endLabel, s, v, grp)
            == Run(b, Tail(items, exit, GroupExit(items, j)), s, v, grp)
    decreases |items| - j
  {
    var t := At(items, exit, j);
    var l, now, rest := t.endLabel, Nodes(items, exit, j), Tail(items, exit, j + 1);
    assert AcceptsAt(items, exit, j);
    if items[j].End? {
      assert now == [Lab(l)];
      JumpHere(b, rest, l, s, v, grp);
      assert ([Lab(l)] + rest)[1..] == rest;
    } else {
      ScanMeaning(items, exit, j);
      if Lab(l) in now { NodesLabels(items, exit, j, l); }
      JumpOver(b, now, rest, l, s, v, grp);
      assert At(items, exit, j + 1) == Advance(t, items[j], j);
      JumpToGroupEnd(b, items, exit, j + 1, s, v, grp);
    }
  }

  // ----- the body -----

  /** The selectors of a group jump to the chosen case, or fall through to the first. */
  lemma {:induction false} RunSelectors<S>(b: Behaviour<S>, items: seq<Item>, exit: nat, g: nat, j: nat,
                                           rest: seq<Node>, s: S, v: int, grp: int)
    requires j <= |items|
    ensures Run(b, Selectors(items, exit, g, j) + rest, s, v, grp)
         == (var c := CaseOf(items, exit, g, j, grp);
             if c.Some? then Jump(b, rest, CaseL(At(items, exit, c.value).counter), s, v, grp)
             else Run(b, rest, s, v, grp))
    decreases |items| - j
  {
    if j == |items| {
      assert Selectors(items, exit, g, j) + rest == rest;
    } else {
      var t, later := At(items, exit, j), Selectors(items, exit, g, j + 1);
      RunSelectors(b, items, exit, g, j + 1, rest, s, v, grp);
      if items[j].IsCase() && t.group == g {
        SelectorStep(b, items, exit, g, j, rest, s, v, grp);
      } else {
        assert Selectors(items, exit, g, j) == later;
      }
    }
  }

  lemma SelectorStep<S>(b: Behaviour<S>, items: seq<Item>, exit: nat, g: nat, j: nat, rest: seq<Node>, s: S, v: int,
                        grp: int)
    requires j < |items| && items[j].IsCase() && At(items, exit, j).group == g
    ensures Run(b, Selectors(items, exit, g, j) + rest, s, v, grp)
         == if grp == At(items, exit, j).nth then Jump(b, rest, CaseL(At(items, exit, j).counter), s, v, grp)
            else Run(b, Selectors(items, exit, g, j + 1) + rest, s, v, grp)
  {
    var t, later := At(items, exit, j), Selectors(items, exit, g, j + 1);
    var l, all := CaseL(t.counter), Selectors(items, exit, g, j) + rest;
    assert all[0] == IfGroup(t.nth, l) && all[1..] == later + rest;
    SelectorsHaveNoLabel(items, exit, g, j + 1, l);
    JumpOver(b, later, rest, l, s, v, grp);
  }

  /** The case the selectors still ahead in the open porch will choose. */
  function Pending(items: seq<Item>, exit: nat, i: nat, grp: int): (r: Option<nat>)
    requires i <= |items|
    ensures r.Some? ==> i <= r.value < |items| && items[r.value].IsCase()
  {
    var t := At(items, exit, i);
    if t.group >= 0 && t.porch then CaseOf(items, exit, t.group, i, grp) else None
  }

  /** Running the emitted body from item i is walking the items from i, with the
      pending case of the selector variable taking over. */
  lemma {:induction false} WalkSim<S>(b: Behaviour<S>, items: seq<Item>, exit: nat, i: nat, s: S, v: int, grp: int)
    requires i <= |items| && Accepted(items, exit)
    ensures Walk(b, items, i, Pending(items, exit, i, grp), s) == Run(b, Tail(items, exit, i), s, v, grp).final
    decreases |items| - i
  {
    if i == |items| {
      assert Tail(items, exit, i)[1..] == [];
      assert Run(b, [], s, v, grp) == Ended(Finished(s), grp);
    } else {
      match items[i]
      case Act(_, _) => WalkAct(b, items, exit, i, s, v, grp);
      case Start => WalkStart(b, items, exit, i, s, v, grp);
      case Default => WalkMark(b, items, exit, i, s, v, grp);
      case End => WalkMark(b, items, exit, i, s, v, grp);
      case _ => WalkCase(b, items, exit, i, s, v, grp);
    }
  }

  lemma {:induction false} WalkStart<S>(b: Behaviour<S>, items: seq<Item>, exit: nat, i: nat, s: S, v: int, grp: int)
    requires i < |items| && Accepted(items, exit) && items[i].Start?
    ensures Walk(b, items, i, Pending(items, exit, i, grp), s) == Run(b, Tail(items, exit, i), s, v, grp).final
    decreases |items| - i, 0
  {
    var t, now, rest := At(items, exit, i), Nodes(items, exit, i), Tail(items, exit, i + 1);
    assert At(items, exit, i + 1) == Advance(t, items[i], i);
    var own := [Lab(PorchL(t.counter))];
    assert now == [SetGroup(-1)] + own;
    assert (now + rest)[0] == SetGroup(-1) && (now + rest)[1..] == own + rest && (own + rest)[1..] == rest;
    NoNegativeCase(items, exit, t.groups, i + 1);
    WalkSim(b, items, exit, i + 1, s, v, -1);
  }

  lemma {:induction false} WalkMark<S>(b: Behaviour<S>, items: seq<Item>, exit: nat, i: nat, s: S, v: int, grp: int)
    requires i < |items| && Accepted(items, exit) && (items[i].Default? || items[i].End?)
    ensures Walk(b, items, i, Pending(items, exit, i, grp), s) == Run(b, Tail(items, exit, i), s, v, grp).final
    decreases |items| - i, 0
  {
    var now, rest := Nodes(items, exit, i), Tail(items, exit, i + 1);
    assert At(items, exit, i + 1) == Advance(At(items, exit, i), items[i], i);
    assert |now| == 1 && now[0].Lab? && (now + rest)[1..] == rest;
    WalkSim(b, items, exit, i + 1, s, v, grp);
  }

  lemma {:induction false} WalkAct<S>(b: Behaviour<S>, items: seq<Item>, exit: nat, i: nat, s: S, v: int, grp: int)
    requires i < |items| && Accepted(items, exit) && items[i].Act?
    ensures Walk(b, items, i, Pending(items, exit, i, grp), s) == Run(b, Tail(items, exit, i), s, v, grp).final
    decreases |items| - i, 0
  {
    var t, now, rest := At(items, exit, i), Nodes(items, exit, i), Tail(items, exit, i + 1);
    var (s1, e) := b.act(items[i].id, s);
    assert At(items, exit, i + 1) == Advance(t, items[i], i);
    assert now == [Body(items[i].id, BreakLabel(t, exit))] && (now + rest)[1..] == rest;
    match e
    case Falls => WalkSim(b, items, exit, i + 1, s1, v, grp);
    case Leaves(_) =>
    case Breaks =>
      var to := BreakTo(items, i + 1);
      ScanMeaning(items, exit, i + 1);
      if t.group >= 0 {
        JumpToGroupEnd(b, items, exit, i + 1, s1, v, grp);
        GroupExitExists(items, exit, i + 1);
        WalkSim(b, items, exit, to, s1, v, grp);
        WalkEnd(b, items, exit, to, s1, grp);
      } else {
        JumpToExit(b, items, exit, i + 1, s1, v, grp);
      }
  }

  lemma {:induction false} GroupExitExists(items: seq<Item>, exit: nat, i: nat)
    requires i <= |items| && Accepted(items, exit) && At(items, exit, i).group >= 0
    ensures GroupExit(items, i) < |items|
    decreases |items| - i
  {
    if i < |items| && !items[i].End? {
      assert AcceptsAt(items, exit, i);
      assert At(items, exit, i + 1) == Advance(At(items, exit, i), items[i], i);
      GroupExitExists(items, exit, i + 1);
    }
  }

  /** At an end: nothing is pending any more. */
  lemma WalkEnd<S>(b: Behaviour<S>, items: seq<Item>, exit: nat, i: nat, s: S, grp: int)
    requires i < |items| && items[i].End?
    ensures Walk(b, items, i, Pending(items, exit, i, grp), s) == Walk(b, items, i, None, s)
  {
  }

  lemma {:induction false} WalkCase<S>(b: Behaviour<S>, items: seq<Item>, exit: nat, i: nat, s: S, v: int, grp: int)
    requires i < |items| && Accepted(items, exit) && items[i].IsCase()
    ensures Walk(b, items, i, Pending(items, exit, i, grp), s) == Run(b, Tail(items, exit, i), s, v, grp).final
    decreases |items| - i, 1
  {
    var t := At(items, exit, i);
    assert At(items, exit, i + 1) == Advance(t, items[i], i);
    if t.group >= 0 && t.porch {
      WalkFirstCase(b, items, exit, i, s, v, grp);
    } else {
      assert ([Lab(CaseL(t.counter))] + Tail(items, exit, i + 1))[1..] == Tail(items, exit, i + 1);
      AfterCase(items, exit, i, grp);
      WalkSim(b, items, exit, i + 1, s, v, grp);
    }
  }

  lemma {:induction false} WalkFirstCase<S>(b: Behaviour<S>, items: seq<Item>, exit: nat, i: nat, s: S, v: int,
                                            grp: int)
    requires i < |items| && Accepted(items, exit) && items[i].IsCase() && At(items, exit, i).group >= 0
             && At(items, exit, i).porch
    ensures Walk(b, items, i, Pending(items, exit, i, grp), s) == Run(b, Tail(items, exit, i), s, v, grp).final
    decreases |items| - i, 0
  {
    var n := Chosen(items, exit, i, grp) + 1;
    PorchRuns(b, items, exit, i, s, v, grp);
    AfterCase(items, exit, n - 1, grp);
    WalkSim(b, items, exit, n, s, v, grp);
    WalkTakes(b, items, exit, i, s, grp);
  }

  /** The case that goes on behind the porch: the one chosen, or the first. */
  function Chosen(items: seq<Item>, exit: nat, i: nat, grp: int): (c: nat)
    requires i < |items| && items[i].IsCase()
    ensures i <= c < |items| && items[c].IsCase()
  {
    var c := Pending(items, exit, i, grp);
    if c.Some? then c.value else i
  }

  lemma WalkTakes<S>(b: Behaviour<S>, items: seq<Item>, exit: nat, i: nat, s: S, grp: int)
    requires i < |items| && items[i].IsCase()
    ensures Walk(b, items, i, Pending(items, exit, i, grp), s)
            == Walk(b, items, Chosen(items, exit, i, grp) + 1, None, s)
  {
  }

  lemma PorchRuns<S>(b: Behaviour<S>, items: seq<Item>, exit: nat, i: nat, s: S, v: int, grp: int)
    requires i < |items| && items[i].IsCase() && At(items, exit, i).group >= 0 && At(items, exit, i).porch
    ensures Run(b, Tail(items, exit, i), s, v, grp)
            == Run(b, Tail(items, exit, Chosen(items, exit, i, grp) + 1), s, v, grp)
  {
    ChosenIs(items, exit, i, grp);
    PorchEnds(b, items, exit, i, s, v, grp);
    if Chosen(items, exit, i, grp) > i { CaseAhead(b, items, exit, i, Chosen(items, exit, i, grp), s, v, grp); }
  }

  lemma ChosenIs(items: seq<Item>, exit: nat, i: nat, grp: int)
    requires i < |items| && items[i].IsCase() && At(items, exit, i).group >= 0 && At(items, exit, i).porch
    ensures var c := CaseOf(items, exit, At(items, exit, i).group, 0, grp);
            Chosen(items, exit, i, grp) == if c.Some? then c.value else i
  {
    CaseOfFromPorch(items, exit, i, 0, grp);
  }

  /** The selectors in front of the first case choose a case, or fall into this one. */
  lemma PorchEnds<S>(b: Behaviour<S>, items: seq<Item>, exit: nat, i: nat, s: S, v: int, grp: int)
    requires i < |items| && items[i].IsCase() && At(items, exit, i).group >= 0 && At(items, exit, i).porch
    ensures var t, rest := At(items, exit, i), Tail(items, exit, i + 1);
            var c := CaseOf(items, exit, t.group, 0, grp);
            Run(b, Tail(items, exit, i), s, v, grp)
            == if c.Some? && c.value != i
               then Jump(b, [Lab(OwnLabel(items, exit, i))] + rest, OwnLabel(items, exit, c.value), s, v, grp)
               else Run(b, rest, s, v, grp)
  {
    var t, rest := At(items, exit, i), Tail(items, exit, i + 1);
    var own, sel := [Lab(OwnLabel(items, exit, i))], Selectors(items, exit, t.group, 0);
    AppendStep(sel, own, rest);
    RunSelectors(b, items, exit, t.group, 0, own + rest, s, v, grp);
    JumpHere(b, rest, OwnLabel(items, exit, i), s, v, grp);
    assert (own + rest)[1..] == rest;
  }

  lemma CaseAhead<S>(b: Behaviour<S>, items: seq<Item>, exit: nat, i: nat, c: nat, s: S, v: int, grp: int)
    requires i < c < |items| && items[i].IsCase() && items[c].IsCase()
    ensures Jump(b, [Lab(OwnLabel(items, exit, i))] + Tail(items, exit, i + 1), OwnLabel(items, exit, c), s, v, grp)
         == Run(b, Tail(items, exit, c + 1), s, v, grp)
  {
    OwnDiffers(items, exit, i, c);
    JumpOver(b, [Lab(OwnLabel(items, exit, i))], Tail(items, exit, i + 1), OwnLabel(items, exit, c), s, v, grp);
    JumpToItem(b, items, exit, i + 1, c, s, v, grp);
  }

  lemma OwnDiffers(items: seq<Item>, exit: nat, i: nat, c: nat)
    requires i < c < |items| && items[i].IsCase() && items[c].IsCase()
    ensures Lab(OwnLabel(items, exit, c)) !in [Lab(OwnLabel(items, exit, i))]
  {
    LabelsDiffer(items, exit, i, c);
  }

  lemma AfterCase(items: seq<Item>, exit: nat, i: nat, grp: int)
    requires i < |items| && items[i].IsCase()
    ensures Pending(items, exit, i + 1, grp) == None
  {
    assert At(items, exit, i + 1) == Advance(At(items, exit, i), items[i], i);
  }

  // ----- the whole block -----

  lemma CoversMeaning(items: seq<Item>, exit: nat, i: nat, v: int)
    requires i < |items| && items[i].IsCase()
    ensures var (lo, hi) := Bounds(At(items, exit, i), items[i]); Covers(items, i, v) <==> lo <= v <= hi
  {
    ScanMeaning(items, exit, i);
  }

  lemma {:induction false} DispatchHasNoLabel(items: seq<Item>, exit: nat, i: nat, l: Label)
    requires i <= |items|
    ensures Lab(l) !in Dispatch(items, exit, i)
    decreases |items| - i
  {
    if i < |items| { DispatchHasNoLabel(items, exit, i + 1, l); }
  }

  /** What the dispatch chain does before the body is reached. */
  function Enter<S>(b: Behaviour<S>, items: seq<Item>, exit: nat, rest: seq<Node>, m: Option<nat>, s: S, v: int,
                    grp: int): Ended<S>
    requires m.Some? ==> m.value < |items| && items[m.value].IsCase()
  {
    if m.None? then Run(b, rest, s, v, grp) else
    var t := At(items, exit, m.value);
    Take(b, rest, if t.group >= 0 then Select(t.nth, t.porchLabel) else To(CaseL(t.counter)), s, v, grp)
  }

  /** The chain takes the branch of the first case that covers the value. */
  lemma {:induction false} RunDispatch<S>(b: Behaviour<S>, items: seq<Item>, exit: nat, i: nat, rest: seq<Node>, s: S,
                                          v: int, grp: int)
    requires i <= |items|
    ensures Run(b, Dispatch(items, exit, i) + rest, s, v, grp)
            == Enter(b, items, exit, rest, FirstMatch(items, i, v), s, v, grp)
    decreases |items| - i
  {
    if i == |items| {
      assert Dispatch(items, exit, i) + rest == rest;
    } else if items[i].IsCase() {
      DispatchCase(b, items, exit, i, rest, s, v, grp);
      if Covers(items, i, v) {
        DispatchTaken(b, items, exit, i, rest, s, v, grp);
      } else {
        RunDispatch(b, items, exit, i + 1, rest, s, v, grp);
      }
    } else {
      assert Dispatch(items, exit, i) == Dispatch(items, exit, i + 1);
      RunDispatch(b, items, exit, i + 1, rest, s, v, grp);
    }
  }

  /** One test of the chain. */
  lemma DispatchCase<S>(b: Behaviour<S>, items: seq<Item>, exit: nat, i: nat, rest: seq<Node>, s: S, v: int, grp: int)
    requires i < |items| && items[i].IsCase()
    ensures var t, later := At(items, exit, i), Dispatch(items, exit, i + 1) + rest;
            Run(b, Dispatch(items, exit, i) + rest, s, v, grp)
            == if Covers(items, i, v) then Take(b, later, if t.group >= 0 then Select(t.nth, t.porchLabel)
                                                          else To(CaseL(t.counter)), s, v, grp)
               else Run(b, later, s, v, grp)
  {
    var all := Dispatch(items, exit, i) + rest;
    assert all[0] == CaseTest(At(items, exit, i), items[i]) && all[1..] == Dispatch(items, exit, i + 1) + rest;
    CoversMeaning(items, exit, i, v);
  }

  /** The tests behind the one that holds are jumped over. */
  lemma DispatchTaken<S>(b: Behaviour<S>, items: seq<Item>, exit: nat, i: nat, rest: seq<Node>, s: S, v: int, grp: int)
    requires i < |items| && items[i].IsCase()
    ensures var t, later := At(items, exit, i), Dispatch(items, exit, i + 1);
            var l, n := if t.group >= 0 then t.porchLabel else CaseL(t.counter), if t.group >= 0 then t.nth else grp;
            Jump(b, later + rest, l, s, v, n) == Jump(b, rest, l, s, v, n)
  {
    var t := At(items, exit, i);
    var l := if t.group >= 0 then t.porchLabel else CaseL(t.counter);
    DispatchHasNoLabel(items, exit, i + 1, l);
    JumpOver(b, Dispatch(items, exit, i + 1), rest, l, s, v, if t.group >= 0 then t.nth else grp);
  }

  /** Where a default inside a porch resumes: the selector variable still holds what
      was there before the switch. */
  function Resume(items: seq<Item>, exit: nat, grp: int): (r: Option<nat>)
    ensures r.Some? ==> r.value < |items| && items[r.value].IsCase()
    ensures r.Some? ==> LastDefault(items, 0, None).Some? && LastDefault(items, 0, None).value < r.value
  {
    var d := LastDefault(items, 0, None);
    if d.Some? then Pending(items, exit, d.value + 1, grp) else None
  }

  /** The block evaluates its condition and runs the chain. */
  lemma LoweredEnters<S>(b: Behaviour<S>, items: seq<Item>, exit: nat, s: S, v: int, grp: int)
    ensures var (v1, s1) := b.cond(s);
            Run(b, Lowered(items, exit), s, v, grp)
            == Enter(b, items, exit, [Goto(Otherwise(items, exit))] + Tail(items, exit, 0), FirstMatch(items, 0, v1),
                     s1, v1, grp)
  {
    var (v1, s1) := b.cond(s);
    var tail := Tail(items, exit, 0);
    var goto := [Goto(Otherwise(items, exit))];
    SpliceIsTail(items, exit, 0);
    var dispatch := Dispatch(items, exit, 0);
    assert Lowered(items, exit) == [Setup] + (dispatch + (goto + tail));
    assert ([Setup] + (dispatch + (goto + tail)))[1..] == dispatch + (goto + tail);
    RunDispatch(b, items, exit, 0, goto + tail, s1, v1, grp);
  }

  /** For every accepted switch, value and start state: the block ends as the switch
      means, where grp is what the selector variable held before. */
  lemma SwitchMeaning<S>(b: Behaviour<S>, items: seq<Item>, exit: nat, s: S, v: int, grp: int)
    requires Accepted(items, exit)
    ensures Run(b, Lowered(items, exit), s, v, grp).final == Switch(b, items, s, Resume(items, exit, grp))
  {
    var (v1, s1) := b.cond(s);
    LoweredEnters(b, items, exit, s, v, grp);
    match FirstMatch(items, 0, v1)
    case Some(i) => EnterCase(b, items, exit, i, s1, v1, grp);
    case None => EnterDefault(b, items, exit, s1, v1, grp);
  }

  lemma EnterCase<S>(b: Behaviour<S>, items: seq<Item>, exit: nat, i: nat, s: S, v: int, grp: int)
    requires Accepted(items, exit) && i < |items| && items[i].IsCase()
    ensures Enter(b, items, exit, [Goto(Otherwise(items, exit))] + Tail(items, exit, 0), Some(i), s, v, grp).final
         == match OpenStart(items, i)
            case Some(p) => Walk(b, items, p + 1, Some(i), s)
            case None => Walk(b, items, i + 1, None, s)
  {
    ScanMeaning(items, exit, i);
    if At(items, exit, i).group >= 0 {
      EnterGrouped(b, items, exit, i, s, v, grp);
    } else {
      EnterPlain(b, items, exit, i, s, v, grp);
    }
  }

  /** A branch of the chain passes the jump to the default. */
  lemma GotoPassed<S>(b: Behaviour<S>, to: Label, tail: seq<Node>, l: Label, s: S, v: int, grp: int)
    ensures Jump(b, [Goto(to)] + tail, l, s, v, grp) == Jump(b, tail, l, s, v, grp)
  {
    JumpOver(b, [Goto(to)], tail, l, s, v, grp);
  }

  lemma EnterPlain<S>(b: Behaviour<S>, items: seq<Item>, exit: nat, i: nat, s: S, v: int, grp: int)
    requires Accepted(items, exit) && i < |items| && items[i].IsCase() && At(items, exit, i).group < 0
    ensures Enter(b, items, exit, [Goto(Otherwise(items, exit))] + Tail(items, exit, 0), Some(i), s, v, grp).final
            == Walk(b, items, i + 1, None, s)
  {
    GotoPassed(b, Otherwise(items, exit), Tail(items, exit, 0), OwnLabel(items, exit, i), s, v, grp);
    PlainRuns(b, items, exit, i, s, v, grp);
  }

  lemma PlainRuns<S>(b: Behaviour<S>, items: seq<Item>, exit: nat, i: nat, s: S, v: int, grp: int)
    requires Accepted(items, exit) && i < |items| && items[i].IsCase()
    ensures Jump(b, Tail(items, exit, 0), OwnLabel(items, exit, i), s, v, grp).final == Walk(b, items, i + 1, None, s)
  {
    JumpToItem(b, items, exit, 0, i, s, v, grp);
    AfterCase(items, exit, i, grp);
    WalkSim(b, items, exit, i + 1, s, v, grp);
  }

  /** The chain goes to the porch of the chosen case, and remembers the case. */
  lemma EnterPorch<S>(b: Behaviour<S>, items: seq<Item>, exit: nat, i: nat, s: S, v: int, grp: int)
    requires i < |items| && items[i].IsCase() && At(items, exit, i).group >= 0
    ensures OpenStart(items, i) == Some(At(items, exit, i).start)
    ensures Enter(b, items, exit, [Goto(Otherwise(items, exit))] + Tail(items, exit, 0), Some(i), s, v, grp)
         == Run(b, Tail(items, exit, At(items, exit, i).start + 1), s, v, At(items, exit, i).nth)
  {
    var t := At(items, exit, i);
    EnterSelects(b, items, exit, [Goto(Otherwise(items, exit))] + Tail(items, exit, 0), i, s, v, grp);
    PorchKnown(items, exit, i);
    PorchReached(b, items, exit, t, s, v);
  }

  lemma EnterSelects<S>(b: Behaviour<S>, items: seq<Item>, exit: nat, rest: seq<Node>, i: nat, s: S, v: int, grp: int)
    requires i < |items| && items[i].IsCase() && At(items, exit, i).group >= 0
    ensures var t := At(items, exit, i);
            Enter(b, items, exit, rest, Some(i), s, v, grp) == Jump(b, rest, t.porchLabel, s, v, t.nth)
  {
  }

  lemma PorchKnown(items: seq<Item>, exit: nat, i: nat)
    requires i < |items| && items[i].IsCase() && At(items, exit, i).group >= 0
    ensures var t := At(items, exit, i);
            && t.start < i && OpenStart(items, i) == Some(t.start) && items[t.start].Start?
            && t.porchLabel == PorchL(At(items, exit, t.start).counter)
  {
    ScanMeaning(items, exit, i);
  }

  lemma PorchReached<S>(b: Behaviour<S>, items: seq<Item>, exit: nat, t: Scan, s: S, v: int)
    requires t.start < |items| && items[t.start].Start? && t.porchLabel == PorchL(At(items, exit, t.start).counter)
    ensures Jump(b, [Goto(Otherwise(items, exit))] + Tail(items, exit, 0), t.porchLabel, s, v, t.nth)
         == Run(b, Tail(items, exit, t.start + 1), s, v, t.nth)
  {
    GotoPassed(b, Otherwise(items, exit), Tail(items, exit, 0), t.porchLabel, s, v, t.nth);
    JumpToItem(b, items, exit, 0, t.start, s, v, t.nth);
  }

  lemma EnterGrouped<S>(b: Behaviour<S>, items: seq<Item>, exit: nat, i: nat, s: S, v: int, grp: int)
    requires Accepted(items, exit) && i < |items| && items[i].IsCase() && At(items, exit, i).group >= 0
    ensures OpenStart(items, i) == Some(At(items, exit, i).start)
    ensures Enter(b, items, exit, [Goto(Otherwise(items, exit))] + Tail(items, exit, 0), Some(i), s, v, grp).final
         == Walk(b, items, At(items, exit, i).start + 1, Some(i), s)
  {
    var t := At(items, exit, i);
    var p := t.start;
    EnterPorch(b, items, exit, i, s, v, grp);
    PendingChosen(items, exit, i);
    WalkSim(b, items, exit, p + 1, s, v, t.nth);
  }

  /** Behind the start of its group the number of a case picks that case. */
  lemma PendingChosen(items: seq<Item>, exit: nat, i: nat)
    requires i < |items| && items[i].IsCase() && At(items, exit, i).group >= 0
    requires OpenStart(items, i) == Some(At(items, exit, i).start)
    ensures Pending(items, exit, At(items, exit, i).start + 1, At(items, exit, i).nth) == Some(i)
  {
    var p := At(items, exit, i).start;
    ScanMeaning(items, exit, i);
    CaseOfItself(items, exit, p, p + 1, i);
    OpenRun(items, exit, p, p + 1, i);
    assert At(items, exit, p + 1) == Advance(At(items, exit, p), items[p], p);
  }

  lemma EnterDefault<S>(b: Behaviour<S>, items: seq<Item>, exit: nat, s: S, v: int, grp: int)
    requires Accepted(items, exit)
    ensures Run(b, [Goto(Otherwise(items, exit))] + Tail(items, exit, 0), s, v, grp).final
         == match LastDefault(items, 0, None)
            case Some(j) => Walk(b, items, j + 1, Resume(items, exit, grp), s)
            case None => Finished(s)
  {
    var goto, tail := [Goto(Otherwise(items, exit))], Tail(items, exit, 0);
    assert (goto + tail)[1..] == tail;
    match LastDefault(items, 0, None)
    case Some(j) =>
      JumpToItem(b, items, exit, 0, j, s, v, grp);
      WalkSim(b, items, exit, j + 1, s, v, grp);
    case None => JumpToExit(b, items, exit, 0, s, v, grp);
  }
}
