/** src/parse.c `switch_stmt`: a switch with sub_switch groups becomes a dispatch
    chain of gotos.  Statements of the body are opaque; they fall through, break, or
    leave the switch altogether. */
module SwitchLowering {
  import opened Basics

  /** What stands in a switch body.  `labels` counts the labels a statement takes
      from the parser's counter for itself. */
  datatype Item =
    | Case(lo: int, hi: int)
    | NextCase
    | Default
    | Start
    | End
    | Act(id: nat, labels: nat)
  {
    predicate IsCase() { Case? || NextCase? }
  }

  datatype Label = CaseL(n: nat) | DefaultL(n: nat) | PorchL(n: nat) | GroupEndL(n: nat) | ExitL(n: nat)

  /** The dispatch either jumps to a case, or records the choice and enters a porch. */
  datatype Branch = To(target: Label) | Select(k: nat, porch: Label)

  datatype Node =
    | Setup
    | IfEq(v: int, br: Branch)
    | IfRange(lo: int, hi: int, br: Branch)
    | IfGroup(k: int, target: Label)
    | Goto(target: Label)
    | Lab(name: Label)
    | SetGroup(k: int)
    | Anchor(group: nat)
    | Body(id: nat, brk: Label)

  const MAX_GROUPS := 64

  /** The parser's state in front of an item: the open group (-1 outside), whether
      its first case is still to come, how many groups and cases of the open group
      there were, the value of a bare `case:`, the label counter, and the labels and
      position of the open group. */
  datatype Scan = Scan(group: int, porch: bool, groups: nat, nth: nat, next: int, counter: nat,
                       porchLabel: Label, endLabel: Label, start: nat)

  function Begin(exit: nat): Scan {
    Scan(-1, false, 0, 0, 0, exit + 1, ExitL(exit), ExitL(exit), 0)
  }

  function Bounds(s: Scan, it: Item): (int, int)
    requires it.IsCase()
  {
    if it.Case? then (it.lo, it.hi) else (s.next, s.next)
  }

  /** The state after item it at position i. */
  function Advance(s: Scan, it: Item, i: nat): Scan {
    match it
    case Default => s.(counter := s.counter + 1)
    case Start => s.(group := s.groups, groups := s.groups + 1, porch := true, nth := 0, counter := s.counter + 2,
                     porchLabel := PorchL(s.counter), endLabel := GroupEndL(s.counter + 1), start := i)
    case End => s.(group := -1)
    case Act(_, labels) => s.(counter := s.counter + labels)
    case _ => s.(porch := if s.group >= 0 then false else s.porch, nth := s.nth + 1,
                 next := Bounds(s, it).1 + 1, counter := s.counter + 1)
  }

  function At(items: seq<Item>, exit: nat, i: nat): Scan
    requires i <= |items|
    decreases i
  {
    if i == 0 then Begin(exit) else Advance(At(items, exit, i - 1), items[i - 1], i - 1)
  }

  /** The parser accepts the item. */
  predicate Accepts(s: Scan, it: Item) {
    match it
    case Start => s.group < 0 && s.groups < MAX_GROUPS
    case End => s.group >= 0
    case _ => true
  }

  predicate AcceptsAt(items: seq<Item>, exit: nat, i: nat)
    requires i < |items|
  {
    Accepts(At(items, exit, i), items[i])
  }

  predicate Accepted(items: seq<Item>, exit: nat) {
    && (forall i | 0 <= i < |items| :: AcceptsAt(items, exit, i))
    && At(items, exit, |items|).group < 0
  }

  function BreakLabel(s: Scan, exit: nat): Label {
    if s.group >= 0 then s.endLabel else ExitL(exit)
  }

  /** The statements the first pass appends for one item. */
  function Emit(s: Scan, it: Item, exit: nat): seq<Node> {
    match it
    case Default => [Lab(DefaultL(s.counter))]
    case Start => [SetGroup(-1), Lab(PorchL(s.counter))]
    case End => [Lab(s.endLabel)]
    case Act(id, _) => [Body(id, BreakLabel(s, exit))]
    case _ => (if s.group >= 0 && s.porch then [Anchor(s.group)] else []) + [Lab(CaseL(s.counter))]
  }

  function Chain(items: seq<Item>, exit: nat, i: nat): seq<Node>
    requires i <= |items|
    decreases |items| - i
  {
    if i == |items| then [] else Emit(At(items, exit, i), items[i], exit) + Chain(items, exit, i + 1)
  }

  /** The test and branch of the dispatch chain for a case. */
  function CaseTest(s: Scan, it: Item): Node
    requires it.IsCase()
  {
    var (lo, hi) := Bounds(s, it);
    var br := if s.group >= 0 then Select(s.nth, s.porchLabel) else To(CaseL(s.counter));
    if lo == hi then IfEq(lo, br) else IfRange(lo, hi, br)
  }

  function Dispatch(items: seq<Item>, exit: nat, i: nat): seq<Node>
    requires i <= |items|
    decreases |items| - i
  {
    if i == |items| then []
    else (if items[i].IsCase() then [CaseTest(At(items, exit, i), items[i])] else []) + Dispatch(items, exit, i + 1)
  }

  /** The last default at or after i, or else `found`. */
  function LastDefault(items: seq<Item>, i: nat, found: Option<nat>): (r: Option<nat>)
    requires i <= |items|
    requires found.Some? ==> found.value < i && items[found.value].Default?
    ensures r.Some? ==> r.value < |items| && items[r.value].Default?
    ensures r.None? <==> found.None? && forall j | i <= j < |items| :: !items[j].Default?
    ensures r.Some? ==> r == found || r.value >= i
    ensures found.Some? ==> r.Some? && r.value >= found.value
    ensures r.Some? ==> forall j | i <= j < |items| && items[j].Default? :: j <= r.value
    decreases |items| - i
  {
    if i == |items| then found else LastDefault(items, i + 1, if items[i].Default? then Some(i) else found)
  }

  function DefaultName(items: seq<Item>, exit: nat, d: Option<nat>): Label
    requires d.Some? ==> d.value < |items|
  {
    if d.Some? then DefaultL(At(items, exit, d.value).counter) else ExitL(exit)
  }

  function Otherwise(items: seq<Item>, exit: nat): Label {
    DefaultName(items, exit, LastDefault(items, 0, None))
  }

  /** What replaces the anchor of group g: one selector per case of the group. */
  function Selectors(items: seq<Item>, exit: nat, g: nat, i: nat): seq<Node>
    requires i <= |items|
    decreases |items| - i
  {
    if i == |items| then []
    else
      var s := At(items, exit, i);
      (if items[i].IsCase() && s.group == g then [IfGroup(s.nth, CaseL(s.counter))]
       else []) + Selectors(items, exit, g, i + 1)
  }

  function Splice(items: seq<Item>, exit: nat, nodes: seq<Node>): seq<Node> {
    if nodes == [] then []
    else (if nodes[0].Anchor? then Selectors(items, exit, nodes[0].group, 0)
          else [nodes[0]]) + Splice(items, exit, nodes[1..])
  }

  /** The block the switch becomes. */
  function Lowered(items: seq<Item>, exit: nat): seq<Node> {
    [Setup] + Dispatch(items, exit, 0) + [Goto(Otherwise(items, exit))]
      + Splice(items, exit, Chain(items, exit, 0)) + [Lab(ExitL(exit))]
  }

  // ----- the parser -----

  /** A recorded case; in the second pass `hi` is reused for the index in its group. */
  datatype SwCase = SwCase(lo: int, hi: int, isDefault: bool, name: Label, group: int)

  /** The record the first pass makes for an item, if any. */
  function Record(s: Scan, it: Item): seq<SwCase> {
    if it.IsCase() then [SwCase(Bounds(s, it).0, Bounds(s, it).1, false, CaseL(s.counter), s.group)]
    else if it.Default? then [SwCase(0, 0, true, DefaultL(s.counter), s.group)]
    else []
  }

  function Records(items: seq<Item>, exit: nat, i: nat): seq<SwCase>
    requires i <= |items|
    decreases |items| - i
  {
    if i == |items| then [] else Record(At(items, exit, i), items[i]) + Records(items, exit, i + 1)
  }

  predicate Grouped(c: SwCase) { !c.isDefault && c.group >= 0 }

  /** The test for one record, given the cases seen so far per group. */
  function TestOf(c: SwCase, counts: seq<nat>, porches: seq<Label>): seq<Node>
    requires c.group < |porches| <= |counts|
  {
    if c.isDefault then [] else
    var br := if c.group >= 0 then Select(counts[c.group], porches[c.group]) else To(c.name);
    [if c.lo == c.hi then IfEq(c.lo, br) else IfRange(c.lo, c.hi, br)]
  }

  function After(c: SwCase, counts: seq<nat>): (r: seq<nat>)
    requires c.group < |counts|
    ensures |r| == |counts|
  {
    if Grouped(c) then counts[c.group := counts[c.group] + 1] else counts
  }

  function IndexCase(c: SwCase, counts: seq<nat>): SwCase
    requires c.group < |counts|
  {
    if Grouped(c) then c.(hi := counts[c.group]) else c
  }

  predicate GroupsBelow(cs: seq<SwCase>, n: nat) {
    forall k | 0 <= k < |cs| :: cs[k].group < n
  }

  /** The dispatch chain built from the records. */
  function DispatchOf(cs: seq<SwCase>, counts: seq<nat>, porches: seq<Label>): seq<Node>
    requires |porches| <= |counts| && GroupsBelow(cs, |porches|)
  {
    if cs == [] then []
    else TestOf(cs[0], counts, porches) + DispatchOf(cs[1..], After(cs[0], counts), porches)
  }

  /** The records after the dispatch was built: `hi` of a grouped case is its index. */
  function Indexed(cs: seq<SwCase>, counts: seq<nat>): (r: seq<SwCase>)
    requires GroupsBelow(cs, |counts|)
    ensures |r| == |cs|
  {
    if cs == [] then [] else [IndexCase(cs[0], counts)] + Indexed(cs[1..], After(cs[0], counts))
  }

  function SelectorsOf(cs: seq<SwCase>, g: nat): seq<Node> {
    if cs == [] then []
    else (if cs[0].group == g && !cs[0].isDefault then [IfGroup(cs[0].hi, cs[0].name)]
          else []) + SelectorsOf(cs[1..], g)
  }

  function SpliceOf(nodes: seq<Node>, cs: seq<SwCase>): seq<Node> {
    if nodes == [] then []
    else (if nodes[0].Anchor? then SelectorsOf(cs, nodes[0].group) else [nodes[0]]) + SpliceOf(nodes[1..], cs)
  }

  function LastDefaultName(cs: seq<SwCase>, found: Label): Label {
    if cs == [] then found else LastDefaultName(cs[1..], if cs[0].isDefault then cs[0].name else found)
  }

  /** counts says how many cases of each group stand before position i. */
  ghost predicate CountsAt(items: seq<Item>, exit: nat, i: nat, counts: seq<nat>)
    requires i <= |items|
  {
    var s := At(items, exit, i);
    && (0 <= s.group < |counts| ==> counts[s.group] == s.nth)
    && s.group < s.groups
    && forall g | s.groups <= g < |counts| :: counts[g] == 0
  }

  /** Every group that a case belongs to has its porch label recorded. */
  ghost predicate PorchesOf(items: seq<Item>, exit: nat, porches: seq<Label>) {
    forall j | 0 <= j <= |items| :: PorchKnownAt(items, exit, j, porches)
  }

  ghost predicate PorchKnownAt(items: seq<Item>, exit: nat, j: nat, porches: seq<Label>)
    requires j <= |items|
  {
    PorchKnown(At(items, exit, j), porches)
  }

  /** The counts after item i. */
  function Counted(s: Scan, it: Item, counts: seq<nat>): seq<nat>
    requires s.group < |counts|
  {
    if it.IsCase() && s.group >= 0 then counts[s.group := counts[s.group] + 1] else counts
  }

  lemma CountsStep(items: seq<Item>, exit: nat, i: nat, counts: seq<nat>)
    requires i < |items| && CountsAt(items, exit, i, counts) && At(items, exit, i).group < |counts|
    ensures CountsAt(items, exit, i + 1, Counted(At(items, exit, i), items[i], counts))
  {
    assert At(items, exit, i + 1) == Advance(At(items, exit, i), items[i], i);
  }

  ghost predicate GroupBelowAt(items: seq<Item>, exit: nat, j: nat, n: nat)
    requires j <= |items|
  {
    At(items, exit, j).group < n
  }

  lemma {:induction false} RecordsBelow(items: seq<Item>, exit: nat, i: nat, n: nat)
    requires i <= |items| && (forall j | 0 <= j <= |items| :: GroupBelowAt(items, exit, j, n))
    ensures GroupsBelow(Records(items, exit, i), n)
    decreases |items| - i
  {
    if i < |items| {
      assert GroupBelowAt(items, exit, i, n);
      RecordsBelow(items, exit, i + 1, n);
      var now, rest := Record(At(items, exit, i), items[i]), Records(items, exit, i + 1);
      var all: seq<SwCase> := now + rest;
      forall k | 0 <= k < |all| ensures all[k].group < n {
        if k >= |now| { assert all[k] == rest[k - |now|]; }
      }
    }
  }

  lemma {:induction false} DispatchMatches(items: seq<Item>, exit: nat, i: nat, counts: seq<nat>, porches: seq<Label>)
    requires i <= |items| && |porches| <= |counts| && CountsAt(items, exit, i, counts)
             && PorchesOf(items, exit, porches)
    requires GroupsBelow(Records(items, exit, i), |porches|)
    ensures DispatchOf(Records(items, exit, i), counts, porches) == Dispatch(items, exit, i)
    decreases |items| - i
  {
    if i < |items| {
      var s, it := At(items, exit, i), items[i];
      var now, rest := Record(s, it), Records(items, exit, i + 1);
      assert PorchKnownAt(items, exit, i, porches);
      assert Records(items, exit, i) == now + rest;
      assert GroupsBelow(rest, |porches|) by {
        forall k | 0 <= k < |rest| ensures rest[k].group < |porches| { assert rest[k] == (now + rest)[|now| + k]; }
      }
      CountsStep(items, exit, i, counts);
      DispatchMatches(items, exit, i + 1, Counted(s, it, counts), porches);
      DispatchFirst(s, it, rest, counts, porches);
    }
  }

  lemma DispatchFirst(s: Scan, it: Item, rest: seq<SwCase>, counts: seq<nat>, porches: seq<Label>)
    requires |porches| <= |counts| && s.group < |porches| && GroupsBelow(rest, |porches|)
             && GroupsBelow(Record(s, it) + rest, |porches|)
    requires s.group >= 0 ==> counts[s.group] == s.nth && porches[s.group] == s.porchLabel
    ensures DispatchOf(Record(s, it) + rest, counts, porches)
         == (if it.IsCase() then [CaseTest(s, it)] else []) + DispatchOf(rest, Counted(s, it, counts), porches)
  {
    var now := Record(s, it);
    if now == [] {
      assert now + rest == rest;
    } else {
      assert (now + rest)[0] == now[0] && (now + rest)[1..] == rest;
    }
  }

  lemma {:induction false} SelectorsMatch(items: seq<Item>, exit: nat, i: nat, counts: seq<nat>, g: nat)
    requires i <= |items| && CountsAt(items, exit, i, counts)
    requires forall j | 0 <= j <= |items| :: GroupBelowAt(items, exit, j, |counts|)
    requires GroupsBelow(Records(items, exit, i), |counts|)
    ensures SelectorsOf(Indexed(Records(items, exit, i), counts), g) == Selectors(items, exit, g, i)
    decreases |items| - i
  {
    if i < |items| {
      var s, it := At(items, exit, i), items[i];
      var now, rest := Record(s, it), Records(items, exit, i + 1);
      assert GroupBelowAt(items, exit, i, |counts|);
      RecordsBelow(items, exit, i + 1, |counts|);
      CountsStep(items, exit, i, counts);
      SelectorsMatch(items, exit, i + 1, Counted(s, it, counts), g);
      SelectorsFirst(s, it, rest, counts, g);
    }
  }

  lemma SelectorsFirst(s: Scan, it: Item, rest: seq<SwCase>, counts: seq<nat>, g: nat)
    requires s.group < |counts| && GroupsBelow(rest, |counts|) && GroupsBelow(Record(s, it) + rest, |counts|)
    requires s.group >= 0 ==> counts[s.group] == s.nth
    ensures SelectorsOf(Indexed(Record(s, it) + rest, counts), g)
         == (if it.IsCase() && s.group == g then [IfGroup(s.nth, CaseL(s.counter))] else [])
            + SelectorsOf(Indexed(rest, Counted(s, it, counts)), g)
  {
    var now := Record(s, it);
    if now == [] {
      assert now + rest == rest;
    } else {
      assert (now + rest)[0] == now[0] && (now + rest)[1..] == rest;
      var r := Indexed(now + rest, counts);
      assert r[1..] == Indexed(rest, Counted(s, it, counts));
    }
  }

  lemma {:induction false} LastDefaultMatches(items: seq<Item>, exit: nat, i: nat, found: Option<nat>)
    requires i <= |items| && (found.Some? ==> found.value < i && items[found.value].Default?)
    ensures LastDefaultName(Records(items, exit, i), DefaultName(items, exit, found))
         == DefaultName(items, exit, LastDefault(items, i, found))
    decreases |items| - i
  {
    if i < |items| {
      var s, it := At(items, exit, i), items[i];
      var now, rest := Record(s, it), Records(items, exit, i + 1);
      LastDefaultMatches(items, exit, i + 1, if it.Default? then Some(i) else found);
      if now == [] {
        assert now + rest == rest;
      } else {
        assert (now + rest)[0] == now[0] && (now + rest)[1..] == rest;
      }
    }
  }

  lemma {:induction false} SpliceMatches(items: seq<Item>, exit: nat, nodes: seq<Node>, cs: seq<SwCase>)
    requires forall g: nat :: SelectorsOf(cs, g) == Selectors(items, exit, g, 0)
    ensures SpliceOf(nodes, cs) == Splice(items, exit, nodes)
  {
    if nodes != [] { SpliceMatches(items, exit, nodes[1..], cs); }
  }

  /** One switch being parsed (SwCtx), with the parser's label counter. */
  class SwitchParser {
    var cases: seq<SwCase>
    var chain: seq<Node>
    var nextCaseVal: int
    var ngroups: nat
    var curGroup: int
    var inPorch: bool
    var groupPorch: seq<Label>
    var groupEnd: seq<Label>
    const exitLabel: Label
    var breakLabel: Label
    var labelCounter: nat

    constructor (counter: nat)
      ensures exitLabel == ExitL(counter) && cases == [] && chain == []
      ensures ScanAgrees(Begin(counter), counter)
    {
      exitLabel, breakLabel, labelCounter := ExitL(counter), ExitL(counter), counter + 1;
      cases, chain, nextCaseVal, ngroups, curGroup, inPorch := [], [], 0, 0, -1, false;
      groupPorch, groupEnd := [], [];
    }

    ghost predicate ScanAgrees(s: Scan, exit: nat)
      reads this
    {
      && exitLabel == ExitL(exit)
      && nextCaseVal == s.next && ngroups == s.groups && curGroup == s.group && inPorch == s.porch
      && labelCounter == s.counter && breakLabel == BreakLabel(s, exit)
      && |groupPorch| == |groupEnd| == ngroups && -1 <= curGroup < ngroups
      && (curGroup >= 0 ==> groupEnd[curGroup] == s.endLabel && groupPorch[curGroup] == s.porchLabel)
    }

    /** The body of the first pass for one item; false is the parser's error. */
    method ParseItem(it: Item, ghost s: Scan, ghost exit: nat, ghost i: nat) returns (ok: bool)
      requires ScanAgrees(s, exit)
      modifies this
      ensures ok <==> Accepts(s, it)
      ensures ok ==> ScanAgrees(Advance(s, it, i), exit)
      ensures ok ==> chain == old(chain) + Emit(s, it, exit)
      ensures ok ==> cases == old(cases) + Record(s, it)
      ensures old(groupPorch) <= groupPorch
    {
      match it
      case Start => ok := ParseStart(s, exit, i);
      case End =>
        if curGroup < 0 { return false; }
        chain := chain + [Lab(groupEnd[curGroup])];
        curGroup := -1;
        breakLabel := exitLabel;
        ok := true;
      case Act(id, labels) =>
        chain := chain + [Body(id, breakLabel)];
        labelCounter := labelCounter + labels;
        ok := true;
      case Default =>
        cases := cases + [SwCase(0, 0, true, DefaultL(labelCounter), curGroup)];
        chain := chain + [Lab(DefaultL(labelCounter))];
        labelCounter := labelCounter + 1;
        ok := true;
      case _ =>
        ParseCase(it, s, exit, i);
        ok := true;
    }

    method ParseStart(ghost s: Scan, ghost exit: nat, ghost i: nat) returns (ok: bool)
      requires ScanAgrees(s, exit)
      modifies this
      ensures ok <==> Accepts(s, Start)
      ensures ok ==> ScanAgrees(Advance(s, Start, i), exit)
      ensures ok ==> chain == old(chain) + Emit(s, Start, exit)
      ensures cases == old(cases)
      ensures old(groupPorch) <= groupPorch
    {
      if curGroup >= 0 || ngroups >= MAX_GROUPS { return false; }
      curGroup := ngroups;
      ngroups := ngroups + 1;
      groupPorch := groupPorch + [PorchL(labelCounter)];
      groupEnd := groupEnd + [GroupEndL(labelCounter + 1)];
      inPorch := true;
      chain := chain + [SetGroup(-1), Lab(groupPorch[curGroup])];
      labelCounter := labelCounter + 2;
      breakLabel := groupEnd[curGroup];
      ok := true;
    }

    method ParseCase(it: Item, ghost s: Scan, ghost exit: nat, ghost i: nat)
      requires ScanAgrees(s, exit) && it.IsCase()
      modifies this
      ensures ScanAgrees(Advance(s, it, i), exit)
      ensures chain == old(chain) + Emit(s, it, exit)
      ensures cases == old(cases) + Record(s, it)
      ensures groupPorch == old(groupPorch)
    {
      var lo := if it.Case? then it.lo else nextCaseVal;
      var hi := if it.Case? then it.hi else nextCaseVal;
      nextCaseVal := hi + 1;
      cases := cases + [SwCase(lo, hi, false, CaseL(labelCounter), curGroup)];
      if curGroup >= 0 && inPorch {
        inPorch := false;
        chain := chain + [Anchor(curGroup), Lab(CaseL(labelCounter))];
      } else {
        chain := chain + [Lab(CaseL(labelCounter))];
      }
      labelCounter := labelCounter + 1;
    }

    /** The first i items are parsed. */
    ghost predicate Parsed(items: seq<Item>, exit: nat, i: nat)
      reads this
    {
      && i <= |items|
      && ScanAgrees(At(items, exit, i), exit)
      && PorchKnown(At(items, exit, i), groupPorch)
      && cases + Records(items, exit, i) == Records(items, exit, 0)
      && chain + Chain(items, exit, i) == Chain(items, exit, 0)
      && ngroups <= MAX_GROUPS
    }

    method ParseAt(items: seq<Item>, ghost exit: nat, i: nat) returns (ok: bool)
      requires Parsed(items, exit, i) && i < |items|
      modifies this
      ensures ok <==> Accepts(At(items, exit, i), items[i])
      ensures ok ==> Parsed(items, exit, i + 1)
      ensures old(groupPorch) <= groupPorch
    {
      ghost var s, chain0, cases0 := At(items, exit, i), chain, cases;
      assert At(items, exit, i + 1) == Advance(s, items[i], i);
      ok := ParseItem(items[i], s, exit, i);
      if ok {
        ghost var rest, after := Chain(items, exit, i + 1), Records(items, exit, i + 1);
        assert chain0 + (Emit(s, items[i], exit) + rest) == chain + rest;
        assert cases0 + (Record(s, items[i]) + after) == cases + after;
      }
    }

    /** First pass: read the body, recording cases and building the chain. */
    method FirstPass(items: seq<Item>, ghost exit: nat) returns (ok: bool)
      requires Parsed(items, exit, 0)
      modifies this
      ensures ok <==> Accepted(items, exit)
      ensures ok ==> Parsed(items, exit, |items|) && PorchesOf(items, exit, groupPorch)
    {
      for i := 0 to |items|
        invariant Parsed(items, exit, i)
        invariant forall j | 0 <= j < i :: AcceptsAt(items, exit, j)
        invariant forall j | 0 <= j <= i :: PorchKnownAt(items, exit, j, groupPorch)
      {
        ghost var porches := groupPorch;
        ok := ParseAt(items, exit, i);
        if !ok { assert !AcceptsAt(items, exit, i); return; }
        assert AcceptsAt(items, exit, i) && PorchKnownAt(items, exit, i + 1, groupPorch);
        forall j | 0 <= j <= i ensures PorchKnownAt(items, exit, j, groupPorch) {
          assert PorchKnownAt(items, exit, j, porches);
        }
      }
      ok := curGroup < 0;
    }

    /** Second pass: tests for the cases in order, numbering them within their groups;
        afterwards the records carry those numbers. */
    method BuildDispatch() returns (out: seq<Node>)
      requires |groupPorch| <= MAX_GROUPS && GroupsBelow(cases, |groupPorch|)
      modifies this`cases
      ensures out == DispatchOf(old(cases), seq(MAX_GROUPS, _ => 0), groupPorch)
      ensures cases == Indexed(old(cases), seq(MAX_GROUPS, _ => 0))
    {
      var idx: seq<nat> := seq(MAX_GROUPS, _ => 0);
      ghost var cs, zero := cases, idx;
      out := [];
      var k := 0;
      while k < |cases|
        invariant 0 <= k <= |cases| == |cs| && |idx| == MAX_GROUPS && cases[k..] == cs[k..]
        invariant out + DispatchOf(cs[k..], idx, groupPorch) == DispatchOf(cs, zero, groupPorch)
        invariant cases[..k] + Indexed(cs[k..], idx) == Indexed(cs, zero)
      {
        var c := cases[k];
        ghost var rest := cs[k..];
        assert c == rest[0] && rest[1..] == cs[k + 1..];
        AppendStep(out, TestOf(c, idx, groupPorch), DispatchOf(cs[k + 1..], After(c, idx), groupPorch));
        AppendStep(cases[..k], [IndexCase(c, idx)], Indexed(cs[k + 1..], After(c, idx)));
        out := out + TestOf(c, idx, groupPorch);
        ghost var before := cases;
        cases := cases[k := IndexCase(c, idx)];
        idx := After(c, idx);
        k := k + 1;
        assert cases[..k] == before[..k - 1] + [cases[k - 1]];
        assert cases[k..] == before[k - 1..][1..];
      }
      assert out + [] == out && cases[..|cases|] + [] == cases;
    }
  }

  lemma AppendStep<T>(a: seq<T>, b: seq<T>, c: seq<T>)
    ensures a + (b + c) == a + b + c
  {
  }

  // ----- the labels taken -----

  /** How many labels an item takes. */
  function Takes(it: Item): nat {
    match it
    case Act(_, labels) => labels
    case Start => 2
    case End => 0
    case _ => 1
  }

  function Taken(items: seq<Item>, i: nat): nat
    requires i <= |items|
    decreases i
  {
    if i == 0 then 0 else Taken(items, i - 1) + Takes(items[i - 1])
  }

  lemma {:induction false} CounterTaken(items: seq<Item>, exit: nat, i: nat)
    requires i <= |items|
    ensures At(items, exit, i).counter == exit + 1 + Taken(items, i)
    decreases i
  {
    if i > 0 { CounterTaken(items, exit, i - 1); }
  }

  /** switch_stmt: None is a parse error; behind the switch the parser's counter has passed the
      label of its end and all that the items took. */
  method SwitchStmt(items: seq<Item>, exit: nat) returns (block: Option<seq<Node>>, counter: nat)
    ensures block.Some? <==> Accepted(items, exit)
    ensures block.Some? ==> block.value == Lowered(items, exit) && counter == exit + 1 + Taken(items, |items|)
  {
    var sw := new SwitchParser(exit);
    var ok := sw.FirstPass(items, exit);
    counter := sw.labelCounter;
    CounterTaken(items, exit, |items|);
    if !ok { return None, counter; }
    ghost var zero: seq<nat> := seq(MAX_GROUPS, _ => 0);
    assert sw.cases == Records(items, exit, 0) by { assert sw.cases + [] == sw.cases; }
    assert sw.chain == Chain(items, exit, 0) by { assert sw.chain + [] == sw.chain; }
    forall j | 0 <= j <= |items| ensures GroupBelowAt(items, exit, j, |sw.groupPorch|) {
      assert PorchKnownAt(items, exit, j, sw.groupPorch);
    }
    RecordsBelow(items, exit, 0, |sw.groupPorch|);
    var otherwise := LastDefaultName(sw.cases, sw.exitLabel);
    LastDefaultMatches(items, exit, 0, None);
    DispatchMatches(items, exit, 0, zero, sw.groupPorch);
    var dispatch := sw.BuildDispatch();
    forall j | 0 <= j <= |items| ensures GroupBelowAt(items, exit, j, |zero|) {
      assert GroupBelowAt(items, exit, j, |sw.groupPorch|);
    }
    forall g: nat ensures SelectorsOf(sw.cases, g) == Selectors(items, exit, g, 0) {
      SelectorsMatch(items, exit, 0, zero, g);
    }
    SpliceMatches(items, exit, sw.chain, sw.cases);
    block := Some([Setup] + dispatch + [Goto(otherwise)] + SpliceOf(sw.chain, sw.cases) + [Lab(sw.exitLabel)]);
  }

  ghost predicate PorchKnown(t: Scan, porches: seq<Label>) {
    t.group >= 0 ==> t.group < |porches| && porches[t.group] == t.porchLabel
  }
}
