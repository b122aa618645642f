/** The labels of a switch come from the parser's one counter, from which the statements in its
    body take theirs too: no number is used twice. */
module SwitchLabels {
  import opened Basics
  import opened SwitchLowering
  import opened SwitchCorrectness

  /** The first number for item i; the end of the switch has the number `exit`. */
  function First(items: seq<Item>, exit: nat, i: nat): nat
    requires i <= |items|
  {
    exit + 1 + Taken(items, i)
  }

  function Number(l: Label): nat {
    match l
    case CaseL(n) => n
    case DefaultL(n) => n
    case PorchL(n) => n
    case GroupEndL(n) => n
    case ExitL(n) => n
  }

  lemma {:induction false} TakenMore(items: seq<Item>, i: nat, j: nat)
    requires i <= j <= |items|
    ensures Taken(items, i) <= Taken(items, j)
    decreases j
  {
    if i < j { TakenMore(items, i, j - 1); }
  }

  /** The end of a group has the second number of its start. */
  lemma {:induction false} EndLabelIs(items: seq<Item>, exit: nat, i: nat)
    requires i <= |items| && OpenStart(items, i).Some?
    ensures At(items, exit, i).endLabel == GroupEndL(First(items, exit, OpenStart(items, i).value) + 1)
    decreases i
  {
    CounterTaken(items, exit, i - 1);
    if !items[i - 1].Start? { EndLabelIs(items, exit, i - 1); }
  }

  // ----- which labels are defined -----

  /** Item i defines this label. */
  predicate Defines(items: seq<Item>, exit: nat, i: nat, l: Label)
    requires i < |items|
  {
    match items[i]
    case Act(_, _) => false
    case Default => l == DefaultL(First(items, exit, i))
    case Start => l == PorchL(First(items, exit, i))
    case End => OpenStart(items, i).Some? && l == GroupEndL(First(items, exit, OpenStart(items, i).value) + 1)
    case _ => l == CaseL(First(items, exit, i))
  }

  lemma NodesDefine(items: seq<Item>, exit: nat, i: nat, l: Label)
    requires i < |items| && AcceptsAt(items, exit, i)
    ensures Lab(l) in Nodes(items, exit, i) <==> Defines(items, exit, i, l)
  {
    CounterTaken(items, exit, i);
    if items[i].End? {
      ScanMeaning(items, exit, i);
      EndLabelIs(items, exit, i);
    } else {
      if Lab(l) in Nodes(items, exit, i) { NodesLabels(items, exit, i, l); }
      if Defines(items, exit, i, l) { LastIsLabel(items, exit, i); }
    }
  }

  lemma LastIsLabel(items: seq<Item>, exit: nat, i: nat)
    requires i < |items| && TakesLabel(items[i])
    ensures Lab(OwnLabel(items, exit, i)) in Nodes(items, exit, i)
  {
    var ns := Nodes(items, exit, i);
    assert ns != [] && ns[|ns| - 1] == Lab(OwnLabel(items, exit, i));
  }

  predicate DefinedFrom(items: seq<Item>, exit: nat, i: nat, l: Label)
    requires i <= |items|
  {
    exists k | i <= k < |items| :: Defines(items, exit, k, l)
  }

  lemma DefinedNext(items: seq<Item>, exit: nat, i: nat, l: Label)
    requires i < |items|
    ensures DefinedFrom(items, exit, i, l) <==> Defines(items, exit, i, l) || DefinedFrom(items, exit, i + 1, l)
  {
  }

  lemma InConcat(x: Node, a: seq<Node>, b: seq<Node>)
    ensures x in a + b <==> x in a || x in b
  {
  }

  lemma {:induction false} TailDefines(items: seq<Item>, exit: nat, i: nat, l: Label)
    requires i <= |items| && forall k | i <= k < |items| :: AcceptsAt(items, exit, k)
    ensures Lab(l) in Tail(items, exit, i) <==> l == ExitL(exit) || DefinedFrom(items, exit, i, l)
    decreases |items| - i
  {
    if i < |items| {
      NodesDefine(items, exit, i, l);
      TailDefines(items, exit, i + 1, l);
      DefinedNext(items, exit, i, l);
      InConcat(Lab(l), Nodes(items, exit, i), Tail(items, exit, i + 1));
    }
  }

  /** The labels of the block are the end of the switch and those of its items. */
  lemma LabelsDefined(items: seq<Item>, exit: nat, l: Label)
    requires Accepted(items, exit)
    ensures Lab(l) in Lowered(items, exit) <==> l == ExitL(exit) || DefinedFrom(items, exit, 0, l)
  {
    SpliceIsTail(items, exit, 0);
    DispatchHasNoLabel(items, exit, 0, l);
    var head := [Setup] + Dispatch(items, exit, 0) + [Goto(Otherwise(items, exit))];
    assert Lowered(items, exit) == head + Tail(items, exit, 0);
    TailDefines(items, exit, 0, l);
  }

  /** No label of the switch has a number that a statement of its body took. */
  lemma StatementsKeepTheirs(items: seq<Item>, exit: nat, l: Label, j: nat)
    requires Accepted(items, exit) && Lab(l) in Lowered(items, exit) && j < |items| && items[j].Act?
    ensures Number(l) < First(items, exit, j) || First(items, exit, j + 1) <= Number(l)
  {
    LabelsDefined(items, exit, l);
    if l != ExitL(exit) {
      var k :| 0 <= k < |items| && Defines(items, exit, k, l);
      DefinesNumber(items, exit, k, l);
      var i := Owner(items, k);
      if items[k].End? { StartBefore(items, k); }
      if i < j { TakenMore(items, i + 1, j); } else { TakenMore(items, j + 1, i); }
    }
  }

  /** The item whose number that is. */
  function Owner(items: seq<Item>, k: nat): (i: nat)
    requires k < |items|
    ensures i <= k
  {
    if items[k].End? && OpenStart(items, k).Some? then OpenStart(items, k).value else k
  }

  // ----- no number twice -----

  /** How many labels of the code have this number. */
  function Numbered(code: seq<Node>, n: nat): nat {
    if code == [] then 0 else Numbered(code[1..], n) + if code[0].Lab? && Number(code[0].name) == n then 1 else 0
  }

  lemma {:induction false} NumberedAdd(a: seq<Node>, b: seq<Node>, n: nat)
    ensures Numbered(a + b, n) == Numbered(a, n) + Numbered(b, n)
  {
    if a == [] {
      assert a + b == b;
    } else {
      assert (a + b)[1..] == a[1..] + b;
      NumberedAdd(a[1..], b, n);
    }
  }

  lemma {:induction false} NoneNumbered(code: seq<Node>, n: nat)
    requires forall l | Number(l) == n :: Lab(l) !in code
    ensures Numbered(code, n) == 0
  {
    if code != [] {
      assert code[0] in code;
      NoneNumbered(code[1..], n);
    }
  }

  /** The start of a group is an item of its own, before its end. */
  lemma {:induction false} StartBefore(items: seq<Item>, k: nat)
    requires k <= |items| && OpenStart(items, k).Some?
    ensures OpenStart(items, k).value < k && items[OpenStart(items, k).value].Start?
    decreases k
  {
    if !items[k - 1].Start? { StartBefore(items, k - 1); }
  }

  lemma DefinesNumber(items: seq<Item>, exit: nat, k: nat, l: Label)
    requires k < |items| && Defines(items, exit, k, l)
    ensures var i := Owner(items, k);
            First(items, exit, i) <= Number(l) < First(items, exit, i + 1)
            && Number(l) == First(items, exit, i) + if items[k].End? then 1 else 0
  {
    if items[k].End? { StartBefore(items, k); }
  }

  /** Different items define different numbers. */
  lemma NumbersDiffer(items: seq<Item>, exit: nat, j: nat, k: nat, l: Label, m: Label)
    requires j < k < |items| && Defines(items, exit, j, l) && Defines(items, exit, k, m)
    ensures exit < Number(l) != Number(m)
  {
    DefinesNumber(items, exit, j, l);
    DefinesNumber(items, exit, k, m);
    var i, q := Owner(items, j), Owner(items, k);
    if i < q { TakenMore(items, i + 1, q); }
    if q < i { TakenMore(items, q + 1, i); }
    if i == q && items[j].End? && items[k].End? { OpenRun(items, exit, q, j, k); }
  }

  lemma LaterDiffers(items: seq<Item>, exit: nat, i: nat, l: Label, m: Label)
    requires i < |items| && Defines(items, exit, i, l) && DefinedFrom(items, exit, i + 1, m)
    ensures Number(l) != Number(m)
  {
    var k :| i + 1 <= k < |items| && Defines(items, exit, k, m);
    NumbersDiffer(items, exit, i, k, l, m);
  }

  lemma NodesNumbered(items: seq<Item>, exit: nat, i: nat, n: nat)
    requires i < |items| && AcceptsAt(items, exit, i)
    ensures Numbered(Nodes(items, exit, i), n) <= 1
    ensures Numbered(Nodes(items, exit, i), n) == 1 ==> exists l :: Number(l) == n && Defines(items, exit, i, l)
  {
    var ns := Nodes(items, exit, i);
    OneLabel(items, exit, i, n);
    if Numbered(ns, n) == 1 {
      var l := SomeNumbered(ns, n);
      NodesDefine(items, exit, i, l);
    }
  }

  lemma OneLabel(items: seq<Item>, exit: nat, i: nat, n: nat)
    requires i < |items|
    ensures Numbered(Nodes(items, exit, i), n) <= 1
  {
    var ns := Nodes(items, exit, i);
    var t := At(items, exit, i);
    if items[i].IsCase() {
      var sel := if t.group >= 0 && t.porch then Selectors(items, exit, t.group, 0) else [];
      forall l | Number(l) == n ensures Lab(l) !in sel {
        if sel != [] { SelectorsHaveNoLabel(items, exit, t.group, 0, l); }
      }
      NoneNumbered(sel, n);
      assert ns == sel + [Lab(CaseL(t.counter))];
      NumberedAdd(sel, [Lab(CaseL(t.counter))], n);
      Short([Lab(CaseL(t.counter))], n);
    } else if items[i].Start? {
      assert ns[1..] == [Lab(PorchL(t.counter))];
      Short(ns[1..], n);
    } else {
      Short(ns, n);
    }
  }

  lemma Short(code: seq<Node>, n: nat)
    requires |code| == 1
    ensures Numbered(code, n) <= 1
  {
    assert code[1..] == [];
  }

  lemma {:induction false} SomeNumbered(code: seq<Node>, n: nat) returns (l: Label)
    requires Numbered(code, n) > 0
    ensures Number(l) == n && Lab(l) in code
  {
    if code[0].Lab? && Number(code[0].name) == n { l := code[0].name; } else { l := SomeNumbered(code[1..], n); }
  }

  /** A number of item i is none of those behind it. */
  lemma NotBehind(items: seq<Item>, exit: nat, i: nat, n: nat)
    requires i < |items| && forall k | i <= k < |items| :: AcceptsAt(items, exit, k)
    requires Numbered(Nodes(items, exit, i), n) == 1
    ensures Numbered(Tail(items, exit, i + 1), n) == 0
  {
    NodesNumbered(items, exit, i, n);
    var l :| Number(l) == n && Defines(items, exit, i, l);
    DefinesNumber(items, exit, i, l);
    forall m | Number(m) == n ensures Lab(m) !in Tail(items, exit, i + 1) {
      TailDefines(items, exit, i + 1, m);
      if DefinedFrom(items, exit, i + 1, m) { LaterDiffers(items, exit, i, l, m); }
    }
    NoneNumbered(Tail(items, exit, i + 1), n);
  }

  lemma {:induction false} TailNumbered(items: seq<Item>, exit: nat, i: nat, n: nat)
    requires i <= |items| && forall k | i <= k < |items| :: AcceptsAt(items, exit, k)
    ensures Numbered(Tail(items, exit, i), n) <= 1
    decreases |items| - i
  {
    if i < |items| {
      NumberedAdd(Nodes(items, exit, i), Tail(items, exit, i + 1), n);
      NodesNumbered(items, exit, i, n);
      TailNumbered(items, exit, i + 1, n);
      if Numbered(Nodes(items, exit, i), n) == 1 { NotBehind(items, exit, i, n); }
    } else {
      Short(Tail(items, exit, i), n);
    }
  }

  /** No two labels of the block have the same number. */
  lemma NumberedOnce(items: seq<Item>, exit: nat, n: nat)
    requires Accepted(items, exit)
    ensures Numbered(Lowered(items, exit), n) <= 1
  {
    SpliceIsTail(items, exit, 0);
    var head := [Setup] + Dispatch(items, exit, 0) + [Goto(Otherwise(items, exit))];
    forall l | Number(l) == n ensures Lab(l) !in head { DispatchHasNoLabel(items, exit, 0, l); }
    NoneNumbered(head, n);
    assert Lowered(items, exit) == head + Tail(items, exit, 0);
    NumberedAdd(head, Tail(items, exit, 0), n);
    TailNumbered(items, exit, 0, n);
  }

  // ----- what the parser accepts -----

  /** How many sub_switches start before item i. */
  function Starts(items: seq<Item>, i: nat): nat
    requires i <= |items|
    decreases i
  {
    if i == 0 then 0 else Starts(items, i - 1) + if items[i - 1].Start? then 1 else 0
  }

  lemma {:induction false} GroupsAreStarts(items: seq<Item>, exit: nat, i: nat)
    requires i <= |items|
    ensures At(items, exit, i).groups == Starts(items, i)
    decreases i
  {
    if i > 0 { GroupsAreStarts(items, exit, i - 1); }
  }

  /** A `start:` stands outside of every sub_switch with fewer than 64 before it, an `end:` inside
      one. */
  predicate InPlace(items: seq<Item>, i: nat)
    requires i < |items|
  {
    && (items[i].Start? ==> OpenStart(items, i) == None && Starts(items, i) < 64)
    && (items[i].End? ==> OpenStart(items, i).Some?)
  }

  /** Exactly the bodies are accepted whose starts and ends are in place and whose last sub_switch
      has ended. */
  lemma AcceptedIff(items: seq<Item>, exit: nat)
    ensures Accepted(items, exit)
            <==> (forall i | 0 <= i < |items| :: InPlace(items, i)) && OpenStart(items, |items|) == None
  {
    forall i | 0 <= i < |items| ensures AcceptsAt(items, exit, i) <==> InPlace(items, i) {
      ScanMeaning(items, exit, i);
      GroupsAreStarts(items, exit, i);
    }
    ScanMeaning(items, exit, |items|);
  }
}
