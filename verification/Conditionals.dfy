/** src/lexpp.c: #if, #ifdef, #ifndef, #else, #endif in one pass over a flat list, with a
    depth for the live branches and another for the ones skipped. */
module Conditionals {
  import opened Basics

  /** Numbers name texts, changes of the macro table (#define, #undef) and conditions.
      OddIf is an unknown directive whose name starts with "if". */
  datatype Item = Text(t: nat) | Change(d: nat) | If(c: nat) | OddIf | Else | Endif

  /** What they mean: expansion and conditions depend on the macros at that point, and a
      condition may be in error. */
  datatype Sem<!M, !T> = Sem(emit: (nat, M) -> seq<T>, change: (nat, M) -> M, test: (nat, M) -> Option<bool>)

  datatype State<M, T> = State(macros: M, out: seq<T>)

  // ----- the tree -----

  /** A conditional holds its branches; one with an odd name has no condition. */
  datatype Tree = Leaf(t: nat) | Alter(d: nat) | Branch(c: Option<nat>, thn: seq<Tree>)
    | BranchElse(c: Option<nat>, thn: seq<Tree>, els: seq<Tree>)

  function Flat(t: Tree): seq<Item>
    decreases t, 1
  {
    match t
    case Leaf(x) => [Text(x)]
    case Alter(d) => [Change(d)]
    case Branch(c, thn) => [Head(c)] + FlatAll(thn) + [Endif]
    case BranchElse(c, thn, els) => [Head(c)] + FlatAll(thn) + [Else] + FlatAll(els) + [Endif]
  }

  function Head(c: Option<nat>): Item {
    if c.Some? then If(c.value) else OddIf
  }

  function FlatAll(ts: seq<Tree>): seq<Item>
    decreases ts, 0
  {
    if ts == [] then [] else Flat(ts[0]) + FlatAll(ts[1..])
  }

  function Live<M, T>(m: Sem<M, T>, c: Option<nat>, s: State<M, T>): Option<bool> {
    if c.Some? then m.test(c.value, s.macros) else None
  }

  /** The live branches in order; None on an error. */
  function Meaning<M, T>(m: Sem<M, T>, t: Tree, s: State<M, T>): Option<State<M, T>>
    decreases t, 1
  {
    match t
    case Leaf(x) => Some(s.(out := s.out + m.emit(x, s.macros)))
    case Alter(d) => Some(s.(macros := m.change(d, s.macros)))
    case Branch(c, thn) =>
      var live := Live(m, c, s);
      if live.None? then None else if live.value then MeaningAll(m, thn, s) else Some(s)
    case BranchElse(c, thn, els) =>
      var live := Live(m, c, s);
      if live.None? then None else MeaningAll(m, if live.value then thn else els, s)
  }

  function MeaningAll<M, T>(m: Sem<M, T>, ts: seq<Tree>, s: State<M, T>): Option<State<M, T>>
    decreases ts, 0
  {
    if ts == [] then Some(s) else
    var r := Meaning(m, ts[0], s);
    if r.None? then None else MeaningAll(m, ts[1..], r.value)
  }

  // ----- the flat scan -----

  /** skip_cond: what follows the #else or #endif of this level, and which it was; at the
      end of the input nothing follows. */
  function Skip(items: seq<Item>, depth: nat): (r: (seq<Item>, bool))
    ensures |r.0| <= |items|
  {
    if items == [] then ([], false) else
    match items[0]
    case If(_) => Skip(items[1..], depth + 1)
    case OddIf => Skip(items[1..], depth + 1)
    case Endif => if depth == 0 then (items[1..], false) else Skip(items[1..], depth - 1)
    case Else => if depth == 0 then (items[1..], true) else Skip(items[1..], depth)
    case _ => Skip(items[1..], depth)
  }

  datatype Outcome<M, T> = Done(s: State<M, T>, depth: nat) | Error

  function Run<M, T>(m: Sem<M, T>, items: seq<Item>, s: State<M, T>, depth: nat): Outcome<M, T>
    decreases |items|
  {
    if items == [] then Done(s, depth) else
    var rest := items[1..];
    match items[0]
    case Text(x) => Run(m, rest, s.(out := s.out + m.emit(x, s.macros)), depth)
    case Change(d) => Run(m, rest, s.(macros := m.change(d, s.macros)), depth)
    case OddIf => Error
    case If(c) =>
      var live := m.test(c, s.macros);
      if live.None? then Error
      else if live.value then Run(m, rest, s, depth + 1)
      else
        var (after, hitElse) := Skip(rest, 0);
        Run(m, after, s, if hitElse then depth + 1 else depth)
    case Else =>
      if depth == 0 then Error else
      var (after, _) := Skip(rest, 0);
      Run(m, after, s, depth - 1)
    case Endif => if depth == 0 then Error else Run(m, rest, s, depth - 1)
  }

  // ----- the scan means the tree -----

  /** Skipping passes over whole trees at any depth. */
  lemma {:induction false} SkipTree(t: Tree, rest: seq<Item>, depth: nat)
    ensures Skip(Flat(t) + rest, depth) == Skip(rest, depth)
    decreases t, 1
  {
    var items := Flat(t) + rest;
    match t
    case Leaf(_) => assert items[1..] == rest;
    case Alter(_) => assert items[1..] == rest;
    case Branch(c, thn) =>
      var end := [Endif] + rest;
      assert items[1..] == FlatAll(thn) + end && end[1..] == rest;
      SkipTrees(thn, end, depth + 1);
    case BranchElse(c, thn, els) => SkipBranchElse(t, rest, depth);
  }

  lemma {:induction false} SkipBranchElse(t: Tree, rest: seq<Item>, depth: nat)
    requires t.BranchElse?
    ensures Skip(Flat(t) + rest, depth) == Skip(rest, depth)
    decreases t, 0
  {
    var items, end := Flat(t) + rest, [Endif] + rest;
    var after := [Else] + (FlatAll(t.els) + end);
    assert items[0] == Head(t.c) && items[1..] == FlatAll(t.thn) + after;
    assert Skip(items, depth) == Skip(after, depth + 1) by { SkipTrees(t.thn, after, depth + 1); }
    assert after[1..] == FlatAll(t.els) + end;
    SkipTrees(t.els, end, depth + 1);
    assert end[1..] == rest;
  }

  lemma {:induction false} SkipTrees(ts: seq<Tree>, rest: seq<Item>, depth: nat)
    ensures Skip(FlatAll(ts) + rest, depth) == Skip(rest, depth)
    decreases ts, 0
  {
    if ts == [] {
      assert FlatAll(ts) + rest == rest;
    } else {
      assert FlatAll(ts) + rest == Flat(ts[0]) + (FlatAll(ts[1..]) + rest);
      SkipTree(ts[0], FlatAll(ts[1..]) + rest, depth);
      SkipTrees(ts[1..], rest, depth);
    }
  }

  /** From a branch on to what follows its #endif. */
  function Then<M, T>(m: Sem<M, T>, r: Option<State<M, T>>, rest: seq<Item>, depth: nat): Outcome<M, T> {
    if r.None? then Error else Run(m, rest, r.value, depth)
  }

  lemma {:induction false} ScanTree<M, T>(m: Sem<M, T>, t: Tree, rest: seq<Item>, s: State<M, T>, depth: nat)
    ensures Run(m, Flat(t) + rest, s, depth) == Then(m, Meaning(m, t, s), rest, depth)
    decreases t, 1
  {
    var items := Flat(t) + rest;
    match t
    case Leaf(_) => assert items[1..] == rest;
    case Alter(_) => assert items[1..] == rest;
    case Branch(c, thn) =>
      if Live(m, c, s).Some? { ScanIf(m, t, rest, s, depth); }
    case BranchElse(c, thn, els) =>
      if Live(m, c, s).Some? { ScanIfElse(m, t, rest, s, depth); }
  }

  lemma {:induction false} ScanIf<M, T>(m: Sem<M, T>, t: Tree, rest: seq<Item>, s: State<M, T>, depth: nat)
    requires t.Branch? && Live(m, t.c, s).Some?
    ensures Run(m, Flat(t) + rest, s, depth) == Then(m, Meaning(m, t, s), rest, depth)
    decreases t, 0
  {
    var items, end := Flat(t) + rest, [Endif] + rest;
    assert items[1..] == FlatAll(t.thn) + end && end[1..] == rest;
    ScanTrees(m, t.thn, end, s, depth + 1);
    SkipTrees(t.thn, end, 0);
  }

  lemma {:induction false} ScanIfElse<M, T>(m: Sem<M, T>, t: Tree, rest: seq<Item>, s: State<M, T>, depth: nat)
    requires t.BranchElse? && Live(m, t.c, s).Some?
    ensures Run(m, Flat(t) + rest, s, depth) == Then(m, Meaning(m, t, s), rest, depth)
    decreases t, 0
  {
    var items, end := Flat(t) + rest, [Endif] + rest;
    var after := [Else] + (FlatAll(t.els) + end);
    assert items[0] == Head(t.c) && items[1..] == FlatAll(t.thn) + after;
    assert end[1..] == rest && after[1..] == FlatAll(t.els) + end;
    if Live(m, t.c, s).value {
      ScanTrees(m, t.thn, after, s, depth + 1);
      SkipTrees(t.els, end, 0);
    } else {
      SkipTrees(t.thn, after, 0);
      ScanTrees(m, t.els, end, s, depth + 1);
    }
  }

  lemma {:induction false} ScanTrees<M, T>(m: Sem<M, T>, ts: seq<Tree>, rest: seq<Item>, s: State<M, T>, depth: nat)
    ensures Run(m, FlatAll(ts) + rest, s, depth) == Then(m, MeaningAll(m, ts, s), rest, depth)
    decreases ts, 0
  {
    if ts == [] {
      assert FlatAll(ts) + rest == rest;
    } else {
      assert FlatAll(ts) + rest == Flat(ts[0]) + (FlatAll(ts[1..]) + rest);
      ScanTree(m, ts[0], FlatAll(ts[1..]) + rest, s, depth);
      var r := Meaning(m, ts[0], s);
      if r.Some? { ScanTrees(m, ts[1..], rest, r.value, depth); }
    }
  }

  /** A well-nested file: the texts and changes of its live branches, and depth 0 at the end. */
  lemma ScanIsMeaning<M, T>(m: Sem<M, T>, ts: seq<Tree>, s: State<M, T>)
    ensures var r := MeaningAll(m, ts, s); Run(m, FlatAll(ts), s, 0) == if r.Some? then Done(r.value, 0) else Error
  {
    ScanTrees(m, ts, [], s, 0);
    assert FlatAll(ts) + [] == FlatAll(ts);
  }

  // ----- what else the scan accepts -----

  /** A conditional with a second #else. */
  function TwoElses(c: nat, a: seq<Tree>, b: seq<Tree>, d: seq<Tree>, rest: seq<Item>): seq<Item> {
    [If(c)] + (FlatAll(a) + ([Else] + (FlatAll(b) + ([Else] + (FlatAll(d) + ([Endif] + rest))))))
  }

  /** After a true condition the second #else makes its text live again and uses up the
      level, so that the #endif belongs to the conditional around, or is in error.  After a
      false one it is skipped to. */
  lemma SecondElse<M, T>(m: Sem<M, T>, c: nat, a: seq<Tree>, b: seq<Tree>, d: seq<Tree>, rest: seq<Item>,
                         s: State<M, T>, depth: nat)
    ensures Run(m, TwoElses(c, a, b, d, rest), s, depth)
      == match m.test(c, s.macros)
         case None => Error
         case Some(false) => Then(m, MeaningAll(m, b, s), rest, depth)
         case Some(true) => if depth == 0 then Error else Then(m, MeaningAll(m, a + d, s), rest, depth - 1)
  {
    var end := [Endif] + rest;
    var e2 := [Else] + (FlatAll(d) + end);
    var e1 := [Else] + (FlatAll(b) + e2);
    assert TwoElses(c, a, b, d, rest)[1..] == FlatAll(a) + e1;
    assert e1[1..] == FlatAll(b) + e2 && e2[1..] == FlatAll(d) + end && end[1..] == rest;
    match m.test(c, s.macros)
    case None =>
    case Some(false) =>
      SkipTrees(a, e1, 0);
      ScanTrees(m, b, e2, s, depth + 1);
      SkipTrees(d, end, 0);
    case Some(true) =>
      ScanTrees(m, a, e1, s, depth + 1);
      MeaningAppend(m, a, d, s);
      var r := MeaningAll(m, a, s);
      if r.Some? {
        SkipTrees(b, e2, 0);
        ScanTrees(m, d, end, r.value, depth);
      }
  }

  /** The second #else and its text are as good as absent exactly when the condition is
      false or in error, or the live branch before is in error. */
  lemma SecondElseHarmlessIff<M, T>(m: Sem<M, T>, c: nat, a: seq<Tree>, b: seq<Tree>, d: seq<Tree>, s: State<M, T>)
    ensures (forall rest, depth: nat ::
               Run(m, TwoElses(c, a, b, d, rest), s, depth)
                 == Then(m, Meaning(m, BranchElse(Some(c), a, b), s), rest, depth))
       <==> (m.test(c, s.macros) != Some(true) || MeaningAll(m, a, s).None?)
  {
    MeaningAppend(m, a, d, s);
    var r := MeaningAll(m, a, s);
    if m.test(c, s.macros) == Some(true) && r.Some? {
      SecondElse(m, c, a, b, d, [], s, 0);
      assert Then(m, r, [], 0) == Done(r.value, 0);
      assert Run(m, TwoElses(c, a, b, d, []), s, 0) == Error;
    } else {
      forall rest, depth: nat
        ensures Run(m, TwoElses(c, a, b, d, rest), s, depth)
                == Then(m, Meaning(m, BranchElse(Some(c), a, b), s), rest, depth)
      {
        SecondElse(m, c, a, b, d, rest, s, depth);
      }
    }
  }

  /** Nothing asks for a missing #endif: a live branch that does not end counts as text of
      the file, one that is not live swallows the rest. */
  lemma Unterminated<M, T>(m: Sem<M, T>, ts: seq<Tree>, c: nat, us: seq<Tree>, s: State<M, T>, s1: State<M, T>)
    requires MeaningAll(m, ts, s) == Some(s1) && m.test(c, s1.macros).Some?
    ensures Run(m, FlatAll(ts) + [If(c)] + FlatAll(us), s, 0)
      == if !m.test(c, s1.macros).value then Done(s1, 0)
         else if MeaningAll(m, us, s1).Some? then Done(MeaningAll(m, us, s1).value, 1) else Error
  {
    var tail := [If(c)] + FlatAll(us);
    assert FlatAll(ts) + [If(c)] + FlatAll(us) == FlatAll(ts) + tail && tail[1..] == FlatAll(us);
    assert FlatAll(us) + [] == FlatAll(us);
    ScanTrees(m, ts, tail, s, 0);
    ScanTrees(m, us, [], s1, 1);
    SkipTrees(us, [], 0);
    if !m.test(c, s1.macros).value {
      assert Skip(tail[1..], 0) == ([], false);
      assert Run(m, tail, s1, 0) == Run(m, [], s1, 0);
    }
  }

  lemma {:induction false} MeaningAppend<M, T>(m: Sem<M, T>, a: seq<Tree>, b: seq<Tree>, s: State<M, T>)
    ensures var r := MeaningAll(m, a, s); MeaningAll(m, a + b, s) == if r.None? then None else MeaningAll(m, b, r.value)
    decreases |a|
  {
    if a == [] {
      assert a + b == b;
    } else {
      assert (a + b)[1..] == a[1..] + b;
      var r := Meaning(m, a[0], s);
      if r.Some? { MeaningAppend(m, a[1..], b, r.value); }
    }
  }

  // ----- the loops -----

  class Preprocessor<M, T> {
    const items: seq<Item>
    var tok: nat
    var macros: M
    var out: seq<T>
    var condDepth: nat

    constructor (items: seq<Item>, macros: M)
      ensures this.items == items && tok == 0 && this.macros == macros && out == [] && condDepth == 0
    {
      this.items, tok, this.macros, out, condDepth := items, 0, macros, [], 0;
    }

    method SkipCond() returns (hitElse: bool)
      requires tok <= |items|
      modifies this`tok
      ensures old(tok) <= tok <= |items|
      ensures (items[tok..], hitElse) == Skip(items[old(tok)..], 0)
    {
      var depth := 0;
      while tok < |items|
        invariant old(tok) <= tok <= |items| && depth >= 0
        invariant Skip(items[tok..], depth) == Skip(items[old(tok)..], 0)
      {
        var d := items[tok];
        assert items[tok..][1..] == items[tok + 1..];
        tok := tok + 1;
        if d.If? || d.OddIf? {
          depth := depth + 1;
        } else if d.Endif? {
          if depth == 0 { return false; }
          depth := depth - 1;
        } else if d.Else? && depth == 0 {
          return true;
        }
      }
      hitElse := false;
    }

    method Preprocess(m: Sem<M, T>) returns (ok: bool)
      requires tok == 0
      modifies this
      ensures var r := Run(m, items, State(old(macros), old(out)), old(condDepth));
        if r.Done? then ok && r == Done(State(macros, out), condDepth) else !ok
    {
      ghost var r := Run(m, items, State(macros, out), condDepth);
      assert items[0..] == items;
      while tok < |items|
        invariant tok <= |items| && Run(m, items[tok..], State(macros, out), condDepth) == r
        decreases |items| - tok
      {
        var d := items[tok];
        assert items[tok..][1..] == items[tok + 1..];
        tok := tok + 1;
        match d {
          case Text(x) => out := out + m.emit(x, macros);
          case Change(x) => macros := m.change(x, macros);
          case OddIf => return false;
          case If(c) =>
            var live := m.test(c, macros);
            if live.None? { return false; }
            if live.value {
              condDepth := condDepth + 1;
            } else {
              var hasElse := SkipCond();
              if hasElse { condDepth := condDepth + 1; }
            }
          case Else =>
            if condDepth == 0 { return false; }
            var hasElse := SkipCond();
            condDepth := condDepth - 1;
          case Endif =>
            if condDepth == 0 { return false; }
            condDepth := condDepth - 1;
        }
      }
      ok := true;
    }
  }
}
