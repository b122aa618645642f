/** src/lexpp.c: the `#if` expression evaluator, and the trees it reads. */
module PpEvaluator {
  import opened Basics
  import opened ConstExpr

  /** A value, or a tree, with the tokens after it. */
  datatype Parsed<T> = Got(v: T, rest: seq<Tok>) | Failed(e: Error)

  // ----- reading trees -----

  /** The operator of level l at the front. */
  function OpAt(l: nat, ts: seq<Tok>): Option<BinOp> {
    if ts != [] && Binary(ts[0]).Some? && Level(Binary(ts[0]).value) == l then Binary(ts[0]) else None
  }

  function Read(l: nat, ts: seq<Tok>): (r: Parsed<Tree>)
    requires l <= UNARY
    ensures r.Got? ==> |r.rest| < |ts|
    decreases |ts|, UNARY - l + 2
  {
    if l == UNARY then ReadUnary(ts) else
    var a := Read(l + 1, ts);
    if a.Failed? then a else ReadMore(l, a.v, a.rest)
  }

  function ReadMore(l: nat, t: Tree, ts: seq<Tok>): (r: Parsed<Tree>)
    requires l < UNARY
    ensures r.Got? ==> |r.rest| <= |ts|
    decreases |ts|, 0
  {
    var op := OpAt(l, ts);
    if op.None? then Got(t, ts) else
    var b := Read(l + 1, ts[1..]);
    if b.Failed? then b else ReadMore(l, Bin(op.value, t, b.v), b.rest)
  }

  function ReadUnary(ts: seq<Tok>): (r: Parsed<Tree>)
    ensures r.Got? ==> |r.rest| < |ts|
    decreases |ts|, 1
  {
    if ts != [] && Unary(ts[0]).Some? then
      var a := ReadUnary(ts[1..]);
      if a.Failed? then a else Got(Un(Unary(ts[0]).value, a.v), a.rest)
    else ReadPrim(ts)
  }

  function ReadPrim(ts: seq<Tok>): (r: Parsed<Tree>)
    ensures r.Got? ==> |r.rest| < |ts|
    decreases |ts|, 0
  {
    if ts == [] then Failed(Malformed) else
    match ts[0]
    case Num(v) => Got(Lit(v), ts[1..])
    case Id => Got(Name, ts[1..])
    case LParen =>
      var a := Read(0, ts[1..]);
      if a.Failed? then a
      else if a.rest == [] || a.rest[0] != RParen then Failed(Malformed)
      else Got(Group(a.v), a.rest[1..])
    case _ => Failed(Malformed)
  }

  /** The front of the tokens does not continue an operand of level l. */
  predicate Stops(l: nat, ts: seq<Tok>) {
    ts == [] || Binary(ts[0]).None? || Level(Binary(ts[0]).value) < l
  }

  // ----- reading inverts printing -----

  /** After the tokens of t, reading has t as its left operand. */
  lemma {:induction false} ReadPrinted(l: nat, t: Tree, s: seq<Tok>)
    requires l <= UNARY && Binds(t, l) && Stops(l + 1, s)
    ensures Read(l, Print(t) + s) == if l == UNARY then Got(t, s) else ReadMore(l, t, s)
    decreases t, UNARY - l + 1
  {
    if l == UNARY {
      ReadPrintedUnary(t, s);
    } else if t.Bin? && Level(t.op) == l {
      ReadPrintedBin(l, t, s);
    } else {
      ReadPrinted(l + 1, t, s);
    }
  }

  lemma {:induction false} ReadPrintedBin(l: nat, t: Tree, s: seq<Tok>)
    requires t.Bin? && Level(t.op) == l && Binds(t, l) && Stops(l + 1, s)
    ensures Read(l, Print(t) + s) == ReadMore(l, t, s)
    decreases t, 0
  {
    var s1 := [BinTok(t.op)] + Print(t.r) + s;
    assert Print(t) + s == Print(t.l) + s1;
    ReadPrinted(l, t.l, s1);
    ReadPrinted(l + 1, t.r, s);
    assert ReadMore(l, t.l, s1) == ReadMore(l, t, s) by {
      assert s1[1..] == Print(t.r) + s;
      assert OpAt(l, s1) == Some(t.op);
    }
  }

  lemma {:induction false} ReadPrintedUnary(t: Tree, s: seq<Tok>)
    requires Binds(t, UNARY)
    ensures ReadUnary(Print(t) + s) == Got(t, s)
    decreases t, 0
  {
    var ts := Print(t) + s;
    match t
    case Lit(_) => assert ts[1..] == s;
    case Name => assert ts[1..] == s;
    case Un(u, t1) =>
      assert ts[1..] == Print(t1) + s;
      ReadPrintedUnary(t1, s);
    case Group(t1) =>
      assert ts[1..] == Print(t1) + ([RParen] + s);
      ReadPrinted(0, t1, [RParen] + s);
      assert ([RParen] + s)[1..] == s;
  }

  /** Printing a tree and reading it back, whatever follows. */
  lemma ReadInvertsPrint(l: nat, t: Tree, s: seq<Tok>)
    requires l <= UNARY && Binds(t, l) && Stops(l, s)
    ensures Read(l, Print(t) + s) == Got(t, s)
  {
    ReadPrinted(l, t, s);
  }

  // ----- what is read was printed -----

  lemma {:induction false} ReadSound(l: nat, ts: seq<Tok>)
    requires l <= UNARY && Read(l, ts).Got?
    ensures var r := Read(l, ts); Binds(r.v, l) && ts == Print(r.v) + r.rest && (l < UNARY ==> Stops(l, r.rest))
    decreases |ts|, UNARY - l + 2
  {
    if l == UNARY {
      ReadUnarySound(ts);
    } else {
      var a := Read(l + 1, ts);
      ReadSound(l + 1, ts);
      BindsLess(a.v, l);
      ReadMoreSound(l, a.v, a.rest);
    }
  }

  lemma BindsLess(t: Tree, l: nat)
    requires Binds(t, l + 1)
    ensures Binds(t, l)
  {
  }

  lemma {:induction false} ReadMoreSound(l: nat, t: Tree, ts: seq<Tok>)
    requires l < UNARY && Binds(t, l) && ReadMore(l, t, ts).Got? && (l + 1 < UNARY ==> Stops(l + 1, ts))
    ensures var r := ReadMore(l, t, ts); Binds(r.v, l) && Print(t) + ts == Print(r.v) + r.rest && Stops(l, r.rest)
    decreases |ts|, 0
  {
    var op := OpAt(l, ts);
    if op.Some? {
      var b := Read(l + 1, ts[1..]);
      ReadSound(l + 1, ts[1..]);
      var t1 := Bin(op.value, t, b.v);
      ReadMoreSound(l, t1, b.rest);
      PrintBin(op.value, t, b.v, ts, b.rest);
    }
  }

  lemma PrintBin(op: BinOp, a: Tree, b: Tree, ts: seq<Tok>, rest: seq<Tok>)
    requires ts != [] && Binary(ts[0]) == Some(op) && ts[1..] == Print(b) + rest
    ensures Print(a) + ts == Print(Bin(op, a, b)) + rest
  {
    assert BinTok(op) == ts[0];
    assert ts == [ts[0]] + ts[1..];
    assert Print(a) + ([ts[0]] + (Print(b) + rest)) == Print(a) + [ts[0]] + Print(b) + rest;
  }

  lemma {:induction false} ReadUnarySound(ts: seq<Tok>)
    requires ReadUnary(ts).Got?
    ensures var r := ReadUnary(ts); Binds(r.v, UNARY) && ts == Print(r.v) + r.rest
    decreases |ts|, 0
  {
    if Unary(ts[0]).Some? {
      ReadUnarySound(ts[1..]);
      assert UnTok(Unary(ts[0]).value) == ts[0];
    } else if ts[0].LParen? {
      ReadSound(0, ts[1..]);
    }
  }

  // ----- evaluating while reading -----

  function Eval(l: nat, ts: seq<Tok>): (r: Parsed<I64>)
    requires l <= UNARY
    ensures r.Got? ==> |r.rest| < |ts|
    decreases |ts|, UNARY - l + 2
  {
    if l == UNARY then EvalUnary(ts) else
    var a := Eval(l + 1, ts);
    if a.Failed? then a else EvalMore(l, a.v, a.rest)
  }

  function EvalMore(l: nat, v: I64, ts: seq<Tok>): (r: Parsed<I64>)
    requires l < UNARY
    ensures r.Got? ==> |r.rest| <= |ts|
    decreases |ts|, 0
  {
    var op := OpAt(l, ts);
    if op.None? then Got(v, ts) else
    var b := Eval(l + 1, ts[1..]);
    if b.Failed? then b else
    var r := Apply(op.value, v, b.v);
    if r.Err? then Failed(r.e) else EvalMore(l, r.v, b.rest)
  }

  function EvalUnary(ts: seq<Tok>): (r: Parsed<I64>)
    ensures r.Got? ==> |r.rest| < |ts|
    decreases |ts|, 1
  {
    if ts != [] && Unary(ts[0]).Some? then
      var a := EvalUnary(ts[1..]);
      if a.Failed? then a else
      var r := ApplyUnary(Unary(ts[0]).value, a.v);
      if r.Err? then Failed(r.e) else Got(r.v, a.rest)
    else EvalPrim(ts)
  }

  function EvalPrim(ts: seq<Tok>): (r: Parsed<I64>)
    ensures r.Got? ==> |r.rest| < |ts|
    decreases |ts|, 0
  {
    if ts == [] then Failed(Malformed) else
    match ts[0]
    case Num(v) => Got(v, ts[1..])
    case Id => Got(0, ts[1..])
    case LParen =>
      var a := Eval(0, ts[1..]);
      if a.Failed? then a
      else if a.rest == [] || a.rest[0] != RParen then Failed(Malformed)
      else Got(a.v, a.rest[1..])
    case _ => Failed(Malformed)
  }

  /** What evaluating should give when a tree was read. */
  function Worth(p: Parsed<Tree>): Parsed<I64>
    requires p.Got?
  {
    var v := Value(p.v);
    if v.Ok? then Got(v.v, p.rest) else Failed(v.e)
  }

  /** e evaluates what p reads: the value of the tree, or its first error. */
  predicate Fused(e: Parsed<I64>, p: Parsed<Tree>) {
    if p.Got? then e == Worth(p) else e.Failed?
  }

  /** The evaluator builds no tree, but its result is that of the tree. */
  lemma {:induction false} EvalIsValue(l: nat, ts: seq<Tok>)
    requires l <= UNARY
    ensures Fused(Eval(l, ts), Read(l, ts))
    decreases |ts|, UNARY - l + 2
  {
    if l == UNARY {
      EvalUnaryIsValue(ts);
    } else {
      EvalIsValue(l + 1, ts);
      var a := Read(l + 1, ts);
      if a.Got? { EvalMoreIsValue(l, a.v, a.rest); }
    }
  }

  lemma {:induction false} EvalMoreIsValue(l: nat, t: Tree, ts: seq<Tok>)
    requires l < UNARY
    ensures var v := Value(t); var p := ReadMore(l, t, ts);
            if v.Ok? then Fused(EvalMore(l, v.v, ts), p) else p.Got? ==> Value(p.v) == v
    decreases |ts|, 0
  {
    var op := OpAt(l, ts);
    if op.Some? {
      EvalIsValue(l + 1, ts[1..]);
      var b := Read(l + 1, ts[1..]);
      if b.Got? { EvalMoreIsValue(l, Bin(op.value, t, b.v), b.rest); }
    }
  }

  lemma {:induction false} EvalUnaryIsValue(ts: seq<Tok>)
    ensures Fused(EvalUnary(ts), ReadUnary(ts))
    decreases |ts|, 1
  {
    if ts != [] {
      if Unary(ts[0]).Some? {
        EvalUnaryIsValue(ts[1..]);
      } else if ts[0].LParen? {
        EvalIsValue(0, ts[1..]);
        GroupIsValue(ts);
        assert EvalUnary(ts) == EvalPrim(ts) && ReadUnary(ts) == ReadPrim(ts);
      } else {
        AtomIsValue(ts);
        assert EvalUnary(ts) == EvalPrim(ts) && ReadUnary(ts) == ReadPrim(ts);
      }
    }
  }

  lemma AtomIsValue(ts: seq<Tok>)
    requires ts != [] && !ts[0].LParen?
    ensures Fused(EvalPrim(ts), ReadPrim(ts))
  {
  }

  lemma GroupIsValue(ts: seq<Tok>)
    requires ts != [] && ts[0].LParen? && Fused(Eval(0, ts[1..]), Read(0, ts[1..]))
    ensures Fused(EvalPrim(ts), ReadPrim(ts))
  {
    var e, p := Eval(0, ts[1..]), Read(0, ts[1..]);
    if p.Got? { assert e == Worth(p); }
  }

  // ----- the evaluator -----

  /** A cursor in the tokens of the line. */
  class PpCursor {
    const toks: seq<Tok>
    var at: nat

    ghost predicate Valid()
      reads this
    {
      at <= |toks|
    }

    ghost function Rest(): seq<Tok>
      reads this
      requires Valid()
    {
      toks[at..]
    }

    constructor (toks: seq<Tok>)
      ensures Valid() && Rest() == toks && this.toks == toks
    {
      this.toks, at := toks, 0;
    }

    /** The result and the position after it are those of p. */
    ghost predicate Stands(r: Result, p: Parsed<I64>)
      reads this
    {
      if p.Got? then Valid() && r == Ok(p.v) && Rest() == p.rest else r == Err(p.e)
    }

    method PpPrim() returns (r: Result)
      requires Valid()
      modifies this
      ensures Stands(r, EvalPrim(old(Rest())))
      decreases |toks| - at, 0
    {
      if at == |toks| { return Err(Malformed); }
      var t := toks[at];
      if t.LParen? {
        at := at + 1;
        r := PpLevel(0);
        if r.Err? { return; }
        if at == |toks| || toks[at] != RParen { return Err(Malformed); }
        at := at + 1;
      } else if t.Num? {
        at := at + 1;
        r := Ok(t.v);
      } else if t.Id? {
        at := at + 1;
        r := Ok(0);
      } else {
        r := Err(Malformed);
      }
    }

    method PpUnary() returns (r: Result)
      requires Valid()
      modifies this
      ensures Stands(r, EvalUnary(old(Rest())))
      decreases |toks| - at, 1
    {
      if at < |toks| && Unary(toks[at]).Some? {
        var u := Unary(toks[at]).value;
        at := at + 1;
        r := PpUnary();
        if r.Ok? { r := ApplyUnary(u, r.v); }
      } else {
        r := PpPrim();
      }
    }

    /** One rung of the ladder, from || at 0 to the shifts at 10. */
    method PpLevel(l: nat) returns (r: Result)
      requires Valid() && l <= UNARY
      modifies this
      ensures Stands(r, Eval(l, old(Rest())))
      decreases |toks| - at, UNARY - l + 2
    {
      if l == UNARY {
        r := PpUnary();
        return;
      }
      ghost var start := Rest();
      r := PpLevel(l + 1);
      if r.Err? { return; }
      while at < |toks| && OpAt(l, [toks[at]]).Some?
        invariant Valid() && r.Ok? && |Rest()| < |start|
        invariant EvalMore(l, r.v, Rest()) == Eval(l, start)
        decreases |toks| - at
      {
        r := PpStep(l, r.v);
        if r.Err? { return; }
      }
    }

    /** The operator at the cursor and its right operand. */
    method PpStep(l: nat, v: I64) returns (r: Result)
      requires Valid() && l < UNARY && OpAt(l, Rest()).Some?
      modifies this
      ensures r.Err? ==> EvalMore(l, v, old(Rest())) == Failed(r.e)
      ensures r.Ok? ==> Valid() && at > old(at) && EvalMore(l, v, old(Rest())) == EvalMore(l, r.v, Rest())
      decreases |toks| - at, 0
    {
      assert toks[at + 1..] == Rest()[1..];
      var op := Binary(toks[at]).value;
      at := at + 1;
      r := PpLevel(l + 1);
      if r.Ok? { r := Apply(op, v, r.v); }
    }
  }

  /** pp_eval_line, behind macro expansion: the whole line must be one expression. */
  method PpEvalLine(line: seq<Tok>) returns (r: Result)
    ensures r.Ok? <==> exists t: Tree :: Binds(t, 0) && line == Print(t) && Value(t).Ok?
    ensures forall t: Tree :: Binds(t, 0) && line == Print(t) ==> r == Value(t)
  {
    var c := new PpCursor(line);
    r := c.PpLevel(0);
    if r.Ok? && c.at < |line| { r := Err(Malformed); }
    LineValue(line);
    assert Eval(0, line).Got? ==> (Eval(0, line).rest == [] <==> c.at == |line|);
    forall t: Tree | Binds(t, 0) && line == Print(t) ensures r == Value(t) { LineIs(line, t); }
  }

  /** The line of a tree is worth what the tree is worth. */
  lemma LineIs(line: seq<Tok>, t: Tree)
    requires Binds(t, 0) && line == Print(t)
    ensures Eval(0, line) == var v := Value(t); if v.Ok? then Got(v.v, []) else Failed(v.e)
  {
    assert Print(t) + [] == line;
    ReadInvertsPrint(0, t, []);
    EvalIsValue(0, line);
  }

  /** A line that is used up is the line of a tree. */
  lemma LineValue(line: seq<Tok>)
    ensures var e := Eval(0, line);
            e.Got? && e.rest == [] <==> exists t: Tree :: Binds(t, 0) && line == Print(t) && Value(t).Ok?
  {
    EvalIsValue(0, line);
    var p := Read(0, line);
    if p.Got? && p.rest == [] {
      ReadSound(0, line);
      assert Print(p.v) + [] == Print(p.v);
    }
    forall t: Tree | Binds(t, 0) && line == Print(t) && Value(t).Ok?
      ensures Eval(0, line).Got? && Eval(0, line).rest == []
    {
      LineIs(line, t);
    }
  }
}
