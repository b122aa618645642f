/** src/parse.c: the expression ladder of the language and the constant evaluator on its
    nodes, next to the ladder of `#if`. */
module ParserLadder {
  import opened Basics
  import opened ConstExpr
  import opened PpEvaluator

  /** The parser's nodes.  Temp is the temporary of a chained comparison, SetTemp the
      assignment to it. */
  datatype Node = Lit(v: I64) | Negate(n: Node) | Invert(n: Node) | IsZero(n: Node) | Op(op: BinOp, l: Node, r: Node)
    | Pow(l: Node, r: Node) | Temp | SetTemp(n: Node)

  const REL := 4
  const SHIFT := 10

  // ----- building nodes -----

  /** A minus folds into a number; the least number has no negation, there or folded. */
  function Minus(n: Node): Node {
    if n.Lit? && n.v != MIN then Node.Lit(0 - n.v) else Negate(n)
  }

  /** > and >= swap their operands. */
  function Compare(op: BinOp, n: Node, r: Node): Node {
    match op
    case Gt => Op(Lt, r, n)
    case Ge => Op(Le, r, n)
    case _ => Op(op, n, r)
  }

  predicate Postfix(t: Tok) {
    t.LParen? || (t.Other? && t.spelling in ["[", ".", "->", "++", "--"])
  }

  function Parse(l: nat, ts: seq<Tok>): (r: Parsed<Node>)
    requires l <= UNARY
    ensures r.Got? ==> |r.rest| < |ts|
    decreases |ts|, UNARY - l + 2
  {
    if l == UNARY then ParseUnary(ts) else
    var a := Parse(l + 1, ts);
    if a.Failed? then a else if l == REL then ParseRel(a.v, None, a.rest) else ParseMore(l, a.v, a.rest)
  }

  function ParseMore(l: nat, n: Node, ts: seq<Tok>): (r: Parsed<Node>)
    requires l < UNARY
    ensures r.Got? ==> |r.rest| <= |ts|
    decreases |ts|, 0
  {
    var op, pow := OpAt(l, ts), l == SHIFT && ts != [] && ts[0].Backtick?;
    if op.None? && !pow then Got(n, ts) else
    var b := Parse(l + 1, ts[1..]);
    if b.Failed? then b else ParseMore(l, if pow then Pow(n, b.v) else Op(op.value, n, b.v), b.rest)
  }

  /** a < b < c is (a < (t = b)) && (t < c). */
  function ParseRel(n: Node, chain: Option<Node>, ts: seq<Tok>): (r: Parsed<Node>)
    ensures r.Got? ==> |r.rest| <= |ts|
    decreases |ts|, 0
  {
    var op := OpAt(REL, ts);
    if op.None? then Got(if chain.Some? then chain.value else n, ts) else
    var b := Parse(REL + 1, ts[1..]);
    if b.Failed? then b else
    var more := OpAt(REL, b.rest).Some?;
    var cmp := Compare(op.value, n, if more then SetTemp(b.v) else b.v);
    var chain1 := if chain.Some? then Op(LogAnd, chain.value, cmp) else cmp;
    if more then ParseRel(Temp, Some(chain1), b.rest) else Got(chain1, b.rest)
  }

  function ParseUnary(ts: seq<Tok>): (r: Parsed<Node>)
    ensures r.Got? ==> |r.rest| < |ts|
    decreases |ts|, 1
  {
    if ts != [] && Unary(ts[0]).Some? then
      var a := ParseUnary(ts[1..]);
      if a.Failed? then a else Got(Prefixed(Unary(ts[0]).value, a.v), a.rest)
    else ParsePostfix(ts)
  }

  function Prefixed(u: UnOp, n: Node): Node {
    match u
    case Plus => n
    case Neg => Minus(n)
    case Not => IsZero(n)
    case Flip => Invert(n)
  }

  /** Names, casts, calls, subscripts and members are outside of constant operators. */
  function ParsePostfix(ts: seq<Tok>): (r: Parsed<Node>)
    ensures r.Got? ==> |r.rest| < |ts|
    decreases |ts|, 0
  {
    if ts == [] then Failed(Malformed) else
    var p := match ts[0]
      case Num(v) => Got(Node.Lit(v), ts[1..])
      case LParen =>
        var a := Parse(0, ts[1..]);
        if a.Failed? then a else if a.rest == [] || a.rest[0] != RParen then Failed(Outside) else Got(a.v, a.rest[1..])
      case _ => Failed(Outside);
    if p.Got? && p.rest != [] && Postfix(p.rest[0]) then Failed(Outside) else p
  }

  // ----- eval_const -----

  function EvalConst(n: Node): Result {
    match n
    case Lit(v) => Ok(v)
    case Negate(n1) => var a := EvalConst(n1); if a.Err? then a else ApplyUnary(Neg, a.v)
    case Invert(n1) => var a := EvalConst(n1); if a.Err? then a else ApplyUnary(Flip, a.v)
    case IsZero(n1) => var a := EvalConst(n1); if a.Err? then a else ApplyUnary(Not, a.v)
    case Op(op, l, r) =>
      if Logical(op) then Err(NotConstant) else
      if op.Div? || op.Mod? then
        var d := EvalConst(r);
        if d.Err? then d else if d.v == 0 then Err(DivByZero) else
        var a := EvalConst(l);
        if a.Err? then a else Apply(op, a.v, d.v)
      else
        var a := EvalConst(l);
        if a.Err? then a else
        var b := EvalConst(r);
        if b.Err? then b else Apply(op, a.v, if op.Shl? || op.Shr? then b.v % 64 else b.v)
    case _ => Err(NotConstant)
  }

  predicate Logical(op: BinOp) {
    op.LogOr? || op.LogXor? || op.LogAnd?
  }

  // ----- trees of the two ladders -----

  predicate IsRel(t: Tree) {
    t.Bin? && Level(t.op) == REL
  }

  /** Only numbers, no names. */
  predicate Literal(t: Tree) {
    match t
    case Lit(_) => true
    case Name => false
    case Group(t1) => Literal(t1)
    case Un(_, t1) => Literal(t1)
    case Bin(_, a, b) => Literal(a) && Literal(b)
  }

  /** The node the parser builds where `#if` reads t. */
  function NodeOf(t: Tree): Node
    decreases t, 1
  {
    match t
    case Lit(v) => Node.Lit(v)
    case Name => Temp
    case Group(t1) => NodeOf(t1)
    case Un(u, t1) => Prefixed(u, NodeOf(t1))
    case Bin(op, a, b) => if IsRel(t) then Chain(t, false) else Op(op, NodeOf(a), NodeOf(b))
  }

  function Chain(t: Tree, more: bool): Node
    requires IsRel(t)
    decreases t, 0
  {
    var r := NodeOf(t.r);
    var cmp := Compare(t.op, if IsRel(t.l) then Temp else NodeOf(t.l), if more then SetTemp(r) else r);
    if IsRel(t.l) then Op(LogAnd, Chain(t.l, true), cmp) else cmp
  }

  /** The tokens do not go on as something `#if` does not know. */
  predicate Calm(ts: seq<Tok>) {
    ts == [] || !(Postfix(ts[0]) || ts[0].Backtick?)
  }

  predicate Same(n: Parsed<Node>, p: Parsed<Tree>) {
    p.Got? && Literal(p.v) && Calm(p.rest) ==> n == Got(NodeOf(p.v), p.rest)
  }

  lemma {:induction false} MoreLiteral(l: nat, t: Tree, ts: seq<Tok>)
    requires l < UNARY
    ensures var p := ReadMore(l, t, ts); p.Got? && Literal(p.v) ==> Literal(t)
    decreases |ts|
  {
    var op := OpAt(l, ts);
    if op.Some? {
      var b := Read(l + 1, ts[1..]);
      if b.Got? { MoreLiteral(l, Bin(op.value, t, b.v), b.rest); }
    }
  }

  /** What is behind the first operand is an operator, or the end. */
  lemma MoreCalm(l: nat, t: Tree, ts: seq<Tok>)
    requires l < UNARY
    ensures var p := ReadMore(l, t, ts); p.Got? && Calm(p.rest) ==> Calm(ts)
  {
  }

  lemma {:induction false} SameRead(l: nat, ts: seq<Tok>)
    requires l <= UNARY
    ensures Same(Parse(l, ts), Read(l, ts))
    decreases |ts|, UNARY - l + 2
  {
    if l == UNARY {
      SameUnary(ts);
    } else {
      SameRead(l + 1, ts);
      var a := Read(l + 1, ts);
      if a.Got? {
        MoreLiteral(l, a.v, a.rest);
        MoreCalm(l, a.v, a.rest);
        if l == REL {
          ReadSound(REL + 1, ts);
          SameRel(a.v, a.rest);
        } else {
          SameMore(l, a.v, a.rest);
        }
      }
    }
  }

  lemma {:induction false} SameMore(l: nat, t: Tree, ts: seq<Tok>)
    requires l < UNARY && l != REL
    ensures Literal(t) && Calm(ts) ==> Same(ParseMore(l, NodeOf(t), ts), ReadMore(l, t, ts))
    decreases |ts|, 0
  {
    var op := OpAt(l, ts);
    if op.Some? {
      SameRead(l + 1, ts[1..]);
      var b := Read(l + 1, ts[1..]);
      if b.Got? {
        var t1 := Bin(op.value, t, b.v);
        MoreLiteral(l, t1, b.rest);
        MoreCalm(l, t1, b.rest);
        SameMore(l, t1, b.rest);
      }
    }
  }

  /** Where the comparison loop stands when `#if` has read t. */
  lemma {:induction false} SameRel(t: Tree, ts: seq<Tok>)
    requires IsRel(t) ==> OpAt(REL, ts).Some?
    ensures Literal(t) && Calm(ts) ==>
      Same(if IsRel(t) then ParseRel(Temp, Some(Chain(t, true)), ts)
           else ParseRel(NodeOf(t), None, ts), ReadMore(REL, t, ts))
    decreases |ts|, 0
  {
    var op := OpAt(REL, ts);
    if op.Some? {
      SameRead(REL + 1, ts[1..]);
      var b := Read(REL + 1, ts[1..]);
      if b.Got? {
        var t1 := Bin(op.value, t, b.v);
        MoreLiteral(REL, t1, b.rest);
        MoreCalm(REL, t1, b.rest);
        if OpAt(REL, b.rest).Some? { SameRel(t1, b.rest); }
      }
    }
  }

  lemma {:induction false} SameUnary(ts: seq<Tok>)
    ensures Same(ParseUnary(ts), ReadUnary(ts))
    decreases |ts|, 1
  {
    if ts != [] {
      if Unary(ts[0]).Some? {
        SameUnary(ts[1..]);
      } else if ts[0].LParen? {
        SameRead(0, ts[1..]);
        var n, p := Parse(0, ts[1..]), Read(0, ts[1..]);
        assert Same(n, p);
        assert ParseUnary(ts) == ParsePostfix(ts) && ReadUnary(ts) == ReadPrim(ts);
      }
    }
  }

  // ----- the two values -----

  /** No logical operator, and no comparison of a comparison without parentheses. */
  predicate Plain(t: Tree) {
    match t
    case Group(t1) => Plain(t1)
    case Un(_, t1) => Plain(t1)
    case Bin(op, a, b) => !Logical(op) && !(IsRel(t) && IsRel(a)) && Plain(a) && Plain(b)
    case _ => true
  }

  /** Every shift count has a value from 0 to 63. */
  predicate CountsInRange(t: Tree) {
    match t
    case Group(t1) => CountsInRange(t1)
    case Un(_, t1) => CountsInRange(t1)
    case Bin(op, a, b) =>
      CountsInRange(a) && CountsInRange(b) && (op.Shl? || op.Shr? ==> Value(b).Ok? && 0 <= Value(b).v < 64)
    case _ => true
  }

  ghost predicate ValuesAgree(t: Tree) {
    var c := EvalConst(NodeOf(t));
    && (c.Ok? ==> Plain(t))
    && (Plain(t) && Value(t).Ok? ==> c == Value(t) && CountsInRange(t))
    && (c.Ok? && CountsInRange(t) ==> Value(t) == c)
  }

  /** The constant evaluator has a value exactly where `#if` has the same one, on plain
      trees; it takes shift counts modulo 64, where `#if` has none out of range. */
  lemma {:induction false} SameValue(t: Tree)
    requires Literal(t)
    ensures ValuesAgree(t)
  {
    match t
    case Lit(_) =>
    case Group(t1) => SameValue(t1);
    case Un(u, t1) =>
      SameValue(t1);
      SamePrefix(u, t1);
    case Bin(op, a, b) =>
      SameValue(a);
      SameValue(b);
      if IsRel(t) { SameComparison(op, a, b); } else { SameBinary(op, a, b); }
  }

  lemma SamePrefix(u: UnOp, t: Tree)
    requires ValuesAgree(t)
    ensures ValuesAgree(Un(u, t))
  {
    assert NodeOf(Un(u, t)) == Prefixed(u, NodeOf(t));
  }

  lemma SameComparison(op: BinOp, a: Tree, b: Tree)
    requires Level(op) == REL && ValuesAgree(a) && ValuesAgree(b)
    ensures ValuesAgree(Bin(op, a, b))
  {
    var t := Bin(op, a, b);
    if IsRel(a) {
      assert EvalConst(NodeOf(t)).Err?;
    } else {
      assert NodeOf(t) == Compare(op, NodeOf(a), NodeOf(b));
      CompareValue(op, NodeOf(a), NodeOf(b));
    }
  }

  /** Swapped operands compare alike. */
  lemma CompareValue(op: BinOp, n: Node, r: Node)
    requires Level(op) == REL
    ensures var c := EvalConst(Compare(op, n, r)); var x := EvalConst(n); var y := EvalConst(r);
            if x.Ok? && y.Ok? then c == Apply(op, x.v, y.v) else c.Err?
  {
    var x, y := EvalConst(n), EvalConst(r);
    if op.Gt? {
      OpValue(Lt, r, n);
    } else if op.Ge? {
      OpValue(Le, r, n);
    } else {
      OpValue(op, n, r);
    }
    if x.Ok? && y.Ok? { SwappedApply(op, x.v, y.v); }
  }

  lemma SwappedApply(op: BinOp, a: I64, b: I64)
    requires Level(op) == REL
    ensures Apply(op, a, b) == if op.Gt? then Apply(Lt, b, a) else if op.Ge? then Apply(Le, b, a) else Apply(op, a, b)
  {
  }

  lemma SameBinary(op: BinOp, a: Tree, b: Tree)
    requires Level(op) != REL && ValuesAgree(a) && ValuesAgree(b)
    ensures ValuesAgree(Bin(op, a, b))
  {
    OpValue(op, NodeOf(a), NodeOf(b));
    if op.Shl? || op.Shr? { SameShift(op, a, b); } else { SameOther(op, a, b); }
  }

  lemma SameShift(op: BinOp, a: Tree, b: Tree)
    requires (op.Shl? || op.Shr?) && ValuesAgree(a) && ValuesAgree(b)
    ensures ValuesAgree(Bin(op, a, b))
  {
    var x, y := EvalConst(NodeOf(a)), EvalConst(NodeOf(b));
    assert NodeOf(Bin(op, a, b)) == Op(op, NodeOf(a), NodeOf(b));
    if x.Ok? && y.Ok? { CountValue(op, x.v, y.v); }
  }

  lemma SameOther(op: BinOp, a: Tree, b: Tree)
    requires Level(op) != REL && !op.Shl? && !op.Shr? && ValuesAgree(a) && ValuesAgree(b)
    requires var c, x, y := EvalConst(Op(op, NodeOf(a), NodeOf(b))), EvalConst(NodeOf(a)), EvalConst(NodeOf(b));
             if Logical(op) || x.Err? || y.Err? then c.Err? else c == Apply(op, x.v, y.v)
    ensures ValuesAgree(Bin(op, a, b))
  {
    assert NodeOf(Bin(op, a, b)) == Op(op, NodeOf(a), NodeOf(b));
  }

  lemma CountValue(op: BinOp, a: I64, c: I64)
    requires op.Shl? || op.Shr?
    ensures if 0 <= c < 64 then c % 64 == c else Apply(op, a, c).Err?
  {
  }

  lemma OpValue(op: BinOp, n: Node, r: Node)
    ensures var c := EvalConst(Op(op, n, r)); var x := EvalConst(n); var y := EvalConst(r);
            if Logical(op) || x.Err? || y.Err? then c.Err?
            else c == Apply(op, x.v, if op.Shl? || op.Shr? then y.v % 64 else y.v)
  {
    if op.Div? || op.Mod? { DivValue(op, n, r); } else if !Logical(op) { OtherValue(op, n, r); }
  }

  lemma DivValue(op: BinOp, n: Node, r: Node)
    requires op.Div? || op.Mod?
    ensures var c := EvalConst(Op(op, n, r)); var x := EvalConst(n); var y := EvalConst(r);
            if x.Err? || y.Err? then c.Err? else c == Apply(op, x.v, y.v)
  {
    var y := EvalConst(r);
    if y.Ok? && y.v == 0 && EvalConst(n).Ok? { assert Apply(op, EvalConst(n).v, y.v) == Err(DivByZero); }
  }

  lemma OtherValue(op: BinOp, n: Node, r: Node)
    requires !Logical(op) && !op.Div? && !op.Mod?
    ensures var c := EvalConst(Op(op, n, r)); var x := EvalConst(n); var y := EvalConst(r);
            if x.Err? || y.Err? then c.Err? else c == Apply(op, x.v, if op.Shl? || op.Shr? then y.v % 64 else y.v)
  {
  }

  /** Both ladders on the same tokens. */
  lemma LaddersAgree(ts: seq<Tok>, v: I64)
    requires var p := Read(0, ts); p.Got? && Literal(p.v) && Calm(p.rest)
    ensures var p, n := Read(0, ts), Parse(0, ts);
            && n.Got? && n.rest == p.rest
            && (Plain(p.v) && Eval(0, ts) == Got(v, p.rest) <==> EvalConst(n.v) == Ok(v) && CountsInRange(p.v))
  {
    SameRead(0, ts);
    EvalIsValue(0, ts);
    SameValue(Read(0, ts).v);
  }

  /** Both on the tokens of a tree. */
  lemma OnPrinted(t: Tree)
    requires Literal(t) && Binds(t, 0)
    ensures Parse(0, Print(t)) == Got(NodeOf(t), []) && Fused(Eval(0, Print(t)), Got(t, []))
  {
    var ts := Print(t);
    ReadInvertsPrint(0, t, []);
    assert ts + [] == ts;
    EvalIsValue(0, ts);
    SameRead(0, ts);
  }

  /** What the two ladders give for the tokens of t. */
  ghost predicate Gives(t: Tree, hashIf: Result, parser: Result) {
    && (if hashIf.Ok? then Eval(0, Print(t)) == Got(hashIf.v, []) else Eval(0, Print(t)).Failed?)
    && Parse(0, Print(t)).Got? && EvalConst(Parse(0, Print(t)).v) == parser
  }

  lemma GivesIs(t: Tree)
    requires Literal(t) && Binds(t, 0)
    ensures Gives(t, Value(t), EvalConst(NodeOf(t)))
  {
    OnPrinted(t);
  }

  /** `a && b` has a value in `#if` alone. */
  lemma LogicalDiffers(a: I64, b: I64)
    ensures Gives(Bin(LogAnd, Tree.Lit(a), Tree.Lit(b)), Ok(Truth(a != 0 && b != 0)), Err(NotConstant))
  {
    var t := Bin(LogAnd, Tree.Lit(a), Tree.Lit(b));
    GivesIs(t);
    assert Value(t) == Ok(Truth(a != 0 && b != 0)) && NodeOf(t) == Op(LogAnd, Node.Lit(a), Node.Lit(b));
  }

  /** So has a comparison of a comparison: `3 > 2 > 1` is 0 there, like `1 > 1`. */
  lemma ChainDiffers(a: I64, b: I64, c: I64)
    ensures Gives(Bin(Gt, Bin(Gt, Tree.Lit(a), Tree.Lit(b)), Tree.Lit(c)), Ok(Truth(Truth(a > b) > c)),
                  Err(NotConstant))
  {
    var t := Bin(Gt, Bin(Gt, Tree.Lit(a), Tree.Lit(b)), Tree.Lit(c));
    GivesIs(t);
    assert Value(t.l) == Ok(Truth(a > b)) && Value(t) == Apply(Gt, Truth(a > b), c);
    assert EvalConst(NodeOf(t)) == Err(NotConstant);
  }

  /** `1 << 64` and larger counts have one in the parser alone, where `1 << 64` is 1. */
  lemma FarShiftDiffers(n: I64)
    requires n >= 64
    ensures Gives(Bin(Shl, Tree.Lit(1), Tree.Lit(n)), Err(Undefined), Apply(Shl, 1, n % 64))
  {
    var t := Bin(Shl, Tree.Lit(1), Tree.Lit(n));
    GivesIs(t);
    assert NodeOf(t) == Op(Shl, Node.Lit(1), Node.Lit(n));
    assert Value(t) == Err(Undefined) && EvalConst(NodeOf(t)) == Apply(Shl, 1, n % 64);
  }

  /** On the printed form of a tree with as few parentheses as possible. */
  lemma PrintedAgree(t: Tree, v: I64)
    requires Literal(t) && Value(t) == Ok(v)
    ensures var ts := Print(Parens(t, 0));
            Eval(0, ts) == Got(v, []) && (Plain(Parens(t, 0))
                                          ==> Parse(0, ts).Got? && EvalConst(Parse(0, ts).v) == Ok(v))
  {
    var r := Parens(t, 0);
    var ts := Print(r);
    ParensLiteral(t, 0);
    ReadInvertsPrint(0, r, []);
    assert ts + [] == ts;
    EvalIsValue(0, ts);
    SameRead(0, ts);
    SameValue(r);
  }

  lemma {:induction false} ParensLiteral(t: Tree, l: nat)
    requires Literal(t)
    ensures Literal(Parens(t, l))
  {
    match t
    case Group(t1) => ParensLiteral(t1, l);
    case Un(_, t1) => ParensLiteral(t1, UNARY);
    case Bin(op, a, b) =>
      ParensLiteral(a, Level(op));
      ParensLiteral(b, Level(op) + 1);
    case _ =>
  }

  // ----- the parser -----

  class Parser {
    const toks: seq<Tok>
    var tk: nat

    ghost predicate Valid()
      reads this
    {
      tk <= |toks|
    }

    ghost function Rest(): seq<Tok>
      reads this
      requires Valid()
    {
      toks[tk..]
    }

    constructor (toks: seq<Tok>)
      ensures Valid() && Rest() == toks
    {
      this.toks, tk := toks, 0;
    }

    /** The node and the position after it, or the error, are those of p. */
    ghost predicate Stands(ok: bool, n: Node, p: Parsed<Node>)
      reads this
    {
      if p.Got? then ok && Valid() && n == p.v && Rest() == p.rest else !ok
    }

    predicate Is(p: Tok)
      reads this
    {
      tk < |toks| && toks[tk] == p
    }

    method PostfixExpr() returns (ok: bool, n: Node)
      requires Valid()
      modifies this
      ensures Stands(ok, n, ParsePostfix(old(Rest())))
      decreases |toks| - tk, 0
    {
      n := Temp;
      if tk == |toks| { return false, n; }
      var t := toks[tk];
      assert toks[tk + 1..] == Rest()[1..];
      if t.LParen? {
        tk := tk + 1;
        ok, n := Level(0);
        if !ok || !Is(RParen) { return false, n; }
      } else if t.Num? {
        n := Node.Lit(t.v);
      } else {
        return false, n;
      }
      tk := tk + 1;
      ok := tk == |toks| || !Postfix(toks[tk]);
    }

    method UnaryExpr() returns (ok: bool, n: Node)
      requires Valid()
      modifies this
      ensures Stands(ok, n, ParseUnary(old(Rest())))
      decreases |toks| - tk, 1
    {
      if tk < |toks| && Unary(toks[tk]).Some? {
        var u := Unary(toks[tk]).value;
        tk := tk + 1;
        ok, n := UnaryExpr();
        n := Prefixed(u, n);
      } else {
        ok, n := PostfixExpr();
      }
    }

    /** From || at 0 to the shifts at 10. */
    method Level(l: nat) returns (ok: bool, n: Node)
      requires Valid() && l <= UNARY
      modifies this
      ensures Stands(ok, n, Parse(l, old(Rest())))
      decreases |toks| - tk, UNARY - l + 2
    {
      if l == UNARY {
        ok, n := UnaryExpr();
        return;
      }
      ghost var start := Rest();
      ok, n := Level(l + 1);
      if !ok { return; }
      if l == REL {
        ok, n := Relational(n);
        return;
      }
      while tk < |toks| && (OpAt(l, [toks[tk]]).Some? || (l == SHIFT && Is(Backtick)))
        invariant Valid() && |Rest()| < |start|
        invariant ParseMore(l, n, Rest()) == Parse(l, start)
        decreases |toks| - tk
      {
        ok, n := Operand(l, n);
        if !ok { return; }
      }
    }

    /** The operator at the cursor and its right operand. */
    method Operand(l: nat, n: Node) returns (ok: bool, m: Node)
      requires Valid() && l < UNARY && l != REL && tk < |toks|
      requires OpAt(l, Rest()).Some? || (l == SHIFT && Is(Backtick))
      modifies this
      ensures !ok ==> ParseMore(l, n, old(Rest())).Failed?
      ensures ok ==> Valid() && tk > old(tk) && ParseMore(l, n, old(Rest())) == ParseMore(l, m, Rest())
      decreases |toks| - tk, 0
    {
      assert toks[tk + 1..] == Rest()[1..];
      var t := toks[tk];
      tk := tk + 1;
      ok, m := Level(l + 1);
      m := if t.Backtick? then Pow(n, m) else Op(Binary(t).value, n, m);
    }

    /** Comparisons, chained. */
    method Relational(first: Node) returns (ok: bool, n: Node)
      requires Valid()
      modifies this
      ensures Stands(ok, n, ParseRel(first, None, old(Rest())))
      decreases |toks| - tk, 1
    {
      n := first;
      var chain: Option<Node> := None;
      ghost var start := Rest();
      while tk < |toks| && OpAt(REL, [toks[tk]]).Some?
        invariant Valid() && |Rest()| <= |start|
        invariant ParseRel(n, chain, Rest()) == ParseRel(first, None, start)
        decreases |toks| - tk
      {
        assert toks[tk + 1..] == Rest()[1..] && OpAt(REL, Rest()).Some?;
        var op := Binary(toks[tk]).value;
        tk := tk + 1;
        var rhs: Node;
        ok, rhs := Level(REL + 1);
        if !ok { return; }
        var more := tk < |toks| && OpAt(REL, [toks[tk]]).Some?;
        var cmp := Compare(op, n, if more then SetTemp(rhs) else rhs);
        chain := if chain.Some? then Some(Op(LogAnd, chain.value, cmp)) else Some(cmp);
        if !more { return true, chain.value; }
        n := Temp;
      }
      ok := true;
      n := if chain.Some? then chain.value else n;
    }
  }
}
