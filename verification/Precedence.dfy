/** What operators mean and how they group, with the operators written out: the ladders of
    src/lexpp.c and of src/parse.c. */
module Precedence {
  import opened Basics
  import opened ConstExpr
  import opened PpEvaluator
  import opened ParserLadder

  /** The rungs of binary operators, tightest first. */
  predicate OnRung(o: Tok, i: nat) {
    match i
    case 0 => o == LessLess || o == MoreMore
    case 1 => o == Star || o == Slash || o == Percent
    case 2 => o == Amp
    case 3 => o == Caret
    case 4 => o == Bar
    case 5 => o == PlusSign || o == Tok.Minus
    case 6 => o == Less || o == Tok.More || o == LessEq || o == MoreEq
    case 7 => o == EqEq || o == BangEq
    case 8 => o == AmpAmp
    case 9 => o == CaretCaret
    case 10 => o == BarBar
    case _ => false
  }

  const COMPARISONS := 6

  lemma RungLevel(o: Tok, i: nat)
    requires OnRung(o, i)
    ensures i <= 10 && Binary(o).Some? && ConstExpr.Level(Binary(o).value) == 10 - i
  {
    if i <= 4 { TightLevel(o, i); } else { LooseLevel(o, i); }
  }

  lemma TightLevel(o: Tok, i: nat)
    requires i <= 4 && OnRung(o, i)
    ensures Binary(o).Some? && ConstExpr.Level(Binary(o).value) == 10 - i
  {
  }

  lemma LooseLevel(o: Tok, i: nat)
    requires i > 4 && OnRung(o, i)
    ensures i <= 10 && Binary(o).Some? && ConstExpr.Level(Binary(o).value) == 10 - i
  {
  }

  /** The operator of a token on a rung. */
  function OpOf(o: Tok): BinOp
    requires Binary(o).Some?
  {
    Binary(o).value
  }

  // ----- how `#if` groups -----

  /** x o y q z */
  function Three(x: Tree, o: Tok, y: Tree, q: Tok, z: Tree): seq<Tok> {
    Print(x) + [o] + Print(y) + [q] + Print(z)
  }

  lemma TokenOf(o: Tok)
    requires Binary(o).Some?
    ensures BinTok(OpOf(o)) == o
  {
  }

  lemma PrintLeft(x: Tree, o: Tok, y: Tree, q: Tok, z: Tree, inner: BinOp, outer: BinOp)
    requires BinTok(inner) == o && BinTok(outer) == q
    ensures Three(x, o, y, q, z) == Print(Bin(outer, Bin(inner, x, y), z))
  {
  }

  lemma PrintRight(x: Tree, o: Tok, y: Tree, q: Tok, z: Tree, outer: BinOp, inner: BinOp)
    requires BinTok(outer) == o && BinTok(inner) == q
    ensures Three(x, o, y, q, z) == Print(Bin(outer, x, Bin(inner, y, z)))
  {
    var a, c := Print(x) + [o], Print(y) + [q] + Print(z);
    assert a + c == Print(x) + [o] + Print(y) + [q] + Print(z);
  }

  lemma ReadWhole(t: Tree, ts: seq<Tok>)
    requires Binds(t, 0) && ts == Print(t)
    ensures Read(0, ts) == Got(t, [])
  {
    assert Print(t) + [] == Print(t);
    ReadInvertsPrint(0, t, []);
  }

  /** Of two operators the tighter one is inside, on either side. */
  lemma TighterInside(x: Tree, y: Tree, z: Tree, o: Tok, q: Tok, i: nat, j: nat)
    requires i < j && OnRung(o, i) && OnRung(q, j) && Binds(x, UNARY) && Binds(y, UNARY) && Binds(z, UNARY)
    ensures Binary(o).Some? && Binary(q).Some?
    ensures Read(0, Three(x, o, y, q, z)) == Got(Bin(OpOf(q), Bin(OpOf(o), x, y), z), [])
    ensures Read(0, Three(x, q, y, o, z)) == Got(Bin(OpOf(q), x, Bin(OpOf(o), y, z)), [])
  {
    RungLevel(o, i);
    RungLevel(q, j);
    TokenOf(o);
    TokenOf(q);
    ReadLeft(x, y, z, o, q, OpOf(o), OpOf(q));
    ReadRight(x, y, z, q, o, OpOf(q), OpOf(o));
  }

  lemma ReadLeft(x: Tree, y: Tree, z: Tree, o: Tok, q: Tok, inner: BinOp, outer: BinOp)
    requires BinTok(inner) == o && BinTok(outer) == q && ConstExpr.Level(outer) <= ConstExpr.Level(inner)
    requires Binds(x, UNARY) && Binds(y, UNARY) && Binds(z, UNARY)
    ensures Read(0, Three(x, o, y, q, z)) == Got(Bin(outer, Bin(inner, x, y), z), [])
  {
    OperandBinds(x, 0);
    OperandBinds(y, 0);
    OperandBinds(z, 0);
    PrintLeft(x, o, y, q, z, inner, outer);
    ReadWhole(Bin(outer, Bin(inner, x, y), z), Three(x, o, y, q, z));
  }

  lemma ReadRight(x: Tree, y: Tree, z: Tree, o: Tok, q: Tok, outer: BinOp, inner: BinOp)
    requires BinTok(outer) == o && BinTok(inner) == q && ConstExpr.Level(outer) < ConstExpr.Level(inner)
    requires Binds(x, UNARY) && Binds(y, UNARY) && Binds(z, UNARY)
    ensures Read(0, Three(x, o, y, q, z)) == Got(Bin(outer, x, Bin(inner, y, z)), [])
  {
    OperandBinds(x, 0);
    OperandBinds(y, 0);
    OperandBinds(z, 0);
    PrintRight(x, o, y, q, z, outer, inner);
    ReadWhole(Bin(outer, x, Bin(inner, y, z)), Three(x, o, y, q, z));
  }

  /** An operand may stand anywhere. */
  lemma OperandBinds(t: Tree, l: nat)
    requires Binds(t, UNARY) && l <= UNARY
    ensures forall k | l <= k <= UNARY :: Binds(t, k)
  {
  }

  /** Operators of one rung group to the left. */
  lemma SameRungLeft(x: Tree, y: Tree, z: Tree, o: Tok, q: Tok, i: nat)
    requires OnRung(o, i) && OnRung(q, i) && Binds(x, UNARY) && Binds(y, UNARY) && Binds(z, UNARY)
    ensures Binary(o).Some? && Binary(q).Some?
    ensures Read(0, Three(x, o, y, q, z)) == Got(Bin(OpOf(q), Bin(OpOf(o), x, y), z), [])
  {
    RungLevel(o, i);
    RungLevel(q, i);
    TokenOf(o);
    TokenOf(q);
    ReadLeft(x, y, z, o, q, OpOf(o), OpOf(q));
  }

  // ----- how the parser groups -----

  /** The node of one operator; > and >= swap their operands. */
  function Joined(o: Tok, n: Node, m: Node): Node {
    match o
    case BarBar => Op(LogOr, n, m)
    case CaretCaret => Op(LogXor, n, m)
    case AmpAmp => Op(LogAnd, n, m)
    case EqEq => Op(Eq, n, m)
    case BangEq => Op(Ne, n, m)
    case Less => Op(Lt, n, m)
    case More => Op(Lt, m, n)
    case LessEq => Op(Le, n, m)
    case MoreEq => Op(Le, m, n)
    case PlusSign => Op(Add, n, m)
    case Minus => Op(Sub, n, m)
    case Bar => Op(BitOr, n, m)
    case Caret => Op(BitXor, n, m)
    case Amp => Op(BitAnd, n, m)
    case Star => Op(Mul, n, m)
    case Slash => Op(Div, n, m)
    case Percent => Op(Mod, n, m)
    case LessLess => Op(Shl, n, m)
    case MoreMore => Op(Shr, n, m)
    case _ => Pow(n, m)
  }

  lemma JoinedIs(o: Tok, a: Tree, b: Tree)
    requires Binary(o).Some? && !(IsRel(Bin(OpOf(o), a, b)) && IsRel(a))
    ensures NodeOf(Bin(OpOf(o), a, b)) == Joined(o, NodeOf(a), NodeOf(b))
  {
    var t := Bin(OpOf(o), a, b);
    if IsRel(t) { assert NodeOf(t) == Compare(OpOf(o), NodeOf(a), NodeOf(b)); }
  }

  /** a o b q c, with numbers. */
  function Numbers(a: I64, o: Tok, b: I64, q: Tok, c: I64): seq<Tok> {
    [Num(a), o, Num(b), q, Num(c)]
  }

  lemma NumbersAre(a: I64, o: Tok, b: I64, q: Tok, c: I64)
    ensures Numbers(a, o, b, q, c) == Three(Tree.Lit(a), o, Tree.Lit(b), q, Tree.Lit(c))
  {
  }

  lemma ParserTighterInside(a: I64, b: I64, c: I64, o: Tok, q: Tok, i: nat, j: nat)
    requires i < j && OnRung(o, i) && OnRung(q, j)
    ensures Parse(0, Numbers(a, o, b, q, c)) == Got(Joined(q, Joined(o, Node.Lit(a), Node.Lit(b)), Node.Lit(c)), [])
    ensures Parse(0, Numbers(a, q, b, o, c)) == Got(Joined(q, Node.Lit(a), Joined(o, Node.Lit(b), Node.Lit(c))), [])
  {
    var x, y, z := Tree.Lit(a), Tree.Lit(b), Tree.Lit(c);
    RungLevel(o, i);
    RungLevel(q, j);
    TighterInside(x, y, z, o, q, i, j);
    NumbersAre(a, o, b, q, c);
    ParsesAs(Numbers(a, o, b, q, c), Bin(OpOf(q), Bin(OpOf(o), x, y), z));
    NumbersAre(a, q, b, o, c);
    ParsesAs(Numbers(a, q, b, o, c), Bin(OpOf(q), x, Bin(OpOf(o), y, z)));
    JoinedIs(o, x, y);
    JoinedIs(o, y, z);
    JoinedIs(q, Bin(OpOf(o), x, y), z);
    JoinedIs(q, x, Bin(OpOf(o), y, z));
  }

  lemma ParsesAs(ts: seq<Tok>, t: Tree)
    requires Read(0, ts) == Got(t, []) && Literal(t)
    ensures Parse(0, ts) == Got(NodeOf(t), [])
  {
    SameRead(0, ts);
  }

  lemma ParserSameRungLeft(a: I64, b: I64, c: I64, o: Tok, q: Tok, i: nat)
    requires i != COMPARISONS && OnRung(o, i) && OnRung(q, i)
    ensures Parse(0, Numbers(a, o, b, q, c)) == Got(Joined(q, Joined(o, Node.Lit(a), Node.Lit(b)), Node.Lit(c)), [])
  {
    var x, y, z := Tree.Lit(a), Tree.Lit(b), Tree.Lit(c);
    RungLevel(o, i);
    RungLevel(q, i);
    SameRungLeft(x, y, z, o, q, i);
    NumbersAre(a, o, b, q, c);
    ParsesAs(Numbers(a, o, b, q, c), Bin(OpOf(q), Bin(OpOf(o), x, y), z));
    JoinedIs(o, x, y);
    JoinedIs(q, Bin(OpOf(o), x, y), z);
  }

  lemma CompareIs(o: Tok, n: Node, m: Node)
    requires OnRung(o, COMPARISONS)
    ensures Binary(o).Some? && Compare(OpOf(o), n, m) == Joined(o, n, m)
  {
  }

  /** a o b q c with two comparisons is (a o (t = b)) && (t q c). */
  lemma ParserChains(a: I64, b: I64, c: I64, o: Tok, q: Tok)
    requires OnRung(o, COMPARISONS) && OnRung(q, COMPARISONS)
    ensures Parse(0, Numbers(a, o, b, q, c))
            == Got(Op(LogAnd, Joined(o, Node.Lit(a), SetTemp(Node.Lit(b))), Joined(q, Temp, Node.Lit(c))), [])
  {
    var x, y, z := Tree.Lit(a), Tree.Lit(b), Tree.Lit(c);
    RungLevel(o, COMPARISONS);
    RungLevel(q, COMPARISONS);
    SameRungLeft(x, y, z, o, q, COMPARISONS);
    var t := Bin(OpOf(q), Bin(OpOf(o), x, y), z);
    NumbersAre(a, o, b, q, c);
    ParsesAs(Numbers(a, o, b, q, c), t);
    CompareIs(o, Node.Lit(a), SetTemp(Node.Lit(b)));
    CompareIs(q, Temp, Node.Lit(c));
    assert NodeOf(t) == Chain(t, false) && IsRel(t.l);
    assert Chain(t.l, true) == Compare(OpOf(o), Node.Lit(a), SetTemp(Node.Lit(b)));
    assert Chain(t, false) == Op(LogAnd, Chain(t.l, true), Compare(OpOf(q), Temp, Node.Lit(c)));
  }

  // ----- the power operator, which only the parser knows -----

  lemma NumHead(a: I64, rest: seq<Tok>)
    requires rest == [] || !Postfix(rest[0])
    ensures Parse(UNARY, [Num(a)] + rest) == Got(Node.Lit(a), rest)
  {
    var ts := [Num(a)] + rest;
    assert ts[0] == Num(a) && ts[1..] == rest && Unary(Num(a)) == None;
    assert ParseUnary(ts) == ParsePostfix(ts);
  }

  /** What stands behind is no operator of rung l. */
  predicate Looser(rest: seq<Tok>, l: nat) {
    rest == [] || (Binary(rest[0]).Some? && ConstExpr.Level(Binary(rest[0]).value) < l)
  }

  /** From the powers and shifts up to a looser rung. */
  lemma {:induction false} Climb(l: nat, ts: seq<Tok>, n: Node, rest: seq<Tok>)
    requires l <= SHIFT && Parse(SHIFT, ts) == Got(n, rest) && Looser(rest, l)
    ensures Parse(l, ts) == Got(n, rest)
    decreases SHIFT - l
  {
    if l < SHIFT { Climb(l + 1, ts, n, rest); }
  }

  /** a ` b */
  lemma PowerParts(a: I64, b: I64, rest: seq<Tok>)
    requires Looser(rest, SHIFT)
    ensures Parse(SHIFT, [Num(a)] + ([Backtick, Num(b)] + rest)) == Got(Pow(Node.Lit(a), Node.Lit(b)), rest)
  {
    var more := [Backtick, Num(b)] + rest;
    NumHead(a, more);
    assert more[1..] == [Num(b)] + rest;
    NumHead(b, rest);
    assert ParseMore(SHIFT, Node.Lit(a), more) == ParseMore(SHIFT, Pow(Node.Lit(a), Node.Lit(b)), rest);
  }

  lemma NumberAt(l: nat, a: I64, rest: seq<Tok>)
    requires l <= SHIFT && Looser(rest, l)
    ensures Parse(l, [Num(a)] + rest) == Got(Node.Lit(a), rest)
  {
    NumHead(a, rest);
    assert Parse(SHIFT, [Num(a)] + rest) == Got(Node.Lit(a), rest);
    Climb(l, [Num(a)] + rest, Node.Lit(a), rest);
  }

  /** One operator between two operands of the rungs inside. */
  lemma OneOperator(l: nat, o: Tok, ts: seq<Tok>, n: Node, rest: seq<Tok>, m: Node)
    requires l < SHIFT && Binary(o).Some? && ConstExpr.Level(OpOf(o)) == l
    requires Parse(l + 1, ts) == Got(n, [o] + rest) && Parse(l + 1, rest) == Got(m, [])
    ensures Parse(l, ts) == Got(Joined(o, n, m), [])
  {
    OperatorNode(l, o, n, m);
    assert ([o] + rest)[1..] == rest;
    if l == REL {
      assert ParseRel(n, None, [o] + rest) == Got(Compare(OpOf(o), n, m), []);
    } else {
      assert ParseMore(l, n, [o] + rest) == ParseMore(l, Op(OpOf(o), n, m), []);
    }
  }

  lemma OperatorNode(l: nat, o: Tok, n: Node, m: Node)
    requires Binary(o).Some? && ConstExpr.Level(OpOf(o)) == l
    ensures Joined(o, n, m) == if l == REL then Compare(OpOf(o), n, m) else Op(OpOf(o), n, m)
  {
    if l == REL {
      CompareIs(o, n, m);
    } else if l > REL {
      TightNode(o, n, m);
    } else {
      LooseNode(o, n, m);
    }
  }

  lemma TightNode(o: Tok, n: Node, m: Node)
    requires Binary(o).Some? && ConstExpr.Level(OpOf(o)) > REL
    ensures Joined(o, n, m) == Op(OpOf(o), n, m)
  {
  }

  lemma LooseNode(o: Tok, n: Node, m: Node)
    requires Binary(o).Some? && ConstExpr.Level(OpOf(o)) < REL
    ensures Joined(o, n, m) == Op(OpOf(o), n, m)
  {
  }

  lemma {:induction false} Outwards(l: nat, k: nat, ts: seq<Tok>, n: Node)
    requires k <= l <= SHIFT && Parse(l, ts) == Got(n, [])
    ensures Parse(k, ts) == Got(n, [])
    decreases l - k
  {
    if k < l { Outwards(l, k + 1, ts, n); }
  }

  /** The power has the rung of the shifts: inside of every other operator. */
  lemma PowerInside(a: I64, b: I64, c: I64, o: Tok, j: nat)
    requires 0 < j && OnRung(o, j)
    ensures Parse(0, Numbers(a, Backtick, b, o, c)) == Got(Joined(o, Pow(Node.Lit(a), Node.Lit(b)), Node.Lit(c)), [])
    ensures Parse(0, Numbers(a, o, b, Backtick, c)) == Got(Joined(o, Node.Lit(a), Pow(Node.Lit(b), Node.Lit(c))), [])
  {
    RungLevel(o, j);
    PowerLeft(a, b, c, o, 10 - j);
    PowerRight(a, b, c, o, 10 - j);
  }

  lemma PowerLeft(a: I64, b: I64, c: I64, o: Tok, l: nat)
    requires l < SHIFT && Binary(o).Some? && ConstExpr.Level(OpOf(o)) == l
    ensures Parse(0, Numbers(a, Backtick, b, o, c)) == Got(Joined(o, Pow(Node.Lit(a), Node.Lit(b)), Node.Lit(c)), [])
  {
    var ts := Numbers(a, Backtick, b, o, c);
    PowerParts(a, b, [o, Num(c)]);
    assert ts == [Num(a)] + ([Backtick, Num(b)] + [o, Num(c)]) && [o, Num(c)] == [o] + [Num(c)];
    Climb(l + 1, ts, Pow(Node.Lit(a), Node.Lit(b)), [o] + [Num(c)]);
    NumberAt(l + 1, c, []);
    assert [Num(c)] + [] == [Num(c)];
    OneOperator(l, o, ts, Pow(Node.Lit(a), Node.Lit(b)), [Num(c)], Node.Lit(c));
    Outwards(l, 0, ts, Joined(o, Pow(Node.Lit(a), Node.Lit(b)), Node.Lit(c)));
  }

  lemma PowerRight(a: I64, b: I64, c: I64, o: Tok, l: nat)
    requires l < SHIFT && Binary(o).Some? && ConstExpr.Level(OpOf(o)) == l
    ensures Parse(0, Numbers(a, o, b, Backtick, c)) == Got(Joined(o, Node.Lit(a), Pow(Node.Lit(b), Node.Lit(c))), [])
  {
    var ts, power := Numbers(a, o, b, Backtick, c), [Num(b), Backtick, Num(c)];
    assert ts == [Num(a)] + ([o] + power);
    NumberAt(l + 1, a, [o] + power);
    PowerParts(b, c, []);
    assert power == [Num(b)] + ([Backtick, Num(c)] + []);
    Climb(l + 1, power, Pow(Node.Lit(b), Node.Lit(c)), []);
    OneOperator(l, o, ts, Node.Lit(a), power, Pow(Node.Lit(b), Node.Lit(c)));
    Outwards(l, 0, ts, Joined(o, Node.Lit(a), Pow(Node.Lit(b), Node.Lit(c))));
  }

  /** A power or shift, then the operand and what follows. */
  lemma ShiftStep(n: Node, o: Tok, b: I64, rest: seq<Tok>)
    requires (o.Backtick? || OnRung(o, 0)) && (rest == [] || !Postfix(rest[0]))
    ensures ParseMore(SHIFT, n, [o] + ([Num(b)] + rest)) == ParseMore(SHIFT, Joined(o, n, Node.Lit(b)), rest)
  {
    var ts := [o] + ([Num(b)] + rest);
    NumHead(b, rest);
    assert ts[0] == o && ts[1..] == [Num(b)] + rest;
    if !o.Backtick? { RungLevel(o, 0); }
  }

  /** With a shift or another power it groups to the left, operands in order. */
  lemma PowerGroupsLeft(a: I64, b: I64, c: I64, o: Tok, q: Tok)
    requires o.Backtick? || OnRung(o, 0)
    requires q.Backtick? || OnRung(q, 0)
    ensures Parse(0, Numbers(a, o, b, q, c)) == Got(Joined(q, Joined(o, Node.Lit(a), Node.Lit(b)), Node.Lit(c)), [])
  {
    var n := Joined(o, Node.Lit(a), Node.Lit(b));
    var behind, last := [o] + ([Num(b)] + [q, Num(c)]), [q] + ([Num(c)] + []);
    NumHead(a, behind);
    ShiftStep(Node.Lit(a), o, b, [q, Num(c)]);
    assert [q, Num(c)] == last;
    ShiftStep(n, q, c, []);
    assert Numbers(a, o, b, q, c) == [Num(a)] + behind;
    ShiftsWhole([Num(a)] + behind, Node.Lit(a), behind, Joined(q, n, Node.Lit(c)));
  }

  lemma ShiftsWhole(ts: seq<Tok>, first: Node, behind: seq<Tok>, n: Node)
    requires Parse(UNARY, ts) == Got(first, behind) && ParseMore(SHIFT, first, behind) == ParseMore(SHIFT, n, [])
    ensures Parse(0, ts) == Got(n, [])
  {
    Outwards(SHIFT, 0, ts, n);
  }

  // ----- what each operator yields on numbers -----

  /** a o b */
  function Two(a: I64, o: Tok, b: I64): seq<Tok> {
    [Num(a), o, Num(b)]
  }

  /** `#if` has the value v. */
  ghost predicate Directive(ts: seq<Tok>, v: int) {
    Eval(0, ts).Got? && Eval(0, ts).v == v && Eval(0, ts).rest == []
  }

  /** So has the parser. */
  ghost predicate Both(ts: seq<Tok>, v: int) {
    && Directive(ts, v)
    && Parse(0, ts).Got? && Parse(0, ts).rest == [] && EvalConst(Parse(0, ts).v).Ok? && EvalConst(Parse(0, ts).v).v == v
  }

  /** `#if` has no value. */
  ghost predicate Neither(ts: seq<Tok>) {
    Eval(0, ts).Failed?
  }

  /** The tokens of a tree of numbers. */
  lemma TreeIs(t: Tree, ts: seq<Tok>, r: Result)
    requires Literal(t) && Binds(t, 0) && ts == Print(t) && Value(t) == r
    ensures if r.Err? then Neither(ts) else Directive(ts, r.v) && (Plain(t) ==> Both(ts, r.v))
  {
    LineIs(ts, t);
    OnPrinted(t);
    SameValue(t);
  }

  lemma TwoIs(a: I64, o: Tok, b: I64, r: Result)
    requires Binary(o).Some? && r == Apply(OpOf(o), a, b)
    ensures if r.Err? then Neither(Two(a, o, b))
            else Directive(Two(a, o, b), r.v) && (!Logical(OpOf(o)) ==> Both(Two(a, o, b), r.v))
  {
    var t := Bin(OpOf(o), Tree.Lit(a), Tree.Lit(b));
    TokenOf(o);
    assert Value(t) == r && Plain(Tree.Lit(a)) && Plain(Tree.Lit(b));
    TreeIs(t, Two(a, o, b), r);
  }

  /** Sums, differences and products that fit in 64 bits; others have no value. */
  lemma Sums(a: I64, b: I64)
    ensures if MIN <= a + b <= MAX then Both(Two(a, PlusSign, b), a + b) else Neither(Two(a, PlusSign, b))
    ensures if MIN <= a - b <= MAX then Both(Two(a, Tok.Minus, b), a - b) else Neither(Two(a, Tok.Minus, b))
    ensures if MIN <= a * b <= MAX then Both(Two(a, Star, b), a * b) else Neither(Two(a, Star, b))
  {
    TwoIs(a, PlusSign, b, Checked(a + b));
    TwoIs(a, Tok.Minus, b, Checked(a - b));
    TwoIs(a, Star, b, Checked(a * b));
  }

  /** a is q times b and r; r is smaller than b, and of the sign of a. */
  predicate Divides(a: int, b: int, q: int, r: int) {
    && a == q * b + r && (r == 0 || (r < 0 <==> a < 0))
    && (if b < 0 then b < r && r < 0 - b else 0 - b < r && r < b)
  }

  /** Division rounds towards zero, and the remainder has the sign of the dividend. */
  lemma Quotients(a: I64, b: I64) returns (q: int, r: int)
    ensures b == 0 || (a == MIN && b == -1) ==> Neither(Two(a, Slash, b)) && Neither(Two(a, Percent, b))
    ensures b != 0 && !(a == MIN && b == -1) ==> Both(Two(a, Slash, b), q) && Both(Two(a, Percent, b), r)
    ensures b != 0 ==> Divides(a, b, q, r)
  {
    q, r := 0, 0;
    if b != 0 {
      q := Quotient(a, b);
      r := a - b * q;
      QuotientDivides(a, b);
      QuotientFits(a, b);
    }
    TwoIs(a, Slash, b, Apply(Div, a, b));
    TwoIs(a, Percent, b, Apply(Mod, a, b));
  }

  lemma QuotientDivides(a: int, b: int)
    requires b != 0
    ensures Divides(a, b, Quotient(a, b), a - b * Quotient(a, b))
  {
    var n := if a >= 0 then a else 0 - a;
    var q, r := n / b, n % b;
    assert n == q * b + r;
    if a < 0 { Negated(q, b); }
  }

  lemma Negated(q: int, b: int)
    ensures b * (-q) == 0 - q * b && (-q) * b == 0 - q * b
  {
  }

  lemma QuotientFits(a: I64, b: I64)
    requires b != 0
    ensures MIN <= Quotient(a, b) <= MAX <==> !(a == MIN && b == -1)
    ensures MIN <= a - b * Quotient(a, b) <= MAX
  {
    var n := if a >= 0 then a else 0 - a;
    QuotientDivides(a, b);
    if b > 0 {
      DivBound(n, b);
    } else {
      DivBound(n, 0 - b);
      DivNegative(n, 0 - b);
    }
  }

  lemma DivBound(n: nat, b: nat)
    requires b > 0
    ensures 0 <= n / b <= n && (b == 1 ==> n / b == n) && (b >= 2 && n > 0 ==> n / b < n)
  {
    var q := n / b;
    assert n == q * b + n % b;
    if q > 0 { Grows(q, b); }
    if q > 0 && b >= 2 { Grows(q, b - 1); assert q * b == q * (b - 1) + q; }
  }

  lemma DivNegative(n: nat, b: nat)
    requires b > 0
    ensures n / (0 - b) == 0 - n / b
  {
    var m: int := 0 - b;
    var d := n / b + n / m;
    assert n == b * (n / b) + n % b && n == m * (n / m) + n % m;
    assert m * (n / m) == 0 - b * (n / m) && b * d == b * (n / b) + b * (n / m);
    Far(d, b);
  }

  lemma Grows(q: int, b: int)
    requires q > 0 && b != 0
    ensures if b > 0 then q * b >= q else q * b <= -q
  {
  }

  /** Comparisons and equality. */
  lemma Comparisons(a: I64, b: I64)
    ensures Both(Two(a, Less, b), if a < b then 1 else 0) && Both(Two(a, Tok.More, b), if a > b then 1 else 0)
    ensures Both(Two(a, LessEq, b), if a <= b then 1 else 0) && Both(Two(a, MoreEq, b), if a >= b then 1 else 0)
  {
    TwoIs(a, Less, b, Ok(Truth(a < b)));
    TwoIs(a, Tok.More, b, Ok(Truth(a > b)));
    TwoIs(a, LessEq, b, Ok(Truth(a <= b)));
    TwoIs(a, MoreEq, b, Ok(Truth(a >= b)));
  }

  lemma Equalities(a: I64, b: I64)
    ensures Both(Two(a, EqEq, b), if a == b then 1 else 0) && Both(Two(a, BangEq, b), if a != b then 1 else 0)
  {
    TwoIs(a, EqEq, b, Ok(Truth(a == b)));
    TwoIs(a, BangEq, b, Ok(Truth(a != b)));
  }

  /** Logical operators have a value in `#if` alone. */
  lemma Logicals(a: I64, b: I64)
    ensures Directive(Two(a, AmpAmp, b), if a != 0 && b != 0 then 1 else 0)
    ensures Directive(Two(a, BarBar, b), if a != 0 || b != 0 then 1 else 0)
    ensures Directive(Two(a, CaretCaret, b), if (a != 0) == (b != 0) then 0 else 1)
  {
    LogicalIs(a, AmpAmp, b, if a != 0 && b != 0 then 1 else 0);
    LogicalIs(a, BarBar, b, if a != 0 || b != 0 then 1 else 0);
    LogicalIs(a, CaretCaret, b, if (a != 0) == (b != 0) then 0 else 1);
  }

  lemma LogicalIs(a: I64, o: Tok, b: I64, v: I64)
    requires Binary(o).Some? && Apply(OpOf(o), a, b) == Ok(v)
    ensures Directive(Two(a, o, b), v)
  {
    TwoIs(a, o, b, Ok(v));
  }

  /** A count from 0 to 63 multiplies by a power of two, or divides and rounds down. */
  lemma Shifts(a: I64, b: I64) returns (r: int)
    ensures !(0 <= b < 64) ==> Neither(Two(a, LessLess, b)) && Neither(Two(a, MoreMore, b))
    ensures 0 <= b < 64 ==>
      if MIN <= a * Pow2(b) <= MAX then Both(Two(a, LessLess, b), a * Pow2(b)) else Neither(Two(a, LessLess, b))
    ensures 0 <= b < 64 ==> Both(Two(a, MoreMore, b), r) && r * Pow2(b) <= a < (r + 1) * Pow2(b)
  {
    r := 0;
    if 0 <= b < 64 {
      r := a / Pow2(b);
      FloorFacts(a, Pow2(b));
      TwoIs(a, LessLess, b, Checked(a * Pow2(b)));
      TwoIs(a, MoreMore, b, Ok(r));
    } else {
      TwoIs(a, LessLess, b, Err(Undefined));
      TwoIs(a, MoreMore, b, Err(Undefined));
    }
  }

  lemma FloorFacts(a: I64, p: nat)
    requires p > 0
    ensures (a / p) * p <= a < (a / p + 1) * p && MIN <= a / p <= MAX
  {
    var q := a / p;
    assert a == q * p + a % p;
    assert (q + 1) * p == q * p + p;
    if q > 0 { Grows(q, p); }
    if q + 1 < 0 { Grows(-q - 1, p); Negated(q + 1, p); }
  }

  // ----- bits -----

  /** Bit k of x in two's complement. */
  function BitOf(x: int, k: nat): int {
    (x / Pow2(k)) % 2
  }

  /** Bit by bit: and, or, exclusive or, of all 64 bits. */
  lemma BitOperators(a: I64, b: I64, k: nat) returns (both: int, either: int, one: int)
    requires k < 64
    ensures Both(Two(a, Amp, b), both) && Both(Two(a, Bar, b), either) && Both(Two(a, Caret, b), one)
    ensures BitOf(both, k) == 1 <==> BitOf(a, k) == 1 && BitOf(b, k) == 1
    ensures BitOf(either, k) == 1 <==> BitOf(a, k) == 1 || BitOf(b, k) == 1
    ensures BitOf(one, k) == 1 <==> BitOf(a, k) != BitOf(b, k)
  {
    both := BitsAre(And, Amp, a, b, k);
    either := BitsAre(Or, Bar, a, b, k);
    one := BitsAre(Xor, Caret, a, b, k);
  }

  lemma BitsAre(f: Logic, o: Tok, a: I64, b: I64, k: nat) returns (r: int)
    requires k < 64 && o == match f case And => Amp case Or => Bar case Xor => Caret
    ensures Both(Two(a, o, b), r) && BitOf(r, k) == Bit(f, BitOf(a, k), BitOf(b, k))
  {
    r := Bits(f, a, b);
    TwoIs(a, o, b, Ok(r));
    BitwiseBit(f, a, b, 63, k);
  }

  lemma {:induction false} BitwiseBit(f: Logic, a: int, b: int, n: nat, k: nat)
    requires k <= n
    ensures BitOf(Bitwise(f, a, b, n), k) == Bit(f, BitOf(a, k), BitOf(b, k))
    decreases n
  {
    if k == 0 {
      assert Pow2(0) == 1;
      LowBit(f, a, b, n);
    } else {
      BitwiseBit(f, a / 2, b / 2, n - 1, k - 1);
      var low, high := Bit(f, a % 2, b % 2), Bitwise(f, a / 2, b / 2, n - 1);
      assert Bitwise(f, a, b, n) == low + 2 * high && (low + 2 * high) / 2 == high;
      BitHalf(low + 2 * high, k);
      BitHalf(a, k);
      BitHalf(b, k);
    }
  }

  lemma LowBit(f: Logic, a: int, b: int, n: nat)
    ensures Bitwise(f, a, b, n) % 2 == Bit(f, a % 2, b % 2)
  {
    if n > 0 {
      var high := Bitwise(f, a / 2, b / 2, n - 1);
      assert (Bit(f, a % 2, b % 2) + 2 * high) % 2 == Bit(f, a % 2, b % 2);
    }
  }

  lemma BitHalf(x: int, k: nat)
    requires k > 0
    ensures BitOf(x, k) == BitOf(x / 2, k - 1)
  {
    HalfDiv(x, Pow2(k - 1));
  }

  /** Dividing by 2 and then by p. */
  lemma HalfDiv(x: int, p: nat)
    requires p > 0
    ensures x / (2 * p) == (x / 2) / p
  {
    var h := x / 2;
    var q, r := h / p, h % p;
    assert h == q * p + r;
    assert x == (2 * p) * q + (2 * r + x % 2);
    DivUnique(x, 2 * p, q, 2 * r + x % 2);
  }

  lemma DivUnique(x: int, m: int, q: int, r: int)
    requires m > 0 && x == m * q + r && 0 <= r < m
    ensures x / m == q
  {
    var d := x / m - q;
    assert d * m == r - x % m by { assert x == m * (x / m) + x % m; }
    Far(d, m);
  }

  lemma Far(d: int, m: int)
    requires m > 0
    ensures (d > 0 ==> d * m >= m) && (d < 0 ==> d * m <= -m)
  {
  }

  // ----- prefixes -----

  /** Prefix operators, which bind tighter than all others as their operand is one. */
  lemma Prefixes(a: I64)
    ensures Both([Bang, Num(a)], if a == 0 then 1 else 0)
    ensures Both([Tilde, Num(a)], -1 - a) && Both([PlusSign, Num(a)], a)
    ensures if a == MIN then Neither([Tok.Minus, Num(a)]) else Both([Tok.Minus, Num(a)], -a)
  {
    PrefixIs(Not, a);
    PrefixIs(Flip, a);
    PrefixIs(Plus, a);
    PrefixIs(Neg, a);
  }

  lemma PrefixIs(u: UnOp, a: I64)
    ensures var r := ApplyUnary(u, a);
            if r.Err? then Neither([UnTok(u), Num(a)]) else Both([UnTok(u), Num(a)], r.v)
  {
    assert Plain(Tree.Lit(a));
    TreeIs(Un(u, Tree.Lit(a)), [UnTok(u), Num(a)], ApplyUnary(u, a));
  }

  // ----- names and parentheses -----

  /** A name that is left in the line of a directive is worth 0. */
  lemma NameIsZero()
    ensures Directive([Id], 0)
  {
    LineIs([Id], Tree.Name);
  }

  /** Parentheses come first, whatever stands around them. */
  lemma ParenthesesFirst(a: I64, b: I64, c: I64)
    requires MIN <= a + b <= MAX && MIN <= (a + b) * c <= MAX
    ensures Both([LParen, Num(a), PlusSign, Num(b), RParen, Star, Num(c)], (a + b) * c)
  {
    var x, y, z := Tree.Lit(a), Tree.Lit(b), Tree.Lit(c);
    var sum := Bin(Add, x, y);
    assert Plain(x) && Plain(y) && Plain(z) && Binds(x, 5) && Binds(y, 6) && Binds(z, 10);
    assert Value(x) == Ok(a) && Value(y) == Ok(b) && Value(z) == Ok(c);
    assert Print(x) == [Num(a)] && Print(y) == [Num(b)] && Print(z) == [Num(c)];
    assert Value(sum) == Ok(a + b);
    var group := Tree.Group(sum);
    assert Value(group) == Ok(a + b) && Plain(group) && Binds(group, 9) && Literal(group);
    assert Print(group) == [LParen, Num(a), PlusSign, Num(b), RParen];
    TreeIs(Bin(Mul, group, z), [LParen, Num(a), PlusSign, Num(b), RParen, Star, Num(c)], Ok((a + b) * c));
  }
}
