/** Constant expressions: tokens, trees, and what a tree is worth in 64-bit arithmetic. */
module ConstExpr {
  import opened Basics

  // ----- 64-bit integers -----

  const MIN := -0x8000_0000_0000_0000
  const MAX := 0x7FFF_FFFF_FFFF_FFFF

  type I64 = x: int | MIN <= x <= MAX

  datatype Error = DivByZero | Undefined | Malformed | NotConstant | Outside

  datatype Result = Ok(v: I64) | Err(e: Error)

  /** Overflow has no defined result. */
  function Checked(x: int): Result {
    if MIN <= x <= MAX then Ok(x) else Err(Undefined)
  }

  /** Rounds towards zero. */
  function Quotient(a: int, b: int): int
    requires b != 0
  {
    if a >= 0 then a / b else -((-a) / b)
  }

  datatype Logic = And | Or | Xor

  function Bit(f: Logic, a: int, b: int): (r: int)
    ensures 0 <= r <= 1
  {
    match f
    case And => if a == 1 && b == 1 then 1 else 0
    case Or => if a == 1 || b == 1 then 1 else 0
    case Xor => if a != b then 1 else 0
  }

  /** Bit by bit on n + 1 bits in two's complement, the last one the sign. */
  function Bitwise(f: Logic, a: int, b: int, n: nat): (r: int)
    ensures -(Pow2(n) as int) <= r < Pow2(n)
    decreases n
  {
    if n == 0 then -Bit(f, a % 2, b % 2)
    else Bit(f, a % 2, b % 2) + 2 * Bitwise(f, a / 2, b / 2, n - 1)
  }

  lemma Pow63()
    ensures Pow2(63) == MAX + 1
  {
    assert Pow2(7) == 128;
    assert Pow2(14) == 128 * 128;
    assert Pow2(21) == 128 * 128 * 128;
    assert Pow2(28) == 128 * 128 * 128 * 128;
    assert Pow2(35) == 128 * 128 * 128 * 128 * 128;
    assert Pow2(42) == 128 * 128 * 128 * 128 * 128 * 128;
    assert Pow2(49) == 128 * 128 * 128 * 128 * 128 * 128 * 128;
    assert Pow2(56) == 128 * 128 * 128 * 128 * 128 * 128 * 128 * 128;
  }

  function Bits(f: Logic, a: I64, b: I64): I64 {
    Pow63();
    Bitwise(f, a, b, 63)
  }

  function Truth(b: bool): I64 {
    if b then 1 else 0
  }

  // ----- operators -----

  datatype BinOp =
    | LogOr | LogXor | LogAnd | Eq | Ne | Lt | Gt | Le | Ge | Add | Sub
    | BitOr | BitXor | BitAnd | Mul | Div | Mod | Shl | Shr

  datatype UnOp = Not | Flip | Neg | Plus

  /** Binding strength; UNARY is the tightest. */
  const UNARY := 11

  function Level(op: BinOp): (l: nat)
    ensures l < UNARY
  {
    match op
    case LogOr => 0
    case LogXor => 1
    case LogAnd => 2
    case Eq => 3 case Ne => 3
    case Lt => 4 case Gt => 4 case Le => 4 case Ge => 4
    case Add => 5 case Sub => 5
    case BitOr => 6
    case BitXor => 7
    case BitAnd => 8
    case Mul => 9 case Div => 9 case Mod => 9
    case Shl => 10 case Shr => 10
  }

  /** The value of an operator; a shift count must be from 0 to 63. */
  function Apply(op: BinOp, a: I64, b: I64): Result {
    match op
    case LogOr => Ok(Truth(a != 0 || b != 0))
    case LogXor => Ok(Truth((a == 0) != (b == 0)))
    case LogAnd => Ok(Truth(a != 0 && b != 0))
    case Eq => Ok(Truth(a == b))
    case Ne => Ok(Truth(a != b))
    case Lt => Ok(Truth(a < b))
    case Gt => Ok(Truth(a > b))
    case Le => Ok(Truth(a <= b))
    case Ge => Ok(Truth(a >= b))
    case Add => Checked(a + b)
    case Sub => Checked(a - b)
    case BitOr => Ok(Bits(Or, a, b))
    case BitXor => Ok(Bits(Xor, a, b))
    case BitAnd => Ok(Bits(And, a, b))
    case Mul => Checked(a * b)
    case Div => if b == 0 then Err(DivByZero) else Checked(Quotient(a, b))
    case Mod =>
      if b == 0 then Err(DivByZero)
      else if b == -1 && a == MIN then Err(Undefined)
      else Checked(a - b * Quotient(a, b))
    case Shl => if 0 <= b < 64 then Checked(a * Pow2(b)) else Err(Undefined)
    case Shr => if 0 <= b < 64 then Checked(a / Pow2(b)) else Err(Undefined)
  }

  function ApplyUnary(op: UnOp, a: I64): Result {
    match op
    case Not => Ok(Truth(a == 0))
    case Flip => Ok(-1 - a)
    case Neg => Checked(0 - a)
    case Plus => Ok(a)
  }

  // ----- trees -----

  /** Expressions as written; Group is a pair of parentheses. */
  datatype Tree = Lit(v: I64) | Name | Un(u: UnOp, t: Tree) | Bin(op: BinOp, l: Tree, r: Tree) | Group(t: Tree)

  /** Strict, left to right; an undefined name is 0. */
  function Value(t: Tree): Result {
    match t
    case Lit(v) => Ok(v)
    case Name => Ok(0)
    case Group(t1) => Value(t1)
    case Un(u, t1) =>
      var a := Value(t1);
      if a.Err? then a else ApplyUnary(u, a.v)
    case Bin(op, l, r) =>
      var a := Value(l);
      if a.Err? then a else
      var b := Value(r);
      if b.Err? then b else Apply(op, a.v, b.v)
  }

  /** t may stand where an operand of this binding strength is expected. */
  predicate Binds(t: Tree, l: nat) {
    match t
    case Lit(_) => true
    case Name => true
    case Group(t1) => Binds(t1, 0)
    case Un(_, t1) => Binds(t1, UNARY)
    case Bin(op, a, b) => Level(op) >= l && Binds(a, Level(op)) && Binds(b, Level(op) + 1)
  }

  // ----- tokens -----

  datatype Tok =
    | Num(v: I64) | Id | LParen | RParen | Bang | Tilde | Minus | PlusSign
    | BarBar | CaretCaret | AmpAmp | EqEq | BangEq | Less | More | LessEq | MoreEq
    | Bar | Caret | Amp | Star | Slash | Percent | LessLess | MoreMore
    | Backtick | Other(spelling: string)

  function Binary(t: Tok): Option<BinOp> {
    match t
    case BarBar => Some(LogOr)
    case CaretCaret => Some(LogXor)
    case AmpAmp => Some(LogAnd)
    case EqEq => Some(Eq)
    case BangEq => Some(Ne)
    case Less => Some(Lt)
    case More => Some(Gt)
    case LessEq => Some(Le)
    case MoreEq => Some(Ge)
    case PlusSign => Some(Add)
    case Minus => Some(Sub)
    case Bar => Some(BitOr)
    case Caret => Some(BitXor)
    case Amp => Some(BitAnd)
    case Star => Some(Mul)
    case Slash => Some(Div)
    case Percent => Some(Mod)
    case LessLess => Some(Shl)
    case MoreMore => Some(Shr)
    case _ => None
  }

  function Unary(t: Tok): Option<UnOp> {
    match t
    case Bang => Some(Not)
    case Tilde => Some(Flip)
    case Minus => Some(Neg)
    case PlusSign => Some(Plus)
    case _ => None
  }

  function BinTok(op: BinOp): (t: Tok)
    ensures Binary(t) == Some(op)
  {
    match op
    case LogOr => BarBar
    case LogXor => CaretCaret
    case LogAnd => AmpAmp
    case Eq => EqEq
    case Ne => BangEq
    case Lt => Less
    case Gt => More
    case Le => LessEq
    case Ge => MoreEq
    case Add => PlusSign
    case Sub => Minus
    case BitOr => Bar
    case BitXor => Caret
    case BitAnd => Amp
    case Mul => Star
    case Div => Slash
    case Mod => Percent
    case Shl => LessLess
    case Shr => MoreMore
  }

  function UnTok(u: UnOp): (t: Tok)
    ensures Unary(t) == Some(u)
  {
    match u
    case Not => Bang
    case Flip => Tilde
    case Neg => Minus
    case Plus => PlusSign
  }

  function Print(t: Tree): seq<Tok> {
    match t
    case Lit(v) => [Num(v)]
    case Name => [Id]
    case Group(t1) => [LParen] + Print(t1) + [RParen]
    case Un(u, t1) => [UnTok(u)] + Print(t1)
    case Bin(op, a, b) => Print(a) + [BinTok(op)] + Print(b)
  }

  /** As few parentheses as the place needs. */
  function Parens(t: Tree, l: nat): (r: Tree)
    ensures Binds(r, l) && Value(r) == Value(t)
  {
    match t
    case Group(t1) => Parens(t1, l)
    case Un(u, t1) => Un(u, Parens(t1, UNARY))
    case Bin(op, a, b) =>
      var inner := Bin(op, Parens(a, Level(op)), Parens(b, Level(op) + 1));
      if Level(op) >= l then inner else Group(inner)
    case _ => t
  }
}
