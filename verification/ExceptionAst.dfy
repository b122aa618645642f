/** The part of the syntax tree that exception handling depends on: calls,
    statement-level throws, structured control flow and `try`.  Loops other than
    `while`, labels and `goto` do not interact with the analysis and are modelled
    with the pc machine instead. */
module ExceptionAst {
  import opened Basics

  datatype BinOp = Add | Sub | Less | Equal | LogAnd

  /** The two fields of the task record that `Fs` points to. */
  datatype Field = ExceptCh | CatchExcept

  datatype Expr =
    | Num(n: int)
    | Var(x: string)
    | Bin(op: BinOp, lhs: Expr, rhs: Expr)
    | Assign(x: string, rhs: Expr)
    | Load(fld: Field)
    | Store(fld: Field, rhs: Expr)
    | Call(func: string, args: seq<Expr>)
    | CallPtr(callee: Expr, args: seq<Expr>)

  datatype Stmt =
    | Nop
    | ExprStmt(e: Expr)
    | Block(stmts: seq<Stmt>)
    | If(cond: Expr, thn: Stmt, els: Stmt)
    | While(cond: Expr, body: Stmt)
    | Break
    | Return(operand: Option<Expr>)
    | Try(body: Stmt, handler: Stmt)

  datatype Func = Func(name: string, params: seq<string>, fromPrelude: bool, body: Option<Stmt>)

  /** `table` resolves function pointers to function names. */
  datatype Program = Program(funcs: seq<Func>, startup: Stmt, table: map<int, string>)

  function Lookup(funcs: seq<Func>, name: string): (r: Option<Func>)
    ensures r.Some? ==> r.value in funcs && r.value.name == name
  {
    if funcs == [] then None
    else if funcs[0].name == name then Some(funcs[0])
    else Lookup(funcs[1..], name)
  }

  predicate IsThrowCall(e: Expr) {
    e.Call? && e.func == "throw"
  }

  /** A `break` that leaves s itself.  The compiler turns it into a goto; leaving
      a try body with one is documented as undefined. */
  predicate LooseBreak(s: Stmt) {
    match s
    case Nop => false
    case ExprStmt(_) => false
    case Block(ss) => exists i | 0 <= i < |ss| :: LooseBreak(ss[i])
    case If(_, a, b) => LooseBreak(a) || LooseBreak(b)
    case While(_, _) => false
    case Break => true
    case Return(_) => false
    case Try(b, h) => LooseBreak(b) || LooseBreak(h)
  }

  /** No break leaves a try body, and `throw` takes at most its one argument. */
  predicate WellFormedStmt(s: Stmt) {
    match s
    case Nop => true
    case ExprStmt(e) => IsThrowCall(e) ==> |e.args| <= 1
    case Block(ss) => forall i | 0 <= i < |ss| :: WellFormedStmt(ss[i])
    case If(_, a, b) => WellFormedStmt(a) && WellFormedStmt(b)
    case While(_, b) => WellFormedStmt(b)
    case Break => true
    case Return(_) => true
    case Try(b, h) => !LooseBreak(b) && WellFormedStmt(b) && WellFormedStmt(h)
  }

  /** A function body: besides, it has no break outside a loop. */
  predicate WellFormedBody(s: Stmt) {
    WellFormedStmt(s) && !LooseBreak(s)
  }

  predicate WellFormed(p: Program) {
    && WellFormedBody(p.startup)
    && forall f | f in p.funcs && f.body.Some? :: WellFormedBody(f.body.value)
  }
}
