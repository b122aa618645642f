/** How many dynamic tries a run holds at once.  The runtime has room for a fixed number;
    the predicates here say, of a run of the source, whether it ever needs one more. */
module TryDepth {
  import opened Basics
  import opened ExceptionAst
  import opened Effects
  import opened SourceSemantics
  import opened TryFrames

  /** With n tries active, evaluating e enters a dynamic try when none is left. */
  ghost predicate ExprExceeds(p: Program, can: set<string>, w: World, fuel: nat, e: Expr, d: Data, n: nat)
    decreases fuel, e, 1
  {
    match e
    case Num(_) => false
    case Var(_) => false
    case Load(_) => false
    case Bin(op, l, r) =>
      var a := Eval(p, w, PopFirst, fuel, l, d);
      || ExprExceeds(p, can, w, fuel, l, d, n)
      || (a.Val? && !(op.LogAnd? && a.v == 0) && ExprExceeds(p, can, w, fuel, r, a.d, n))
    case Assign(_, r) => ExprExceeds(p, can, w, fuel, r, d, n)
    case Store(_, r) => ExprExceeds(p, can, w, fuel, r, d, n)
    case Call(f, args) =>
      var vs := EvalArgs(p, w, PopFirst, fuel, args, d);
      || ArgsExceed(p, can, w, fuel, args, d, n)
      || (vs.Val? && fuel > 0 && CallExceeds(p, can, w, fuel - 1, f, vs.v, vs.d, n))
    case CallPtr(c, args) =>
      var a := Eval(p, w, PopFirst, fuel, c, d);
      || ExprExceeds(p, can, w, fuel, c, d, n)
      || (a.Val? &&
          var vs := EvalArgs(p, w, PopFirst, fuel, args, a.d);
          || ArgsExceed(p, can, w, fuel, args, a.d, n)
          || (vs.Val? && fuel > 0 && a.v in p.table && CallExceeds(p, can, w, fuel - 1, p.table[a.v], vs.v, vs.d, n)))
  }

  ghost predicate ArgsExceed(p: Program, can: set<string>, w: World, fuel: nat, es: seq<Expr>, d: Data, n: nat)
    decreases fuel, es, 0
  {
    es != [] &&
    var a := Eval(p, w, PopFirst, fuel, es[0], d);
    || ExprExceeds(p, can, w, fuel, es[0], d, n)
    || (a.Val? && ArgsExceed(p, can, w, fuel, es[1..], a.d, n))
  }

  ghost predicate CallExceeds(p: Program, can: set<string>, w: World, fuel: nat, f: string, vs: seq<int>, d: Data,
                              n: nat)
    decreases fuel
  {
    f != "throw" &&
    match Lookup(p.funcs, f)
    case None => false
    case Some(fn) =>
      fn.body.Some? && StmtExceeds(p, can, w, fuel, fn.body.value, d.(loc := Bind(fn.params, vs)), n, n)
  }

  /** The same for a statement of a function that was entered with `base` tries active;
      a return is back at that number before its operand is evaluated. */
  ghost predicate StmtExceeds(p: Program, can: set<string>, w: World, fuel: nat, s: Stmt, d: Data, base: nat, n: nat)
    decreases fuel, s, 1
  {
    match s
    case Nop => false
    case Break => false
    case ExprStmt(e) => ExprExceeds(p, can, w, fuel, e, d, n)
    case Block(ss) => ListExceeds(p, can, w, fuel, ss, d, base, n)
    case If(c, a, b) =>
      var v := Eval(p, w, PopFirst, fuel, c, d);
      || ExprExceeds(p, can, w, fuel, c, d, n)
      || (v.Val? && if v.v != 0 then StmtExceeds(p, can, w, fuel, a, v.d, base, n)
                    else StmtExceeds(p, can, w, fuel, b, v.d, base, n))
    case While(c, b) =>
      var v := Eval(p, w, PopFirst, fuel, c, d);
      || ExprExceeds(p, can, w, fuel, c, d, n)
      || (v.Val? && v.v != 0 &&
          var r := Exec(p, w, PopFirst, fuel, b, v.d);
          || StmtExceeds(p, can, w, fuel, b, v.d, base, n)
          || (r.Done? && fuel > 0 && StmtExceeds(p, can, w, fuel - 1, s, r.d, base, n)))
    case Return(None) => false
    case Return(Some(e)) => ExprExceeds(p, can, w, fuel, e, d, base)
    case Try(b, k) =>
      var dynamic := Mode(b, can).TryDynamic?;
      var r := Exec(p, w, PopFirst, fuel, b, d);
      || (dynamic && n >= TRY_MAX)
      || StmtExceeds(p, can, w, fuel, b, d, base, if dynamic then n + 1 else n)
      || (r.Thrown? && StmtExceeds(p, can, w, fuel, k, r.d, base, n))
  }

  ghost predicate ListExceeds(p: Program, can: set<string>, w: World, fuel: nat, ss: seq<Stmt>, d: Data, base: nat,
                              n: nat)
    decreases fuel, ss, 0
  {
    ss != [] &&
    var r := Exec(p, w, PopFirst, fuel, ss[0], d);
    || StmtExceeds(p, can, w, fuel, ss[0], d, base, n)
    || (r.Done? && ListExceeds(p, can, w, fuel, ss[1..], r.d, base, n))
  }
}
