/** src/back_c.c: the C code emitted for `try`, `throw` and `return`. */
module TryLowering {
  import opened Basics
  import opened ExceptionAst
  import opened Effects

  datatype Label = CatchLabel(n: nat) | EndLabel(n: nat)

  /** Emitted C statements.  Expressions are passed through unchanged. */
  datatype CStmt =
    | CExpr(e: Expr)
    | CIf(cond: Expr, thn: seq<CStmt>, els: seq<CStmt>)
    | CWhile(cond: Expr, body: seq<CStmt>)
    | CBreak
    | CBlock(stmts: seq<CStmt>)
    | CGoto(target: Label)
    | CLabel(name: Label)
    | CReturn(operand: Option<Expr>)
    | CPop
    | CSetjmp(body: seq<CStmt>, handler: seq<CStmt>)
    | CRethrow(outer: Option<Label>)

  /** A handler the emitter is inside of: reached by a branch, or by longjmp. */
  datatype Handler = Lexical(lab: nat) | Dynamic

  const HANDLER_MAX := 256

  datatype Lowered = TooDeep | Ok(code: seq<CStmt>, lab: nat)

  /** The label of the nearest handler when that handler is lexical. */
  function Nearest(h: seq<Handler>): Option<Label> {
    if h != [] && h[|h| - 1].Lexical? then Some(CatchLabel(h[|h| - 1].lab)) else None
  }

  function DynamicCount(h: seq<Handler>): nat {
    multiset(h)[Dynamic]
  }

  lemma DynamicCountPush(h: seq<Handler>, x: Handler)
    ensures (h + [x])[..|h|] == h
    ensures DynamicCount(h + [x]) == DynamicCount(h) + if x.Dynamic? then 1 else 0
  {
    assert (h + [x])[..|h|] == h;
  }

  function Pops(n: nat): (r: seq<CStmt>)
    ensures |r| == n && forall i | 0 <= i < n :: r[i] == CPop
  {
    seq(n, _ => CPop)
  }

  function LocalThrow(args: seq<Expr>, lab: Label): seq<CStmt> {
    [CExpr(Store(ExceptCh, if args == [] then Num(0) else args[0])),
     CExpr(Store(CatchExcept, Num(0))),
     CGoto(lab)]
  }

  /** The code for s inside the handlers h, numbering labels from `lab` up. */
  function Lower(s: Stmt, can: set<string>, h: seq<Handler>, lab: nat): Lowered
    decreases s, 1
  {
    match s
    case Nop => Ok([], lab)
    case ExprStmt(e) =>
      if IsThrowCall(e) && Nearest(h).Some? then Ok(LocalThrow(e.args, Nearest(h).value), lab)
      else Ok([CExpr(e)], lab)
    case Block(ss) => LowerList(ss, can, h, lab)
    case If(c, a, b) => (
      match Lower(a, can, h, lab)
      case TooDeep => TooDeep
      case Ok(ca, l1) => (
        match Lower(b, can, h, l1)
        case TooDeep => TooDeep
        case Ok(cb, l2) => Ok([CIf(c, ca, cb)], l2)))
    case While(c, b) => (
      match Lower(b, can, h, lab)
      case TooDeep => TooDeep
      case Ok(cb, l1) => Ok([CWhile(c, cb)], l1))
    case Break => Ok([CBreak], lab)
    case Return(e) => Ok(Pops(DynamicCount(h)) + [CReturn(e)], lab)
    case Try(b, k) => (
      match Mode(b, can)
      case TryNone => (
        match Lower(b, can, h, lab)
        case TooDeep => TooDeep
        case Ok(cb, l1) => Ok([CBlock(cb)], l1))
      case TryLocal => LowerLocal(b, k, can, h, lab)
      case TryDynamic => LowerDynamic(b, k, can, h, lab))
  }

  function LowerLocal(b: Stmt, k: Stmt, can: set<string>, h: seq<Handler>, lab: nat): Lowered
    decreases Try(b, k), 0
  {
    if |h| >= HANDLER_MAX then TooDeep else
    match Lower(b, can, h + [Lexical(lab + 1)], lab + 1)
    case TooDeep => TooDeep
    case Ok(cb, l1) => (
      match Lower(k, can, h, l1)
      case TooDeep => TooDeep
      case Ok(ck, l2) => Ok([CBlock(LocalTry(cb, ck, lab + 1, Nearest(h)))], l2))
  }

  function LowerDynamic(b: Stmt, k: Stmt, can: set<string>, h: seq<Handler>, lab: nat): Lowered
    decreases Try(b, k), 0
  {
    if |h| >= HANDLER_MAX then TooDeep else
    match Lower(b, can, h + [Dynamic], lab)
    case TooDeep => TooDeep
    case Ok(cb, l1) => (
      match Lower(k, can, h, l1)
      case TooDeep => TooDeep
      case Ok(ck, l2) => Ok([DynamicTry(cb, ck, Nearest(h))], l2))
  }

  function LowerList(ss: seq<Stmt>, can: set<string>, h: seq<Handler>, lab: nat): Lowered
    decreases ss, 0
  {
    if ss == [] then Ok([], lab) else
    match Lower(ss[0], can, h, lab)
    case TooDeep => TooDeep
    case Ok(c0, l1) => (
      match LowerList(ss[1..], can, h, l1)
      case TooDeep => TooDeep
      case Ok(cs, l2) => Ok(c0 + cs, l2))
  }

  ghost function Prepend(out: seq<CStmt>, rest: Lowered): Lowered {
    if rest.Ok? then rest.(code := out + rest.code) else TooDeep
  }

  /** The braces of a TRY_LOCAL: body, jump over the catch, catch, rethrow. */
  function LocalTry(body: seq<CStmt>, handler: seq<CStmt>, n: nat, outer: Option<Label>): seq<CStmt> {
    body + ([CGoto(EndLabel(n)), CLabel(CatchLabel(n))] + (handler + [CRethrow(outer), CLabel(EndLabel(n))]))
  }

  /** The setjmp form of a TRY_DYNAMIC. */
  function DynamicTry(body: seq<CStmt>, handler: seq<CStmt>, outer: Option<Label>): CStmt {
    CSetjmp(body + [CPop], handler + [CRethrow(outer)])
  }

  datatype CFunc = CFunc(name: string, params: seq<string>, fromPrelude: bool, code: Option<seq<CStmt>>)
  datatype CProgram = CProgram(funcs: seq<CFunc>, startup: seq<CStmt>, table: map<int, string>)

  /** c is what the emitter writes for p: every body on its own, from no handlers. */
  ghost predicate LoweredTo(p: Program, can: set<string>, c: CProgram) {
    && |c.funcs| == |p.funcs|
    && c.table == p.table
    && (var l := Lower(p.startup, can, [], 0); l.Ok? && c.startup == l.code)
    && forall i | 0 <= i < |p.funcs| :: LoweredFunc(p.funcs[i], can, c.funcs[i])
  }

  ghost predicate LoweredFunc(f: Func, can: set<string>, c: CFunc) {
    && c.name == f.name && c.params == f.params && c.fromPrelude == f.fromPrelude
    && (f.body.None? ==> c.code == None)
    && (f.body.Some? ==> var l := Lower(f.body.value, can, [], 0); l.Ok? && c.code == Some(l.code))
  }

  // ----- when the handler stack overflows -----

  /** How many handlers lie around the deepest point of s. */
  function Nesting(s: Stmt, can: set<string>): nat
    decreases s, 1
  {
    match s
    case Block(ss) => NestingList(ss, can)
    case If(_, a, b) => Max(Nesting(a, can), Nesting(b, can))
    case While(_, b) => Nesting(b, can)
    case Try(b, k) =>
      if Mode(b, can).TryNone? then Nesting(b, can)
      else Max(1 + Nesting(b, can), Nesting(k, can))
    case _ => 0
  }

  function NestingList(ss: seq<Stmt>, can: set<string>): nat
    decreases ss, 0
  {
    if ss == [] then 0 else Max(Nesting(ss[0], can), NestingList(ss[1..], can))
  }

  /** "try nesting too deep" is reported exactly when the handlers around some
      point would exceed the emitter's array. */
  lemma {:induction false} LowerFailsIffTooDeep(s: Stmt, can: set<string>, h: seq<Handler>, lab: nat)
    requires |h| <= HANDLER_MAX
    ensures Lower(s, can, h, lab).TooDeep? <==> |h| + Nesting(s, can) > HANDLER_MAX
    decreases s, 1
  {
    match s
    case Block(ss) => LowerListFailsIffTooDeep(ss, can, h, lab);
    case If(_, a, b) =>
      LowerFailsIffTooDeep(a, can, h, lab);
      var l := Lower(a, can, h, lab);
      if l.Ok? { LowerFailsIffTooDeep(b, can, h, l.lab); }
    case While(_, b) => LowerFailsIffTooDeep(b, can, h, lab);
    case Try(b, k) =>
      var m := Mode(b, can);
      if m.TryNone? {
        LowerFailsIffTooDeep(b, can, h, lab);
      } else if |h| < HANDLER_MAX {
        var h' := h + [if m.TryLocal? then Lexical(lab + 1) else Dynamic];
        var l' := if m.TryLocal? then lab + 1 else lab;
        LowerFailsIffTooDeep(b, can, h', l');
        var l := Lower(b, can, h', l');
        if l.Ok? { LowerFailsIffTooDeep(k, can, h, l.lab); }
      }
    case _ =>
  }

  lemma {:induction false} LowerListFailsIffTooDeep(ss: seq<Stmt>, can: set<string>, h: seq<Handler>, lab: nat)
    requires |h| <= HANDLER_MAX
    ensures LowerList(ss, can, h, lab).TooDeep? <==> |h| + NestingList(ss, can) > HANDLER_MAX
    decreases ss, 0
  {
    if ss != [] {
      LowerFailsIffTooDeep(ss[0], can, h, lab);
      var l := Lower(ss[0], can, h, lab);
      if l.Ok? { LowerListFailsIffTooDeep(ss[1..], can, h, l.lab); }
    }
  }

  // ----- the emitter -----

  /** The emitter returned what the lowering says, or failed where it fails. */
  predicate Emitted(code: Option<seq<CStmt>>, lab: nat, l: Lowered) {
    match l
    case TooDeep => code.None?
    case Ok(c, n) => code == Some(c) && lab == n
  }

  /** The emitter's state.  `EmitStmt` returns the text appended to the output
      buffer; None stands for the error that ends the compilation. */
  class CGen {
    var handlers: seq<Handler>
    var tryDepth: nat
    var exceptLabel: nat

    ghost predicate Valid()
      reads this
    {
      tryDepth == DynamicCount(handlers)
    }

    constructor ()
      ensures Valid() && handlers == [] && exceptLabel == 0
    {
      handlers, tryDepth, exceptLabel := [], 0, 0;
    }

    method PushHandler(hd: Handler) returns (ok: bool)
      modifies this`handlers
      ensures ok <==> |old(handlers)| < HANDLER_MAX
      ensures handlers == if ok then old(handlers) + [hd] else old(handlers)
    {
      if |handlers| >= HANDLER_MAX {
        return false;
      }
      handlers := handlers + [hd];
      return true;
    }

    method EmitStmt(s: Stmt, can: set<string>) returns (code: Option<seq<CStmt>>)
      requires Valid()
      modifies this
      ensures Emitted(code, exceptLabel, Lower(s, can, old(handlers), old(exceptLabel)))
      ensures code.Some? ==> Valid() && handlers == old(handlers)
      decreases s, 1
    {
      match s
      case Nop => code := Some([]);
      case ExprStmt(e) =>
        if IsThrowCall(e) && handlers != [] && handlers[|handlers| - 1].Lexical? {
          code := Some(LocalThrow(e.args, CatchLabel(handlers[|handlers| - 1].lab)));
        } else {
          code := Some([CExpr(e)]);
        }
      case Block(ss) => code := EmitList(ss, can);
      case If(c, a, b) =>
        var ca := EmitStmt(a, can);
        if ca.None? { return None; }
        var cb := EmitStmt(b, can);
        if cb.None? { return None; }
        code := Some([CIf(c, ca.value, cb.value)]);
      case While(c, b) =>
        var cb := EmitStmt(b, can);
        if cb.None? { return None; }
        code := Some([CWhile(c, cb.value)]);
      case Break => code := Some([CBreak]);
      case Return(e) =>
        var out: seq<CStmt> := [];
        for i := 0 to tryDepth
          invariant out == Pops(i)
        {
          out := out + [CPop];
        }
        code := Some(out + [CReturn(e)]);
      case Try(b, k) =>
        match Mode(b, can)
        case TryNone => code := EmitPlainTry(b, k, can);
        case TryLocal => code := EmitLocalTry(b, k, can);
        case TryDynamic => code := EmitDynamicTry(b, k, can);
    }

    /** A TRY_NONE: the catch block is dropped. */
    method EmitPlainTry(b: Stmt, k: Stmt, can: set<string>) returns (code: Option<seq<CStmt>>)
      requires Valid() && Mode(b, can).TryNone?
      modifies this
      ensures Emitted(code, exceptLabel, Lower(Try(b, k), can, old(handlers), old(exceptLabel)))
      ensures code.Some? ==> Valid() && handlers == old(handlers)
      decreases Try(b, k), 0
    {
      var cb := EmitStmt(b, can);
      if cb.None? { return None; }
      code := Some([CBlock(cb.value)]);
    }

    /** Emits a try body with one more handler on the stack, which is removed again. */
    method EmitUnder(b: Stmt, can: set<string>, hd: Handler) returns (code: Option<seq<CStmt>>)
      requires Valid()
      modifies this
      ensures |old(handlers)| >= HANDLER_MAX ==> code.None?
      ensures |old(handlers)| < HANDLER_MAX
              ==> Emitted(code, exceptLabel, Lower(b, can, old(handlers) + [hd], old(exceptLabel)))
      ensures code.Some? ==> Valid() && handlers == old(handlers)
      decreases b, 2
    {
      ghost var h0 := handlers;
      if hd.Dynamic? { tryDepth := tryDepth + 1; }
      var ok := PushHandler(hd);
      if !ok { return None; }
      DynamicCountPush(h0, hd);
      code := EmitStmt(b, can);
      if code.None? { return None; }
      handlers := handlers[..|handlers| - 1];
      if hd.Dynamic? { tryDepth := tryDepth - 1; }
    }

    /** A TRY_LOCAL: the catch block is reached by a branch. */
    method EmitLocalTry(b: Stmt, k: Stmt, can: set<string>) returns (code: Option<seq<CStmt>>)
      requires Valid() && Mode(b, can).TryLocal?
      modifies this
      ensures Emitted(code, exceptLabel, LowerLocal(b, k, can, old(handlers), old(exceptLabel)))
      ensures code.Some? ==> Valid() && handlers == old(handlers)
      decreases Try(b, k), 0
    {
      exceptLabel := exceptLabel + 1;
      var lab := exceptLabel;
      var cb := EmitUnder(b, can, Lexical(lab));
      if cb.None? { return None; }
      var ck := EmitStmt(k, can);
      if ck.Some? {
        ck := Some([CBlock(LocalTry(cb.value, ck.value, lab, Nearest(handlers)))]);
      }
      return ck;
    }

    /** A TRY_DYNAMIC: the catch block is reached by longjmp. */
    method EmitDynamicTry(b: Stmt, k: Stmt, can: set<string>) returns (code: Option<seq<CStmt>>)
      requires Valid() && Mode(b, can).TryDynamic?
      modifies this
      ensures Emitted(code, exceptLabel, LowerDynamic(b, k, can, old(handlers), old(exceptLabel)))
      ensures code.Some? ==> Valid() && handlers == old(handlers)
      decreases Try(b, k), 0
    {
      var cb := EmitUnder(b, can, Dynamic);
      if cb.None? { return None; }
      var ck := EmitStmt(k, can);
      if ck.Some? {
        ck := Some([DynamicTry(cb.value, ck.value, Nearest(handlers))]);
      }
      return ck;
    }

    method EmitList(ss: seq<Stmt>, can: set<string>) returns (code: Option<seq<CStmt>>)
      requires Valid()
      modifies this
      ensures Emitted(code, exceptLabel, LowerList(ss, can, old(handlers), old(exceptLabel)))
      ensures code.Some? ==> Valid() && handlers == old(handlers)
      decreases ss, 0
    {
      ghost var l0 := exceptLabel;
      var out: seq<CStmt> := [];
      for i := 0 to |ss|
        invariant Valid() && handlers == old(handlers)
        invariant LowerList(ss, can, handlers, l0) == Prepend(out, LowerList(ss[i..], can, handlers, exceptLabel))
      {
        ghost var l1 := exceptLabel;
        assert ss[i..][0] == ss[i] && ss[i..][1..] == ss[i + 1..];
        var c := EmitStmt(ss[i], can);
        if c.None? { return None; }
        ghost var rest := LowerList(ss[i + 1..], can, handlers, exceptLabel);
        assert rest.Ok? ==> out + (c.value + rest.code) == out + c.value + rest.code;
        out := out + c.value;
      }
      assert ss[|ss|..] == [] && out + [] == out;
      code := Some(out);
    }

    /** emit_func: each function starts from an empty handler stack. */
    method EmitFunction(f: Func, can: set<string>) returns (c: Option<CFunc>)
      modifies this
      ensures c.Some? ==> LoweredFunc(f, can, c.value)
      ensures c.None? <==> f.body.Some? && Nesting(f.body.value, can) > HANDLER_MAX
    {
      handlers, tryDepth, exceptLabel := [], 0, 0;
      if f.body.None? {
        return Some(CFunc(f.name, f.params, f.fromPrelude, None));
      }
      LowerFailsIffTooDeep(f.body.value, can, [], 0);
      var code := EmitStmt(f.body.value, can);
      if code.None? { return None; }
      c := Some(CFunc(f.name, f.params, f.fromPrelude, Some(code.value)));
    }
  }
}
