/** src/back_ll.c: the emitter keeps track of whether a basic block is open, so that every
    block ends in one terminator and every branch has its target. */
module LlBlocks {
  import opened Basics
  import opened LlCode

  // ----- blocks -----

  /** A block is open after the lines, or not; Broken when they break the discipline. */
  datatype Phase = Open | Closed | Broken

  function Next(p: Phase, x: Line): Phase {
    if x.Place? then if p.Closed? then Open else Broken
    else if !p.Open? then Broken
    else if x.Ends() then Closed
    else Open
  }

  function After(out: seq<Line>): Phase {
    if out == [] then Closed else Next(After(out[..|out| - 1]), out[|out| - 1])
  }

  datatype Block = Block(name: Label, code: seq<Line>, last: Line)

  function Text(bs: seq<Block>): seq<Line> {
    if bs == [] then [] else Text(bs[..|bs| - 1]) + Written(bs[|bs| - 1])
  }

  function Written(b: Block): seq<Line> {
    [Place(b.name)] + b.code + [b.last]
  }

  predicate Straight(code: seq<Line>) {
    forall i | 0 <= i < |code| :: code[i].Ins?
  }

  /** Lines that end closed are a sequence of blocks, each a label, straight-line code and
      one terminator; lines that end open have one more block begun. */
  lemma {:induction false} Blocks(out: seq<Line>) returns (bs: seq<Block>, begun: seq<Line>)
    requires After(out) != Broken
    ensures forall i | 0 <= i < |bs| :: Straight(bs[i].code) && bs[i].last.Ends()
    ensures After(out) == Closed ==> out == Text(bs)
    ensures After(out) == Open ==> begun != [] && begun[0].Place? && Straight(begun[1..]) && out == Text(bs) + begun
    decreases |out|
  {
    if out == [] { return [], []; }
    var before, x := out[..|out| - 1], out[|out| - 1];
    var b0, begun0 := Blocks(before);
    bs, begun := b0, begun0;
    assert out == before + [x];
    if x.Place? {
      begun := [x];
    } else if x.Ends() {
      var b := Block(begun0[0].l, begun0[1..], x);
      bs := b0 + [b];
      assert bs[..|bs| - 1] == b0;
      assert Written(b) == begun0 + [x];
    } else {
      begun := begun0 + [x];
      assert begun[1..] == begun0[1..] + [x];
    }
  }

  // ----- labels -----

  /** The lines in order. */
  function Listed(out: Lines): seq<Line> {
    if out.Nil? then [] else Listed(out.init) + [out.x]
  }

  /** How often a label is placed. */
  function Count(out: Lines, l: Label): nat {
    if out.Nil? then 0 else Count(out.init, l) + if out.x == Place(l) then 1 else 0
  }

  /** It is the target of a branch. */
  predicate Aims(out: Lines, l: Label) {
    out.Snoc? && (Aims(out.init, l) || out.x.Targets(l))
  }

  function State(out: Lines): Phase {
    if out.Nil? then Closed else Next(State(out.init), out.x)
  }

  predicate Sound(g: Gen) {
    State(g.out) == if g.open then Open else Closed
  }

  /** b is a with more lines. */
  predicate Extends(a: Lines, b: Lines) {
    b == a || (b.Snoc? && Extends(a, b.init))
  }

  lemma {:induction false} ExtendsTrans(a: Lines, b: Lines, c: Lines)
    requires Extends(a, b) && Extends(b, c)
    ensures Extends(a, c)
  {
    if c != b { ExtendsTrans(a, b, c.init); }
  }

  /** From g to r, a later state: the label l is placed p more times, and if it is a new target
      it was placed on the way or `may` be one. */
  predicate Grows(g: Gen, r: Gen, l: Label, p: nat, may: bool) {
    && g.nlab <= r.nlab && Extends(g.out, r.out) && (Sound(g) ==> Sound(r)) && Count(r.out, l) == Count(g.out, l) + p
    && (Aims(g.out, l) ==> Aims(r.out, l)) && (Aims(r.out, l) ==> Aims(g.out, l) || p > 0 || may)
  }

  /** p is 0, or 1 for a label that was made on the way. */
  predicate Made(g: Gen, r: Gen, l: Label, p: nat) {
    p == 0 || (p == 1 && l.Temp? && g.nlab < l.n <= r.nlab)
  }

  /** The same for code that places labels made before. */
  predicate Own(g: Gen, r: Gen, l: Label, p: nat, own: bool) {
    if own then p == 1 else Made(g, r, l, p)
  }

  lemma {:induction false} GrowsTrans(g: Gen, r: Gen, q: Gen, l: Label, p1: nat, p2: nat, m1: bool, m2: bool)
    requires Grows(g, r, l, p1, m1) && Grows(r, q, l, p2, m2)
    ensures Grows(g, q, l, p1 + p2, m1 || m2)
  {
    ExtendsTrans(g.out, r.out, q.out);
  }

  // ----- single lines -----

  lemma {:induction false} WriteGrows(g: Gen, x: Line, l: Label)
    requires g.open == !x.Place?
    ensures Grows(g, g.Write(x), l, if x == Place(l) then 1 else 0, x.Targets(l))
    ensures x.Targets(l) ==> Aims(g.Write(x).out, l)
  {
  }

  lemma {:induction false} LabelsGrows(g: Gen, n: nat, l: Label)
    ensures Grows(g, g.Labels(n), l, 0, false)
  {
  }

  lemma {:induction false} TempsGrows(g: Gen, n: nat, l: Label)
    ensures Grows(g, g.Temps(n), l, 0, false)
  {
  }

  lemma {:induction false} EnsureGrows(g: Gen, l: Label) returns (p: nat)
    ensures Grows(g, g.Ensure(), l, p, false) && Made(g, g.Ensure(), l, p)
  {
    p := 0;
    if !g.open {
      var g1 := g.Labels(1);
      WriteGrows(g1, Place(Temp(g1.nlab)), l);
      p := if l == Temp(g1.nlab) then 1 else 0;
    }
  }

  lemma {:induction false} PutGrows(g: Gen, i: Instr, l: Label) returns (p: nat)
    ensures Grows(g, g.Put(i), l, p, false) && Made(g, g.Put(i), l, p)
  {
    p := EnsureGrows(g, l);
    WriteGrows(g.Ensure(), Ins(i), l);
    GrowsTrans(g, g.Ensure(), g.Put(i), l, p, 0, false, false);
  }

  lemma {:induction false} BrToGrows(g: Gen, to: Label, l: Label) returns (p: nat)
    ensures Grows(g, g.BrTo(to), l, p, l == to) && Made(g, g.BrTo(to), l, p)
    ensures l == to ==> Aims(g.BrTo(to).out, l)
  {
    p := EnsureGrows(g, l);
    WriteGrows(g.Ensure(), Br(to), l);
    GrowsTrans(g, g.Ensure(), g.BrTo(to), l, p, 0, false, l == to);
  }

  lemma {:induction false} LabGrows(g: Gen, n: Label, l: Label)
    ensures Grows(g, g.Lab(n), l, if l == n then 1 else 0, false)
  {
    if g.open {
      WriteGrows(g, Br(n), l);
      WriteGrows(g.Write(Br(n)), Place(n), l);
    } else {
      WriteGrows(g, Place(n), l);
    }
  }

  /** A branch, and then a label that was made before. */
  lemma {:induction false} JumpGrows(g: Gen, to: Label, n: nat, l: Label) returns (p: nat)
    requires n <= g.nlab
    ensures var r := g.BrTo(to).Lab(Temp(n));
            Grows(g, r, l, p, l == to) && Own(g, r, l, p, l == Temp(n)) && (l == to ==> Aims(r.out, l))
  {
    var q := BrToGrows(g, to, l);
    LabGrows(g.BrTo(to), Temp(n), l);
    p := q + if l == Temp(n) then 1 else 0;
    GrowsTrans(g, g.BrTo(to), g.BrTo(to).Lab(Temp(n)), l, q, if l == Temp(n) then 1 else 0, l == to, false);
  }

  // ----- expressions -----

  /** Code from g to r, and then an instruction. */
  lemma {:induction false} ThenPut(g: Gen, r: Gen, i: Instr, l: Label, p1: nat, own: bool, may: bool) returns (p: nat)
    requires Grows(g, r, l, p1, may) && Own(g, r, l, p1, own) && (own ==> l.Temp? && l.n <= r.nlab)
    ensures Grows(g, r.Put(i), l, p, may) && Own(g, r.Put(i), l, p, own)
  {
    var p2 := PutGrows(r, i, l);
    GrowsTrans(g, r, r.Put(i), l, p1, p2, may, false);
    p := p1 + p2;
  }

  /** Then more code. */
  lemma {:induction false} ThenMore(g: Gen, r: Gen, q: Gen, l: Label, p1: nat, p2: nat, own1: bool, own2: bool,
                                    m1: bool, m2: bool) returns (p: nat)
    requires Grows(g, r, l, p1, m1) && Own(g, r, l, p1, own1) && Grows(r, q, l, p2, m2) && Own(r, q, l, p2, own2)
    requires own1 || own2 ==> l.Temp? && l.n <= g.nlab
    requires !(own1 && own2)
    ensures p == p1 + p2 && Grows(g, q, l, p, m1 || m2) && Own(g, q, l, p, own1 || own2)
  {
    p := p1 + p2;
    GrowsTrans(g, r, q, l, p1, p2, m1, m2);
  }

  /** k labels made, and code that places them. */
  lemma {:induction false} Opened(g: Gen, r: Gen, q: Gen, k: nat, l: Label, p1: nat, p2: nat, own: bool, may: bool)
      returns (p: nat)
    requires Grows(g, r, l, p1, false) && Made(g, r, l, p1)
    requires Grows(r.Labels(k), q, l, p2, may) && Own(r.Labels(k), q, l, p2, own)
    requires own ==> l.Temp? && r.nlab < l.n <= r.nlab + k
    ensures Grows(g, q, l, p, may) && Made(g, q, l, p) && (own ==> p == 1)
  {
    p := p1 + p2;
    GrowsTrans(g, r.Labels(k), q, l, p1, p2, false, may);
  }

  lemma {:induction false} OperateGrows(g: Gen, a: (Gen, seq<Opnd>), f: nat, l: Label, p1: nat) returns (p: nat)
    requires Grows(g, a.0, l, p1, false) && Made(g, a.0, l, p1)
    ensures Grows(g, Operate(a, f).0, l, p, false) && Made(g, Operate(a, f).0, l, p)
  {
    p := ThenPut(g, a.0, Op(a.0.ntmp + 1, f, a.1), l, p1, false, false);
  }

  /** A test and a branch on it. */
  lemma {:induction false} BranchGrows(g: Gen, a: (Gen, Opnd), t: Label, f: Label, l: Label, p1: nat) returns (p: nat)
    requires Grows(g, a.0, l, p1, false) && Made(g, a.0, l, p1)
    ensures Grows(g, Branch(a, t, f), l, p, l == t || l == f) && Made(g, Branch(a, t, f), l, p)
    ensures l == t || l == f ==> Aims(Branch(a, t, f).out, l)
  {
    var r := a.0.Put(Bool(a.0.ntmp + 1, a.1)).Temps(1);
    p := ThenPut(g, a.0, Bool(a.0.ntmp + 1, a.1), l, p1, false, false);
    WriteGrows(r, CondBr(Reg(a.0.ntmp + 1), t, f), l);
    GrowsTrans(g, r, Branch(a, t, f), l, p, 0, false, l == t || l == f);
  }

  /** One of the labels n to n + 2. */
  predicate Three(l: Label, n: nat) {
    l == Temp(n) || l == Temp(n + 1) || l == Temp(n + 2)
  }

  lemma {:induction false} SplitGrows(g: Gen, a: (Gen, Opnd), conj: bool, n: nat, l: Label, p1: nat) returns (p: nat)
    requires n + 2 <= g.nlab && Grows(g, a.0, l, p1, false) && Made(g, a.0, l, p1)
    ensures var r := Split(a, conj, n);
            Grows(g, r, l, p, l == Temp(n + 1)) && Own(g, r, l, p, l == Temp(n))
            && (l == Temp(n) || l == Temp(n + 1) ==> Aims(r.out, l))
  {
    var t, f := Temp(if conj then n else n + 1), Temp(if conj then n + 1 else n);
    p := BranchGrows(g, a, t, f, l, p1);
    LabGrows(Branch(a, t, f), Temp(n), l);
    p := ThenMore(g, Branch(a, t, f), Split(a, conj, n), l, p, if l == Temp(n) then 1 else 0, false, l == Temp(n),
                  l == t || l == f, false);
  }

  lemma {:induction false} StoreTruthGrows(g: Gen, a: (Gen, Opnd), slot: nat, l: Label, p1: nat, own: bool, may: bool)
      returns (p: nat)
    requires Grows(g, a.0, l, p1, may) && Own(g, a.0, l, p1, own) && (own ==> l.Temp? && l.n <= g.nlab)
    ensures Grows(g, StoreTruth(a, slot), l, p, may) && Own(g, StoreTruth(a, slot), l, p, own)
    ensures Aims(a.0.out, l) ==> Aims(StoreTruth(a, slot).out, l)
  {
    p := ThenPut(g, a.0, Bool(a.0.ntmp + 1, a.1), l, p1, own, may);
    p := ThenPut(g, a.0.Put(Bool(a.0.ntmp + 1, a.1)).Temps(1), Store(Reg(a.0.ntmp + 1), slot), l, p, own, may);
  }

  lemma {:induction false} StoreOtherGrows(g: Gen, conj: bool, slot: nat, n: nat, l: Label) returns (p: nat)
    requires n + 2 <= g.nlab
    ensures var r := StoreOther(g, conj, slot, n);
            Grows(g, r, l, p, l == Temp(n + 2)) && Own(g, r, l, p, l == Temp(n + 1))
            && (l == Temp(n + 2) ==> Aims(r.out, l))
  {
    var i, g1 := Store(Imm(if conj then 0 else 1), slot), g.Lab(Temp(n + 1));
    LabGrows(g, Temp(n + 1), l);
    p := ThenPut(g, g1, i, l, if l == Temp(n + 1) then 1 else 0, l == Temp(n + 1), false);
    var p2 := BrToGrows(g1.Put(i), Temp(n + 2), l);
    p := ThenMore(g, g1.Put(i), g1.Put(i).BrTo(Temp(n + 2)), l, p, p2, l == Temp(n + 1), false, false,
                  l == Temp(n + 2));
  }

  lemma {:induction false} ResultGrows(g: Gen, slot: nat, n: nat, l: Label) returns (p: nat)
    requires n + 2 <= g.nlab
    ensures var r := Result(g, slot, n).0; Grows(g, r, l, p, false) && Own(g, r, l, p, l == Temp(n + 2))
  {
    LabGrows(g, Temp(n + 2), l);
    p := ThenPut(g, g.Lab(Temp(n + 2)), Load(g.ntmp + 1, slot), l, if l == Temp(n + 2) then 1 else 0,
                 l == Temp(n + 2), false);
  }

  lemma {:induction false} EndLogicGrows(g: Gen, a: (Gen, Opnd), conj: bool, slot: nat, n: nat, l: Label, p1: nat)
      returns (p: nat)
    requires n + 2 <= g.nlab && Grows(g, a.0, l, p1, l == Temp(n + 1)) && Own(g, a.0, l, p1, l == Temp(n))
    ensures var r := EndLogic(a, conj, slot, n).0;
            Grows(g, r, l, p, false) && Own(g, r, l, p, Three(l, n)) && (Aims(a.0.out, l) ==> Aims(r.out, l))
            && (l == Temp(n + 2) ==> Aims(r.out, l))
  {
    var g1 := StoreTruth(a, slot);
    p := StoreTruthGrows(g, a, slot, l, p1, l == Temp(n), l == Temp(n + 1));
    p := JoinGrows(g, g1, conj, slot, n, l, p);
  }

  lemma {:induction false} JoinGrows(g: Gen, r: Gen, conj: bool, slot: nat, n: nat, l: Label, p1: nat) returns (p: nat)
    requires n + 2 <= g.nlab && Grows(g, r, l, p1, l == Temp(n + 1)) && Own(g, r, l, p1, l == Temp(n))
    ensures var q := Result(StoreOther(r.BrTo(Temp(n + 2)), conj, slot, n), slot, n).0;
            Grows(g, q, l, p, false) && Own(g, q, l, p, Three(l, n)) && (Aims(r.out, l) ==> Aims(q.out, l))
            && (l == Temp(n + 2) ==> Aims(q.out, l))
  {
    var g2 := r.BrTo(Temp(n + 2));
    var g3 := StoreOther(g2, conj, slot, n);
    var p2 := BrToGrows(r, Temp(n + 2), l);
    p := ThenMore(g, r, g2, l, p1, p2, l == Temp(n), false, l == Temp(n + 1), l == Temp(n + 2));
    var p3 := StoreOtherGrows(g2, conj, slot, n, l);
    p := ThenMore(g, g2, g3, l, p, p3, l == Temp(n), l == Temp(n + 1), l == Temp(n + 1) || l == Temp(n + 2),
                  l == Temp(n + 2));
    var p4 := ResultGrows(g3, slot, n, l);
    p := ThenMore(g, g3, Result(g3, slot, n).0, l, p, p4, l == Temp(n) || l == Temp(n + 1), l == Temp(n + 2),
                  l == Temp(n + 1) || l == Temp(n + 2), false);
  }

  lemma {:induction false} ValGrows(g: Gen, e: Expr, l: Label) returns (p: nat)
    ensures Grows(g, EmitVal(g, e).0, l, p, false) && Made(g, EmitVal(g, e).0, l, p)
    decreases e, 1
  {
    match e
    case Const(_) => p := 0;
    case Code(f, args) =>
      p := ArgsGrows(g, args, l);
      p := OperateGrows(g, EmitArgs(g, args), f, l, p);
    case Logic(conj, a, b) =>
      var g1 := Slot(g).Labels(3);
      var g2 := Split(EmitVal(g1, a), conj, Slot(g).nlab + 1);
      var p1 := ValGrows(g1, a, l);
      var p2 := ValGrows(g2, b, l);
      p := LogicGrows(g, conj, EmitVal(g1, a), EmitVal(g2, b), l, p1, p2);
  }

  /** && or ||, its two sides being a and b. */
  lemma {:induction false} LogicGrows(g: Gen, conj: bool, a: (Gen, Opnd), b: (Gen, Opnd), l: Label, p1: nat, p2: nat)
      returns (p: nat)
    requires Grows(Slot(g).Labels(3), a.0, l, p1, false) && Made(Slot(g).Labels(3), a.0, l, p1)
    requires var r := Split(a, conj, Slot(g).nlab + 1); Grows(r, b.0, l, p2, false) && Made(r, b.0, l, p2)
    ensures var r := EndLogic(b, conj, Slot(g).ntmp, Slot(g).nlab + 1).0;
            Grows(g, r, l, p, false) && Made(g, r, l, p)
            && (Three(l, Slot(g).nlab + 1) ==> p == 1 && Aims(r.out, l))
  {
    var p0 := PutGrows(g, Alloca(g.ntmp + 1), l);
    p := InnerGrows(Slot(g).Labels(3), conj, Slot(g).ntmp, Slot(g).nlab + 1, a, b, l, p1, p2);
    p := Opened(g, Slot(g), EndLogic(b, conj, Slot(g).ntmp, Slot(g).nlab + 1).0, 3, l, p0, p,
                Three(l, Slot(g).nlab + 1), false);
  }

  lemma {:induction false} InnerGrows(g: Gen, conj: bool, slot: nat, n: nat, a: (Gen, Opnd), b: (Gen, Opnd), l: Label,
                                      p1: nat, p2: nat) returns (p: nat)
    requires n + 2 <= g.nlab && Grows(g, a.0, l, p1, false) && Made(g, a.0, l, p1)
    requires Grows(Split(a, conj, n), b.0, l, p2, false) && Made(Split(a, conj, n), b.0, l, p2)
    ensures var r := EndLogic(b, conj, slot, n).0;
            Grows(g, r, l, p, false) && Own(g, r, l, p, Three(l, n)) && (Three(l, n) ==> Aims(r.out, l))
  {
    p := SplitGrows(g, a, conj, n, l, p1);
    p := ThenMore(g, Split(a, conj, n), b.0, l, p, p2, l == Temp(n), false, l == Temp(n + 1), false);
    p := EndLogicGrows(g, b, conj, slot, n, l, p);
  }

  lemma {:induction false} ArgsGrows(g: Gen, es: seq<Expr>, l: Label) returns (p: nat)
    ensures Grows(g, EmitArgs(g, es).0, l, p, false) && Made(g, EmitArgs(g, es).0, l, p)
    decreases es, 0
  {
    p := 0;
    if es != [] {
      var g1 := EmitVal(g, es[0]).0;
      var p1 := ValGrows(g, es[0], l);
      var p2 := ArgsGrows(g1, es[1..], l);
      p := ThenMore(g, g1, EmitArgs(g1, es[1..]).0, l, p1, p2, false, false, false, false);
    }
  }

  // ----- the parts of statements -----

  /** A branch, and then a label that was made before. */
  lemma {:induction false} TestGrows(g: Gen, c: Expr, n: nat, f: nat, l: Label) returns (p: nat)
    requires n == g.nlab + 1 && n < f <= n + 2
    ensures var r := Test(g, c, n, f);
            Grows(g.Labels(3), r, l, p, l == Temp(f)) && Own(g.Labels(3), r, l, p, l == Temp(n))
            && (l == Temp(n) || l == Temp(f) ==> Aims(r.out, l))
  {
    var g1 := g.Labels(3).Ensure();
    p := EnsureGrows(g.Labels(3), l);
    var p1 := ValGrows(g1, c, l);
    p := ThenMore(g.Labels(3), g1, EmitVal(g1, c).0, l, p, p1, false, false, false, false);
    p := BranchGrows(g.Labels(3), EmitVal(g1, c), Temp(n), Temp(f), l, p);
    p := ThenLab(g.Labels(3), EmitCond(g1, c, Temp(n), Temp(f)), n, l, p, false, l == Temp(n) || l == Temp(f));
  }

  /** Then a label that was made before. */
  lemma {:induction false} ThenLab(g: Gen, r: Gen, n: nat, l: Label, p1: nat, own: bool, may: bool) returns (p: nat)
    requires n <= g.nlab && Grows(g, r, l, p1, may) && Own(g, r, l, p1, own)
    requires own ==> l.Temp? && l.n <= g.nlab && l.n != n
    ensures Grows(g, r.Lab(Temp(n)), l, p, may) && Own(g, r.Lab(Temp(n)), l, p, own || l == Temp(n))
    ensures Aims(r.out, l) ==> Aims(r.Lab(Temp(n)).out, l)
  {
    LabGrows(r, Temp(n), l);
    p := ThenMore(g, r, r.Lab(Temp(n)), l, p1, if l == Temp(n) then 1 else 0, own, l == Temp(n), may, false);
  }

  lemma {:induction false} HeadGrows(g: Gen, c: Option<Expr>, n: nat, l: Label) returns (p: nat)
    requires n + 2 <= g.nlab
    ensures var r := Head(g, c, n);
            Grows(g, r, l, p, l == Temp(n + 2)) && Own(g, r, l, p, l == Temp(n) || l == Temp(n + 1))
            && (l == Temp(n) || l == Temp(n + 1) || (l == Temp(n + 2) && c.Some?) ==> Aims(r.out, l))
  {
    var g1 := g.BrTo(Temp(n)).Lab(Temp(n));
    p := JumpGrows(g, Temp(n), n, l);
    var g2, p2 := HeadTestGrows(g1, c, n, l);
    p := ThenMore(g, g1, g2, l, p, p2, l == Temp(n), false, l == Temp(n), l == Temp(n + 1) || l == Temp(n + 2));
    p := ThenLab(g, g2, n + 1, l, p, l == Temp(n), Three(l, n));
  }

  lemma {:induction false} HeadTestGrows(g: Gen, c: Option<Expr>, n: nat, l: Label) returns (r: Gen, p: nat)
    ensures r == HeadTest(g, c, n) && Grows(g, r, l, p, l == Temp(n + 1) || l == Temp(n + 2)) && Made(g, r, l, p)
            && (l == Temp(n + 1) || (l == Temp(n + 2) && c.Some?) ==> Aims(r.out, l))
  {
    r := HeadTest(g, c, n);
    if c.Some? {
      p := ValGrows(g, c.value, l);
      p := BranchGrows(g, EmitVal(g, c.value), Temp(n + 1), Temp(n + 2), l, p);
    } else {
      p := BrToGrows(g, Temp(n + 1), l);
    }
  }

  lemma {:induction false} EndDoGrows(g: Gen, c: Expr, n: nat, l: Label) returns (p: nat)
    requires n + 2 <= g.nlab
    ensures var r := EndDo(g, c, n);
            Grows(g, r, l, p, Three(l, n)) && Own(g, r, l, p, l == Temp(n + 1) || l == Temp(n + 2))
            && (Three(l, n) ==> Aims(r.out, l))
  {
    var g1 := g.BrTo(Temp(n + 1)).Lab(Temp(n + 1));
    var p1 := JumpGrows(g, Temp(n + 1), n + 1, l);
    var p2 := ValGrows(g1, c, l);
    p := DoTestGrows(g, g1, EmitVal(g1, c), n, l, p1, p2);
  }

  lemma {:induction false} DoTestGrows(g: Gen, g1: Gen, a: (Gen, Opnd), n: nat, l: Label, p1: nat, p2: nat)
      returns (p: nat)
    requires n + 2 <= g.nlab
    requires Grows(g, g1, l, p1, l == Temp(n + 1)) && Own(g, g1, l, p1, l == Temp(n + 1))
             && (l == Temp(n + 1) ==> Aims(g1.out, l))
    requires Grows(g1, a.0, l, p2, false) && Made(g1, a.0, l, p2)
    ensures var r := Branch(a, Temp(n), Temp(n + 2)).Lab(Temp(n + 2));
            Grows(g, r, l, p, Three(l, n)) && Own(g, r, l, p, l == Temp(n + 1) || l == Temp(n + 2))
            && (Three(l, n) ==> Aims(r.out, l))
  {
    var g2 := Branch(a, Temp(n), Temp(n + 2));
    p := BranchGrows(g1, a, Temp(n), Temp(n + 2), l, p2);
    p := ThenMore(g, g1, g2, l, p1, p, l == Temp(n + 1), false, l == Temp(n + 1), l == Temp(n) || l == Temp(n + 2));
    p := ThenLab(g, g2, n + 2, l, p, l == Temp(n + 1), Three(l, n));
  }

  lemma {:induction false} ThrowGrows(g: Gen, e: Expr, env: Env, l: Label) returns (p: nat)
    ensures var r := EmitThrow(g, e, env);
            Grows(g, r, l, p, env.Local() == Some(l)) && Made(g, r, l, p) && (env.Local() == Some(l) ==> Aims(r.out, l))
  {
    p := ValGrows(g, e, l);
    p := EndThrowGrows(g, EmitVal(g, e), env.Local(), l, p);
  }

  lemma {:induction false} EndThrowGrows(g: Gen, a: (Gen, Opnd), to: Option<Label>, l: Label, p1: nat) returns (p: nat)
    requires Grows(g, a.0, l, p1, false) && Made(g, a.0, l, p1)
    ensures var r := EndThrow(a, to);
            Grows(g, r, l, p, to == Some(l)) && Made(g, r, l, p) && (to == Some(l) ==> Aims(r.out, l))
  {
    if to.Some? {
      p := ThenPut(g, a.0, Raise(a.1), l, p1, false, false);
      var p2 := BrToGrows(a.0.Put(Raise(a.1)), to.value, l);
      p := ThenMore(g, a.0.Put(Raise(a.1)), EndThrow(a, to), l, p, p2, false, false, false, l == to.value);
    } else {
      p := ThenPut(g, a.0, Throw(a.1), l, p1, false, false);
    }
  }

  lemma {:induction false} PopsGrows(g: Gen, r: Gen, n: nat, l: Label, p1: nat) returns (p: nat)
    requires Grows(g, r, l, p1, false) && Made(g, r, l, p1)
    ensures Grows(g, EmitPops(r, n), l, p, false) && Made(g, EmitPops(r, n), l, p)
    decreases n
  {
    p := p1;
    if n > 0 {
      p := PopsGrows(g, r, n - 1, l, p1);
      p := ThenPut(g, EmitPops(r, n - 1), Pop, l, p, false, false);
    }
  }

  lemma {:induction false} ReturnGrows(g: Gen, e: Option<Expr>, env: Env, l: Label) returns (p: nat)
    ensures Grows(g, EmitReturn(g, e, env), l, p, false) && Made(g, EmitReturn(g, e, env), l, p)
  {
    p := EnsureGrows(g, l);
    var g1 := EmitPops(g.Ensure(), env.depth);
    p := PopsGrows(g, g.Ensure(), env.depth, l, p);
    if env.retVoid {
      RetGrows(g, g1, None, l, p);
    } else if e.None? {
      RetGrows(g, g1, Some(Imm(0)), l, p);
    } else {
      var p2 := ValGrows(g1, e.value, l);
      p := ThenMore(g, g1, EmitVal(g1, e.value).0, l, p, p2, false, false, false, false);
      p := EndReturnGrows(g, EmitVal(g1, e.value), l, p);
    }
  }

  lemma {:induction false} RetGrows(g: Gen, r: Gen, x: Option<Opnd>, l: Label, p: nat)
    requires r.open && Grows(g, r, l, p, false) && Made(g, r, l, p)
    ensures Grows(g, r.Write(Ret(x)), l, p, false) && Made(g, r.Write(Ret(x)), l, p)
  {
    WriteGrows(r, Ret(x), l);
  }

  lemma {:induction false} EndReturnGrows(g: Gen, a: (Gen, Opnd), l: Label, p1: nat) returns (p: nat)
    requires Grows(g, a.0, l, p1, false) && Made(g, a.0, l, p1)
    ensures Grows(g, EndReturn(a), l, p, false) && Made(g, EndReturn(a), l, p)
  {
    p := EnsureGrows(a.0, l);
    p := ThenMore(g, a.0, a.0.Ensure(), l, p1, p, false, false, false, false);
    RetGrows(g, a.0.Ensure(), Some(a.1), l, p);
  }

  lemma {:induction false} EndCatchGrows(g: Gen, el: nat, env: Env, l: Label) returns (p: nat)
    requires el <= g.nlab
    ensures var r := EndCatch(g, el, env);
            Grows(g, r, l, p, env.Local() == Some(l)) && Own(g, r, l, p, l == Temp(el))
            && (l == Temp(el) || env.Local() == Some(l) ==> Aims(r.out, l))
  {
    var g1 := g.Put(Uncaught(g.ntmp + 1)).Temps(1);
    p := PutGrows(g, Uncaught(g.ntmp + 1), l);
    var to := env.Local();
    if to.Some? {
      p := ForkLab(g, g1, to.value, el, l, p);
    } else {
      p := RethrowGrows(g, g1, el, l, p);
    }
  }

  lemma {:induction false} ForkLab(g: Gen, r: Gen, to: Label, el: nat, l: Label, p1: nat) returns (p: nat)
    requires el <= g.nlab && r.open && Grows(g, r, l, p1, false) && Made(g, r, l, p1)
    ensures var q := r.Write(CondBr(Reg(r.ntmp), to, Temp(el))).Lab(Temp(el));
            Grows(g, q, l, p, l == to) && Own(g, q, l, p, l == Temp(el))
            && (l == Temp(el) || l == to ==> Aims(q.out, l))
  {
    var r1 := r.Write(CondBr(Reg(r.ntmp), to, Temp(el)));
    WriteGrows(r, CondBr(Reg(r.ntmp), to, Temp(el)), l);
    GrowsTrans(g, r, r1, l, p1, 0, false, l == to || l == Temp(el));
    p := ThenLab(g, r1, el, l, p1, false, l == to || l == Temp(el));
  }

  lemma {:induction false} RethrowGrows(g: Gen, r: Gen, el: nat, l: Label, p1: nat) returns (p: nat)
    requires el <= g.nlab && r.open && Grows(g, r, l, p1, false) && Made(g, r, l, p1)
    ensures var n := r.nlab + 1;
            var q := r.Labels(1).Write(CondBr(Reg(r.ntmp), Temp(n), Temp(el))).Lab(Temp(n)).Put(Rethrow).BrTo(Temp(el))
                       .Lab(Temp(el));
            Grows(g, q, l, p, false) && Own(g, q, l, p, l == Temp(el)) && (l == Temp(el) ==> Aims(q.out, l))
            && (l == Temp(n) ==> p == 1 && Aims(q.out, l))
  {
    var n := r.nlab + 1;
    var r0 := r.Labels(1);
    var r1 := r0.Write(CondBr(Reg(r.ntmp), Temp(n), Temp(el)));
    WriteGrows(r0, CondBr(Reg(r.ntmp), Temp(n), Temp(el)), l);
    var p2 := ThenLab(r0, r1, n, l, 0, false, l == Temp(n) || l == Temp(el));
    p2 := ThenPut(r0, r1.Lab(Temp(n)), Rethrow, l, p2, l == Temp(n), l == Temp(n) || l == Temp(el));
    var r2 := r1.Lab(Temp(n)).Put(Rethrow);
    var p3 := JumpGrows(r2, Temp(el), el, l);
    p2 := ThenMore(r0, r2, r2.BrTo(Temp(el)).Lab(Temp(el)), l, p2, p3, l == Temp(n), l == Temp(el),
                   l == Temp(n) || l == Temp(el), l == Temp(el));
    p := p1 + p2;
    GrowsTrans(g, r, r2.BrTo(Temp(el)).Lab(Temp(el)), l, p1, p2, false, l == Temp(n) || l == Temp(el));
  }

  lemma {:induction false} SetjmpGrows(g: Gen, l: Label) returns (p: nat, m: nat)
    ensures var r := Setjmp(g);
            m == r.nlab - 2 && g.nlab < m && Grows(g, r, l, p, l == Temp(m + 1)) && r.nlab == m + 2
            && (if l == Temp(m) then p == 1 else Made(g, r, l, p) && (l.Temp? && l.n > m ==> p == 0))
            && (l == Temp(m) || l == Temp(m + 1) ==> Aims(r.out, l))
  {
    var g1 := g.Put(Push(g.ntmp + 1)).Temps(1);
    var p1 := PutGrows(g, Push(g.ntmp + 1), l);
    m := g1.nlab + 1;
    var g2 := g1.Labels(3);
    var g3 := g2.Write(CondBr(Reg(g1.ntmp), Temp(m), Temp(m + 1)));
    WriteGrows(g2, CondBr(Reg(g1.ntmp), Temp(m), Temp(m + 1)), l);
    p := ThenLab(g2, g3, m, l, 0, false, l == Temp(m) || l == Temp(m + 1));
    GrowsTrans(g, g2, g3.Lab(Temp(m)), l, p1, p, false, l == Temp(m) || l == Temp(m + 1));
    p := p1 + p;
  }
}
