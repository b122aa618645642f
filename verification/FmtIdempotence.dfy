/** Formatting twice with brace moving on: exactly when it changes nothing. */
module FmtIdempotence {
  import opened Basics
  import opened Formatter
  import opened FmtScanner
  import opened FmtHeaders

  // ----- the two lines of a header, formatted again -----

  /** The level of a line that starts with a brace, outside of all blocks. */
  function BraceLevel(st: FState): nat {
    var add := st.hang + if st.stmtOpen then 1 else 0;
    (if add > 0 then add - 1 else 0) + if st.paren > 4 then 4 else st.paren
  }

  /** The line, with its blanks before the brace as spaces, as the scanner sees it. */
  function Spaced(b: string, sp: nat): string
    requires sp <= |b|
  {
    var h := Header(b, sp);
    h + Indent(sp - |h|) + b[sp..]
  }

  /** The state behind the header, when it has a line of its own. */
  function AfterHeader(st: FState, b: string, sp: nat): FState
    requires sp <= |b|
  {
    CodeLine(st, Header(b, sp), Level(st, b).0)
  }

  /** The guard: the header leaves no block open, and both lines get the level that the one
      line had. */
  predicate Kept(st: FState, b: string, sp: nat)
    requires sp <= |b|
  {
    var h, t := Header(b, sp), AfterHeader(st, b, sp);
    && h != "" && h[|h| - 1] != '\r'
    && Level(st, h).0 == Level(st, b).0 && t.nstk == 0 && BraceLevel(t) == Level(st, b).0
  }

  /** The header starts with the word asm, so that its block counts as assembly only while
      the brace is on the same line. */
  predicate AsmHeader(st: FState, b: string, sp: nat)
    requires sp <= |b|
  {
    ScanLine(st.(cur := Level(st, b).0), Header(b, sp)).f.first == "asm"
  }

  // ----- the states -----

  /** Every open block was opened on the line at hand. */
  predicate OpenedHere(st: FState) {
    AllOuter(st.blocks, st.nstk, st.cur)
  }

  predicate AllOuter(blocks: map<nat, FBlock>, n: nat, level: nat) {
    forall j: nat | j < n :: BlockAt(blocks, j).outer == level
  }

  lemma {:induction false} ScanKeeps(p: Pos, ts: Tokens)
    requires OpenedHere(p.st)
    ensures Scan(p, ts).st.cur == p.st.cur && OpenedHere(Scan(p, ts).st)
    decreases ts
  {
    if ts.More? {
      TakeKeeps(p, ts.tok);
      ScanKeeps(Take(p, ts.tok), ts.rest);
    }
  }

  lemma TakeKeeps(p: Pos, tok: Tok)
    requires OpenedHere(p.st)
    ensures Take(p, tok).st.cur == p.st.cur && OpenedHere(Take(p, tok).st)
  {
    if tok.Sign? {
      var r := Take(p, tok);
      PunctKeeps(p.st.(lastCode := Some(tok.c)), r.f, tok.c);
    }
  }

  lemma PunctKeeps(st: FState, f: Facts, c: char)
    requires OpenedHere(st)
    ensures Punct(st, f, c).cur == st.cur && OpenedHere(Punct(st, f, c))
  {
    if c == '{' {
      OpenKeeps(st, f);
    } else if c == '}' {
      assert AllOuter(st.blocks, if st.nstk > 0 then st.nstk - 1 else 0, st.cur);
    }
  }

  lemma OpenKeeps(st: FState, f: Facts)
    requires OpenedHere(st)
    ensures Open(st, f).cur == st.cur && OpenedHere(Open(st, f))
  {
    var r := Open(st, f);
    forall j: nat | j < r.nstk ensures BlockAt(r.blocks, j).outer == r.cur {
      if j < st.nstk { assert BlockAt(r.blocks, j) == BlockAt(st.blocks, j); }
    }
  }

  /** Outside of all blocks a line changes nothing before it is scanned. */
  lemma LevelFlat(st: FState, b: string)
    ensures Level(st, b).1.nstk == st.nstk && (st.nstk == 0 ==> Level(st, b).1 == st)
  {
  }

  lemma BraceNotLabel(b: string)
    requires b != "" && b[0] == '{'
    ensures !AsmLabel(b) && !LabelLine(b) && !AnyWord(b, ["case", "default", "start", "end"])
  {
    assert !WordIs(b, "case") && !WordIs(b, "default") && !WordIs(b, "start") && !WordIs(b, "end");
  }

  /** A line with a brace at its start: one level inside if a block is open. */
  lemma BraceLine(st: FState, b: string)
    requires b != "" && b[0] == '{'
    ensures Level(st, b).1 == st
    ensures if st.nstk == 0 then Level(st, b).0 == BraceLevel(st) else Level(st, b).0 > Top(st).outer
  {
    BraceNotLabel(b);
  }

  /** Only these three fields are settled outside of assembly. */
  lemma SettleOnly(p: Pos, b: string)
    ensures var r := Settle(p, b, false); r == p.st.(hang := r.hang, ctrlOpen := r.ctrlOpen, stmtOpen := r.stmtOpen)
  {
  }

  lemma SettleBrace(p: Pos, b: string)
    requires p.st.lastCode == Some('{') && p.st.mode == Code && b != "" && b[0] != '#'
    ensures Settle(p, b, false) == p.st.(hang := 0, ctrlOpen := false, stmtOpen := false)
  {
  }

  /** A brace opens the same block on its own line as behind the header u, but for asm. */
  lemma OpenSame(u: Pos, t: FState)
    requires u.st.nstk == 0 && u.st.lastCode.Some?
             && t == u.st.(hang := t.hang, ctrlOpen := t.ctrlOpen, stmtOpen := t.stmtOpen)
    ensures var q := Take(Pos(t.(lastCode := None), Facts("", "", 0, t.lastCode)), Sign('{')).st;
            var r := Take(u, Sign('{')).st;
            && r.lastCode == Some('{') && r.mode == u.st.mode
            && (u.f.first != "asm" ==> q == r.(hang := t.hang, ctrlOpen := t.ctrlOpen, stmtOpen := t.stmtOpen))
            && q.lastCode == Some('{') && q.mode == u.st.mode
  {
  }

  function LineStart(st: FState, level: nat): Pos {
    Pos(st.(cur := level, lastCode := None), Facts("", "", 0, st.lastCode))
  }

  /** The state behind the header, before it is settled. */
  function HeaderScan(st: FState, b: string, sp: nat): Pos
    requires sp <= |b|
  {
    ScanLine(st.(cur := Level(st, b).0), Header(b, sp))
  }

  lemma HeaderState(st: FState, b: string, sp: nat)
    requires Splits(st, b, sp) && b != "" && !Space(b[0]) && st.nstk == 0 && st.mode == Code
    requires Boundary(Code, Header(b, sp), |Header(b, sp)|) && b[0] != '#'
    ensures var u := HeaderScan(st, b, sp);
            && u.st.mode == Code && u.st.cur == Level(st, b).0 && OpenedHere(u.st)
            && AfterHeader(st, b, sp) == Settle(u, Header(b, sp), false)
            && CodeLine(st, Spaced(b, sp), Level(st, b).0) == Settle(Take(u, Sign('{')), Spaced(b, sp), false)
  {
    var p := LineStart(st, Level(st, b).0);
    HeaderThenBrace(st, b, sp, p, sp - |Header(b, sp)|);
    ScanKeeps(p, Lex(Code, Header(b, sp)));
  }

  lemma SpacedHead(b: string, sp: nat)
    requires 0 < sp < |b| && b[0] != ' ' && b[0] != '\t'
    ensures Spaced(b, sp) != "" && Spaced(b, sp)[0] == b[0]
  {
    StripBackHead(b[..sp], false);
  }

  /** Both lines, scanned one after the other, leave the state of the one line, unless the
      header starts an asm block. */
  lemma SameAfter(st: FState, b: string, sp: nat)
    requires sp == SplitPos(st, b) > 0 && b != "" && !Space(b[0])
    requires Splits(st, b, sp) && AfterHeader(st, b, sp).nstk == 0 && !AsmHeader(st, b, sp)
    ensures CodeLine(AfterHeader(st, b, sp), b[sp..], Level(st, b).0) == CodeLine(st, Spaced(b, sp), Level(st, b).0)
  {
    SplitFacts(st, b);
    HeaderState(st, b, sp);
    var u, t, l := HeaderScan(st, b, sp), AfterHeader(st, b, sp), Level(st, b).0;
    SettleOnly(u, Header(b, sp));
    HeaderHasCode(st, b, LineStart(st, l));
    OpenSame(u, t);
    BraceOnly(st, b, sp, LineStart(t, l));
    SpacedHead(b, sp);
    SettleBrace(Take(u, Sign('{')), Spaced(b, sp));
    SettleBrace(Take(LineStart(t, l), Sign('{')), b[sp..]);
  }

  lemma {:induction false} LexInCode(mode: Mode, s: string)
    ensures InCode(Lex(mode, s))
    decreases |s|
  {
    if s != "" {
      var n := Next(mode, s);
      LexInCode(n.mode, s[n.len..]);
      WordNotEmpty(mode, s);
    }
  }

  lemma WordNotEmpty(mode: Mode, s: string)
    requires s != ""
    ensures Next(mode, s).tok != Word("")
  {
  }

  /** A header that would be split again leaves a block open. */
  lemma SplitAgainOpens(st: FState, b: string, sp: nat)
    requires sp == SplitPos(st, b) > 0 && b != "" && !Space(b[0])
    requires Splits(st, b, sp) && SplitPos(st, Header(b, sp)) > 0
    ensures AfterHeader(st, b, sp).nstk > 0
  {
    SplitFacts(st, b);
    HeaderState(st, b, sp);
    var h, u := Header(b, sp), HeaderScan(st, b, sp);
    LexInCode(Code, h);
    OpenAtEnd(LineStart(st, Level(st, b).0), NOTHING, Lex(Code, h), 0);
    SettleOnly(u, h);
  }

  /** The brace gets the level of the line exactly as the guard says. */
  lemma BraceKept(st: FState, b: string, sp: nat)
    requires sp == SplitPos(st, b) > 0 && b != "" && !Space(b[0]) && Splits(st, b, sp)
    ensures var t, l := AfterHeader(st, b, sp), Level(st, b).0;
            && t.mode == Code && Level(t, b[sp..]).1 == t
            && (Level(t, b[sp..]).0 == l <==> t.nstk == 0 && BraceLevel(t) == l)
  {
    SplitFacts(st, b);
    HeaderState(st, b, sp);
    var u, t := HeaderScan(st, b, sp), AfterHeader(st, b, sp);
    SettleOnly(u, Header(b, sp));
    BraceLine(t, b[sp..]);
    if t.nstk > 0 { assert BlockAt(u.st.blocks, t.nstk - 1).outer == u.st.cur; }
  }

  // ----- lines formatted again -----

  function Again(unit: nat, s: FState, wrote: bool, ls: seq<Line>): seq<Line> {
    Format(FMT, unit, true, s, 0, wrote, ls)
  }

  lemma CodeFormat(unit: nat, s: FState, wrote: bool, line: Line, b: Line, rest: seq<Line>)
    requires s.mode == Code && Strip(line) == b != ""
    ensures Again(unit, s, wrote, [line] + rest)
            == Written(FMT, unit, true, s, b) + Again(unit, Scanned(FMT, true, s, b), true, rest)
  {
    assert ([line] + rest)[1..] == rest;
    assert Empty(0) + Written(FMT, unit, true, s, b) == Written(FMT, unit, true, s, b);
  }

  lemma {:induction false} IndentInjective(m: nat, y: string, n: nat, z: string)
    requires y != "" && z != "" && !Space(y[0]) && !Space(z[0]) && Indent(m) + y == Indent(n) + z
    ensures m == n && y == z
  {
    var s := Indent(m) + y;
    assert s[m] == y[0] && s[n] == z[0];
    assert forall i | 0 <= i < m :: s[i] == Indent(m)[i];
    assert forall i | 0 <= i < n :: s[i] == Indent(n)[i];
    assert s[m..] == y && s[n..] == z;
  }

  lemma SameIndent(a: nat, b: nat, unit: nat)
    requires unit > 0 && Columns(a, unit) == Columns(b, unit)
    ensures a == b
  {
    ColumnsOrder(a, b, unit);
    ColumnsOrder(b, a, unit);
  }

  lemma ColumnsOrder(a: nat, b: nat, unit: nat)
    requires unit > 0
    ensures a < b ==> Columns(a, unit) < Columns(b, unit)
  {
    if a < b { assert b * unit == a * unit + (b - a) * unit; }
  }

  lemma {:induction false} StripLine(n: nat, h: Line)
    requires h != "" && !Space(h[0])
    ensures StripFront(Indent(n) + h) == h && Strip(Indent(n) + h) == StripBack(h, true)
    decreases n
  {
    if n > 0 {
      assert (Indent(n) + h)[0] == ' ' && (Indent(n) + h)[1..] == Indent(n - 1) + h;
      StripLine(n - 1, h);
    } else {
      assert Indent(0) + h == h;
    }
  }

  /** The header line, read again. */
  lemma HeaderRead(unit: nat, s: FState, n: nat, h: Line, more: seq<Line>)
    requires s.mode == Code && s.nstk == 0 && h != "" && !Space(h[0])
    ensures StripBack(h, true) != "" && StripBack(h, true)[0] == h[0] && Level(s, StripBack(h, true)).1 == s
    ensures var x: Line := Strip(Indent(n) + h);
            && x == StripBack(h, true)
            && Again(unit, s, true, [Indent(n) + h] + more)
              == Written(FMT, unit, true, s, x) + Again(unit, Scanned(FMT, true, s, x), true, more)
  {
    StripLine(n, h);
    StripBackHead(h, true);
    LevelFlat(s, StripBack(h, true));
    CodeFormat(unit, s, true, Indent(n) + h, StripBack(h, true), more);
  }

  predicate HeaderStays(s: FState, h: string) {
    h != "" && h[|h| - 1] != '\r' && SplitPos(s, h) == 0
  }

  /** It is not split again and ends in no carriage return: it is written with the level it
      has now. */
  lemma HeaderSame(unit: nat, s: FState, n: nat, h: Line, more: seq<Line>)
    requires s.mode == Code && s.nstk == 0 && h != "" && !Space(h[0]) && HeaderStays(s, h) && !Blank(h[|h| - 1], false)
    ensures Again(unit, s, true, [Indent(n) + h] + more)
         == [Indent(Columns(Level(s, h).0, unit)) + h] + Again(unit, CodeLine(s, h, Level(s, h).0), true, more)
  {
    HeaderRead(unit, s, n, h, more);
    assert StripBack(h, true) == h;
  }

  /** Otherwise another line is written. */
  lemma HeaderOther(unit: nat, s: FState, n: nat, h: Line, more: seq<Line>)
    requires s.mode == Code && s.nstk == 0 && h != "" && !Space(h[0]) && !HeaderStays(s, h)
    ensures Again(unit, s, true, [Indent(n) + h] + more) != [Indent(n) + h] + more
  {
    HeaderRead(unit, s, n, h, more);
    HeaderChanged(unit, s, h, StripBack(h, true), n);
    assert ([Indent(n) + h] + more)[0] == Indent(n) + h;
  }

  lemma HeaderChanged(unit: nat, s: FState, h: Line, x: Line, n: nat)
    requires h != "" && !Space(h[0]) && x == StripBack(h, true) && x != "" && x[0] == h[0] && Level(s, x).1 == s
    requires x != h || SplitPos(s, x) > 0
    ensures Written(FMT, unit, true, s, x)[0] != Indent(n) + h
  {
    var sp := SplitPos(s, x);
    var y := if 0 < sp < |x| then StripBack(x[..sp], false) else x;
    var m := Columns(Level(s, x).0, unit);
    if sp > 0 {
      SplitFacts(s, x);
      StripBackHead(x[..sp], false);
    }
    assert Written(FMT, unit, true, s, x)[0] == Indent(m) + y;
    if Indent(m) + y == Indent(n) + h { IndentInjective(m, y, n, h); }
  }

  /** The line of the brace, read again. */
  lemma BraceFormat(unit: nat, t: FState, n: nat, c: Line, more: seq<Line>)
    requires t.mode == Code && c != "" && c[0] == '{' && !Blank(c[|c| - 1], true) && Level(t, c).1 == t
    ensures Again(unit, t, true, [Indent(n) + c] + more)
         == [Indent(Columns(Level(t, c).0, unit)) + c] + Again(unit, CodeLine(t, c, Level(t, c).0), true, more)
  {
    StripIndented(n, c);
    CodeFormat(unit, t, true, Indent(n) + c, c, more);
  }

  /** The state behind both lines. */
  function AfterTwo(s: FState, b: string, sp: nat): FState
    requires sp <= |b|
  {
    CodeLine(AfterHeader(s, b, sp), b[sp..], Level(s, b).0)
  }

  /** A line of code without blanks around it. */
  predicate Bare(b: Line) {
    b != "" && !Space(b[0]) && !Blank(b[|b| - 1], true)
  }

  lemma OneLineSame(m: nat, n: nat, unit: nat, c: Line, a: seq<Line>, r: seq<Line>)
    requires unit > 0 && c != "" && !Space(c[0])
    ensures [Indent(Columns(m, unit)) + c] + a == [Indent(Columns(n, unit)) + c] + r <==> m == n && a == r
  {
    var x, y := [Indent(Columns(m, unit)) + c] + a, [Indent(Columns(n, unit)) + c] + r;
    if x == y {
      assert x[0] == y[0] && x[1..] == a && y[1..] == r;
      IndentInjective(Columns(m, unit), c, Columns(n, unit), c);
      SameIndent(m, n, unit);
    }
  }

  /** The two lines of a header are written again as they are exactly under the guard. */
  lemma TwoLines(unit: nat, s: FState, b: Line, sp: nat, h: Line, c: Line, more: seq<Line>)
    requires unit > 0 && Bare(b) && sp == SplitPos(s, b) > 0 && Splits(s, b, sp) && h == Header(b, sp) && c == b[sp..]
    ensures var n := Columns(Level(s, b).0, unit);
            var out := [Indent(n) + h] + ([Indent(n) + c] + more);
            Again(unit, s, true, out) == out <==> Kept(s, b, sp) && Again(unit, AfterTwo(s, b, sp), true, more) == more
  {
    var l := Level(s, b).0;
    var n := Columns(l, unit);
    var rest := [Indent(n) + c] + more;
    SplitFacts(s, b);
    if !HeaderStays(s, h) {
      HeaderOther(unit, s, n, h, rest);
      if SplitPos(s, h) > 0 { SplitAgainOpens(s, b, sp); }
    } else {
      HeaderSame(unit, s, n, h, rest);
      var l1 := Level(s, h).0;
      OneLineSame(l1, l, unit, h, Again(unit, CodeLine(s, h, l1), true, rest), rest);
      if l1 == l { BraceAgain(unit, s, b, sp, c, more); }
    }
  }

  lemma BraceAgain(unit: nat, s: FState, b: Line, sp: nat, c: Line, more: seq<Line>)
    requires unit > 0 && Bare(b) && sp == SplitPos(s, b) > 0 && Splits(s, b, sp) && c == b[sp..]
    ensures var t, l := AfterHeader(s, b, sp), Level(s, b).0;
            var rest := [Indent(Columns(l, unit)) + c] + more;
            Again(unit, t, true, rest) == rest
            <==> t.nstk == 0 && BraceLevel(t) == l && Again(unit, AfterTwo(s, b, sp), true, more) == more
  {
    var t, l := AfterHeader(s, b, sp), Level(s, b).0;
    BraceKept(s, b, sp);
    BraceFormat(unit, t, Columns(l, unit), c, more);
    var l2 := Level(t, c).0;
    OneLineSame(l2, l, unit, c, Again(unit, CodeLine(t, c, l2), true, more), more);
  }

  // ----- the whole text -----

  /** The first pass from s on: every header that is split is kept.  Behind one that starts
      an asm block the rest has to come out alike from both states. */
  ghost predicate Settled(unit: nat, s: FState, ls: seq<Line>)
    decreases |ls|
  {
    if ls == [] then true else
    var l, rest := ls[0], ls[1..];
    if s.mode != Code then Settled(unit, Verbatim(s, l), rest) else
    var b := Strip(l);
    if b == "" then Settled(unit, s, rest) else
    var s1, next := Level(s, b).1, Scanned(FMT, true, s, b);
    var sp := SplitPos(s1, b);
    if !(0 < sp < |b|) then Settled(unit, next, rest)
    else if !Kept(s, b, sp) then false
    else if !AsmHeader(s, b, sp) then Settled(unit, next, rest)
    else
      var more := Format(FMT, unit, true, next, 0, true, rest);
      Again(unit, AfterTwo(s, b, sp), true, more) == more
  }

  /** Blank lines in front of a line of code come out as they are. */
  lemma PendingFirst(unit: nat, s: FState, pending: nat, wrote: bool, line: Line, rest: seq<Line>)
    requires s.mode == Code && (pending > 0 ==> wrote) && Strip(line) != ""
    ensures Again(unit, s, wrote, Empty(pending) + ([line] + rest))
            == Empty(pending) + Again(unit, s, true, [line] + rest)
  {
    var ls := [line] + rest;
    if pending > 0 {
      Pending(FMT, unit, true, s, pending, 0, ls);
    } else {
      assert Empty(0) + ls == ls && Empty(0) + Again(unit, s, true, ls) == Again(unit, s, true, ls);
    }
    assert ls[1..] == rest;
    CodeFormat(unit, s, true, line, Strip(line), rest);
    FirstCode(unit, s, pending, wrote, line, rest);
  }

  lemma FirstCode(unit: nat, s: FState, pending: nat, wrote: bool, line: Line, rest: seq<Line>)
    requires s.mode == Code && Strip(line) != ""
    ensures Format(FMT, unit, true, s, pending, wrote, [line] + rest)
         == Empty(pending) + (Written(FMT, unit, true, s, Strip(line)) + Format(FMT, unit, true,
                                                                                Scanned(FMT, true, s, Strip(line)), 0,
                                                                                true, rest))
  {
    assert ([line] + rest)[1..] == rest;
  }

  /** One split line of the first pass. */
  lemma SplitTwice(unit: nat, s: FState, pending: nat, wrote: bool, b: Line, sp: nat, more: seq<Line>)
    requires unit > 0 && s.mode == Code && (pending > 0 ==> wrote) && Bare(b) && sp == SplitPos(Level(s, b).1, b) > 0
             && sp < |b|
    ensures var out := Empty(pending) + Written(FMT, unit, true, s, b) + more;
            Again(unit, s, wrote, out) == out <==> Kept(s, b, sp) && Again(unit, AfterTwo(s, b, sp), true, more) == more
  {
    var n, h, c: Line := Columns(Level(s, b).0, unit), Header(b, sp), b[sp..];
    WrittenSplit(unit, s, pending, b, sp, h, c, more);
    LevelFlat(s, b);
    var lines := [Indent(n) + h] + ([Indent(n) + c] + more);
    PendingFirst(unit, s, pending, wrote, Indent(n) + h, [Indent(n) + c] + more);
    TwoLines(unit, s, b, sp, h, c, more);
    SamePrefix(Empty(pending), Again(unit, s, true, lines), lines);
  }

  lemma WrittenSplit(unit: nat, s: FState, pending: nat, b: Line, sp: nat, h: Line, c: Line, more: seq<Line>)
    requires s.mode == Code && Bare(b) && sp == SplitPos(Level(s, b).1, b) > 0 && sp < |b| && h == Header(b, sp)
             && c == b[sp..]
    ensures Splits(s, b, sp) && SplitPos(s, b) == sp && Strip(Indent(Columns(Level(s, b).0, unit)) + h) != ""
    ensures var n := Columns(Level(s, b).0, unit);
            Empty(pending) + Written(FMT, unit, true, s, b) + more
              == Empty(pending) + ([Indent(n) + h] + ([Indent(n) + c] + more))
  {
    LevelFlat(s, b);
    SplitFacts(s, b);
    var n := Columns(Level(s, b).0, unit);
    assert Written(FMT, unit, true, s, b) == [Indent(n) + h] + [Indent(n) + c];
    StripLine(n, h);
    StripBackHead(h, true);
  }

  lemma SamePrefix(a: seq<Line>, x: seq<Line>, y: seq<Line>)
    ensures a + x == a + y <==> x == y
  {
    if a + x == a + y { assert (a + x)[|a|..] == x && (a + y)[|a|..] == y; }
  }

  /** One line of the first pass that is not split. */
  lemma PlainTwice(unit: nat, s: FState, pending: nat, wrote: bool, b: Line, more: seq<Line>)
    requires s.mode == Code && (pending > 0 ==> wrote) && Bare(b) && !(0 < SplitPos(Level(s, b).1, b) < |b|)
    ensures var out := Empty(pending) + Written(FMT, unit, true, s, b) + more;
            Again(unit, s, wrote, out) == out <==> Again(unit, Scanned(FMT, true, s, b), true, more) == more
  {
    var n := Columns(Level(s, b).0, unit);
    var line: Line := Indent(n) + b;
    StripIndented(n, b);
    assert Empty(pending) + Written(FMT, unit, true, s, b) + more == Empty(pending) + ([line] + more);
    PendingFirst(unit, s, pending, wrote, line, more);
    CodeFormat(unit, s, true, line, b, more);
    SamePrefix([line], Again(unit, Scanned(FMT, true, s, b), true, more), more);
    SamePrefix(Empty(pending), Again(unit, s, true, [line] + more), [line] + more);
  }

  lemma VerbatimTwice(unit: nat, s: FState, wrote: bool, l: Line, more: seq<Line>)
    requires s.mode != Code
    ensures var out := Empty(0) + [l] + more;
            Again(unit, s, wrote, out) == out <==> Again(unit, Verbatim(s, l), true, more) == more
  {
    assert Empty(0) + [l] + more == [l] + more && ([l] + more)[1..] == more;
    assert Empty(0) + [l] == [l];
    SamePrefix([l], Again(unit, Verbatim(s, l), true, more), more);
  }

  /** Formatting the output of the first pass again returns it exactly when all is settled. */
  lemma {:induction false} TwiceFrom(unit: nat, s: FState, pending: nat, wrote: bool, ls: seq<Line>)
    requires unit > 0 && (pending > 0 ==> wrote && s.mode == Code)
    ensures var out := Format(FMT, unit, true, s, pending, wrote, ls);
            Again(unit, s, wrote, out) == out <==> Settled(unit, s, ls)
    decreases |ls|
  {
    if ls != [] {
      var l, rest := ls[0], ls[1..];
      if s.mode != Code {
        TwiceFrom(unit, Verbatim(s, l), 0, true, rest);
        VerbatimTwice(unit, s, wrote, l, Format(FMT, unit, true, Verbatim(s, l), 0, true, rest));
      } else if Strip(l) == "" {
        TwiceFrom(unit, s, if wrote then pending + 1 else pending, wrote, rest);
      } else {
        CodeTwiceFrom(unit, s, pending, wrote, ls);
      }
    }
  }

  lemma {:induction false} CodeTwiceFrom(unit: nat, s: FState, pending: nat, wrote: bool, ls: seq<Line>)
    requires unit > 0 && (pending > 0 ==> wrote) && ls != [] && s.mode == Code && Strip(ls[0]) != ""
    ensures var out := Format(FMT, unit, true, s, pending, wrote, ls);
            Again(unit, s, wrote, out) == out <==> Settled(unit, s, ls)
    decreases |ls|, 0
  {
    var b, rest := Strip(ls[0]), ls[1..];
    var next := Scanned(FMT, true, s, b);
    var more := Format(FMT, unit, true, next, 0, true, rest);
    TwiceFrom(unit, next, 0, true, rest);
    var sp := SplitPos(Level(s, b).1, b);
    if 0 < sp < |b| {
      SplitTwice(unit, s, pending, wrote, b, sp, more);
      SplitNext(s, b, sp);
    } else {
      PlainTwice(unit, s, pending, wrote, b, more);
    }
  }

  /** Unless it starts an asm block, a kept header leaves the state that it left before. */
  lemma SplitNext(s: FState, b: Line, sp: nat)
    requires Bare(b) && sp == SplitPos(Level(s, b).1, b) > 0 && sp < |b|
    ensures Kept(s, b, sp) && !AsmHeader(s, b, sp) ==> AfterTwo(s, b, sp) == Scanned(FMT, true, s, b)
  {
    LevelFlat(s, b);
    SplitFacts(s, b);
    if Kept(s, b, sp) && !AsmHeader(s, b, sp) { SameAfter(s, b, sp); }
  }

  /** With brace moving on, formatting the output again returns it exactly when every header
      that the first pass splits is kept. */
  lemma FmtTwiceIff(unit: nat, src: string)
    requires unit > 0
    ensures var out := Fmt(FMT, unit, true, START, src);
            Fmt(FMT, unit, true, START, out) == out <==> Settled(unit, START, Lines(src))
  {
    var ls := Format(FMT, unit, true, START, 0, false, Lines(src));
    LinesOfJoin(ls);
    TwiceFrom(unit, START, 0, false, Lines(src));
    var again := Again(unit, START, false, ls);
    LinesOfJoin(again);
    LinesOfJoin(ls);
  }

  /** Unless a statement of the line before goes on, a header is kept exactly when it leaves
      no brace and no parenthesis open, and no carriage return before its brace. */
  lemma KeptPlainly(s: FState, b: Line, sp: nat)
    requires Bare(b) && sp == SplitPos(s, b) > 0 && sp < |b| && !s.stmtOpen
    ensures Kept(s, b, sp) <==>
            var h, u := Header(b, sp), HeaderScan(s, b, sp).st;
              h != "" && h[|h| - 1] != '\r' && u.nstk == 0 && u.paren == 0
  {
    SplitFacts(s, b);
    FlatLevel(s, b);
    FlatLevel(s, Header(b, sp));
    HeaderState(s, b, sp);
    var u := HeaderScan(s, b, sp);
    ScanHang(LineStart(s, Level(s, b).0), Lex(Code, Header(b, sp)));
    SettleOnce(u, Header(b, sp));
  }

  lemma SettleOnce(u: Pos, h: string)
    requires u.st.hang == 0 && !u.st.stmtOpen
    ensures var t := Settle(u, h, false); t.nstk == u.st.nstk && (BraceLevel(t) == 0 <==> u.st.paren == 0)
  {
    SettleOnly(u, h);
  }

  lemma FlatLevel(s: FState, b: string)
    requires s.nstk == 0 && s.paren == 0 && s.hang == 0 && !s.stmtOpen
    ensures Level(s, b).0 == 0
  {
  }

  /** A scan leaves alone what hangs over. */
  lemma {:induction false} ScanHang(p: Pos, ts: Tokens)
    ensures Scan(p, ts).st.hang == p.st.hang && Scan(p, ts).st.stmtOpen == p.st.stmtOpen
    decreases ts
  {
    if ts.More? {
      TakeHang(p, ts.tok);
      ScanHang(Take(p, ts.tok), ts.rest);
    }
  }

  lemma TakeHang(p: Pos, tok: Tok)
    ensures Take(p, tok).st.hang == p.st.hang && Take(p, tok).st.stmtOpen == p.st.stmtOpen
  {
  }

  // ----- a header with two open braces -----

  const TWO_BRACES: Line := "a() { {"

  const OPEN := More(Word("a"), 1,
                     More(Sign('('), 1, More(Sign(')'), 1, More(White, 1, More(Sign('{'), 1, End(Code))))))
  const SECOND := More(White, 1, More(Sign('{'), 1, End(Code)))

  lemma LexSecond()
    ensures Lex(Code, " {") == SECOND
  {
    assert " {"[1..] == "{" && "{"[1..] == "";
    assert Lex(Code, "{") == More(Sign('{'), 1, End(Code));
  }

  lemma LexOpen()
    ensures Lex(Code, "a() {") == OPEN
  {
    var s: string, s1: string, s2: string := "a() {", "() {", ") {";
    assert s[1..] == s1 && s1[1..] == s2 && s2[1..] == " {";
    LexSecond();
    assert Lex(Code, s2) == More(Sign(')'), 1, SECOND);
    assert Lex(Code, s1) == More(Sign('('), 1, Lex(Code, s2));
    assert WordLength(s) == 1 && s[..1] == "a";
    assert Next(Code, s) == Piece(Word("a"), 1, Code);
  }

  lemma SearchOpen()
    ensures SearchIn(NOTHING, OPEN, 0) == Search(4, Some(')'), false) && LastMode(OPEN) == Code
    ensures SearchIn(Search(4, Some(')'), false), SECOND, 5) == Search(6, Some(')'), false)
  {
    assert SearchIn(Search(-1, Some(')'), false), SECOND, 3) == Search(4, Some(')'), false);
    assert SearchIn(Search(-1, Some('('), false), More(Sign(')'), 1, SECOND), 2) == Search(4, Some(')'), false);
    assert SearchIn(Search(-1, Some('a'), false), More(Sign('('), 1, More(Sign(')'), 1, SECOND)), 1)
           == Search(4, Some(')'), false);
  }

  lemma NoControl(s: string)
    requires s != "" && s[0] == 'a'
    ensures !AnyWord(s, CONTROL)
  {
    forall i | 0 <= i < |CONTROL| ensures !WordIs(s, CONTROL[i]) {
      assert CONTROL[i][0] != 'a';
    }
  }

  lemma LexTwo()
    ensures var ts := Lex(Code, TWO_BRACES);
            SearchIn(NOTHING, ts, 0) == Search(6, Some(')'), false) && LastMode(ts) == Code
  {
    var h: string, t: string := "a() {", " {";
    assert TWO_BRACES == h + t;
    LexOpen();
    LexSecond();
    SearchOpen();
    WholeBoundary(h);
    SearchParts(h, t);
    LexParts(Code, h, t);
    assert LastMode(Join2(OPEN, SECOND)) == Code;
  }

  /** A text without // comment whose tokens end in code. */
  lemma WholeBoundary(h: string)
    requires Lex(Code, h) == OPEN
    ensures Boundary(Code, h, |h|)
  {
    LexLength(Code, h);
    TokensBoundary(Code, h);
  }

  predicate NoRest(ts: Tokens) {
    ts.End? || (ts.tok != Rest && NoRest(ts.rest))
  }

  lemma {:induction false} TokensBoundary(mode: Mode, h: string)
    requires NoRest(Lex(mode, h)) && LastMode(Lex(mode, h)) == Code
    ensures Boundary(mode, h, |h|)
    decreases |h|
  {
    if h != "" {
      var n := Next(mode, h);
      TokensBoundary(n.mode, h[n.len..]);
      BoundaryBack(mode, h, |h|);
    }
  }

  /** It is split at its last brace, and then again. */
  lemma SplitOpen()
    ensures SplitPos(START, "a() {") == 4 && SplitPos(START, TWO_BRACES) == 6
  {
    LexOpen();
    SearchOpen();
    NoControl("a() {");
    LexTwo();
    NoControl(TWO_BRACES);
  }

  lemma HeaderOpen()
    ensures Header(TWO_BRACES, 6) == "a() {"
  {
    assert TWO_BRACES[..6] == "a() { " && TWO_BRACES[..6][..5] == "a() {";
  }

  /** The first pass moves the second brace, the next one the first. */
  lemma TwoBracesChange(unit: nat)
    requires unit > 0
    ensures var out := Fmt(FMT, unit, true, START, TWO_BRACES); Fmt(FMT, unit, true, START, out) != out
  {
    SplitOpen();
    TwoBracesOpen();
    OneLineText(TWO_BRACES);
    OneUnsettled(unit, TWO_BRACES, 6);
    FmtTwiceIff(unit, TWO_BRACES);
  }

  lemma TwoBracesOpen()
    ensures Bare(TWO_BRACES) && !Kept(START, TWO_BRACES, 6)
  {
    SplitOpen();
    HeaderOpen();
    SplitFacts(START, TWO_BRACES);
    SplitAgainOpens(START, TWO_BRACES, 6);
  }

  /** A line that is split and not kept. */
  lemma OneUnsettled(unit: nat, l: Line, sp: nat)
    requires Bare(l) && sp == SplitPos(START, l) > 0 && sp < |l| && !Kept(START, l, sp)
    ensures !Settled(unit, START, [l])
  {
    StripLine(0, l);
    assert Indent(0) + l == l && Strip(l) == l;
    LevelFlat(START, l);
  }

  lemma OneLineText(l: Line)
    requires l != ""
    ensures Lines(l) == [l]
  {
    LineEndAll(l);
    assert l[..|l|] == l;
  }

  lemma {:induction false} LineEndAll(l: Line)
    ensures LineEnd(l) == |l|
    decreases |l|
  {
    if l != "" {
      assert l[0] in l;
      LineEndAll(l[1..]);
    }
  }
}
