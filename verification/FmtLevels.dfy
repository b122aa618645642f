/** src/fmt.c: how far a line is indented, counted on the braces and switches open around it, the
    headers in front of it and whether a statement goes on. */
module FmtLevels {
  import opened Basics
  import opened Formatter
  import opened FmtScanner

  // ----- code with nested blocks -----

  /** A statement; a line that leaves one unfinished, the last character of which is c; the header
      of an `if` and the like without a brace; a label; and in a switch cases and the `start` and
      the `end` of a sub_switch. */
  datatype Item =
    | Plain(s: Line)
    | Part(s: Line, c: char)
    | Control(s: Line)
    | Mark(s: Line)
    | Case(s: Line)
    | Start(s: Line)
    | Finish(s: Line)

  /** Lines and blocks in order. */
  datatype Body =
    | Stop
    | One(i: Item, rest: Body)
    | Block(isSwitch: bool, head: Line, body: Body, rest: Body)

  /** Lines with the levels they should have. */
  datatype Rows = Done | Row(level: nat, s: Line, rest: Rows)

  /** Headers whose statement is still to come, and whether a statement goes on. */
  datatype Hang = Hang(turns: nat, open: bool)

  const NONE := Hang(0, false)

  function Extra(h: Hang): nat {
    h.turns + if h.open then 1 else 0
  }

  /** The brace of a header stands under it. */
  function HeadLevel(n: nat, h: Hang, s: string): nat {
    if s != "" && s[0] == '{' then n + Before(Extra(h)) else n + Extra(h)
  }

  /** Statements stand at level n: one for every open brace, one more for every open switch; and
      one further in for every header in front of them and where they go on.  Cases stand one
      level out, except in a sub_switch, whose own lines stand there; labels at the margin. */
  function Laid(c: Body, n: nat, h: Hang, sub: bool, tail: Rows): Rows {
    match c
    case Stop => tail
    case One(i, rest) => Row(LineLevel(i, n, h, sub), i.s, Laid(rest, n, Behind(i, h), SubBehind(i, sub), tail))
    case Block(isSwitch, s, b, rest) =>
      var m := HeadLevel(n, h, s);
      Row(m, s, Laid(b, m + if isSwitch then 2 else 1, NONE, false, Row(m, "}", Laid(rest, n, NONE, sub, tail))))
  }

  function LineLevel(i: Item, n: nat, h: Hang, sub: bool): nat {
    if i.Mark? then 0
    else if i.Start? || i.Finish? || (i.Case? && !sub) then Before(n)
    else if i.Case? then n
    else n + Extra(h)
  }

  /** What hangs over behind a line. */
  function Behind(i: Item, h: Hang): Hang {
    if i.Part? then Hang(h.turns, true) else if i.Control? then Hang(h.turns + 1, h.open) else NONE
  }

  function SubBehind(i: Item, sub: bool): bool {
    i.Start? || (sub && !i.Finish?)
  }

  function Before(n: nat): nat {
    if n == 0 then 0 else n - 1
  }

  datatype Place = Outside | InSwitch | InSub

  /** Nothing hangs over to a label or to the end, cases stand only in switches, one sub_switch
      at a time, and at most d more braces. */
  predicate Nested(c: Body, at: Place, h: Hang, d: nat) {
    match c
    case Stop => at != InSub && h == NONE
    case One(i, rest) => Allowed(i, at, h) && Nested(rest, PlaceBehind(i, at), Behind(i, h), d)
    case Block(isSwitch, s, b, rest) =>
      && d > 0 && Header(s, isSwitch) && Nested(b, if isSwitch then InSwitch else Outside, NONE, d - 1)
      && Nested(rest, at, NONE, d)
  }

  predicate Allowed(i: Item, at: Place, h: Hang) {
    match i
    case Plain(s) => Statement(s)
    case Part(s, c) => Unfinished(s, c)
    case Control(s) => Turn(s)
    case Mark(s) => h == NONE && JustLabel(s)
    case Case(s) => h == NONE && at != Outside && CaseLine(s)
    case Start(s) => h == NONE && at == InSwitch && Bound(s, "start")
    case Finish(s) => h == NONE && at == InSub && Bound(s, "end")
  }

  function PlaceBehind(i: Item, at: Place): Place {
    if i.Start? then InSub else if i.Finish? then InSwitch else at
  }

  predicate Ordinary(s: string) {
    s != "" && s[0] != '}' && s[0] != '#' && !LabelLine(s) && !AnyWord(s, ["case", "default", "start", "end"])
  }

  predicate Statement(s: string) {
    Ordinary(s) && Straight(Lex(Code, s), 0, None, {';'})
  }

  /** A line without the words of a header, whose last character of code ends nothing. */
  predicate Unfinished(s: string, c: char) {
    Ordinary(s) && s[0] != '{' && c !in ";:={}" && NoTurn(Lex(Code, s)) && Straight(Lex(Code, s), 0, None, {c})
  }

  const TURNS := ["if", "while", "for", "else", "do"]

  predicate NoTurn(ts: Tokens) {
    ts.More? ==> (ts.tok.Word? ==> ts.tok.w !in TURNS) && NoTurn(ts.rest)
  }

  /** `else` or `do`; or `if`, `while` or `for`, perhaps behind an `else`, up to its parenthesis. */
  predicate Turn(s: string) {
    && Ordinary(s) && s[0] != '{'
    && (Bare(Lex(Code, s)) || (Leading(Lex(Code, s), false) && Straight(Lex(Code, s), 0, None, {')'})))
  }

  predicate Bare(ts: Tokens) {
    ts.More? && ts.tok.Word? && ts.tok.w in ["else", "do"] && Quiet(ts.rest)
  }

  predicate Leading(ts: Tokens, behindElse: bool) {
    match ts
    case End(_) => false
    case More(tok, _, rest) =>
      if tok.White? then Leading(rest, behindElse)
      else if tok == Word("else") then !behindElse && Leading(rest, true)
      else tok.Word? && tok.w in ["if", "while", "for"]
  }

  predicate JustLabel(s: string) {
    && |s| > 1 && IdentStart(s[0]) && (forall i | 0 <= i < |s| - 1 :: IdentChar(s[i])) && s[|s| - 1] == ':'
    && !AnyWord(s, ["case", "default", "start", "end"]) && Straight(Lex(Code, s), 0, None, {':'})
  }

  predicate CaseLine(s: string) {
    && s != "" && s[0] != '}' && s[0] != '#' && !WordIs(s, "start") && !WordIs(s, "end")
    && AnyWord(s, ["case", "default"]) && Straight(Lex(Code, s), 0, None, {':', ';'})
  }

  predicate Bound(s: string, w: string) {
    && s != "" && s[0] != '}' && s[0] != '#' && WordIs(s, w) && !AnyWord(s, ["case", "default"])
    && (w == "end" ==> !WordIs(s, "start")) && Straight(Lex(Code, s), 0, None, {':', ';'})
  }

  predicate Header(s: string, isSwitch: bool) {
    Ordinary(s) && Opens(Lex(Code, s), 0, None, false, isSwitch)
  }

  /** No braces, parentheses closed again, and the last character of code is one of these. */
  predicate Straight(ts: Tokens, d: nat, last: Option<char>, ends: set<char>) {
    match ts
    case End(mode) => mode == Code && d == 0 && last.Some? && last.value in ends
    case More(tok, _, rest) =>
      match tok
      case Word(w) => w != "" && w != "switch" && Straight(rest, d, Some(w[|w| - 1]), ends)
      case OpenQuote(q) => Straight(rest, d, Some(q), ends)
      case CloseQuote(q) => Straight(rest, d, Some(q), ends)
      case Sign(c) =>
        c != '{' && c != '}' && (c in ")]" ==> d > 0) && Straight(rest, Paren(d, c), Some(c), ends)
      case _ => Straight(rest, d, last, ends)
  }

  function Paren(d: nat, c: char): nat {
    if c in "([" then d + 1 else if c in ")]" && d > 0 then d - 1 else d
  }

  /** One brace, at the end, outside parentheses and not behind `=`; no `asm`; a switch before it
      or none. */
  predicate Opens(ts: Tokens, d: nat, last: Option<char>, seen: bool, isSwitch: bool) {
    match ts
    case End(_) => false
    case More(tok, _, rest) =>
      match tok
      case Word(w) =>
        w != "" && w != "asm" && Opens(rest, d, Some(w[|w| - 1]), seen || (d == 0 && w == "switch"), isSwitch)
      case OpenQuote(q) => Opens(rest, d, Some(q), seen, isSwitch)
      case CloseQuote(q) => Opens(rest, d, Some(q), seen, isSwitch)
      case Sign(c) =>
        if c == '{' then d == 0 && last != Some('=') && seen == isSwitch && Quiet(rest) else
        c != '}' && (c in ")]" ==> d > 0) && (c == ';' ==> d > 0) && Opens(rest, Paren(d, c), Some(c), seen, isSwitch)
      case _ => Opens(rest, d, last, seen, isSwitch)
  }

  /** Only blanks and comments. */
  predicate Quiet(ts: Tokens) {
    match ts
    case End(mode) => mode == Code
    case More(tok, _, rest) => (tok.White? || tok.Rest? || tok.OpenComment? || tok.Inside?) && Quiet(rest)
  }

  // ----- the state between lines -----

  /** Where the head of each open block stands, and what it is. */
  datatype Kind = Kind(level: nat, isSwitch: bool, sub: bool)

  /** This hangs over, and the blocks are these. */
  ghost predicate Between(st: FState, ks: seq<Kind>, h: Hang) {
    && st.nstk == |ks| && st.paren == 0 && st.mode == Code && !st.swPending
    && st.hang == h.turns && !st.ctrlOpen && st.stmtOpen == h.open && !st.asmOpen && st.lastCode != Some('=')
    && Books(st.blocks, ks)
  }

  /** Blocks that were closed have left their sub_switch. */
  ghost predicate Books(blocks: map<nat, FBlock>, ks: seq<Kind>) {
    && (forall i | 0 <= i < |ks| :: BlockAt(blocks, i) == FBlock(ks[i].level, ks[i].isSwitch, false, false, ks[i].sub))
    && (forall i: nat | |ks| <= i :: !BlockAt(blocks, i).inSub)
  }

  function Inner(ks: seq<Kind>): nat {
    if ks == [] then 0 else ks[|ks| - 1].level + if ks[|ks| - 1].isSwitch then 2 else 1
  }

  function PlaceOf(ks: seq<Kind>): Place {
    if ks == [] || !ks[|ks| - 1].isSwitch then Outside else if ks[|ks| - 1].sub then InSub else InSwitch
  }

  function AfterLine(st: FState, s: string): FState {
    CodeLine(Level(st, s).1, s, Level(st, s).0)
  }

  /** From st on the lines get their levels. */
  ghost predicate Fits(st: FState, r: Rows)
    decreases r
  {
    r.Row? ==> st.mode == Code && Level(st, r.s).0 == r.level && Fits(AfterLine(st, r.s), r.rest)
  }

  // ----- scanning -----

  lemma {:induction false} StraightScan(p: Pos, ts: Tokens, ends: set<char>)
    requires Straight(ts, p.st.paren, p.st.lastCode, ends) && !p.st.swPending
    ensures var r := Scan(p, ts).st;
            r == p.st.(paren := 0, mode := Code, lastCode := r.lastCode)
            && r.lastCode.Some? && r.lastCode.value in ends
    decreases ts
  {
    match ts
    case End(mode) =>
    case More(tok, _, rest) => StraightScan(Take(p, tok), rest, ends);
  }

  lemma {:induction false} QuietScan(p: Pos, ts: Tokens)
    requires Quiet(ts)
    ensures Scan(p, ts) == p.(st := p.st.(mode := Code))
  {
    match ts
    case End(mode) =>
    case More(tok, _, rest) => QuietScan(Take(p, tok), rest);
  }

  ghost predicate ReadyToOpen(p: Pos) {
    && p.st.nstk < MAX_BLOCKS && p.f.first != "asm" && (p.st.lastCode.None? ==> p.f.prev != Some('='))
    && (p.st.nstk > 0 ==> !Top(p.st).isAsm && !Top(p.st).isInit)
  }

  /** A token of the header before its brace. */
  lemma TakeHead(p: Pos, tok: Tok, rest: Tokens, len: Positive, isSwitch: bool)
    requires Opens(More(tok, len, rest), p.st.paren, p.st.lastCode, p.st.swPending, isSwitch) && ReadyToOpen(p)
    requires tok != Sign('{')
    ensures var q := Take(p, tok);
            && Opens(rest, q.st.paren, q.st.lastCode, q.st.swPending, isSwitch) && ReadyToOpen(q)
            && q.st == p.st.(paren := q.st.paren, lastCode := q.st.lastCode, swPending := q.st.swPending)
  {
  }

  function Opened(st: FState, isSwitch: bool): FState {
    var b := FBlock(st.cur, isSwitch, false, false, Entry(st, st.nstk).inSub);
    st.(blocks := st.blocks[st.nstk := b], nstk := st.nstk + 1, swPending := false, paren := 0,
        mode := Code, lastCode := Some('{'))
  }

  lemma {:induction false} OpensScan(p: Pos, ts: Tokens, isSwitch: bool)
    requires Opens(ts, p.st.paren, p.st.lastCode, p.st.swPending, isSwitch) && ReadyToOpen(p)
    ensures Scan(p, ts).st == Opened(p.st, isSwitch)
    decreases ts
  {
    if ts.tok == Sign('{') {
      QuietScan(Take(p, ts.tok), ts.rest);
    } else {
      TakeHead(p, ts.tok, ts.rest, ts.len, isSwitch);
      OpensScan(Take(p, ts.tok), ts.rest, isSwitch);
    }
  }

  function Fresh(st: FState, level: nat): Pos {
    Pos(st.(cur := level, lastCode := None), Facts("", "", 0, st.lastCode))
  }

  // ----- first and last words -----

  lemma {:induction false} FirstKept(p: Pos, ts: Tokens)
    requires p.f.fw == 2
    ensures Scan(p, ts).f.first == p.f.first
    decreases ts
  {
    if ts.More? { FirstKept(Take(p, ts.tok), ts.rest); }
  }

  lemma {:induction false} LeadingScan(p: Pos, ts: Tokens, behindElse: bool)
    requires Leading(ts, behindElse) && p.f.fw == if behindElse then 1 else 0
    ensures Scan(p, ts).f.first in ["if", "while", "for"]
    decreases ts
  {
    var q := Take(p, ts.tok);
    if ts.tok.White? {
      LeadingScan(q, ts.rest, behindElse);
    } else if ts.tok == Word("else") {
      LeadingScan(q, ts.rest, true);
    } else {
      assert ts.tok.w[..|ts.tok.w|] == ts.tok.w;
      FirstKept(q, ts.rest);
    }
  }

  ghost predicate NoTurnWords(f: Facts) {
    f.first !in TURNS && f.last !in TURNS
  }

  lemma {:induction false} NoTurnScan(p: Pos, ts: Tokens)
    requires NoTurn(ts) && NoTurnWords(p.f)
    ensures NoTurnWords(Scan(p, ts).f)
    decreases ts
  {
    if ts.More? {
      if ts.tok.Word? { WordNoted(p.f, ts.tok.w); }
      NoTurnScan(Take(p, ts.tok), ts.rest);
    }
  }

  lemma WordNoted(f: Facts, w: string)
    requires w !in TURNS && NoTurnWords(f)
    ensures NoTurnWords(NoteWord(f, w))
  {
    if |w| > 15 { assert |w[..15]| == 15; }
  }

  // ----- one line -----

  lemma LineKeeps(st: FState, ks: seq<Kind>, h: Hang, s: string, ends: set<char>, level: nat)
    requires Between(st, ks, h) && ends <= {';', ':'}
    requires Straight(Lex(Code, s), 0, None, ends) && s != "" && s[0] != '#' && s[0] != '}'
    ensures Between(CodeLine(st, s, level), ks, NONE)
  {
    StraightScan(Fresh(st, level), Lex(Code, s), ends);
  }

  lemma PartKeeps(st: FState, ks: seq<Kind>, h: Hang, s: string, c: char, level: nat)
    requires Between(st, ks, h) && Unfinished(s, c)
    ensures Between(CodeLine(st, s, level), ks, Hang(h.turns, true))
  {
    var ts := Lex(Code, s);
    StraightScan(Fresh(st, level), ts, {c});
    NoTurnScan(Fresh(st, level), ts);
    PartSettles(Scan(Fresh(st, level), ts), s, h, c);
    if ks != [] { assert BlockAt(st.blocks, |ks| - 1) == Top(st); }
  }

  lemma PartSettles(p: Pos, s: string, h: Hang, c: char)
    requires p.st.mode == Code && s != "" && s[0] != '#' && p.st.lastCode == Some(c) && c !in ";:{}" && p.st.paren == 0
    requires !p.st.ctrlOpen && NoTurnWords(p.f) && (p.st.nstk > 0 ==> !Top(p.st).isInit)
    ensures Settle(p, s, false) == p.st.(stmtOpen := true)
  {
    assert "if" in TURNS && "while" in TURNS && "for" in TURNS && "else" in TURNS && "do" in TURNS;
  }

  lemma TurnKeeps(st: FState, ks: seq<Kind>, h: Hang, s: string, level: nat)
    requires Between(st, ks, h) && Turn(s)
    ensures Between(CodeLine(st, s, level), ks, Hang(h.turns + 1, h.open))
  {
    var p := TurnScan(Fresh(st, level), s);
    TurnSettles(p, s);
    if ks != [] { assert BlockAt(st.blocks, |ks| - 1) == Top(st); }
  }

  lemma TurnScan(p: Pos, s: string) returns (q: Pos)
    requires Turn(s) && p.f == Facts("", "", 0, p.f.prev)
    requires p.st.paren == 0 && p.st.lastCode == None && !p.st.swPending && p.st.mode == Code
    ensures q == Scan(p, Lex(Code, s)) && q.st == p.st.(lastCode := q.st.lastCode) && q.st.lastCode.Some?
    ensures q.st.lastCode.value !in ";:{},=" && Turned(q)
  {
    var ts := Lex(Code, s);
    q := Scan(p, ts);
    if Bare(ts) {
      QuietScan(Take(p, ts.tok), ts.rest);
    } else {
      StraightScan(p, Lex(Code, s), {')'});
      LeadingScan(p, Lex(Code, s), false);
    }
  }

  predicate Turned(q: Pos) {
    || (q.st.lastCode == Some(')') && q.f.first in ["if", "while", "for"])
    || (q.st.lastCode != Some(')') && (q.f.last == "else" || q.f.last == "do"))
  }

  lemma TurnSettles(p: Pos, s: string)
    requires p.st.mode == Code && s != "" && s[0] != '#' && p.st.paren == 0 && !p.st.ctrlOpen && Turned(p)
    requires p.st.lastCode.Some? && p.st.lastCode.value !in ";:{},"
    ensures Settle(p, s, false) == p.st.(hang := p.st.hang + 1)
  {
  }

  lemma HeaderOpens(st: FState, ks: seq<Kind>, h: Hang, s: string, level: nat, isSwitch: bool)
    requires Between(st, ks, h) && Header(s, isSwitch) && |ks| < MAX_BLOCKS
    ensures Between(CodeLine(st, s, level), ks + [Kind(level, isSwitch, false)], NONE)
  {
    if ks != [] { assert BlockAt(st.blocks, |ks| - 1) == Top(st); }
    OpenBooks(st.blocks, ks, Kind(level, isSwitch, false));
    OpensScan(Fresh(st, level), Lex(Code, s), isSwitch);
  }

  lemma OpenBooks(blocks: map<nat, FBlock>, ks: seq<Kind>, kind: Kind)
    requires Books(blocks, ks) && !kind.sub
    ensures Books(blocks[|ks| := FBlock(kind.level, kind.isSwitch, false, false, BlockAt(blocks, |ks|).inSub)],
                  ks + [kind])
  {
    var more := blocks[|ks| := FBlock(kind.level, kind.isSwitch, false, false, BlockAt(blocks, |ks|).inSub)];
    assert !BlockAt(blocks, |ks|).inSub;
    forall i: nat | i != |ks| ensures BlockAt(more, i) == BlockAt(blocks, i) {}
  }

  lemma BraceCloses(st: FState, ks: seq<Kind>, level: nat)
    requires Between(st, ks, NONE) && ks != [] && !ks[|ks| - 1].sub
    ensures Between(CodeLine(st, "}", level), ks[..|ks| - 1], NONE)
  {
    LexBrace();
    assert BlockAt(st.blocks, |ks| - 1) == Top(st);
  }

  lemma LexBrace()
    ensures Lex(Code, "}") == More(Sign('}'), 1, End(Code))
  {
    assert Next(Code, "}") == Piece(Sign('}'), 1, Code);
    assert "}"[1..] == "";
  }

  // ----- levels -----

  lemma PlainLevel(st: FState, ks: seq<Kind>, h: Hang, s: string)
    requires Between(st, ks, h) && Ordinary(s)
    ensures Level(st, s) == (HeadLevel(Inner(ks), h, s), st)
  {
    if ks != [] { assert BlockAt(st.blocks, |ks| - 1) == Top(st); }
  }

  lemma CloseLevel(st: FState, ks: seq<Kind>)
    requires Between(st, ks, NONE) && ks != []
    ensures Level(st, "}") == (ks[|ks| - 1].level, st)
  {
    assert BlockAt(st.blocks, |ks| - 1) == Top(st);
  }

  lemma LabelWords(s: string)
    ensures AnyWord(s, ["case", "default", "start", "end"])
            <==> AnyWord(s, ["case", "default"]) || WordIs(s, "start") || WordIs(s, "end")
  {
    var four, two := ["case", "default", "start", "end"], ["case", "default"];
    assert two[0] == four[0] && two[1] == four[1] && four[2] == "start" && four[3] == "end";
  }

  lemma CaseLevel(st: FState, ks: seq<Kind>, s: string)
    requires Between(st, ks, NONE) && CaseLine(s) && PlaceOf(ks) != Outside
    ensures Level(st, s) == (if PlaceOf(ks) == InSub then Inner(ks) else Inner(ks) - 1, st)
  {
    assert BlockAt(st.blocks, |ks| - 1) == Top(st);
    LabelWords(s);
  }

  function WithSub(ks: seq<Kind>, on: bool): seq<Kind>
    requires ks != []
  {
    ks[..|ks| - 1] + [ks[|ks| - 1].(sub := on)]
  }

  lemma BoundLevel(st: FState, ks: seq<Kind>, s: string, w: string)
    requires Between(st, ks, NONE) && Bound(s, w) && w in ["start", "end"] && PlaceOf(ks) != Outside
    ensures Level(st, s) == (Inner(ks) - 1, SetSub(st, w == "start"))
    ensures Between(SetSub(st, w == "start"), WithSub(ks, w == "start"), NONE)
  {
    assert BlockAt(st.blocks, |ks| - 1) == Top(st);
    LabelWords(s);
    SubBooks(st.blocks, ks, w == "start");
  }

  lemma SubBooks(blocks: map<nat, FBlock>, ks: seq<Kind>, on: bool)
    requires Books(blocks, ks) && ks != []
    ensures Books(blocks[|ks| - 1 := BlockAt(blocks, |ks| - 1).(inSub := on)], WithSub(ks, on))
  {
    var more := blocks[|ks| - 1 := BlockAt(blocks, |ks| - 1).(inSub := on)];
    forall i: nat | i != |ks| - 1 ensures BlockAt(more, i) == BlockAt(blocks, i) {}
  }

  lemma MarkLevel(st: FState, ks: seq<Kind>, s: string)
    requires Between(st, ks, NONE) && JustLabel(s)
    ensures Level(st, s) == (0, st)
  {
    var n := |s| - 1;
    assert s[..n] + s[n..] == s;
    LabelLength(s, n);
    assert s[n + 1..] == "";
    LabelWords(s);
    if ks != [] { assert BlockAt(st.blocks, |ks| - 1) == Top(st); }
  }

  lemma {:induction false} LabelLength(s: string, n: nat)
    requires n < |s| && (forall i | 0 <= i < n :: IdentChar(s[i])) && !IdentChar(s[n])
    ensures WordLength(s) == n
    decreases n
  {
    if n > 0 { LabelLength(s[1..], n - 1); }
  }

  // ----- one line and its level -----

  /** The line gets this level, and the state behind it is r. */
  ghost predicate Leads(st: FState, s: Line, level: nat, r: FState) {
    forall rest: Rows :: Fits(r, rest) ==> Fits(st, Row(level, s, rest))
  }

  lemma PlainStep(st: FState, ks: seq<Kind>, h: Hang, s: Line) returns (r: FState)
    requires Between(st, ks, h) && Statement(s)
    ensures Between(r, ks, NONE) && Leads(st, s, Inner(ks) + Extra(h), r)
  {
    PlainLevel(st, ks, h, s);
    LineKeeps(st, ks, h, s, {';'}, Inner(ks) + Extra(h));
    r := AfterLine(st, s);
  }

  lemma PartStep(st: FState, ks: seq<Kind>, h: Hang, s: Line, c: char) returns (r: FState)
    requires Between(st, ks, h) && Unfinished(s, c)
    ensures Between(r, ks, Hang(h.turns, true)) && Leads(st, s, Inner(ks) + Extra(h), r)
  {
    PlainLevel(st, ks, h, s);
    PartKeeps(st, ks, h, s, c, Inner(ks) + Extra(h));
    r := AfterLine(st, s);
  }

  lemma TurnStep(st: FState, ks: seq<Kind>, h: Hang, s: Line) returns (r: FState)
    requires Between(st, ks, h) && Turn(s)
    ensures Between(r, ks, Hang(h.turns + 1, h.open)) && Leads(st, s, Inner(ks) + Extra(h), r)
  {
    PlainLevel(st, ks, h, s);
    TurnKeeps(st, ks, h, s, Inner(ks) + Extra(h));
    r := AfterLine(st, s);
  }

  lemma MarkStep(st: FState, ks: seq<Kind>, s: Line) returns (r: FState)
    requires Between(st, ks, NONE) && JustLabel(s)
    ensures Between(r, ks, NONE) && Leads(st, s, 0, r)
  {
    MarkLevel(st, ks, s);
    LineKeeps(st, ks, NONE, s, {':'}, 0);
    r := AfterLine(st, s);
  }

  function CasesAt(ks: seq<Kind>): nat {
    if PlaceOf(ks) == InSub then Inner(ks) else Before(Inner(ks))
  }

  lemma CaseStep(st: FState, ks: seq<Kind>, s: Line) returns (r: FState)
    requires Between(st, ks, NONE) && CaseLine(s) && PlaceOf(ks) != Outside
    ensures Between(r, ks, NONE) && Leads(st, s, CasesAt(ks), r)
  {
    CaseLevel(st, ks, s);
    LineKeeps(st, ks, NONE, s, {':', ';'}, CasesAt(ks));
    r := AfterLine(st, s);
  }

  lemma BoundStep(st: FState, ks: seq<Kind>, s: Line, on: bool) returns (r: FState)
    requires Between(st, ks, NONE) && Bound(s, if on then "start" else "end") && PlaceOf(ks) != Outside
    ensures Between(r, WithSub(ks, on), NONE) && Leads(st, s, Before(Inner(ks)), r)
  {
    BoundLevel(st, ks, s, if on then "start" else "end");
    LineKeeps(SetSub(st, on), WithSub(ks, on), NONE, s, {':', ';'}, Inner(ks) - 1);
    r := AfterLine(st, s);
  }

  lemma HeadStep(st: FState, ks: seq<Kind>, h: Hang, s: Line, isSwitch: bool, inside: seq<Kind>) returns (r: FState)
    requires Between(st, ks, h) && Header(s, isSwitch) && |ks| < MAX_BLOCKS
    requires inside == ks + [Kind(HeadLevel(Inner(ks), h, s), isSwitch, false)]
    ensures Between(r, inside, NONE) && Leads(st, s, HeadLevel(Inner(ks), h, s), r)
  {
    PlainLevel(st, ks, h, s);
    HeaderOpens(st, ks, h, s, HeadLevel(Inner(ks), h, s), isSwitch);
    r := AfterLine(st, s);
  }

  lemma CloseStep(st: FState, inside: seq<Kind>, ks: seq<Kind>, m: nat) returns (r: FState)
    requires Between(st, inside, NONE) && OneMore(inside, ks, m)
    ensures Between(r, ks, NONE) && Leads(st, "}", m, r)
  {
    CloseLevel(st, inside);
    BraceCloses(st, inside, m);
    r := AfterLine(st, "}");
  }

  // ----- whole texts -----

  /** The blocks open at the end of the text. */
  function Out(ks: seq<Kind>): seq<Kind> {
    if PlaceOf(ks) == InSub then WithSub(ks, false) else ks
  }

  function KindsBehind(i: Item, ks: seq<Kind>): seq<Kind>
    requires i.Start? || i.Finish? ==> ks != []
  {
    if i.Start? then WithSub(ks, true) else if i.Finish? then WithSub(ks, false) else ks
  }

  lemma OneLine(i: Item, st: FState, ks: seq<Kind>, h: Hang) returns (r: FState)
    requires Between(st, ks, h) && Allowed(i, PlaceOf(ks), h)
    ensures Between(r, KindsBehind(i, ks), Behind(i, h))
    ensures Leads(st, i.s, LineLevel(i, Inner(ks), h, PlaceOf(ks) == InSub), r)
  {
    match i
    case Plain(s) => r := PlainStep(st, ks, h, s);
    case Part(s, c) => r := PartStep(st, ks, h, s, c);
    case Control(s) => r := TurnStep(st, ks, h, s);
    case Mark(s) => r := MarkStep(st, ks, s);
    case Case(s) => r := CaseStep(st, ks, s);
    case Start(s) => r := BoundStep(st, ks, s, true);
    case Finish(s) => r := BoundStep(st, ks, s, false);
  }

  lemma KindsSame(i: Item, ks: seq<Kind>)
    requires (i.Start? ==> PlaceOf(ks) == InSwitch) && (i.Finish? ==> PlaceOf(ks) == InSub)
    ensures var more := KindsBehind(i, ks);
            && Out(more) == Out(ks) && Inner(more) == Inner(ks) && |more| == |ks|
            && PlaceOf(more) == PlaceBehind(i, PlaceOf(ks))
  {
    if i.Start? { assert WithSub(WithSub(ks, true), false) == ks; }
  }

  /** The text has its levels. */
  lemma {:induction false} LaidFits(c: Body, st: FState, ks: seq<Kind>, h: Hang, tail: Rows) returns (r: FState)
    requires |ks| <= MAX_BLOCKS && Between(st, ks, h) && Nested(c, PlaceOf(ks), h, MAX_BLOCKS - |ks|)
    ensures Between(r, Out(ks), NONE)
    ensures Fits(r, tail) ==> Fits(st, Laid(c, Inner(ks), h, PlaceOf(ks) == InSub, tail))
    decreases c, 1
  {
    match c
    case Stop => r := st;
    case One(i, rest) =>
      var st1 := OneLine(i, st, ks, h);
      KindsSame(i, ks);
      r := LaidFits(rest, st1, KindsBehind(i, ks), Behind(i, h), tail);
    case Block(isSwitch, s, b, rest) => r := BlockFits(c, isSwitch, s, b, rest, st, ks, h, tail);
  }

  lemma {:induction false} BlockFits(c: Body, isSwitch: bool, s: Line, b: Body, rest: Body, st: FState, ks: seq<Kind>,
                                     h: Hang, tail: Rows) returns (r: FState)
    requires c == Block(isSwitch, s, b, rest)
    requires |ks| <= MAX_BLOCKS && Between(st, ks, h) && Nested(c, PlaceOf(ks), h, MAX_BLOCKS - |ks|)
    ensures Between(r, Out(ks), NONE)
    ensures Fits(r, tail) ==> Fits(st, Laid(c, Inner(ks), h, PlaceOf(ks) == InSub, tail))
    decreases c, 0
  {
    var m := HeadLevel(Inner(ks), h, s);
    var after := Row(m, "}", Laid(rest, Inner(ks), NONE, PlaceOf(ks) == InSub, tail));
    var inside, st1 := HeadFits(isSwitch, s, m, b, st, ks, h, after);
    r := CloseFits(rest, m, st1, inside, ks, tail);
  }

  /** The open blocks are those of ks and one more, headed at level m. */
  ghost predicate OneMore(inside: seq<Kind>, ks: seq<Kind>, m: nat) {
    |inside| == |ks| + 1 && inside[..|ks|] == ks && inside[|ks|].level == m && !inside[|ks|].sub
  }

  lemma {:induction false} HeadFits(isSwitch: bool, s: Line, m: nat, b: Body, st: FState, ks: seq<Kind>, h: Hang,
                                    tail: Rows) returns (inside: seq<Kind>, r: FState)
    requires |ks| < MAX_BLOCKS && Between(st, ks, h) && Header(s, isSwitch) && m == HeadLevel(Inner(ks), h, s)
    requires Nested(b, if isSwitch then InSwitch else Outside, NONE, MAX_BLOCKS - |ks| - 1)
    ensures Between(r, inside, NONE) && OneMore(inside, ks, m)
    ensures Fits(r, tail) ==> Fits(st, Row(m, s, Laid(b, m + if isSwitch then 2 else 1, NONE, false, tail)))
    decreases b, 3
  {
    inside := ks + [Kind(m, isSwitch, false)];
    var st1 := HeadStep(st, ks, h, s, isSwitch, inside);
    r := InsideFits(b, st1, inside, m + if isSwitch then 2 else 1, if isSwitch then InSwitch else Outside, tail);
  }

  lemma {:induction false} InsideFits(b: Body, st: FState, inside: seq<Kind>, n: nat, at: Place, tail: Rows)
      returns (r: FState)
    requires |inside| <= MAX_BLOCKS && Between(st, inside, NONE) && Inner(inside) == n && PlaceOf(inside) == at
    requires at != InSub && Nested(b, at, NONE, MAX_BLOCKS - |inside|)
    ensures Between(r, inside, NONE) && (Fits(r, tail) ==> Fits(st, Laid(b, n, NONE, false, tail)))
    decreases b, 2
  {
    r := LaidFits(b, st, inside, NONE, tail);
  }

  lemma {:induction false} CloseFits(rest: Body, m: nat, st: FState, inside: seq<Kind>, ks: seq<Kind>, tail: Rows)
      returns (r: FState)
    requires |ks| < MAX_BLOCKS && Between(st, inside, NONE) && OneMore(inside, ks, m)
    requires Nested(rest, PlaceOf(ks), NONE, MAX_BLOCKS - |ks|)
    ensures Between(r, Out(ks), NONE)
    ensures Fits(r, tail) ==> Fits(st, Row(m, "}", Laid(rest, Inner(ks), NONE, PlaceOf(ks) == InSub, tail)))
    decreases rest, 2
  {
    var st1 := CloseStep(st, inside, ks, m);
    r := LaidFits(rest, st1, ks, NONE, tail);
  }

  /** Lines that hold this text, however they are indented. */
  predicate Holds(ls: seq<Line>, r: Rows)
    decreases r
  {
    match r
    case Done => ls == []
    case Row(_, s, rest) => ls != [] && s != "" && Strip(ls[0]) == s && Holds(ls[1..], rest)
  }

  function Indented(r: Rows, unit: nat): seq<Line> {
    match r
    case Done => []
    case Row(n, s, rest) => [Indent(Columns(n, unit)) + s] + Indented(rest, unit)
  }

  lemma {:induction false} FitsFormat(st: FState, r: Rows, unit: nat, wrote: bool, ls: seq<Line>)
    requires Fits(st, r) && Holds(ls, r)
    ensures Format(FMT, unit, false, st, 0, wrote, ls) == Indented(r, unit)
    decreases r
  {
    if r.Row? {
      FitsFormat(AfterLine(st, r.s), r.rest, unit, true, ls[1..]);
      assert Written(FMT, unit, false, st, r.s) == [Indent(Columns(r.level, unit)) + r.s];
      assert Scanned(FMT, false, st, r.s) == AfterLine(st, r.s);
      assert Empty(0) == [];
    }
  }

  /** Whatever the indentation of the source, every line of nested blocks and switches goes to
      the level that the braces around it give. */
  lemma {:induction false} NestedLevels(c: Body, unit: nat, ls: seq<Line>)
    requires Nested(c, Outside, NONE, MAX_BLOCKS) && Holds(ls, Laid(c, 0, NONE, false, Done))
    ensures Fmt(FMT, unit, false, START, Join(ls)) == Join(Indented(Laid(c, 0, NONE, false, Done), unit))
  {
    var _ := LaidFits(c, START, [], NONE, Done);
    FitsFormat(START, Laid(c, 0, NONE, false, Done), unit, false, ls);
    LinesOfJoin(ls);
  }
}
