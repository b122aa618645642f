/** src/fmt.c: the scanner behind the formatter.  It cuts a line into tokens; the scan of a
    line and the search for a brace to move both run over them. */
module FmtScanner {
  import opened Basics
  import opened Formatter

  // ----- tokens -----

  type QuoteMark = c: char | c == '\"' || c == '\'' witness '\"'

  datatype Mode = Code | Comment | Quote(q: QuoteMark)

  /** Inside stands for what a comment or literal holds, Rest for a // comment. */
  datatype Tok = White | Word(w: string) | Sign(c: char) | OpenQuote(q: char) | CloseQuote(q: char)
    | OpenComment | Inside | Rest

  predicate IdentStart(c: char) {
    'a' <= c <= 'z' || 'A' <= c <= 'Z' || c == '_'
  }

  predicate IdentChar(c: char) {
    IdentStart(c) || '0' <= c <= '9'
  }

  function WordLength(s: string): (n: nat)
    ensures n <= |s| && (n < |s| ==> !IdentChar(s[n])) && forall i | 0 <= i < n :: IdentChar(s[i])
  {
    if s == "" || !IdentChar(s[0]) then 0 else 1 + WordLength(s[1..])
  }

  datatype Piece = Piece(tok: Tok, len: nat, mode: Mode)

  /** The first token of s, and the mode behind it. */
  function Next(mode: Mode, s: string): (p: Piece)
    requires s != ""
    ensures 0 < p.len <= |s|
  {
    var c := s[0];
    var follows := if |s| > 1 then Some(s[1]) else None;
    match mode
    case Comment => if c == '*' && follows == Some('/') then Piece(Inside, 2, Code) else Piece(Inside, 1, Comment)
    case Quote(q) =>
      if c == '\\' && follows.Some? then Piece(Inside, 2, mode)
      else if c == q then Piece(CloseQuote(q), 1, Code)
      else Piece(Inside, 1, mode)
    case Code =>
      if c == '/' && follows == Some('/') then Piece(Rest, |s|, Code)
      else if c == '/' && follows == Some('*') then Piece(OpenComment, 2, Comment)
      else if c == '\"' || c == '\'' then Piece(OpenQuote(c), 1, Quote(c))
      else if IdentStart(c) then Piece(Word(s[..WordLength(s)]), WordLength(s), Code)
      else if c == ' ' || c == '\t' then Piece(White, 1, Code)
      else Piece(Sign(c), 1, Code)
  }

  /** The tokens of s, and the mode behind them. */
  datatype Tokens = End(mode: Mode) | More(tok: Tok, len: Positive, rest: Tokens)

  function Lex(mode: Mode, s: string): Tokens
    decreases |s|
  {
    if s == "" then End(mode) else
    var n := Next(mode, s);
    More(n.tok, n.len, Lex(n.mode, s[n.len..]))
  }

  /** word_is: s starts with the word w. */
  predicate WordIs(s: string, w: string) {
    |w| <= |s| && s[..|w|] == w && (|s| == |w| || !IdentChar(s[|w|]))
  }

  predicate AnyWord(s: string, ws: seq<string>) {
    exists i | 0 <= i < |ws| :: WordIs(s, ws[i])
  }

  // ----- the state -----

  datatype FBlock = FBlock(outer: nat, isSwitch: bool, isAsm: bool, isInit: bool, inSub: bool)

  const MAX_BLOCKS := 256

  /** Blocks that were closed keep their entries, as in the array of the source. */
  datatype FState = FState(blocks: map<nat, FBlock>, nstk: nat, paren: nat, mode: Mode, swPending: bool, cur: nat,
                           hang: nat, ctrlOpen: bool, stmtOpen: bool, asmOpen: bool, lastCode: Option<char>)

  const START := FState(map[], 0, 0, Code, false, 0, 0, false, false, false, None)

  /** What is known of the line at hand: its first and last word, whether the first may
      still come, and the last code character before this one. */
  datatype Facts = Facts(first: string, last: string, fw: nat, prev: Option<char>)

  function Entry(st: FState, i: nat): FBlock {
    BlockAt(st.blocks, i)
  }

  function BlockAt(blocks: map<nat, FBlock>, i: nat): FBlock {
    if i in blocks then blocks[i] else FBlock(0, false, false, false, false)
  }

  function Top(st: FState): FBlock
    requires st.nstk > 0
  {
    Entry(st, st.nstk - 1)
  }

  function StmtLevel(st: FState): nat {
    if st.nstk == 0 then 0 else Top(st).outer + if Top(st).isSwitch then 2 else 1
  }

  // ----- scanning a line -----

  datatype Pos = Pos(st: FState, f: Facts)

  function NoteWord(f: Facts, w: string): Facts {
    var n := if |w| > 15 then w[..15] else w;
    if f.fw == 0 && n == "else" then f.(last := n, first := "else", fw := 1)
    else if f.fw <= 1 then f.(last := n, first := n, fw := 2)
    else f.(last := n)
  }

  function Open(st: FState, f: Facts): FState {
    if st.nstk >= MAX_BLOCKS then st.(swPending := false) else
    var inner := st.nstk > 0;
    var block := FBlock(st.cur, st.swPending, (inner && Top(st).isAsm) || f.first == "asm",
                        f.prev == Some('=') || (inner && Top(st).isInit), Entry(st, st.nstk).inSub);
    st.(blocks := st.blocks[st.nstk := block], nstk := st.nstk + 1, swPending := false)
  }

  function Punct(st: FState, f: Facts, c: char): FState {
    match c
    case '(' => st.(paren := st.paren + 1)
    case '[' => st.(paren := st.paren + 1)
    case ')' => st.(paren := if st.paren > 0 then st.paren - 1 else 0)
    case ']' => st.(paren := if st.paren > 0 then st.paren - 1 else 0)
    case '{' => Open(st, f)
    case '}' => st.(nstk := if st.nstk > 0 then st.nstk - 1 else 0, swPending := false)
    case ';' => st.(swPending := st.swPending && st.paren != 0)
    case _ => st
  }

  /** What one token does. */
  function Take(p: Pos, tok: Tok): Pos {
    var st, f := p.st, p.f;
    match tok
    case Word(w) =>
      if w == "" then p else
      Pos(st.(swPending := st.swPending || (st.paren == 0 && w == "switch"), lastCode := Some(w[|w| - 1])),
          NoteWord(f, w))
    case OpenQuote(q) => Pos(st.(lastCode := Some(q)), f.(last := "", fw := if f.fw <= 1 then 2 else f.fw))
    case CloseQuote(q) => Pos(st.(lastCode := Some(q)), f)
    case Sign(c) =>
      var f1 := f.(prev := if st.lastCode.Some? then st.lastCode else f.prev, last := "",
                   fw := if f.fw <= 1 && c != '}' then 2 else f.fw);
      Pos(Punct(st.(lastCode := Some(c)), f1, c), f1)
    case _ => p
  }

  function Scan(p: Pos, ts: Tokens): Pos
    decreases ts
  {
    match ts
    case End(mode) => p.(st := p.st.(mode := mode))
    case More(tok, _, rest) => Scan(Take(p, tok), rest)
  }

  /** scan_line: the character before is known from the last line. */
  function ScanLine(st: FState, s: string): Pos {
    Scan(Pos(st.(lastCode := None), Facts("", "", 0, st.lastCode)), Lex(st.mode, s))
  }

  // ----- the level of a line -----

  predicate LabelLine(s: string) {
    var n := WordLength(s);
    && s != "" && IdentStart(s[0]) && n < |s| && s[n] == ':'
    && !AnyWord(s, ["case", "default", "start", "end"])
    && OnlyComment(s[n + 1..])
  }

  predicate OnlyComment(s: string) {
    || s == ""
    || (s[0] == '/' && |s| > 1 && (s[1] == '/' || s[1] == '*'))
    || ((s[0] == ' ' || s[0] == '\t') && OnlyComment(s[1..]))
  }

  predicate AsmLabel(s: string) {
    var i := if |s| > 1 && s[..2] == "@@" then 2 else 0;
    && i < |s| && (if i == 2 then IdentChar(s[i]) else IdentChar(s[0]))
    && i + WordLength(s[i..]) < |s| && s[i + WordLength(s[i..])] == ':'
  }

  predicate AsmLine(st: FState) {
    st.nstk > 0 && Top(st).isAsm
  }

  /** Without the continuation inside parentheses; `start` and `end` are noted. */
  function BaseLevel(st: FState, b: string): (nat, FState) {
    var first := if b == "" then None else Some(b[0]);
    if first == Some('}') then (if st.nstk > 0 then Top(st).outer else 0, st)
    else if AsmLine(st) && (AsmLabel(b) || first == Some('#')) then (Top(st).outer, st)
    else if st.nstk > 0 && Top(st).isSwitch && AnyWord(b, ["case", "default", "start", "end"]) then
      var isCase := AnyWord(b, ["case", "default"]);
      (Top(st).outer + 1 + (if isCase && Top(st).inSub then 1 else 0),
       if WordIs(b, "start") then SetSub(st, true) else if WordIs(b, "end") then SetSub(st, false) else st)
    else if LabelLine(b) then (0, st)
    else
      var add := st.hang + (if st.stmtOpen then 1 else 0) + (if AsmLine(st) && st.asmOpen then 1 else 0);
      (StmtLevel(st) + (if first == Some('{') && add > 0 then add - 1 else add), st)
  }

  function SetSub(st: FState, on: bool): FState
    requires st.nstk > 0
  {
    st.(blocks := st.blocks[st.nstk - 1 := Top(st).(inSub := on)])
  }

  function Level(st: FState, b: string): (nat, FState) {
    var (level, st1) := BaseLevel(st, b);
    if st.paren == 0 then (level, st1) else
    var cont := if b != "" && (b[0] == ')' || b[0] == ']') then st.paren - 1 else st.paren;
    (level + (if cont > 4 then 4 else cont), st1)
  }

  // ----- the brace to move -----

  datatype Search = Search(brace: int, prev: Option<char>, codeAfter: bool)

  /** A token at position i, from the place where the last brace may be. */
  function Look(q: Search, tok: Tok, i: nat): Search {
    match tok
    case Sign('{') => q.(brace := i, codeAfter := false)
    case Sign(c) => CodeSeen(q, c)
    case Word(w) => if w == "" then q else CodeSeen(q, w[|w| - 1])
    case OpenQuote(c) => CodeSeen(q, c)
    case OpenComment => q.(codeAfter := q.codeAfter || q.brace >= 0)
    case _ => q
  }

  function CodeSeen(q: Search, c: char): Search {
    if q.brace >= 0 then q.(codeAfter := true) else q.(prev := Some(c))
  }

  function SearchIn(q: Search, ts: Tokens, i: nat): Search
    decreases ts
  {
    match ts
    case End(_) => q
    case More(tok, len, rest) => SearchIn(Look(q, tok, i), rest, i + len)
  }

  function LastMode(ts: Tokens): Mode {
    match ts
    case End(mode) => mode
    case More(_, _, rest) => LastMode(rest)
  }

  const CONTROL := ["if", "else", "while", "for", "do", "switch", "try", "catch", "lock"]

  predicate ClassLine(s: string) {
    AnyWord(s, ["class", "union"]) || (WordIs(s, "public") && (Contains(s, "class") || Contains(s, "union")))
  }

  predicate Contains(s: string, w: string) {
    |w| <= |s| && (s[..|w|] == w || (s != "" && Contains(s[1..], w)))
  }

  const NOTHING := Search(-1, None, false)

  /** split_pos: where the brace of a header starts; 0 for nowhere. */
  function SplitPos(st: FState, b: string): nat {
    if st.nstk > 0 || st.paren > 0 || st.hang > 0 || st.mode != Code || b == "" || b[0] == '#' || b[0] == '{' then 0
    else if AnyWord(b, CONTROL) then 0
    else
      var ts := Lex(Code, b);
      var q := SearchIn(NOTHING, ts, 0);
      if LastMode(ts) != Code || q.brace <= 0 || q.codeAfter then 0
      else if !ClassLine(b) && q.prev != Some(')') then 0
      else q.brace
  }

  // ----- after a line -----

  const ASM_DATA := ["IMPORT", "DU8", "DU16", "DU32", "DU64", "BINFILE"]

  /** What hangs over to the next line. */
  function Settle(p: Pos, b: string, asmLine: bool): FState {
    var st, f, lc := p.st, p.f, p.st.lastCode;
    if asmLine then
      st.(hang := 0, ctrlOpen := false, stmtOpen := false,
          asmOpen := if (b != "" && b[0] == '}') || lc == Some(';') then false else st.asmOpen || f.first in ASM_DATA)
    else if st.mode != Code || (b != "" && b[0] == '#') then st
    else
      var ctrl := f.first in ["if", "while", "for"];
      if lc in {Some('{'), Some(';'), Some('}'), Some(':')} || (lc == Some(',') && st.nstk > 0 && Top(st).isInit) then
        st.(hang := 0, ctrlOpen := false, stmtOpen := false)
      else if st.paren > 0 then st.(ctrlOpen := st.ctrlOpen || ctrl)
      else if lc == Some(')') && (ctrl || st.ctrlOpen) then st.(hang := st.hang + 1, ctrlOpen := false)
      else if f.last == "else" || f.last == "do" then st.(hang := st.hang + 1)
      else if lc.Some? then st.(stmtOpen := true)
      else st
  }

  function CodeLine(st: FState, b: string, level: nat): FState {
    Settle(ScanLine(st.(cur := level), b), b, AsmLine(st))
  }

  function Verbatim(st: FState, l: string): FState {
    ScanLine(st.(cur := StmtLevel(st)), l).st
  }

  /** The formatter's own scanner. */
  const FMT := Scanner((st: FState) => st.mode != Code, Level, SplitPos, Verbatim, CodeLine)

  // ----- the loops -----

  lemma ScanNext(p: Pos, mode: Mode, s: string)
    requires s != ""
    ensures var n := Next(mode, s); Scan(p, Lex(mode, s)) == Scan(Take(p, n.tok), Lex(n.mode, s[n.len..]))
  {
  }

  lemma SearchNext(q: Search, mode: Mode, s: string, i: nat)
    requires s != ""
    ensures var n := Next(mode, s);
            && SearchIn(q, Lex(mode, s), i) == SearchIn(Look(q, n.tok, i), Lex(n.mode, s[n.len..]), i + n.len)
            && LastMode(Lex(mode, s)) == LastMode(Lex(n.mode, s[n.len..]))
  {
  }

  /** scan_line */
  method ScanTheLine(st: FState, s: string) returns (p: Pos)
    ensures p == ScanLine(st, s)
  {
    var mode, rest := st.mode, s;
    p := Pos(st.(lastCode := None), Facts("", "", 0, st.lastCode));
    while rest != ""
      invariant Scan(p, Lex(mode, rest)) == ScanLine(st, s)
      decreases |rest|
    {
      ScanNext(p, mode, rest);
      var n := Next(mode, rest);
      p, mode, rest := Take(p, n.tok), n.mode, rest[n.len..];
    }
    p := p.(st := p.st.(mode := mode));
  }

  /** The loop of split_pos. */
  method FindBrace(b: string) returns (q: Search, mode: Mode)
    ensures q == SearchIn(NOTHING, Lex(Code, b), 0) && mode == LastMode(Lex(Code, b))
  {
    var rest, i := b, 0;
    q, mode := NOTHING, Code;
    while rest != ""
      invariant i >= 0 && SearchIn(q, Lex(mode, rest), i) == SearchIn(NOTHING, Lex(Code, b), 0)
      invariant LastMode(Lex(mode, rest)) == LastMode(Lex(Code, b))
      decreases |rest|
    {
      SearchNext(q, mode, rest, i);
      var n := Next(mode, rest);
      q, mode, rest, i := Look(q, n.tok, i), n.mode, rest[n.len..], i + n.len;
    }
  }
}
