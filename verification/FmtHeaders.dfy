/** A header whose brace is moved to a line of its own: what the scanner makes of the two
    lines, compared with the one. */
module FmtHeaders {
  import opened Basics
  import opened Formatter
  import opened FmtScanner

  // ----- scanning a line in two parts -----

  /** A token ends after k characters, in code, and none before is a // comment. */
  predicate Boundary(mode: Mode, s: string, k: nat)
    decreases |s|
  {
    if k == 0 then mode == Code else
    s != "" && var n := Next(mode, s); n.tok != Rest && n.len <= k && Boundary(n.mode, s[n.len..], k - n.len)
  }

  lemma BoundaryStep(mode: Mode, s: string, k: nat)
    requires Boundary(mode, s, k) && k > 0
    ensures s != "" && var n := Next(mode, s); n.tok != Rest && n.len <= k && Boundary(n.mode, s[n.len..], k - n.len)
  {
  }

  lemma BoundaryBack(mode: Mode, s: string, k: nat)
    requires s != "" && Next(mode, s).tok != Rest && Next(mode, s).len <= k
    requires Boundary(Next(mode, s).mode, s[Next(mode, s).len..], k - Next(mode, s).len)
    ensures Boundary(mode, s, k)
  {
  }

  /** A // comment takes the rest of the line. */
  lemma NotRest(mode: Mode, s: string, k: nat)
    requires s != "" && Next(mode, s).len <= k < |s|
    ensures Next(mode, s).tok != Rest
  {
  }

  /** What may stand behind such a place without joining the token before. */
  predicate Apart(t: string) {
    t == "" || t[0] == ' ' || t[0] == '\t' || t[0] == '{'
  }

  lemma WordPrefix(h: string, t: string)
    requires h != "" && Apart(t)
    ensures WordLength(h + t) == WordLength(h) && (h + t)[..WordLength(h)] == h[..WordLength(h)]
    decreases |h|
  {
    assert (h + t)[0] == h[0] && (h + t)[1..] == h[1..] + t;
    if IdentChar(h[0]) {
      if |h| > 1 { WordPrefix(h[1..], t); } else { assert h[1..] + t == t; }
    }
  }

  lemma NextPrefix(mode: Mode, h: string, t: string)
    requires h != "" && Apart(t) && Next(mode, h).tok != Rest && Boundary(mode, h, |h|)
    ensures Next(mode, h + t) == Next(mode, h)
  {
    WordPrefix(h, t);
    assert (h + t)[0] == h[0] && (|h| > 1 ==> (h + t)[1] == h[1]);
    if |h| == 1 {
      assert (h + t)[1..] == t;
      assert h[1..] == "" && Next(mode, h).mode == Code;
    }
  }

  function Join2(a: Tokens, b: Tokens): Tokens {
    match a
    case End(_) => b
    case More(tok, len, rest) => More(tok, len, Join2(rest, b))
  }

  lemma {:induction false} LexParts(mode: Mode, h: string, t: string)
    requires Boundary(mode, h, |h|) && Apart(t)
    ensures Lex(mode, h + t) == Join2(Lex(mode, h), Lex(Code, t)) && LastMode(Lex(mode, h)) == Code
    decreases |h|
  {
    if h == "" {
      assert h + t == t;
    } else {
      NextPrefix(mode, h, t);
      var n := Next(mode, h);
      assert (h + t)[n.len..] == h[n.len..] + t;
      LexParts(n.mode, h[n.len..], t);
    }
  }

  lemma {:induction false} ScanJoin(p: Pos, a: Tokens, b: Tokens)
    requires p.st.mode == LastMode(a)
    ensures Scan(p, Join2(a, b)) == Scan(Scan(p, a), b)
    decreases a
  {
    if a.More? {
      TakeMode(p, a.tok);
      ScanJoin(Take(p, a.tok), a.rest, b);
    }
  }

  lemma TakeMode(p: Pos, tok: Tok)
    ensures Take(p, tok).st.mode == p.st.mode
  {
  }

  lemma {:induction false} SearchJoin(q: Search, a: Tokens, b: Tokens, i: nat)
    ensures SearchIn(q, Join2(a, b), i) == SearchIn(SearchIn(q, a, i), b, i + Length(a))
    decreases a
  {
    if a.More? { SearchJoin(Look(q, a.tok, i), a.rest, b, i + a.len); }
  }

  function Length(ts: Tokens): nat {
    if ts.End? then 0 else ts.len + Length(ts.rest)
  }

  lemma {:induction false} LexLength(mode: Mode, s: string)
    ensures Length(Lex(mode, s)) == |s|
    decreases |s|
  {
    if s != "" {
      var n := Next(mode, s);
      LexLength(n.mode, s[n.len..]);
    }
  }

  lemma NextCut(mode: Mode, h: string, t: string)
    requires h != "" && Apart(t) && Next(mode, h + t).tok != Rest && Next(mode, h + t).len <= |h|
    requires Next(mode, h + t).len == |h| ==> Next(mode, h + t).mode == Code
    ensures Next(mode, h) == Next(mode, h + t)
  {
    WordPrefix(h, t);
    assert (h + t)[0] == h[0] && (|h| > 1 ==> (h + t)[1] == h[1]);
    if |h| == 1 { assert (h + t)[1..] == t; }
  }

  lemma SliceConcat(h: string, t: string, n: nat)
    requires n <= |h|
    ensures (h + t)[n..] == h[n..] + t
  {
  }

  lemma BoundaryEnds(mode: Mode, s: string)
    requires Boundary(mode, s, 0)
    ensures mode == Code
  {
  }

  /** A boundary is one of the text before it as well. */
  lemma {:induction false} BoundaryCut(mode: Mode, h: string, t: string)
    requires Boundary(mode, h + t, |h|) && Apart(t)
    ensures Boundary(mode, h, |h|)
    decreases |h|
  {
    if h != "" {
      var n := Next(mode, h + t);
      BoundaryStep(mode, h + t, |h|);
      SliceConcat(h, t, n.len);
      if n.len == |h| { BoundaryEnds(n.mode, (h + t)[n.len..]); }
      NextCut(mode, h, t);
      BoundaryCut(n.mode, h[n.len..], t);
      BoundaryBack(mode, h, |h|);
    }
  }

  /** Blanks at the end change nothing. */
  lemma {:induction false} BlankEnd(mode: Mode, h: string, c: char)
    requires Boundary(mode, h + [c], |h| + 1) && (c == ' ' || c == '\t')
    ensures Boundary(mode, h, |h|)
    decreases |h|
  {
    var s := h + [c];
    BoundaryStep(mode, s, |s|);
    var n := Next(mode, s);
    if h == "" {
      OneBlank(mode, s);
    } else if n.len == |s| {
      BoundaryEnds(n.mode, s[n.len..]);
      LastBlank(mode, s);
      assert false;
    } else {
      NextCut2(mode, h, c);
      assert s[n.len..] == h[n.len..] + [c];
      BlankEnd(n.mode, h[n.len..], c);
      BoundaryBack(mode, h, |h|);
    }
  }

  lemma OneBlank(mode: Mode, s: string)
    requires |s| == 1 && (s[0] == ' ' || s[0] == '\t') && Boundary(mode, s, 1)
    ensures mode == Code
  {
    assert s[1..] == "" && Next(mode, s).mode == Code;
  }

  /** No longer token ends with a blank in code. */
  lemma LastBlank(mode: Mode, s: string)
    requires |s| > 1 && (s[|s| - 1] == ' ' || s[|s| - 1] == '\t') && Next(mode, s).len == |s|
             && Next(mode, s).tok != Rest
    ensures Next(mode, s).mode != Code
  {
    WordStops(s);
  }

  lemma WordStops(s: string)
    requires s != "" && !IdentChar(s[|s| - 1])
    ensures WordLength(s) < |s|
  {
  }

  lemma NextCut2(mode: Mode, h: string, c: char)
    requires h != "" && (c == ' ' || c == '\t') && Next(mode, h + [c]).tok != Rest && Next(mode, h + [c]).len <= |h|
    requires Boundary(mode, h + [c], |h| + 1)
    ensures Next(mode, h) == Next(mode, h + [c])
  {
    WordPrefix(h, [c]);
    assert (h + [c])[0] == h[0] && (|h| > 1 ==> (h + [c])[1] == h[1]);
    if |h| == 1 {
      assert (h + [c])[1..] == [c];
      assert [c][1..] == "";
    }
  }

  /** Blanks are tokens without effect. */
  lemma {:induction false} ScanBlanks(p: Pos, n: nat, t: string)
    ensures Scan(p, Lex(Code, Indent(n) + t)) == Scan(p, Lex(Code, t))
    decreases n
  {
    if n == 0 {
      assert Indent(0) + t == t;
    } else {
      var s := Indent(n) + t;
      assert s[0] == ' ' && s[1..] == Indent(n - 1) + t;
      assert Next(Code, s) == Piece(White, 1, Code);
      ScanBlanks(p, n - 1, t);
    }
  }

  // ----- what the search for the brace found -----

  /** The last brace only moves on. */
  lemma {:induction false} BraceGrows(q: Search, ts: Tokens, i: nat)
    requires q.brace < i
    ensures var r := SearchIn(q, ts, i);
            && (r.brace == q.brace || r.brace >= i)
            && (q.codeAfter && r.brace == q.brace ==> r.codeAfter) && (q.brace >= 0 ==> r.prev == q.prev)
    decreases ts
  {
    if ts.More? { BraceGrows(Look(q, ts.tok, i), ts.rest, i + ts.len); }
  }

  /** The brace that is found stands where a token starts, in code. */
  lemma {:induction false} BraceBoundary(q: Search, mode: Mode, s: string, i: nat)
    requires q.brace < i
    ensures var r := SearchIn(q, Lex(mode, s), i).brace;
            r >= i ==> r - i < |s| && s[r - i] == '{' && Boundary(mode, s, r - i)
    decreases |s|
  {
    if s != "" {
      var n := Next(mode, s);
      var q1, rest := Look(q, n.tok, i), Lex(n.mode, s[n.len..]);
      BraceGrows(q1, rest, i + n.len);
      BraceBoundary(q1, n.mode, s[n.len..], i + n.len);
      var r := SearchIn(q1, rest, i + n.len).brace;
      if r == i { SignBrace(mode, s); } else if r >= i { NotRest(mode, s, r - i); BoundaryBack(mode, s, r - i); }
    }
  }

  lemma SignBrace(mode: Mode, s: string)
    requires s != "" && Next(mode, s).tok == Sign('{')
    ensures mode == Code && s[0] == '{'
  {
  }

  /** Without code behind the brace nothing behind it has an effect. */
  lemma {:induction false} Quiet(p: Pos, q: Search, s: string, i: nat)
    requires p.st.mode == Code && 0 <= q.brace < i && !q.codeAfter
    requires var r := SearchIn(q, Lex(Code, s), i); r.brace == q.brace && !r.codeAfter
    ensures Scan(p, Lex(Code, s)) == p
    decreases |s|
  {
    if s != "" {
      var n := Next(Code, s);
      var q1, rest := Look(q, n.tok, i), Lex(n.mode, s[n.len..]);
      BraceGrows(q1, rest, i + n.len);
      SeenAfter(q, n.tok, i);
      Quiet(p, q1, s[n.len..], i + n.len);
    }
  }

  lemma SeenAfter(q: Search, tok: Tok, i: nat)
    requires 0 <= q.brace < i && Look(q, tok, i).brace == q.brace && !Look(q, tok, i).codeAfter && !q.codeAfter
    ensures Look(q, tok, i) == q && !tok.Sign? && !tok.OpenQuote? && !tok.OpenComment? && (tok.Word? ==> tok.w == "")
  {
  }

  /** A brace with no code behind it leaves a block open. */
  lemma {:induction false} OpenAtEnd(p: Pos, q: Search, ts: Tokens, i: nat)
    requires InCode(ts) && (q.brace >= 0 && !q.codeAfter ==> p.st.nstk > 0)
    ensures var r := SearchIn(q, ts, i); r.brace >= 0 && !r.codeAfter ==> Scan(p, ts).st.nstk > 0
    decreases ts
  {
    if ts.More? {
      TakeOpen(p, q, ts.tok, i);
      OpenAtEnd(Take(p, ts.tok), Look(q, ts.tok, i), ts.rest, i + ts.len);
    }
  }

  predicate InCode(ts: Tokens) {
    ts.End? || (ts.tok != Word("") && InCode(ts.rest))
  }

  lemma TakeOpen(p: Pos, q: Search, tok: Tok, i: nat)
    requires tok != Word("") && (q.brace >= 0 && !q.codeAfter ==> p.st.nstk > 0)
    ensures var q1 := Look(q, tok, i); q1.brace >= 0 && !q1.codeAfter ==> Take(p, tok).st.nstk > 0
  {
  }

  /** Code that the search saw is the last code of the scan. */
  lemma {:induction false} CodeKnown(p: Pos, q: Search, ts: Tokens, i: nat)
    requires q.prev.Some? || q.brace >= 0 ==> p.st.lastCode.Some?
    ensures var r := SearchIn(q, ts, i); r.prev.Some? || r.brace >= 0 ==> Scan(p, ts).st.lastCode.Some?
    decreases ts
  {
    if ts.More? {
      TakeCode(p, q, ts.tok, i);
      CodeKnown(Take(p, ts.tok), Look(q, ts.tok, i), ts.rest, i + ts.len);
    }
  }

  lemma TakeCode(p: Pos, q: Search, tok: Tok, i: nat)
    requires q.prev.Some? || q.brace >= 0 ==> p.st.lastCode.Some?
    ensures var q1 := Look(q, tok, i); q1.prev.Some? || q1.brace >= 0 ==> Take(p, tok).st.lastCode.Some?
  {
  }

  // ----- the header and its brace -----

  function Header(b: string, sp: nat): string
    requires sp <= |b|
  {
    StripBack(b[..sp], false)
  }

  lemma {:induction false} StripBackHead(s: string, cr: bool)
    requires s != "" && !Blank(s[0], cr)
    ensures StripBack(s, cr) != "" && StripBack(s, cr)[0] == s[0]
  {
    if |s| > 1 && Blank(s[|s| - 1], cr) { StripBackHead(s[..|s| - 1], cr); }
  }

  lemma {:induction false} HeaderBoundary(s: string)
    requires Boundary(Code, s, |s|)
    ensures Boundary(Code, StripBack(s, false), |StripBack(s, false)|)
    decreases |s|
  {
    if s != "" && Blank(s[|s| - 1], false) {
      var t := s[..|s| - 1];
      assert s == t + [s[|s| - 1]];
      BlankEnd(Code, t, s[|s| - 1]);
      HeaderBoundary(t);
    }
  }

  lemma SearchParts(h: string, t: string)
    requires Boundary(Code, h, |h|) && Apart(t)
    ensures SearchIn(NOTHING, Lex(Code, h + t), 0) == SearchIn(SearchIn(NOTHING, Lex(Code, h), 0), Lex(Code, t), |h|)
  {
    LexParts(Code, h, t);
    LexLength(Code, h);
    SearchJoin(NOTHING, Lex(Code, h), Lex(Code, t), 0);
  }

  lemma FoundAt(b: string, sp: nat)
    requires SearchIn(NOTHING, Lex(Code, b), 0).brace == sp
    ensures sp < |b| && b[sp] == '{' && Boundary(Code, b[..sp], sp)
  {
    BraceBoundary(NOTHING, Code, b, 0);
    CutAt(b, sp);
  }

  lemma CutAt(b: string, sp: nat)
    requires sp < |b| && b[sp] == '{' && Boundary(Code, b, sp)
    ensures Boundary(Code, b[..sp], sp)
  {
    assert b == b[..sp] + b[sp..];
    BoundaryCut(Code, b[..sp], b[sp..]);
  }

  /** What the search knows in front of the brace it finds. */
  lemma SearchBefore(b: string, sp: nat)
    requires SearchIn(NOTHING, Lex(Code, b), 0).brace == sp
    ensures sp < |b| && b[sp] == '{' && Boundary(Code, b[..sp], sp)
    ensures SearchIn(NOTHING, Lex(Code, b), 0)
            == SearchIn(SearchIn(NOTHING, Lex(Code, b[..sp]), 0), Lex(Code, b[sp..]), sp)
  {
    FoundAt(b, sp);
    SearchParts(b[..sp], b[sp..]);
    assert b == b[..sp] + b[sp..];
  }

  ghost predicate Splits(st: FState, b: string, sp: nat) {
    sp == SplitPos(st, b) && 0 < sp < |b| && b[sp] == '{' && b[0] != ' ' && b[0] != '\t'
  }

  /** Where a brace is split off nothing is open, and the line is code up to it. */
  lemma SplitFacts(st: FState, b: string)
    requires SplitPos(st, b) > 0 && b != "" && !Space(b[0])
    ensures Splits(st, b, SplitPos(st, b)) && st.nstk == 0 && st.paren == 0 && st.hang == 0 && st.mode == Code
    ensures var h := Header(b, SplitPos(st, b)); h != "" && h[0] == b[0] && Boundary(Code, h, |h|)
  {
    var sp := SplitPos(st, b);
    FoundAt(b, sp);
    HeaderBoundary(b[..sp]);
    StripBackHead(b[..sp], false);
  }

  /** From the brace on only the brace itself has an effect. */
  lemma BraceOnly(st: FState, b: string, sp: nat, p: Pos)
    requires Splits(st, b, sp) && p.st.mode == Code
    ensures Scan(p, Lex(Code, b[sp..])) == Take(p, Sign('{'))
  {
    SearchBefore(b, sp);
    BraceQuiet(p, SearchIn(NOTHING, Lex(Code, b[..sp]), 0), b[sp..], sp);
  }

  lemma BraceQuiet(p: Pos, q: Search, s: string, i: nat)
    requires p.st.mode == Code && s != "" && s[0] == '{'
    requires var r := SearchIn(q, Lex(Code, s), i); r.brace == i && !r.codeAfter
    ensures Scan(p, Lex(Code, s)) == Take(p, Sign('{'))
  {
    assert Next(Code, s) == Piece(Sign('{'), 1, Code);
    TakeMode(p, Sign('{'));
    Quiet(Take(p, Sign('{')), Look(q, Sign('{'), i), s[1..], i + 1);
  }

  /** The line, with the blanks before the brace as spaces, scanned in two parts. */
  lemma HeaderThenBrace(st: FState, b: string, sp: nat, p: Pos, k: nat)
    requires Splits(st, b, sp) && p.st.mode == Code && Boundary(Code, Header(b, sp), |Header(b, sp)|)
    ensures var h := Lex(Code, Header(b, sp));
            && Scan(p, h).st.mode == Code
            && Scan(p, Lex(Code, Header(b, sp) + Indent(k) + b[sp..])) == Take(Scan(p, h), Sign('{'))
  {
    var h, t := Header(b, sp), Indent(k) + b[sp..];
    assert h + Indent(k) + b[sp..] == h + t;
    assert Apart(t) by { if k > 0 { assert t[0] == ' '; } else { assert t == b[sp..]; } }
    LexParts(Code, h, t);
    ScanJoin(p, Lex(Code, h), Lex(Code, t));
    ScanEnd(p, Lex(Code, h));
    ScanBlanks(Scan(p, Lex(Code, h)), k, b[sp..]);
    BraceOnly(st, b, sp, Scan(p, Lex(Code, h)));
  }

  lemma {:induction false} ScanEnd(p: Pos, ts: Tokens)
    ensures Scan(p, ts).st.mode == LastMode(ts)
    decreases ts
  {
    if ts.More? { ScanEnd(Take(p, ts.tok), ts.rest); }
  }

  /** Blanks up to a brace. */
  predicate BlanksThenBrace(t: string) {
    t != "" && (t[0] == '{' || ((t[0] == ' ' || t[0] == '\t') && BlanksThenBrace(t[1..])))
  }

  lemma {:induction false} HeaderRest(s: string, t: string)
    requires BlanksThenBrace(t)
    ensures BlanksThenBrace((s + t)[|StripBack(s, false)|..])
    decreases |s|
  {
    if s != "" && Blank(s[|s| - 1], false) {
      var s1, t1 := s[..|s| - 1], [s[|s| - 1]] + t;
      assert t1[1..] == t && s + t == s1 + t1;
      HeaderRest(s1, t1);
    } else {
      assert (s + t)[|s|..] == t;
    }
  }

  lemma {:induction false} NoCodeBefore(q: Search, t: string, i: nat)
    requires q.prev.None? && q.brace < 0 && BlanksThenBrace(t)
    ensures SearchIn(q, Lex(Code, t), i).prev.None?
    decreases |t|
  {
    if t[0] == '{' {
      assert Next(Code, t) == Piece(Sign('{'), 1, Code);
      BraceGrows(Look(q, Sign('{'), i), Lex(Code, t[1..]), i + 1);
    } else {
      assert Next(Code, t) == Piece(White, 1, Code);
      NoCodeBefore(q, t[1..], i + 1);
    }
  }

  /** The code in front of the brace is in the header. */
  lemma CodeInHeader(b: string, h: string, sp: nat)
    requires sp < |b| && b[sp] == '{' && h == Header(b, sp) && Boundary(Code, h, |h|)
    requires SearchIn(NOTHING, Lex(Code, b), 0).prev.Some?
    ensures var q := SearchIn(NOTHING, Lex(Code, h), 0); q.prev.Some? || q.brace >= 0
  {
    var t := b[|h|..];
    assert b == b[..sp] + b[sp..] && b == h + t;
    HeaderRest(b[..sp], b[sp..]);
    SearchParts(h, t);
    NoneBefore(SearchIn(NOTHING, Lex(Code, h), 0), t, |h|);
  }

  lemma NoneBefore(q: Search, t: string, i: nat)
    requires SearchIn(q, Lex(Code, t), i).prev.Some? && BlanksThenBrace(t)
    ensures q.prev.Some? || q.brace >= 0
  {
    if q.prev.None? && q.brace < 0 { NoCodeBefore(q, t, i); }
  }

  /** A header holds code. */
  lemma HeaderHasCode(st: FState, b: string, p: Pos)
    requires SplitPos(st, b) > 0 && b != "" && !Space(b[0])
    ensures Splits(st, b, SplitPos(st, b)) && Scan(p, Lex(Code, Header(b, SplitPos(st, b)))).st.lastCode.Some?
  {
    var sp := SplitPos(st, b);
    SplitFacts(st, b);
    if IdentStart(b[0]) {
      WordKnown(p, Header(b, sp));
    } else {
      NotClass(b);
      CodeInHeader(b, Header(b, sp), sp);
      CodeKnown(p, NOTHING, Lex(Code, Header(b, sp)), 0);
    }
  }

  lemma WordKnown(p: Pos, h: string)
    requires h != "" && IdentStart(h[0])
    ensures Scan(p, Lex(Code, h)).st.lastCode.Some?
  {
    var n := Next(Code, h);
    assert n.tok.Word? && n.tok.w != "";
    CodeKnown(Take(p, n.tok), NOTHING.(brace := 0), Lex(n.mode, h[n.len..]), 1);
    BraceGrows(NOTHING.(brace := 0), Lex(n.mode, h[n.len..]), 1);
  }

  lemma NotClass(b: string)
    requires b != "" && !IdentStart(b[0])
    ensures !ClassLine(b)
  {
    assert !WordIs(b, "class") && !WordIs(b, "union") && !WordIs(b, "public");
  }
}
