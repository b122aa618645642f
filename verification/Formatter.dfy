/** src/fmt.c: lines are indented anew.  What it promises holds for every scanner that
    follows strings, comments and blocks, so the scanner is a parameter. */
module Formatter {

  type Line = s: string | '\n' !in s

  /** The scan state: whether a string or comment is still open; the level of a line, which
      may change the state; where to split off a brace, 0 for nowhere; the state after a
      line inside a literal, and after a line of code. */
  datatype Scanner<!S> = Scanner(literal: S -> bool, level: (S, string) -> (nat, S), split: (S, string) -> nat,
                                verbatim: (S, string) -> S, code: (S, string, nat) -> S)

  predicate Space(c: char) {
    c == ' ' || c == '\t' || c == '\n' || c == '\r'
  }

  // ----- lines -----

  /** The lines of a text; a last newline ends the last line. */
  function Lines(src: string): (r: seq<Line>)
    decreases |src|
  {
    if src == "" then [] else
    var n := LineEnd(src);
    [src[..n]] + Lines(if n < |src| then src[n + 1..] else "")
  }

  function LineEnd(src: string): (n: nat)
    ensures n <= |src| && '\n' !in src[..n] && (n < |src| ==> src[n] == '\n')
  {
    if src == "" || src[0] == '\n' then 0 else
    assert src[..1 + LineEnd(src[1..])] == [src[0]] + src[1..][..LineEnd(src[1..])];
    1 + LineEnd(src[1..])
  }

  function Join(ls: seq<string>): string {
    if ls == [] then "" else ls[0] + "\n" + Join(ls[1..])
  }

  lemma {:induction false} LinesOfJoin(ls: seq<Line>)
    ensures Lines(Join(ls)) == ls
    decreases |ls|
  {
    if ls != [] {
      var src := Join(ls);
      assert src[|ls[0]|] == '\n' && src[..|ls[0]|] == ls[0] && src[|ls[0]| + 1..] == Join(ls[1..]);
      LineEndIs(src, |ls[0]|);
      LinesOfJoin(ls[1..]);
    }
  }

  lemma {:induction false} LineEndIs(src: string, n: nat)
    requires n < |src| && src[n] == '\n' && '\n' !in src[..n]
    ensures LineEnd(src) == n
  {
    if n > 0 {
      assert src[0] == src[..n][0];
      assert src[..n][1..] == src[1..][..n - 1];
      LineEndIs(src[1..], n - 1);
    }
  }

  // ----- stripping -----

  function StripFront(s: string): (r: string)
    ensures |r| <= |s| && (r != "" ==> !Space(r[0])) && (forall c | c in r :: c in s)
  {
    if s != "" && Space(s[0]) then StripFront(s[1..]) else s
  }

  /** Without blanks at the end, and without carriage returns if they count as blanks. */
  function StripBack(s: string, cr: bool): (r: string)
    ensures |r| <= |s| && r == s[..|r|] && (r != "" ==> !Blank(r[|r| - 1], cr))
  {
    if s != "" && Blank(s[|s| - 1], cr) then StripBack(s[..|s| - 1], cr) else s
  }

  predicate Blank(c: char, cr: bool) {
    c == ' ' || c == '\t' || (cr && c == '\r')
  }

  function Strip(s: Line): (r: Line)
    ensures r != "" ==> !Space(r[0]) && !Blank(r[|r| - 1], true)
  {
    assert forall c | c in StripBack(StripFront(s), true) :: c in StripFront(s);
    StripBack(StripFront(s), true)
  }

  function Indent(n: nat): (r: Line)
    ensures |r| == n && forall i | 0 <= i < n :: r[i] == ' '
  {
    seq(n, _ => ' ')
  }

  lemma {:induction false} StripIndented(n: nat, b: Line)
    requires b != "" && !Space(b[0]) && !Blank(b[|b| - 1], true)
    ensures Strip(Indent(n) + b) == b
    decreases n
  {
    if n > 0 {
      assert (Indent(n) + b)[1..] == Indent(n - 1) + b;
      StripIndented(n - 1, b);
      assert StripFront(Indent(n) + b) == StripFront(Indent(n - 1) + b);
    } else {
      assert Indent(0) + b == b;
    }
  }

  // ----- formatting -----

  function Columns(level: nat, unit: nat): nat {
    level * unit
  }

  /** The lines written for one line of code. */
  function Written<S>(sc: Scanner<S>, unit: nat, braces: bool, s: S, b: Line): (r: seq<Line>)
  {
    var (level, s1) := sc.level(s, b);
    var sp := if braces then sc.split(s1, b) else 0;
    if 0 < sp < |b| then
      var head := StripBack(b[..sp], false);
      [Indent(Columns(level, unit)) + head, Indent(Columns(level, unit)) + b[sp..]]
    else [Indent(Columns(level, unit)) + b]
  }

  /** The state after it; blanks before a brace that was split off are spaces by then. */
  function Scanned<S>(sc: Scanner<S>, braces: bool, s: S, b: Line): S {
    var (level, s1) := sc.level(s, b);
    var sp := if braces then sc.split(s1, b) else 0;
    if 0 < sp < |b| then
      var head := StripBack(b[..sp], false);
      sc.code(s1, head + Indent(sp - |head|) + b[sp..], level)
    else sc.code(s1, b, level)
  }

  function Empty(n: nat): (r: seq<Line>)
    ensures |r| == n && forall i | 0 <= i < n :: r[i] == ""
  {
    seq(n, _ => "")
  }

  /** The output lines from a state on, with blank lines pending; blank lines at the start
      and at the end are dropped. */
  function Format<S>(sc: Scanner<S>, unit: nat, braces: bool, s: S, pending: nat, wrote: bool, ls: seq<Line>): seq<Line>
    decreases |ls|
  {
    if ls == [] then [] else
    var l, rest := ls[0], ls[1..];
    if sc.literal(s) then Empty(pending) + [l] + Format(sc, unit, braces, sc.verbatim(s, l), 0, true, rest)
    else
      var b := Strip(l);
      if b == "" then Format(sc, unit, braces, s, if wrote then pending + 1 else pending, wrote, rest)
      else Empty(pending) + Written(sc, unit, braces, s, b) + Format(sc, unit, braces, Scanned(sc, braces, s, b), 0,
                                                                     true, rest)
  }

  function Fmt<S>(sc: Scanner<S>, unit: nat, braces: bool, start: S, src: string): string {
    Join(Format(sc, unit, braces, start, 0, false, Lines(src)))
  }

  // ----- nothing but whitespace changes -----

  function Squeeze(s: string): string {
    if s == "" then "" else (if Space(s[0]) then "" else [s[0]]) + Squeeze(s[1..])
  }

  lemma {:induction false} SqueezeConcat(a: string, b: string)
    ensures Squeeze(a + b) == Squeeze(a) + Squeeze(b)
    decreases |a|
  {
    if a == "" {
      assert a + b == b;
    } else {
      assert (a + b)[1..] == a[1..] + b;
      SqueezeConcat(a[1..], b);
    }
  }

  lemma {:induction false} SqueezeFront(s: string)
    ensures Squeeze(StripFront(s)) == Squeeze(s)
  {
    if s != "" && Space(s[0]) { SqueezeFront(s[1..]); }
  }

  lemma {:induction false} SqueezeBack(s: string, cr: bool)
    ensures Squeeze(StripBack(s, cr)) == Squeeze(s)
  {
    if s != "" && Blank(s[|s| - 1], cr) {
      var t := s[..|s| - 1];
      SqueezeBack(t, cr);
      assert s == t + [s[|s| - 1]];
      SqueezeConcat(t, [s[|s| - 1]]);
      assert Squeeze([s[|s| - 1]]) == "";
    }
  }

  lemma {:induction false} SqueezeIndent(n: nat)
    ensures Squeeze(Indent(n)) == ""
    decreases n
  {
    if n > 0 {
      assert Indent(n)[1..] == Indent(n - 1);
      SqueezeIndent(n - 1);
    }
  }

  function SqueezeAll(ls: seq<string>): string {
    if ls == [] then "" else Squeeze(ls[0]) + SqueezeAll(ls[1..])
  }

  lemma {:induction false} SqueezeAllConcat(a: seq<string>, b: seq<string>)
    ensures SqueezeAll(a + b) == SqueezeAll(a) + SqueezeAll(b)
    decreases |a|
  {
    if a == [] {
      assert a + b == b;
    } else {
      assert (a + b)[1..] == a[1..] + b;
      SqueezeAllConcat(a[1..], b);
    }
  }

  lemma {:induction false} SqueezeEmpty(n: nat)
    ensures SqueezeAll(Empty(n)) == ""
    decreases n
  {
    if n > 0 {
      assert Empty(n)[1..] == Empty(n - 1);
      SqueezeEmpty(n - 1);
    }
  }

  lemma {:induction false} SqueezeJoin(ls: seq<string>)
    ensures Squeeze(Join(ls)) == SqueezeAll(ls)
    decreases |ls|
  {
    if ls != [] {
      SqueezeJoin(ls[1..]);
      SqueezeConcat(ls[0] + "\n", Join(ls[1..]));
      SqueezeConcat(ls[0], "\n");
      assert Squeeze("\n") == "";
    }
  }

  lemma {:induction false} SqueezeLines(src: string)
    ensures SqueezeAll(Lines(src)) == Squeeze(src)
    decreases |src|
  {
    if src != "" {
      var n := LineEnd(src);
      var rest := if n < |src| then src[n + 1..] else "";
      SqueezeLines(rest);
      SqueezeFirst(src, n, rest);
    }
  }

  lemma SqueezeFirst(src: string, n: nat, rest: string)
    requires n <= |src| && (n < |src| ==> src[n] == '\n') && rest == if n < |src| then src[n + 1..] else ""
    ensures Squeeze(src) == Squeeze(src[..n]) + Squeeze(rest)
  {
    assert src == src[..n] + src[n..];
    SqueezeConcat(src[..n], src[n..]);
    if n < |src| { assert src[n..][1..] == rest; }
  }

  lemma SqueezeWritten<S>(sc: Scanner<S>, unit: nat, braces: bool, s: S, b: Line)
    ensures SqueezeAll(Written(sc, unit, braces, s, b)) == Squeeze(b)
  {
    var (level, s1) := sc.level(s, b);
    var sp := if braces then sc.split(s1, b) else 0;
    if 0 < sp < |b| {
      SqueezeSplit(Indent(Columns(level, unit)), b, sp);
    }
    SqueezeIndent(Columns(level, unit));
    SqueezeConcat(Indent(Columns(level, unit)), b);
    SqueezeOne(Indent(Columns(level, unit)) + b);
  }

  lemma SqueezeOne(l: string)
    ensures SqueezeAll([l]) == Squeeze(l)
  {
    assert [l][1..] == [];
  }

  lemma SqueezeSplit(ind: Line, b: Line, sp: nat)
    requires ind == Indent(|ind|) && sp <= |b|
    ensures SqueezeAll([ind + StripBack(b[..sp], false), ind + b[sp..]]) == Squeeze(b)
  {
    var h, c := StripBack(b[..sp], false), b[sp..];
    Indented(ind, h);
    Indented(ind, c);
    SqueezeTwo(ind + h, ind + c);
    SqueezeHeader(b, sp);
  }

  lemma SqueezeHeader(b: string, sp: nat)
    requires sp <= |b|
    ensures Squeeze(StripBack(b[..sp], false)) + Squeeze(b[sp..]) == Squeeze(b)
  {
    SqueezeBack(b[..sp], false);
    SqueezeCut(b, sp);
  }

  lemma SqueezeCut(b: string, sp: nat)
    requires sp <= |b|
    ensures Squeeze(b[..sp]) + Squeeze(b[sp..]) == Squeeze(b)
  {
    var h, c := b[..sp], b[sp..];
    assert b == h + c;
    SqueezeConcat(h, c);
  }

  lemma Indented(ind: Line, x: string)
    requires ind == Indent(|ind|)
    ensures Squeeze(ind + x) == Squeeze(x)
  {
    SqueezeIndent(|ind|);
    SqueezeConcat(ind, x);
  }

  lemma SqueezeTwo(x: string, y: string)
    ensures SqueezeAll([x, y]) == Squeeze(x) + Squeeze(y)
  {
    assert [x, y][1..] == [y];
    SqueezeOne(y);
  }

  lemma {:induction false} SqueezeFormat<S>(sc: Scanner<S>, unit: nat, braces: bool, s: S, pending: nat, wrote: bool,
                                            ls: seq<Line>)
    ensures SqueezeAll(Format(sc, unit, braces, s, pending, wrote, ls)) == SqueezeAll(ls)
    decreases |ls|
  {
    if ls != [] {
      var l, rest := ls[0], ls[1..];
      SqueezeEmpty(pending);
      if sc.literal(s) {
        var more := Format(sc, unit, braces, sc.verbatim(s, l), 0, true, rest);
        SqueezeFormat(sc, unit, braces, sc.verbatim(s, l), 0, true, rest);
        Pieces(pending, [l], more);
        assert [l][1..] == [];
      } else {
        var b := Strip(l);
        SqueezeFront(l);
        SqueezeBack(StripFront(l), true);
        if b == "" {
          SqueezeFormat(sc, unit, braces, s, if wrote then pending + 1 else pending, wrote, rest);
        } else {
          var more := Format(sc, unit, braces, Scanned(sc, braces, s, b), 0, true, rest);
          SqueezeFormat(sc, unit, braces, Scanned(sc, braces, s, b), 0, true, rest);
          SqueezeWritten(sc, unit, braces, s, b);
          Pieces(pending, Written(sc, unit, braces, s, b), more);
        }
      }
    }
  }

  lemma Pieces(n: nat, a: seq<Line>, b: seq<Line>)
    ensures SqueezeAll(Empty(n) + a + b) == SqueezeAll(a) + SqueezeAll(b)
  {
    SqueezeEmpty(n);
    SqueezeThree(Empty(n), a, b);
  }

  lemma SqueezeThree(x: seq<string>, y: seq<string>, z: seq<string>)
    ensures SqueezeAll(x + y + z) == SqueezeAll(x) + SqueezeAll(y) + SqueezeAll(z)
  {
    SqueezeAllConcat(x + y, z);
    SqueezeAllConcat(x, y);
  }

  /** For every input, scanner and option only whitespace changes. */
  lemma FmtKeepsText<S>(sc: Scanner<S>, unit: nat, braces: bool, start: S, src: string)
    ensures Squeeze(Fmt(sc, unit, braces, start, src)) == Squeeze(src)
  {
    SqueezeJoin(Format(sc, unit, braces, start, 0, false, Lines(src)));
    SqueezeFormat(sc, unit, braces, start, 0, false, Lines(src));
    SqueezeLines(src);
  }

  // ----- formatting twice -----

  /** Blank lines become pending ones. */
  lemma {:induction false} Pending<S>(sc: Scanner<S>, unit: nat, braces: bool, s: S, n: nat, pending: nat,
                                      ls: seq<Line>)
    requires !sc.literal(s)
    ensures Format(sc, unit, braces, s, pending, true, Empty(n) + ls)
            == Format(sc, unit, braces, s, pending + n, true, ls)
    decreases n
  {
    if n == 0 {
      assert Empty(0) + ls == ls;
    } else {
      assert (Empty(n) + ls)[1..] == Empty(n - 1) + ls;
      assert Strip("") == "";
      Pending(sc, unit, braces, s, n - 1, pending + 1, ls);
    }
  }

  lemma {:induction false} FormatTwice<S>(sc: Scanner<S>, unit: nat, s: S, pending: nat, wrote: bool, ls: seq<Line>)
    requires pending > 0 ==> wrote && !sc.literal(s)
    ensures var out := Format(sc, unit, false, s, pending, wrote, ls); Format(sc, unit, false, s, 0, wrote, out) == out
    decreases |ls|
  {
    if ls != [] {
      var l, rest := ls[0], ls[1..];
      if sc.literal(s) {
        FormatTwice(sc, unit, sc.verbatim(s, l), 0, true, rest);
        LiteralTwice(sc, unit, s, wrote, l, Format(sc, unit, false, sc.verbatim(s, l), 0, true, rest));
      } else {
        var b := Strip(l);
        if b == "" {
          FormatTwice(sc, unit, s, if wrote then pending + 1 else pending, wrote, rest);
        } else {
          FormatTwice(sc, unit, Scanned(sc, false, s, b), 0, true, rest);
          CodeTwice(sc, unit, s, pending, wrote, b, Format(sc, unit, false, Scanned(sc, false, s, b), 0, true, rest));
        }
      }
    }
  }

  lemma LiteralTwice<S>(sc: Scanner<S>, unit: nat, s: S, wrote: bool, l: Line, more: seq<Line>)
    requires sc.literal(s) && Format(sc, unit, false, sc.verbatim(s, l), 0, true, more) == more
    ensures var out := Empty(0) + [l] + more; Format(sc, unit, false, s, 0, wrote, out) == out
  {
    assert Empty(0) + [l] + more == [l] + more && ([l] + more)[1..] == more;
  }

  /** A line of code behind blank lines. */
  lemma CodeTwice<S>(sc: Scanner<S>, unit: nat, s: S, pending: nat, wrote: bool, b: Line, more: seq<Line>)
    requires !sc.literal(s) && (pending > 0 ==> wrote) && b != "" && !Space(b[0]) && !Blank(b[|b| - 1], true)
    requires Format(sc, unit, false, Scanned(sc, false, s, b), 0, true, more) == more
    ensures var out := Empty(pending) + Written(sc, unit, false, s, b) + more;
            Format(sc, unit, false, s, 0, wrote, out) == out
  {
    var level := sc.level(s, b).0;
    var line: Line := Indent(Columns(level, unit)) + b;
    StripIndented(Columns(level, unit), b);
    var out := Empty(pending) + [line] + more;
    assert ([line] + more)[1..] == more;
    if pending > 0 {
      assert out == Empty(pending) + ([line] + more);
      Pending(sc, unit, false, s, pending, 0, [line] + more);
    } else {
      assert out == [line] + more;
      assert Empty(0) + [line] + more == [line] + more;
    }
  }

  /** With brace moving off, formatting the output again returns it. */
  lemma FmtTwice<S>(sc: Scanner<S>, unit: nat, start: S, src: string)
    ensures Fmt(sc, unit, false, start, Fmt(sc, unit, false, start, src)) == Fmt(sc, unit, false, start, src)
  {
    var out := Format(sc, unit, false, start, 0, false, Lines(src));
    LinesOfJoin(out);
    FormatTwice(sc, unit, start, 0, false, Lines(src));
  }

  // ----- the check before writing -----

  /** ws_equal */
  method WsEqual(a: string, b: string) returns (r: bool)
    ensures r <==> Squeeze(a) == Squeeze(b)
  {
    var x, y := StripFront(a), StripFront(b);
    SqueezeFront(a);
    SqueezeFront(b);
    while x != "" && y != "" && x[0] == y[0]
      invariant (x != "" ==> !Space(x[0])) && (y != "" ==> !Space(y[0]))
      invariant Squeeze(x) == Squeeze(y) <==> Squeeze(a) == Squeeze(b)
      decreases |x|
    {
      SqueezeFront(x[1..]);
      SqueezeFront(y[1..]);
      assert Squeeze(x)[1..] == Squeeze(x[1..]) && Squeeze(y)[1..] == Squeeze(y[1..]);
      assert Squeeze(x[1..]) == Squeeze(y[1..]) ==> Squeeze(x) == Squeeze(y);
      x, y := StripFront(x[1..]), StripFront(y[1..]);
    }
    if x != "" && y != "" { assert Squeeze(x)[0] == x[0] && Squeeze(y)[0] == y[0]; }
    r := x == "" && y == "";
  }

  /** The driver's refusal cannot happen. */
  method Checked<S>(sc: Scanner<S>, unit: nat, braces: bool, start: S, src: string) returns (written: bool, out: string)
    ensures written && out == Fmt(sc, unit, braces, start, src)
  {
    out := FmtRun(sc, unit, braces, start, src);
    FmtKeepsText(sc, unit, braces, start, src);
    written := WsEqual(src, out);
  }

  /** fmt_run */
  method FmtRun<S>(sc: Scanner<S>, unit: nat, braces: bool, start: S, src: string) returns (out: string)
    ensures out == Fmt(sc, unit, braces, start, src)
  {
    var p, s, pending, wrote := src, start, 0, false;
    out := "";
    ghost var todo := Lines(src);
    while p != ""
      invariant pending >= 0 && todo == Lines(p)
      invariant out + Join(Format(sc, unit, braces, s, pending, wrote, todo)) == Fmt(sc, unit, braces, start, src)
      decreases |p|
    {
      var n := LineEnd(p);
      var line: Line := p[..n];
      p := if n < |p| then p[n + 1..] else "";
      assert todo[0] == line && todo[1..] == Lines(p);
      var piece: seq<Line>;
      piece, s, pending, wrote := FmtLine(sc, unit, braces, s, pending, wrote, line, todo);
      todo := todo[1..];
      Assoc(out, Join(piece), Join(Format(sc, unit, braces, s, pending, wrote, todo)));
      out := out + Join(piece);
    }
    assert Lines("") == [];
  }

  /** One turn of the loop: the lines written, the next state, pending blank lines. */
  method FmtLine<S>(sc: Scanner<S>, unit: nat, braces: bool, s: S, pending: nat, wrote: bool, line: Line,
                    ghost ls: seq<Line>)
      returns (piece: seq<Line>, next: S, blank: nat, wrote1: bool)
    requires ls != [] && line == ls[0]
    ensures Join(Format(sc, unit, braces, s, pending, wrote, ls))
            == Join(piece) + Join(Format(sc, unit, braces, next, blank, wrote1, ls[1..]))
  {
    OneLine(sc, unit, braces, s, pending, wrote, ls);
    if sc.literal(s) {
      return Empty(pending) + [line], sc.verbatim(s, line), 0, true;
    }
    var b := Strip(line);
    if b == "" {
      return [], s, if wrote then pending + 1 else pending, wrote;
    }
    return Empty(pending) + Written(sc, unit, braces, s, b), Scanned(sc, braces, s, b), 0, true;
  }

  lemma Assoc(a: string, b: string, c: string)
    ensures a + (b + c) == a + b + c
  {
  }

  /** What one line adds to the output. */
  lemma OneLine<S>(sc: Scanner<S>, unit: nat, braces: bool, s: S, pending: nat, wrote: bool, ls: seq<Line>)
    requires ls != []
    ensures var l, rest, b := ls[0], ls[1..], Strip(ls[0]);
            Join(Format(sc, unit, braces, s, pending, wrote, ls)) ==
            if sc.literal(s) then Join(Empty(pending) + [l]) + Join(Format(sc, unit, braces, sc.verbatim(s, l), 0,
                                                                           true, rest))
            else if b == "" then Join(Format(sc, unit, braces, s, if wrote then pending + 1 else pending, wrote, rest))
            else Join(Empty(pending) + Written(sc, unit, braces, s,
                                               b)) + Join(Format(sc, unit, braces, Scanned(sc, braces, s, b), 0, true,
                                                                 rest))
  {
    var l, rest, b := ls[0], ls[1..], Strip(ls[0]);
    if sc.literal(s) {
      JoinConcat(Empty(pending) + [l], Format(sc, unit, braces, sc.verbatim(s, l), 0, true, rest));
    } else if b != "" {
      JoinConcat(Empty(pending) + Written(sc, unit, braces, s, b),
                 Format(sc, unit, braces, Scanned(sc, braces, s, b), 0, true, rest));
    }
  }

  lemma {:induction false} JoinConcat(a: seq<string>, b: seq<string>)
    ensures Join(a + b) == Join(a) + Join(b)
    decreases |a|
  {
    if a == [] {
      assert a + b == b;
    } else {
      assert (a + b)[1..] == a[1..] + b;
      JoinConcat(a[1..], b);
    }
  }
}
