/** src/parse.c: where the members of a class lie. */
module ClassLayout {
  import opened Alignment

  /** A member with its size, the alignment of its type, and its own alignment hint: 0 for
      none, negative for the type's alignment, or a power of two. */
  datatype Field = Field(size: nat, natural: nat, hint: int)

  /** The end and the alignment of the parent, 0 and 1 without one, and the hint that holds
      for all members. */
  datatype Header = Header(size: nat, align: nat, all: int)

  /** The state of the loop over the members. */
  datatype State = State(off: nat, align: nat, layoutAlign: nat, offsets: seq<nat>)

  predicate Power(a: int) {
    AlignmentValid(a)
  }

  predicate Sensible(all: int, f: Field) {
    Power(f.natural) && (f.hint > 0 ==> Power(f.hint)) && (all > 0 ==> Power(all))
  }

  /** A member's own hint goes before the one for all. */
  function Policy(all: int, f: Field): int {
    if f.hint != 0 then f.hint else all
  }

  /** The alignment a member asks for; 1 for none. */
  function Wanted(all: int, f: Field): nat {
    var policy := Policy(all, f);
    if policy < 0 then f.natural else if policy == 0 then 1 else policy
  }

  /** (n + a - 1) & -a: what remains after the low bits of n + a - 1 are cleared. */
  function AlignUp(n: nat, a: nat): (r: nat)
    requires Power(a)
    ensures n <= r < n + a && Mod(r, a) == 0
    ensures Mod(n, a) == 0 ==> r == n
  {
    AlignFacts(n, a);
    n + a - 1 - And(n + a - 1, a - 1)
  }

  lemma AlignFacts(n: nat, a: nat)
    requires Power(a)
    ensures And(n + a - 1, a - 1) == Mod(n + a - 1, a)
    ensures Mod(n + a - 1 - Mod(n + a - 1, a), a) == 0
    ensures Mod(n, a) == 0 ==> Mod(n + a - 1, a) == a - 1
  {
    var x := n + a - 1;
    MaskMod(x, a);
    DivMod(x, a);
    DivModOf(Div(x, a), 0, a);
    if Mod(n, a) == 0 { AddMultiple(n, a - 1, a); }
  }

  /** One member of a class that is no union. */
  function Place(all: int, s: State, f: Field): State
    requires Sensible(all, f)
  {
    var policy := Policy(all, f);
    var a := if policy < 0 then f.natural else policy;
    var pos := if policy != 0 then AlignUp(s.off, a) else s.off;
    State(pos + f.size, if f.natural > s.align then f.natural else s.align,
      if policy != 0 && a > s.layoutAlign then a else s.layoutAlign, s.offsets + [pos])
  }

  function PlaceAll(all: int, s: State, fs: seq<Field>): State
    requires forall i | 0 <= i < |fs| :: Sensible(all, fs[i])
  {
    if fs == [] then s else Place(all, PlaceAll(all, s, fs[..|fs| - 1]), fs[|fs| - 1])
  }

  function Start(p: Header): State {
    State(p.size, p.align, p.align, [])
  }

  predicate Hinted(all: int, fs: seq<Field>) {
    all != 0 || exists i | 0 <= i < |fs| :: fs[i].hint != 0
  }

  /** The size of the class and of its alignment. */
  function Size(p: Header, fs: seq<Field>): nat
    requires Power(p.align) && forall i | 0 <= i < |fs| :: Sensible(p.all, fs[i])
  {
    var s := PlaceAll(p.all, Start(p), fs);
    PlacePowers(p.all, Start(p), fs);
    if Hinted(p.all, fs) then AlignUp(s.off, s.layoutAlign) else s.off
  }

  function Align(p: Header, fs: seq<Field>): (r: nat)
    requires Power(p.align) && forall i | 0 <= i < |fs| :: Sensible(p.all, fs[i])
    ensures r >= p.align > 0
  {
    var s := PlaceAll(p.all, Start(p), fs);
    PlacePowers(p.all, Start(p), fs);
    NaturalGrows(p.all, Start(p), fs);
    if Hinted(p.all, fs) then s.layoutAlign else s.align
  }

  // ----- no overlap -----

  /** Members lie one behind the other, behind the parent, and end where the state says. */
  ghost predicate InOrder(from: nat, fs: seq<Field>, s: State) {
    && |s.offsets| == |fs| && from <= s.off
    && (forall i | 0 <= i < |fs| :: from <= s.offsets[i] && s.offsets[i] + fs[i].size <= s.off)
    && (forall i, j | 0 <= i < j < |fs| :: s.offsets[i] + fs[i].size <= s.offsets[j])
  }

  lemma {:induction false} PlacedInOrder(p: Header, fs: seq<Field>)
    requires forall i | 0 <= i < |fs| :: Sensible(p.all, fs[i])
    ensures InOrder(p.size, fs, PlaceAll(p.all, Start(p), fs))
    decreases |fs|
  {
    if fs != [] { PlacedInOrder(p, fs[..|fs| - 1]); }
  }

  // ----- alignment -----

  lemma {:induction false} PlacePowers(all: int, s: State, fs: seq<Field>)
    requires Power(s.layoutAlign) && forall i | 0 <= i < |fs| :: Sensible(all, fs[i])
    ensures var r := PlaceAll(all, s, fs); Power(r.layoutAlign) && r.layoutAlign >= s.layoutAlign
    ensures forall i | 0 <= i < |fs| :: Wanted(all, fs[i]) <= PlaceAll(all, s, fs).layoutAlign
    decreases |fs|
  {
    if fs != [] { PlacePowers(all, s, fs[..|fs| - 1]); }
  }

  lemma {:induction false} NaturalGrows(all: int, s: State, fs: seq<Field>)
    requires forall i | 0 <= i < |fs| :: Sensible(all, fs[i])
    ensures PlaceAll(all, s, fs).align >= s.align
    decreases |fs|
  {
    if fs != [] { NaturalGrows(all, s, fs[..|fs| - 1]); }
  }

  lemma {:induction false} PlacedAligned(p: Header, fs: seq<Field>, i: nat)
    requires i < |fs| && forall k | 0 <= k < |fs| :: Sensible(p.all, fs[k])
    ensures var s := PlaceAll(p.all, Start(p), fs); i < |s.offsets| && Mod(s.offsets[i], Wanted(p.all, fs[i])) == 0
    decreases |fs|
  {
    var before := fs[..|fs| - 1];
    PlacedInOrder(p, before);
    if i < |fs| - 1 { PlacedAligned(p, before, i); } else { ModOne(PlaceAll(p.all, Start(p), before).off); }
  }

  lemma {:induction false} ModOne(x: nat)
    ensures Mod(x, 1) == 0
    decreases x
  {
    if x > 0 { ModOne(x - 1); }
  }

  /** Without hints the class has the largest alignment of its parent and its members' types. */
  lemma {:induction false} NaturalMost(p: Header, fs: seq<Field>)
    requires Power(p.align) && !Hinted(p.all, fs) && forall i | 0 <= i < |fs| :: Sensible(p.all, fs[i])
    ensures p.align <= Align(p, fs) && forall i | 0 <= i < |fs| :: fs[i].natural <= Align(p, fs)
    ensures Align(p, fs) == p.align || exists i | 0 <= i < |fs| :: fs[i].natural == Align(p, fs)
    decreases |fs|
  {
    if fs != [] {
      var before := fs[..|fs| - 1];
      assert forall i | 0 <= i < |before| :: before[i] == fs[i];
      NaturalMost(p, before);
      assert fs[|fs| - 1] in fs;
    }
  }

  // ----- no more padding than needed -----

  /** Where member i could start at the earliest: behind the one before, or behind the parent. */
  function EndBefore(p: Header, fs: seq<Field>, offsets: seq<nat>, i: nat): nat
    requires i <= |fs| && |offsets| == |fs|
  {
    if i == 0 then p.size else offsets[i - 1] + fs[i - 1].size
  }

  lemma {:induction false} PaddedOnce(p: Header, fs: seq<Field>, i: nat)
    requires i < |fs| && forall k | 0 <= k < |fs| :: Sensible(p.all, fs[k])
    ensures var s := PlaceAll(p.all, Start(p), fs);
            && |s.offsets| == |fs| && s.off == EndBefore(p, fs, s.offsets, |fs|)
            && EndBefore(p, fs, s.offsets, i) <= s.offsets[i] < EndBefore(p, fs, s.offsets, i) + Wanted(p.all, fs[i])
    decreases |fs|
  {
    var before := fs[..|fs| - 1];
    var s0 := PlaceAll(p.all, Start(p), before);
    PlacedInOrder(p, before);
    if before != [] { PaddedOnce(p, before, if i < |before| then i else 0); }
    PlacedNext(p, fs, before, s0, PlaceAll(p.all, Start(p), fs), i);
  }

  /** The last member behind the others. */
  lemma PlacedNext(p: Header, fs: seq<Field>, before: seq<Field>, s0: State, s: State, i: nat)
    requires i < |fs| && Sensible(p.all, fs[|fs| - 1]) && before == fs[..|fs| - 1]
    requires s == Place(p.all, s0, fs[|fs| - 1]) && |s0.offsets| == |before|
    requires s0.off == EndBefore(p, before, s0.offsets, |before|)
    requires i < |before| ==> EndBefore(p, before, s0.offsets, i) <= s0.offsets[i]
    requires i < |before| ==> s0.offsets[i] < EndBefore(p, before, s0.offsets, i) + Wanted(p.all, fs[i])
    ensures |s.offsets| == |fs| && s.off == EndBefore(p, fs, s.offsets, |fs|)
    ensures EndBefore(p, fs, s.offsets, i) <= s.offsets[i] < EndBefore(p, fs, s.offsets, i) + Wanted(p.all, fs[i])
  {
    assert s.offsets[..|before|] == s0.offsets;
    assert EndBefore(p, fs, s.offsets, |before|) == s0.off;
    if i < |before| { assert EndBefore(p, fs, s.offsets, i) == EndBefore(p, before, s0.offsets, i); }
  }

  /** The alignment of the class is the parent's or one that a member asks for. */
  lemma {:induction false} LayoutAlignFrom(p: Header, fs: seq<Field>)
    requires forall k | 0 <= k < |fs| :: Sensible(p.all, fs[k])
    ensures var a := PlaceAll(p.all, Start(p), fs).layoutAlign;
            a == p.align || exists i | 0 <= i < |fs| :: a == Wanted(p.all, fs[i])
    decreases |fs|
  {
    if fs != [] {
      var before := fs[..|fs| - 1];
      LayoutAlignFrom(p, before);
      assert forall i | 0 <= i < |before| :: before[i] == fs[i];
      assert fs[|fs| - 1] in fs;
    }
  }

  /** No layout in this order that is aligned as asked has less padding anywhere: every member
      stands at the first multiple behind the one before, and the size is the first one too. */
  lemma PaddingLeast(p: Header, fs: seq<Field>)
    requires Power(p.align) && forall k | 0 <= k < |fs| :: Sensible(p.all, fs[k])
    ensures var s := PlaceAll(p.all, Start(p), fs);
            && |s.offsets| == |fs|
            && (forall i | 0 <= i < |fs| :: s.offsets[i] < EndBefore(p, fs, s.offsets, i) + Wanted(p.all, fs[i]))
            && EndBefore(p, fs, s.offsets, |fs|) <= Size(p, fs)
            && Size(p, fs) < EndBefore(p, fs, s.offsets, |fs|) + (if Hinted(p.all, fs) then Align(p, fs) else 1)
    ensures Hinted(p.all, fs) ==> Align(p, fs) == p.align
                                  || exists i | 0 <= i < |fs| :: Align(p, fs) == Wanted(p.all, fs[i])
  {
    PlacedInOrder(p, fs);
    LayoutAlignFrom(p, fs);
    PlacePowers(p.all, Start(p), fs);
    forall i | 0 <= i < |fs|
      ensures var s := PlaceAll(p.all, Start(p), fs);
              s.offsets[i] < EndBefore(p, fs, s.offsets, i) + Wanted(p.all, fs[i])
    {
      PaddedOnce(p, fs, i);
    }
    if fs != [] { PaddedOnce(p, fs, 0); }
  }

  // ----- packed classes -----

  function Sizes(fs: seq<Field>): nat {
    if fs == [] then 0 else Sizes(fs[..|fs| - 1]) + fs[|fs| - 1].size
  }

  /** Without hints members are packed: each lies exactly behind the ones before. */
  lemma {:induction false} PackedOffsets(p: Header, fs: seq<Field>)
    requires !Hinted(p.all, fs) && forall i | 0 <= i < |fs| :: Sensible(p.all, fs[i])
    ensures var s := PlaceAll(p.all, Start(p), fs);
            && s.off == p.size + Sizes(fs) && |s.offsets| == |fs|
            && forall i | 0 <= i < |fs| :: s.offsets[i] == p.size + Sizes(fs[..i])
    decreases |fs|
  {
    if fs != [] {
      var before := fs[..|fs| - 1];
      assert !Hinted(p.all, before);
      PackedOffsets(p, before);
      assert fs[|fs| - 1].hint == 0;
      var s := PlaceAll(p.all, Start(p), fs);
      forall i | 0 <= i < |fs| ensures s.offsets[i] == p.size + Sizes(fs[..i]) {
        if i < |fs| - 1 { assert before[..i] == fs[..i]; }
      }
    }
  }

  // ----- the loop -----

  /** What a class promises about its members, its size and its alignment. */
  ghost predicate LaidOut(p: Header, fs: seq<Field>, offsets: seq<nat>, size: nat, align: nat) {
    && |offsets| == |fs| && p.size <= size && align > 0
    && (forall i | 0 <= i < |fs| :: p.size <= offsets[i] && offsets[i] + fs[i].size <= size)
    && (forall i, j | 0 <= i < j < |fs| :: offsets[i] + fs[i].size <= offsets[j])
    && (forall i | 0 <= i < |fs| :: Wanted(p.all, fs[i]) > 0 && Mod(offsets[i], Wanted(p.all, fs[i])) == 0
                                    && (Hinted(p.all, fs) ==> Wanted(p.all, fs[i]) <= align))
    && (Hinted(p.all, fs) ==> Power(align) && Mod(size, align) == 0)
  }

  lemma LayoutHolds(p: Header, fs: seq<Field>)
    requires Power(p.align) && forall i | 0 <= i < |fs| :: Sensible(p.all, fs[i])
    ensures LaidOut(p, fs, PlaceAll(p.all, Start(p), fs).offsets, Size(p, fs), Align(p, fs))
  {
    var s := PlaceAll(p.all, Start(p), fs);
    PlacePowers(p.all, Start(p), fs);
    PlacedInOrder(p, fs);
    forall i | 0 <= i < |fs| ensures Mod(s.offsets[i], Wanted(p.all, fs[i])) == 0 { PlacedAligned(p, fs, i); }
  }

  method ParseMember(all: int, s: State, f: Field) returns (r: State)
    requires Sensible(all, f)
    ensures r == Place(all, s, f)
  {
    var policy := if f.hint != 0 then f.hint else all;
    var a := if policy < 0 then f.natural else policy;
    var pos, layoutAlign, natural := s.off, s.layoutAlign, s.align;
    if policy != 0 {
      pos := AlignUp(pos, a);
      if a > layoutAlign { layoutAlign := a; }
    }
    if f.natural > natural { natural := f.natural; }
    r := State(pos + f.size, natural, layoutAlign, s.offsets + [pos]);
  }

  method ParseClass(p: Header, fs: seq<Field>) returns (offsets: seq<nat>, size: nat, align: nat)
    requires Power(p.align) && forall i | 0 <= i < |fs| :: Sensible(p.all, fs[i])
    ensures offsets == PlaceAll(p.all, Start(p), fs).offsets && size == Size(p, fs) && align == Align(p, fs)
    ensures LaidOut(p, fs, offsets, size, align)
  {
    var s, aligned := Start(p), p.all != 0;
    for n := 0 to |fs|
      invariant s == PlaceAll(p.all, Start(p), fs[..n])
      invariant aligned <==> Hinted(p.all, fs[..n])
    {
      Extend(p, fs, n);
      s := ParseMember(p.all, s, fs[n]);
      aligned := aligned || fs[n].hint != 0;
    }
    assert fs[..|fs|] == fs;
    LayoutHolds(p, fs);
    PlacePowers(p.all, Start(p), fs);
    offsets := s.offsets;
    align := if aligned then s.layoutAlign else s.align;
    size := if aligned then AlignUp(s.off, s.layoutAlign) else s.off;
  }

  lemma Extend(p: Header, fs: seq<Field>, n: nat)
    requires n < |fs| && forall i | 0 <= i < |fs| :: Sensible(p.all, fs[i])
    ensures PlaceAll(p.all, Start(p), fs[..n + 1]) == Place(p.all, PlaceAll(p.all, Start(p), fs[..n]), fs[n])
    ensures Hinted(p.all, fs[..n + 1]) <==> Hinted(p.all, fs[..n]) || fs[n].hint != 0
  {
    var longer := fs[..n + 1];
    assert longer[..n] == fs[..n] && longer[n] == fs[n];
    if p.all == 0 && Hinted(p.all, fs[..n]) {
      var i :| 0 <= i < n && fs[..n][i].hint != 0;
      assert longer[i].hint != 0;
    }
    if p.all == 0 && Hinted(p.all, longer) && longer[n].hint == 0 {
      var i :| 0 <= i < n + 1 && longer[i].hint != 0;
      assert fs[..n][i].hint != 0;
    }
  }

  // ----- arrays -----

  /** In an array of an aligned class every member of every element is aligned as it asks,
      when the array is aligned as the class asks. */
  lemma ArrayAligned(p: Header, fs: seq<Field>, offsets: seq<nat>, size: nat, align: nat, base: nat, n: nat, i: nat)
    requires forall k | 0 <= k < |fs| :: Sensible(p.all, fs[k])
    requires LaidOut(p, fs, offsets, size, align) && Hinted(p.all, fs) && i < |fs|
    requires Mod(base, align) == 0
    ensures Mod(base + Times(n, size) + offsets[i], Wanted(p.all, fs[i])) == 0
  {
    ElementAligned(base, n, size, align);
    PowerOne();
    WeakerAligned(base + Times(n, size), Wanted(p.all, fs[i]), align);
    AddMultiple(base + Times(n, size), offsets[i], Wanted(p.all, fs[i]));
  }

  lemma ElementAligned(base: nat, n: nat, size: nat, a: nat)
    requires a > 0 && Mod(base, a) == 0 && Mod(size, a) == 0
    ensures Mod(base + Times(n, size), a) == 0
  {
    TimesMultiple(n, size, a);
    AddMultiple(base, Times(n, size), a);
  }

  lemma PowerOne()
    ensures Power(1)
  {
    PowerValid(0);
  }
}
