/** Multiples, remainders and powers of two, as lib/alloc and the class layout use them. */
module Alignment {
  import opened Basics

  // ----- multiples, quotients and remainders, as repeated sums -----

  function Times(i: nat, y: nat): nat {
    if i == 0 then 0 else Times(i - 1, y) + y
  }

  function Div(x: nat, m: nat): nat
    requires m > 0
  {
    if x < m then 0 else 1 + Div(x - m, m)
  }

  function Mod(x: nat, m: nat): (r: nat)
    requires m > 0
    ensures r < m
  {
    if x < m then x else Mod(x - m, m)
  }

  lemma {:induction false} TimesLess(i: nat, j: nat, y: nat)
    requires i < j
    ensures Times(i, y) + y <= Times(j, y)
    decreases j
  {
    if i < j - 1 { TimesLess(i, j - 1, y); }
  }

  lemma {:induction false} DivMod(x: nat, m: nat)
    requires m > 0
    ensures x == Times(Div(x, m), m) + Mod(x, m)
    decreases x
  {
    if x >= m { DivMod(x - m, m); }
  }

  lemma {:induction false} DivModOf(q: nat, r: nat, m: nat)
    requires r < m
    ensures Div(Times(q, m) + r, m) == q && Mod(Times(q, m) + r, m) == r
    decreases q
  {
    if q > 0 { DivModOf(q - 1, r, m); }
  }

  lemma {:induction false} TimesIs(i: nat, y: nat)
    ensures Times(i, y) == i * y
    decreases i
  {
    if i > 0 {
      TimesIs(i - 1, y);
      assert i * y == (i - 1) * y + y;
    }
  }

  /** They are the operators of the arithmetic. */
  lemma OperatorsAgree(x: nat, m: nat)
    requires m > 0
    ensures Div(x, m) == x / m && Mod(x, m) == x % m
  {
    DivMod(x, m);
    TimesIs(Div(x, m), m);
    var d := Div(x, m) - x / m;
    assert d * m == x % m - Mod(x, m) by {
      assert x == (x / m) * m + x % m;
    }
    Far(m, d);
  }

  lemma Far(m: nat, d: int)
    ensures (d > 0 ==> d * m >= m) && (d < 0 ==> d * m <= -(m as int))
  {
  }

  /** A multiple and anything. */
  lemma {:induction false} AddMultiple(x: nat, y: nat, a: nat)
    requires a > 0 && Mod(x, a) == 0
    ensures Mod(x + y, a) == Mod(y, a)
    decreases x
  {
    if x >= a { AddMultiple(x - a, y, a); }
  }

  lemma {:induction false} TimesMultiple(i: nat, y: nat, a: nat)
    requires a > 0 && Mod(y, a) == 0
    ensures Mod(Times(i, y), a) == 0
    decreases i
  {
    if i > 0 {
      TimesMultiple(i - 1, y, a);
      AddMultiple(Times(i - 1, y), y, a);
    }
  }

  // ----- alignment -----

  /** Bitwise and of natural numbers. */
  function And(a: nat, b: nat): nat
    decreases a
  {
    if a == 0 then 0 else (if a % 2 == 1 && b % 2 == 1 then 1 else 0) + 2 * And(a / 2, b / 2)
  }

  /** AllocAlignmentValid. */
  predicate AlignmentValid(a: int) {
    a > 0 && And(a, a - 1) == 0
  }

  lemma {:induction false} AndSelf(a: nat)
    ensures And(a, a) == a
    decreases a
  {
    if a > 0 { AndSelf(a / 2); }
  }

  lemma HalfAnd(a: nat)
    requires a > 0
    ensures And(a, a - 1) == if a % 2 == 0 then 2 * And(a / 2, a / 2 - 1) else a - 1
  {
    AndSelf(a / 2);
    assert (a - 1) / 2 == if a % 2 == 0 then a / 2 - 1 else a / 2;
  }

  /** The mask test accepts exactly the powers of two. */
  lemma {:induction false} ValidPower(a: nat) returns (k: nat)
    requires AlignmentValid(a)
    ensures a == Pow2(k)
    decreases a
  {
    HalfAnd(a);
    if a == 1 {
      k := 0;
    } else {
      k := ValidPower(a / 2);
      k := k + 1;
    }
  }

  lemma {:induction false} PowerValid(k: nat)
    ensures AlignmentValid(Pow2(k))
  {
    if k > 0 {
      var p := Pow2(k - 1);
      PowerValid(k - 1);
      HalfAnd(2 * p);
      assert (2 * p) / 2 == p;
    }
  }

  /** Masking with a power of two less one is the remainder. */
  lemma {:induction false} MaskIsRemainder(x: nat, k: nat)
    ensures And(x, Pow2(k) - 1) == Mod(x, Pow2(k))
    decreases x
  {
    if x == 0 {
    } else if k == 0 {
      MaskNothing(x);
    } else {
      var p := Pow2(k - 1);
      MaskIsRemainder(x / 2, k - 1);
      HalfMod(x, p);
      assert (2 * p - 1) / 2 == p - 1;
    }
  }

  lemma {:induction false} MaskNothing(x: nat)
    ensures And(x, 0) == 0 && Mod(x, 1) == 0
    decreases x
  {
    if x > 0 {
      MaskNothing(x / 2);
      MaskNothing(x - 1);
    }
  }

  lemma {:induction false} HalfMod(x: nat, p: nat)
    requires p > 0
    ensures Mod(x, 2 * p) == x % 2 + 2 * Mod(x / 2, p)
    decreases x
  {
    if x >= 2 * p {
      HalfMod(x - 2 * p, p);
      assert (x - 2 * p) / 2 == x / 2 - p;
    }
  }

  /** What to add to reach the next multiple. */
  function Padding(x: nat, a: nat): (p: nat)
    requires AlignmentValid(a)
    ensures p < a && Mod(x + p, a) == 0
  {
    MaskMod(x, a);
    NextMultiple(x, a);
    var m := And(x, a - 1);
    if m != 0 then a - m else 0
  }

  lemma MaskMod(x: nat, a: nat)
    requires AlignmentValid(a)
    ensures And(x, a - 1) == Mod(x, a)
  {
    var k := ValidPower(a);
    MaskIsRemainder(x, k);
  }

  lemma NextMultiple(x: nat, a: nat)
    requires a > 0
    ensures Mod(x + (a - Mod(x, a)), a) == 0
  {
    DivMod(x, a);
    DivModOf(Div(x, a) + 1, 0, a);
  }

  /** A smaller power of two divides a larger one. */
  lemma {:induction false} PowerDivides(j: nat, k: nat)
    requires Pow2(j) <= Pow2(k)
    ensures Mod(Pow2(k), Pow2(j)) == 0
    decreases k
  {
    if Pow2(j) < Pow2(k) {
      PowerLess(j, k);
      PowerDivides(j, k - 1);
      AddMultiple(Pow2(k - 1), Pow2(k - 1), Pow2(j));
    }
  }

  lemma {:induction false} PowerLess(j: nat, k: nat)
    requires Pow2(j) < Pow2(k)
    ensures k > 0 && Pow2(j) <= Pow2(k - 1)
    decreases j + k
  {
    if k > 0 && j > 0 { PowerLess(j - 1, k - 1); }
  }

  /** A weaker alignment follows from a stronger one. */
  lemma WeakerAligned(x: nat, a: nat, b: nat)
    requires AlignmentValid(a) && AlignmentValid(b) && a <= b && Mod(x, b) == 0
    ensures And(x, a - 1) == 0 && Mod(x, a) == 0
  {
    var j := ValidPower(a);
    var k := ValidPower(b);
    PowerDivides(j, k);
    DivMod(x, b);
    TimesMultiple(Div(x, b), b, a);
    MaskMod(x, a);
  }
}
