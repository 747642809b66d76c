/**
 Exact rationals standing in for JavaScript numbers in the price rule, and
 `Math.round` on them: the nearest integer, halves going toward +infinity,
 i.e. floor(x + 1/2).
 */
module Rational {

  type Pos = x: int | x > 0 witness 1

  /** The value num / den; representations are not normalised. */
  datatype Rat = Rat(num: int, den: Pos)

  function FromInt(k: int): Rat {
    Rat(k, 1)
  }

  /** a <= b as rationals. */
  predicate Le(a: Rat, b: Rat) {
    a.num * b.den <= b.num * a.den
  }

  /** The rational `a` is the integer `k`. */
  predicate IsInteger(a: Rat, k: int) {
    a.num == k * a.den
  }

  lemma PosProduct(a: Pos, b: Pos)
    ensures a * b > 0
  {
  }

  function Mul(a: Rat, b: Rat): Rat {
    PosProduct(a.den, b.den);
    Rat(a.num * b.num, a.den * b.den)
  }

  /** `k` lies in [q - 1/2, q + 1/2), the half-open interval Math.round maps to `k`. */
  predicate RoundsTo(q: Rat, k: int) {
    k * (2 * q.den) <= 2 * q.num + q.den < (k + 1) * (2 * q.den)
  }

  /** Math.round on an exact rational. */
  function Round(q: Rat): (r: int)
    ensures RoundsTo(q, r)
  {
    var d := 2 * q.den;
    var n := 2 * q.num + q.den;
    assert n == (n / d) * d + n % d;
    n / d
  }

  lemma MulLeRight(a: int, b: int, c: int)
    requires a <= b && c >= 0
    ensures a * c <= b * c
  {
  }

  lemma MulLtRight(a: int, b: int, c: int)
    requires a < b && c > 0
    ensures a * c < b * c
  {
  }

  lemma MulLtCancel(a: int, b: int, c: int)
    requires c > 0 && a * c < b * c
    ensures a < b
  {
    if b <= a {
      MulLeRight(b, a, c);
    }
  }

  /** Exactly one integer is within half a unit below and strictly less than half above. */
  lemma RoundUnique(q: Rat, k: int)
    requires RoundsTo(q, k)
    ensures Round(q) == k
  {
    var r := Round(q);
    var d := 2 * q.den;
    if r < k {
      MulLeRight(r + 1, k, d);
      assert false;
    } else if k < r {
      MulLeRight(k + 1, r, d);
      assert false;
    }
  }

  /** An integral value is returned unchanged. */
  lemma RoundExact(q: Rat, k: int)
    requires IsInteger(q, k)
    ensures Round(q) == k
  {
    assert k * (2 * q.den) == 2 * q.num;
    assert (k + 1) * (2 * q.den) == 2 * q.num + 2 * q.den;
    RoundUnique(q, k);
  }

  /** A value exactly halfway, k + 1/2, rounds up to k + 1, also when it is negative. */
  lemma RoundHalfUp(k: int)
    ensures Round(Rat(2 * k + 1, 2)) == k + 1
  {
    RoundUnique(Rat(2 * k + 1, 2), k + 1);
  }

  /** Rounding never reverses the order of two values. */
  lemma RoundMonotone(a: Rat, b: Rat)
    requires Le(a, b)
    ensures Round(a) <= Round(b)
  {
    var ra, rb := Round(a), Round(b);
    // ra <= a + 1/2 <= b + 1/2 < rb + 1, scaled by 2 * a.den * b.den
    var da: int, db: int := a.den, b.den;
    var x, y := ra * (2 * da), (rb + 1) * (2 * db);
    MulLeRight(x, 2 * a.num + da, db);
    MulLtRight(2 * b.num + db, y, da);
    calc {
      ra * (2 * da * db);
    == x * db;
    <= (2 * a.num + da) * db;
    == 2 * (a.num * db) + da * db;
    <= 2 * (b.num * da) + da * db;
    == (2 * b.num + db) * da;
    <  y * da;
    == (rb + 1) * (2 * da * db);
    }
    MulLtCancel(ra, rb + 1, 2 * da * db);
  }

  /** Scaling by a non-negative factor keeps the order. */
  lemma MulMonotone(c: Rat, a: Rat, b: Rat)
    requires c.num >= 0
    requires Le(a, b)
    ensures Le(Mul(c, a), Mul(c, b))
  {
    var k := c.num * c.den;
    assert k >= 0;
    MulLeRight(a.num * b.den, b.num * a.den, k);
    assert (c.num * a.num) * (c.den * b.den) == (a.num * b.den) * k;
    assert (c.num * b.num) * (c.den * a.den) == (b.num * a.den) * k;
  }
}
