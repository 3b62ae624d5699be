// Small facts about multiplication and division that the solver does not
// find on its own, used by the formatting and clamping proofs, and the clamp
// that the camera, the audio analyser and the effects share.
module Arith {

  /** `Math.max(lo, Math.min(hi, x))`: x pulled into [lo, hi]. */
  function Clamp(lo: real, hi: real, x: real): (r: real)
    requires lo <= hi
    ensures lo <= r <= hi
    ensures lo <= x <= hi ==> r == x
    ensures x < lo ==> r == lo
    ensures x > hi ==> r == hi
  {
    var below := if x <= hi then x else hi;
    if lo >= below then lo else below
  }

  lemma MulLe(x: nat, y: nat, z: nat)
    requires y <= z
    ensures x * y <= x * z
  {
    assert x * z - x * y == x * (z - y);
  }

  lemma MulLtCancel(d: nat, x: nat, y: nat)
    requires d * x < d * y
    ensures x < y
  {
    if x >= y { MulLe(d, y, x); }
  }

  /** A whole number b with b * d <= v * d < (b + 1) * d is v itself. */
  lemma MulSandwich(b: nat, v: nat, d: nat)
    requires d >= 1 && b * d <= v * d < (b + 1) * d
    ensures b == v
  {
    if b < v { MulLe(d, b + 1, v); }
    if b > v { MulLe(d, v + 1, b); }
  }

  /** Euclidean division is unique: a quotient and a remainder in [0, d) are a / d and a % d. */
  lemma DivModUnique(a: int, d: int, q: int, r: int)
    requires d > 0 && a == d * q + r && 0 <= r < d
    ensures a / d == q && a % d == r
  {
    var q', r' := a / d, a % d;
    assert a == d * q' + r';
    assert d * q - d * q' == d * (q - q');
    if q' < q {
      MulLe(d, 1, q - q');
      assert false;
    } else if q' > q {
      MulLe(d, 1, q' - q);
      assert false;
    }
  }

  lemma DivMonotone(a: nat, b: nat, d: nat)
    requires a <= b && d > 0
    ensures a / d <= b / d
  {
    var qa, qb := a / d, b / d;
    assert d * qa <= a;
    assert b < d * (qb + 1);
    MulLtCancel(d, qa, qb + 1);
  }

  lemma RealDivBounds(lo: real, num: real, hi: real, d: real)
    requires d > 0.0 && lo * d <= num < hi * d
    ensures lo <= num / d < hi
  {
    assert (num / d) * d == num;
  }

  lemma RealDivAtMost(num: real, hi: real, d: real)
    requires d > 0.0 && 0.0 <= num <= hi * d
    ensures 0.0 <= num / d <= hi
  {
    assert (num / d) * d == num;
  }

  lemma MulSucc(x: real, k: nat)
    ensures x * (k as real) + x == x * ((k + 1) as real)
  {
    assert (k + 1) as real == k as real + 1.0;
  }

  lemma RealMulMonotone(x: real, y: real, d: real)
    requires d >= 0.0 && x <= y
    ensures x * d <= y * d
  {
    assert y * d - x * d == (y - x) * d;
  }

  lemma RealMulStrict(x: real, y: real, d: real)
    requires d > 0.0 && x < y
    ensures x * d < y * d
  {
    assert y * d - x * d == (y - x) * d;
  }

  /** The remainder left by a whole quotient q with q <= a / n < q + 1. */
  lemma RemainderBounds(a: real, n: real, x: real, q: real)
    requires n > 0.0 && x * n == a && q <= x < q + 1.0
    ensures 0.0 <= a - n * q < n
  {
    RemainderBelow(a, n, x, q);
    RealMulMonotone(q, x, n);
    assert q * n <= a;
  }

  lemma RemainderBelow(a: real, n: real, x: real, q: real)
    requires n > 0.0 && x * n == a && x < q + 1.0
    ensures a < q * n + n
  {
    RealMulStrict(x, q + 1.0, n);
    assert x * n < (q + 1.0) * n;
    assert (q + 1.0) * n == q * n + n;
  }
}
