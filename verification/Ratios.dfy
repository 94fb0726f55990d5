/** Facts about quotients of reals. */
module Ratios {
  lemma {:induction false} Less(a: real, b: real, d: real)
    requires d > 0.0 && a < b
    ensures a * d < b * d
  {
    assert (b - a) * d > 0.0;
  }

  lemma {:induction false} QuotientIsLess(a: real, b: real, d: real)
    requires d > 0.0 && a < b
    ensures a / d < b / d
  {
    var p, q := a / d, b / d;
    assert p * d == a && q * d == b;
    if q < p { Less(q, p, d); }
  }

  /** p is the part of a sum that w is. */
  ghost predicate IsShare(p: real, w: real, sum: real) {
    sum > 0.0 && p == w / sum
  }

  lemma {:induction false} NoShare(sum: real)
    requires sum > 0.0
    ensures IsShare(0.0, 0.0, sum)
  {
  }

  lemma {:induction false} SomeShare(p: real, w: real, sum: real)
    requires IsShare(p, w, sum) && w > 0.0
    ensures p > 0.0
  {
    QuotientIsLess(0.0, w, sum);
  }

  lemma {:induction false} WholeShare(p: real, sum: real)
    requires IsShare(p, sum, sum)
    ensures p == 1.0
  {
  }

  lemma {:induction false} SharesAdd(p: real, q: real, w: real, v: real, sum: real)
    requires IsShare(p, w, sum) && IsShare(q, v, sum)
    ensures IsShare(p + q, w + v, sum)
  {
  }

  lemma {:induction false} SharesAreOrdered(p: real, q: real, w: real, v: real, sum: real)
    requires IsShare(p, w, sum) && IsShare(q, v, sum) && w < v
    ensures p < q
  {
    QuotientIsLess(w, v, sum);
  }

  ghost predicate Proportional(p: real, q: real, x: real, y: real) {
    p * y == q * x
  }

  ghost predicate IsProduct(p: real, q: real, x: real) {
    p * q == x
  }

  lemma {:induction false} CommonFactor(p: real, q: real, factor: real, x: real, y: real)
    requires IsProduct(p, factor, x) && IsProduct(q, factor, y)
    ensures Proportional(p, q, x, y)
  {
  }

  lemma {:induction false} SharesAreProportional(p: real, q: real, w: real, v: real, sum: real, x: real, y: real)
    requires IsShare(p, w, sum) && IsShare(q, v, sum) && Proportional(w, v, x, y)
    ensures Proportional(p, q, x, y)
  {
    assert p * y == (w * y) / sum;
    assert q * x == (v * x) / sum;
  }
}
