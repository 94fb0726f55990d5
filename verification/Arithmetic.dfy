/** Small facts about multiplication, division and sets that the solver needs to be told. */
module Arithmetic {
  lemma {:induction false} MulMono(a: int, b: int, v: nat)
    requires a <= b
    ensures a * v <= b * v
  {
    assert (b - a) * v >= 0;
  }

  lemma {:induction false} MulSucc(a: int, v: int)
    ensures (a + 1) * v == a * v + v
  {
  }

  lemma {:induction false} MulLess(a: int, b: int, v: nat)
    requires a * v < (b + 1) * v
    ensures a <= b
  {
    assert a >= b + 1 ==> (a - (b + 1)) * v >= 0;
  }

  lemma {:induction false} DivBounds(a: nat, d: nat)
    requires d > 0
    ensures (a / d) * d <= a < (a / d + 1) * d
    ensures a == (a / d) * d + a % d && a % d < d
  {
    MulSucc(a / d, d);
  }

  lemma {:induction false} DivMono(a: nat, b: nat, d: nat)
    requires a <= b && d > 0
    ensures a / d <= b / d
  {
    DivBounds(a, d);
    DivBounds(b, d);
    MulLess(a / d, b / d, d);
  }

  /** A quotient is known from its bounds. */
  lemma {:induction false} DivIs(a: nat, q: nat, d: nat)
    requires d > 0 && q * d <= a < (q + 1) * d
    ensures a / d == q && a % d == a - q * d
  {
    DivBounds(a, d);
    MulLess(a / d, q, d);
    MulLess(q, a / d, d);
  }

  lemma {:induction false} DivDiv(x: nat, a: nat, b: nat)
    requires a > 0 && b > 0
    ensures a * b > 0 && x / a / b == x / (a * b)
  {
    var y := x / a;
    var q, r := y / b, y % b;
    DivBounds(x, a);
    DivBounds(y, b);
    MulPositive(a, b);
    MulMono(r + 1, b, a);
    SameProduct(q, b, r, a);
    MulSucc(q, a * b);
    DivIs(x, q, a * b);
  }

  lemma {:induction false} MulPositive(a: nat, b: nat)
    requires a > 0 && b > 0
    ensures a * b > 0
  {
  }

  lemma {:induction false} SameProduct(q: nat, b: nat, r: nat, a: nat)
    ensures (q * b + r) * a == q * (a * b) + r * a && (r + 1) * a == r * a + a && b * a == a * b
  {
  }

  /** Division as in Go: truncated toward zero. */
  function GoDiv(a: int, b: int): (q: int)
    requires b > 0
    ensures a >= 0 ==> q == a / b
    ensures a < 0 ==> q <= 0
  {
    if a >= 0 then a / b else -((-a) / b)
  }

  function Max(a: int, b: int): int {
    if a < b then b else a
  }

  lemma {:induction false} EmptyOrNot(keys: set<int>)
    ensures keys == {} || exists id :: id in keys
  {
    if forall id :: id !in keys { assert keys == {}; }
  }
}
