/** The probability of a token: inference/scheduler/speculative.go.  It is the softmax of a row of logits, computed
    relative to the greatest one. */
module Probabilities {
  import opened Ratios
  import opened Sampling

  type Probability = (Row, int) -> real

  /** The exponential function, of which only the sign matters. */
  type Exp = e: real -> real | forall x :: e(x) > 0.0
    witness (x => 1.0)

  function Weight(exp: Exp, x: real, max: real): (w: real)
    ensures w > 0.0
  {
    exp(x - max)
  }

  function Weights(exp: Exp, row: Row, max: real): (sum: real)
    ensures row != [] ==> sum > 0.0
    ensures row == [] ==> sum == 0.0
  {
    if row == [] then 0.0 else Weights(exp, row[..|row| - 1], max) + Weight(exp, row[|row| - 1], max)
  }

  /** The softmax probability of a token, 0 for what is no token. */
  function Softmax(exp: Exp): Probability {
    (row: Row, token) =>
      if 0 <= token < |row| then Weight(exp, row[token], row[Greedy(row)]) / Weights(exp, row, row[Greedy(row)])
      else 0.0
  }

  method GetTokenProbability(exp: Exp, logits: Row, tokenID: int) returns (p: real)
    ensures p == Softmax(exp)(logits, tokenID)
  {
    if tokenID < 0 || tokenID >= |logits| {
      return 0.0;
    }
    var maxLogit := MaxLogit(logits);
    var sum := WeightSum(exp, logits, maxLogit);
    p := Weight(exp, logits[tokenID], maxLogit) / sum;
  }

  /** Its first loop. */
  method MaxLogit(logits: Row) returns (maxLogit: Logit)
    requires logits != []
    ensures maxLogit == logits[Greedy(logits)]
  {
    maxLogit := logits[0];
    var i := 0;
    while i < |logits|
      invariant 0 <= i <= |logits| && maxLogit in logits
      invariant forall j :: 0 <= j < i ==> logits[j] <= maxLogit
    {
      if logits[i] > maxLogit {
        maxLogit := logits[i];
      }
      i := i + 1;
    }
    GreedyIsFirstMax(logits);
  }

  /** Its second loop. */
  method WeightSum(exp: Exp, logits: Row, maxLogit: real) returns (sum: real)
    ensures sum == Weights(exp, logits, maxLogit)
  {
    sum := 0.0;
    var i := 0;
    while i < |logits|
      invariant 0 <= i <= |logits| && sum == Weights(exp, logits[..i], maxLogit)
    {
      assert logits[..i + 1][..i] == logits[..i];
      sum := sum + Weight(exp, logits[i], maxLogit);
      i := i + 1;
    }
    assert logits[..i] == logits;
  }

  // ---------------------------------------------------------------- what softmax is

  ghost predicate Grows(exp: Exp, x: real, y: real) {
    x < y ==> exp(x) < exp(y)
  }

  ghost predicate Multiplies(exp: Exp, x: real, y: real) {
    exp(x + y) == exp(x) * exp(y)
  }

  lemma {:induction false} SoftmaxIs(exp: Exp, row: Row, i: nat) returns (p: real, w: real, sum: real)
    requires i < |row|
    ensures p == Softmax(exp)(row, i) && w == Weight(exp, row[i], row[Greedy(row)])
    ensures sum == Weights(exp, row, row[Greedy(row)]) && w > 0.0 && IsShare(p, w, sum)
  {
    p, w, sum := Softmax(exp)(row, i), Weight(exp, row[i], row[Greedy(row)]), Weights(exp, row, row[Greedy(row)]);
  }

  lemma {:induction false} HeavierIsLikelier(exp: Exp, row: Row, i: nat, j: nat, max: real)
    requires i < |row| && j < |row| && max == row[Greedy(row)]
    requires Weight(exp, row[i], max) < Weight(exp, row[j], max)
    ensures Softmax(exp)(row, i) < Softmax(exp)(row, j)
  {
    var p, w, sum := SoftmaxIs(exp, row, i);
    var q, v, _ := SoftmaxIs(exp, row, j);
    SharesAreOrdered(p, q, w, v, sum);
  }

  lemma {:induction false} GreaterIsHeavier(exp: Exp, x: real, y: real, max: real)
    requires (forall x, y :: Grows(exp, x, y)) && x < y
    ensures Weight(exp, x, max) < Weight(exp, y, max)
  {
    assert Grows(exp, x - max, y - max);
  }

  /** If the exponential grows, a token is more likely than another exactly if its logit is greater. */
  lemma {:induction false} SoftmaxGrows(exp: Exp, row: Row, i: nat, j: nat)
    requires (forall x, y :: Grows(exp, x, y)) && i < |row| && j < |row|
    ensures Softmax(exp)(row, i) < Softmax(exp)(row, j) <==> row[i] < row[j]
  {
    var max := row[Greedy(row)];
    if row[i] < row[j] {
      GreaterIsHeavier(exp, row[i], row[j], max);
      HeavierIsLikelier(exp, row, i, j, max);
    } else if row[j] < row[i] {
      GreaterIsHeavier(exp, row[j], row[i], max);
      HeavierIsLikelier(exp, row, j, i, max);
    }
  }

  lemma {:induction false} Shifted(exp: Exp, x: real, max: real)
    requires forall x, y :: Multiplies(exp, x, y)
    ensures IsProduct(exp(x - max), exp(max), exp(x))
  {
    assert Multiplies(exp, x - max, max);
    assert x - max + max == x;
  }

  lemma {:induction false} WeightsAreProportional(exp: Exp, x: real, y: real, max: real)
    requires forall x, y :: Multiplies(exp, x, y)
    ensures Proportional(exp(x - max), exp(y - max), exp(x), exp(y))
  {
    Shifted(exp, x, max);
    Shifted(exp, y, max);
    CommonFactor(exp(x - max), exp(y - max), exp(max), exp(x), exp(y));
  }

  lemma {:induction false} SharesOfWeights(exp: Exp, row: Row, i: nat, j: nat, x: real, y: real, max: real)
    requires i < |row| && j < |row| && max == row[Greedy(row)]
    requires Proportional(Weight(exp, row[i], max), Weight(exp, row[j], max), x, y)
    ensures Proportional(Softmax(exp)(row, i), Softmax(exp)(row, j), x, y)
  {
    var p, w, sum := SoftmaxIs(exp, row, i);
    var q, v, _ := SoftmaxIs(exp, row, j);
    SharesAreProportional(p, q, w, v, sum, x, y);
  }

  /** If the exponential turns sums into products, probabilities are proportional to the exponentials of the logits
      themselves: subtracting the maximum changes nothing. */
  lemma {:induction false} SoftmaxIsProportional(exp: Exp, row: Row, i: nat, j: nat)
    requires (forall x, y :: Multiplies(exp, x, y)) && i < |row| && j < |row|
    ensures Proportional(Softmax(exp)(row, i), Softmax(exp)(row, j), exp(row[i]), exp(row[j]))
  {
    var max := row[Greedy(row)];
    WeightsAreProportional(exp, row[i], row[j], max);
    SharesOfWeights(exp, row, i, j, exp(row[i]), exp(row[j]), max);
  }

  /** The probabilities of the first n tokens together. */
  function Mass(prob: Probability, row: Row, n: nat): real {
    if n == 0 then 0.0 else Mass(prob, row, n - 1) + prob(row, n - 1)
  }

  lemma {:induction false} MassGrows(prob: Probability, row: Row, n: nat, before: real, w: real, sum: real)
    requires IsShare(Mass(prob, row, n), before, sum) && IsShare(prob(row, n), w, sum)
    ensures IsShare(Mass(prob, row, n + 1), before + w, sum)
  {
    SharesAdd(Mass(prob, row, n), prob(row, n), before, w, sum);
  }

  lemma {:induction false} WeightsGrow(exp: Exp, row: Row, n: nat, max: real)
    requires n < |row|
    ensures Weights(exp, row[..n + 1], max) == Weights(exp, row[..n], max) + Weight(exp, row[n], max)
  {
    assert row[..n + 1][..n] == row[..n] && row[..n + 1][n] == row[n];
  }

  ghost predicate Shares(prob: Probability, exp: Exp, row: Row, max: real, sum: real) {
    forall i :: 0 <= i < |row| ==> IsShare(prob(row, i), Weight(exp, row[i], max), sum)
  }

  lemma {:induction false} MassIsShare(prob: Probability, exp: Exp, row: Row, n: nat, max: real, sum: real)
    requires n <= |row| && sum > 0.0 && Shares(prob, exp, row, max, sum)
    ensures IsShare(Mass(prob, row, n), Weights(exp, row[..n], max), sum)
  {
    if n == 0 {
      assert row[..n] == [];
      NoShare(sum);
    } else {
      MassIsShare(prob, exp, row, n - 1, max, sum);
      WeightsGrow(exp, row, n - 1, max);
      MassGrows(prob, row, n - 1, Weights(exp, row[..n - 1], max), Weight(exp, row[n - 1], max), sum);
    }
  }

  lemma {:induction false} SoftmaxShares(exp: Exp, row: Row)
    requires row != []
    ensures Shares(Softmax(exp), exp, row, row[Greedy(row)], Weights(exp, row, row[Greedy(row)]))
  {
    forall i | 0 <= i < |row|
      ensures IsShare(Softmax(exp)(row, i), Weight(exp, row[i], row[Greedy(row)]),
                      Weights(exp, row, row[Greedy(row)]))
    {
      var p, w, sum := SoftmaxIs(exp, row, i);
    }
  }

  /** All tokens together have probability 1, each of them some, and what is no token has none. */
  lemma {:induction false} SoftmaxSumsToOne(exp: Exp, row: Row)
    requires row != []
    ensures Mass(Softmax(exp), row, |row|) == 1.0
    ensures forall token :: Softmax(exp)(row, token) > 0.0 <==> 0 <= token < |row|
  {
    var max := row[Greedy(row)];
    SoftmaxShares(exp, row);
    MassIsShare(Softmax(exp), exp, row, |row|, max, Weights(exp, row, max));
    assert row[..|row|] == row;
    WholeShare(Mass(Softmax(exp), row, |row|), Weights(exp, row, max));
    forall token | 0 <= token < |row| ensures Softmax(exp)(row, token) > 0.0 {
      var p, w, sum := SoftmaxIs(exp, row, token);
      SomeShare(p, w, sum);
    }
  }
}
