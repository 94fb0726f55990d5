/** Greedy token selection.

    Two argmax loops exist: `sampler.Argmax` (inference/pkg/sampler), used by plain decoding, starts from
    -MaxFloat32; `argmaxFloat32` (inference/scheduler/medusa_scheduler.go), used by tree verification,
    starts from the first value.  Both are proved to find the first maximum, so they agree. */
module Sampling {
  const MAX_FLOAT32: real := 340282346638528859811704183484516925440.0

  /** A finite float32, up to rounding. */
  type Logit = r: real | -MAX_FLOAT32 <= r <= MAX_FLOAT32
    witness 0.0

  type Row = seq<Logit>

  ghost predicate FirstMax(row: Row, i: nat) {
    && i < |row|
    && (forall j :: 0 <= j < |row| ==> row[j] <= row[i])
    && (forall j :: 0 <= j < i ==> row[j] < row[i])
  }

  /** The greedy token for a row of logits: the index of its first maximum, 0 for an empty row. */
  function Greedy(row: Row): (r: nat)
    ensures row != [] ==> r < |row|
    ensures row == [] ==> r == 0
  {
    if row == [] then 0 else BestOf(row, |row|)
  }

  /** The first maximum of the first n logits. */
  function BestOf(row: Row, n: nat): (r: nat)
    requires 0 < n <= |row|
    ensures r < n
  {
    if n == 1 then 0
    else
      var r := BestOf(row, n - 1);
      if row[r] < row[n - 1] then n - 1 else r
  }

  lemma {:induction false} BestIsFirstMax(row: Row, n: nat)
    requires 0 < n <= |row|
    ensures FirstMax(row[..n], BestOf(row, n))
  {
    if n > 1 {
      BestIsFirstMax(row, n - 1);
      assert forall j :: 0 <= j < n - 1 ==> row[..n][j] == row[..n - 1][j];
    }
  }

  lemma {:induction false} GreedyIsFirstMax(row: Row)
    requires row != []
    ensures FirstMax(row, Greedy(row))
  {
    BestIsFirstMax(row, |row|);
    assert row[..|row|] == row;
  }

  lemma {:induction false} FirstMaxIsGreedy(row: Row, i: nat)
    requires FirstMax(row, i)
    ensures i == Greedy(row)
  {
    GreedyIsFirstMax(row);
  }

  /** A row whose greedy token is g. */
  function Peak(vocab: nat, g: nat): (row: Row)
    requires g < vocab
    ensures |row| == vocab && Greedy(row) == g
  {
    var row: Row := seq(vocab, i requires 0 <= i < vocab => if i == g then 1.0 else 0.0);
    FirstMaxIsGreedy(row, g);
    row
  }

  method ArgmaxFloat32(values: Row) returns (maxIdx: nat)
    ensures maxIdx == Greedy(values) && (values != [] ==> FirstMax(values, maxIdx))
  {
    if |values| == 0 {
      return 0;
    }
    maxIdx := 0;
    var maxVal := values[0];
    var i := 0;
    while i < |values|
      invariant 0 <= i <= |values|
      invariant maxIdx < |values| && maxIdx <= i && maxVal == values[maxIdx]
      invariant forall j :: 0 <= j < i ==> values[j] <= maxVal
      invariant forall j :: 0 <= j < maxIdx ==> values[j] < maxVal
    {
      if values[i] > maxVal {
        maxVal := values[i];
        maxIdx := i;
      }
      i := i + 1;
    }
    FirstMaxIsGreedy(values, maxIdx);
  }

  /** sampler.Sample at temperature 0. */
  method Argmax(logits: Row) returns (maxIdx: nat)
    ensures maxIdx == Greedy(logits) && (logits != [] ==> FirstMax(logits, maxIdx))
  {
    var maxVal: Logit := -MAX_FLOAT32;
    maxIdx := 0;
    var i := 0;
    while i < |logits|
      invariant 0 <= i <= |logits|
      invariant if maxVal > -MAX_FLOAT32 then maxIdx < i && maxVal == logits[maxIdx] else maxIdx == 0
      invariant forall j :: 0 <= j < i ==> logits[j] <= maxVal
      invariant forall j :: 0 <= j < maxIdx ==> logits[j] < maxVal
    {
      if logits[i] > maxVal {
        maxVal := logits[i];
        maxIdx := i;
      }
      i := i + 1;
    }
    if |logits| > 0 {
      FirstMaxIsGreedy(logits, maxIdx);
    }
  }

  /** A cap never reverses an order, but rounding and saturation may make two logits equal. */
  ghost predicate Nondecreasing(f: Logit -> Logit) {
    forall x: Logit, y: Logit :: x <= y ==> f(x) <= f(y)
  }

  /** Capping makes the greedy token's logit equal to that of an earlier token. */
  ghost predicate CapTies(f: Logit -> Logit, row: Row) {
    exists j :: 0 <= j < Greedy(row) && row != [] && f(row[j]) == f(row[Greedy(row)])
  }

  function MapRow(f: Logit -> Logit, row: Row): (r: Row)
    ensures |r| == |row| && forall i :: 0 <= i < |row| ==> r[i] == f(row[i])
  {
    seq(|row|, i requires 0 <= i < |row| => f(row[i]))
  }

  /** The final soft cap is applied on some paths and not on others; it keeps the greedy choice exactly when it
      does not lift an earlier token to the same value. */
  lemma {:induction false} SoftCapKeepsGreedyIff(f: Logit -> Logit, row: Row)
    requires Nondecreasing(f)
    ensures Greedy(MapRow(f, row)) == Greedy(row) <==> !CapTies(f, row)
  {
    if row != [] {
      var g := Greedy(row);
      GreedyIsFirstMax(row);
      GreedyIsFirstMax(MapRow(f, row));
      assert forall j :: 0 <= j < |row| ==> f(row[j]) <= f(row[g]);
      if CapTies(f, row) {
        var j :| 0 <= j < g && f(row[j]) == f(row[g]);
        assert MapRow(f, row)[j] == MapRow(f, row)[g];
      } else {
        FirstMaxIsGreedy(MapRow(f, row), g);
      }
    }
  }
}
