/** The two circular windows: training samples (inference/medusa/buffer.go) and acceptance rates
    (inference/scheduler/adaptive_draft.go).  Both hold exactly the recent past. */
module Windows {
  import opened Ratios
  import opened Collections

  /** The last n elements, or all if there are fewer. */
  function Last<T>(past: seq<T>, n: nat): (r: seq<T>)
    ensures |r| == if |past| < n then |past| else n
  {
    if |past| < n then past else past[|past| - n..]
  }

  lemma {:induction false} ModStep(i: nat, n: nat)
    requires i < n
    ensures (i + 1) % n == if i + 1 == n then 0 else i + 1
  {
  }

  /** A circular array holds the last n elements of a past, oldest first from head, or from 0 while filling. */
  ghost predicate Circular<T>(slots: seq<T>, head: nat, count: nat, past: seq<T>) {
    && |slots| > 0 && head < |slots| && count == |Last(past, |slots|)|
    && (count < |slots| ==> head == count && slots[..count] == past)
    && (count == |slots| ==> slots[head..] + slots[..head] == Last(past, |slots|))
  }

  lemma {:induction false} Advance<T>(slots: seq<T>, head: nat, count: nat, past: seq<T>, x: T)
    requires Circular(slots, head, count, past)
    ensures Circular(slots[head := x], (head + 1) % |slots|, if count < |slots| then count + 1 else count, past + [x])
  {
    var n := |slots|;
    ModStep(head, n);
    var after := slots[head := x];
    if count < n {
      assert after[..head + 1] == past + [x];
      if head + 1 == n { assert after[0..] + after[..0] == Last(past + [x], n); }
    } else {
      assert Last(past + [x], n) == Last(past, n)[1..] + [x];
      assert Last(past, n)[1..] == slots[head + 1..] + slots[..head];
      if head + 1 == n {
        assert after[0..] + after[..0] == slots[..head] + [x];
      } else {
        assert after[head + 1..] + after[..head + 1] == slots[head + 1..] + slots[..head] + [x];
      }
    }
  }

  lemma {:induction false} AdvanceTo<T>(slots: seq<T>, head: nat, count: nat, past: seq<T>, x: T, next: nat)
    requires Circular(slots, head, count, past) && next == if head + 1 == |slots| then 0 else head + 1
    ensures Circular(slots[head := x], next, if count < |slots| then count + 1 else count, past + [x])
  {
    ModStep(head, |slots|);
    Advance(slots, head, count, past, x);
  }

  /** The i-th oldest element, as the code finds it. */
  lemma {:induction false} Oldest<T>(slots: seq<T>, head: nat, count: nat, past: seq<T>, i: nat)
    requires Circular(slots, head, count, past) && i < count
    ensures var at := (head - count + i + |slots|) % |slots|;
            0 <= at < |slots| && slots[at] == Last(past, |slots|)[i]
  {
    var n := |slots|;
    if count < n {
      assert head - count + i + n == i + n;
      Wraps(i, n);
      assert slots[..count][i] == slots[i];
    } else {
      Wraps(if head + i < n then head + i else head + i - n, n);
      assert (slots[head..] + slots[..head])[i] == if head + i < n then slots[head + i] else slots[head + i - n];
    }
  }

  lemma {:induction false} Wraps(i: nat, n: nat)
    requires i < n
    ensures i % n == i && (i + n) % n == i
  {
  }

  lemma {:induction false} OneMore<T>(past: seq<T>, batch: seq<T>, i: nat)
    requires i < |batch|
    ensures past + batch[..i] + [batch[i]] == past + batch[..i + 1]
  {
  }

  // ---------------------------------------------------------------- training samples

  datatype TrainingSample = TrainingSample(hidden: seq<real>, future: seq<int>, position: int)

  class RingBuffer {
    var samples: seq<TrainingSample>
    const capacity: nat
    var head: nat
    var count: nat
    ghost var past: seq<TrainingSample>     // everything added since the last Clear

    ghost predicate Valid()
      reads this
    {
      |samples| == capacity && Circular(samples, head, count, past)
    }

    constructor (capacity: nat)
      requires capacity > 0
      ensures Valid() && this.capacity == capacity && past == []
    {
      this.capacity := capacity;
      samples := seq(capacity, i => TrainingSample([], [], 0));
      head, count, past := 0, 0, [];
    }

    method Add(sample: TrainingSample)
      requires Valid()
      modifies this
      ensures Valid() && past == old(past) + [sample]
    {
      ModStep(head, capacity);
      Advance(samples, head, count, past, sample);
      samples := samples[head := sample];
      head := (head + 1) % capacity;
      if count < capacity {
        count := count + 1;
      }
      past := past + [sample];
    }

    method AddBatch(batch: seq<TrainingSample>)
      requires Valid()
      modifies this
      ensures Valid() && past == old(past) + batch
    {
      var i := 0;
      while i < |batch|
        invariant 0 <= i <= |batch| && Valid() && past == old(past) + batch[..i]
      {
        Add(batch[i]);
        OneMore(old(past), batch, i);
        i := i + 1;
      }
      assert batch[..i] == batch;
    }

    method Clear()
      requires Valid()
      modifies this
      ensures Valid() && past == []
    {
      head, count := 0, 0;
      past := [];
    }

    /** The i-th oldest sample, from its place in the array. */
    method At(i: nat) returns (sample: TrainingSample)
      requires Valid() && i < count
      ensures i < |Last(past, capacity)| && sample == Last(past, capacity)[i]
    {
      Oldest(samples, head, count, past, i);
      var physicalIdx := (head - count + i + capacity) % capacity;
      sample := samples[physicalIdx];
    }

    /** The last `capacity` samples, oldest first. */
    method GetAll() returns (result: seq<TrainingSample>)
      requires Valid()
      ensures result == Last(past, capacity)
    {
      result := [];
      var i := 0;
      while i < count
        invariant 0 <= i <= count && result == Last(past, capacity)[..i]
      {
        var sample := At(i);
        result := result + [sample];
        i := i + 1;
      }
    }

    /** As many recent samples as asked for, or all: those at the first different indices that a source of
        randomness yields.  `draws` are its answers; the code keeps drawing until they suffice. */
    method Sample(batchSize: nat, draws: seq<nat>) returns (batch: seq<TrainingSample>)
      requires Valid() && forall i :: 0 <= i < |draws| ==> draws[i] < count
      requires (if batchSize < count then batchSize else count) <= |Firsts(draws)|
      ensures |batch| == if batchSize < count then batchSize else count
      ensures Distinct(Firsts(draws)[..|batch|])
      ensures forall i :: 0 <= i < |batch| ==>
                Firsts(draws)[i] < count && batch[i] == Last(past, capacity)[Firsts(draws)[i]]
    {
      var size := if batchSize < count then batchSize else count;
      batch := [];
      var indices: set<nat> := {};
      var i := 0;
      FirstsDistinct(draws);
      assert draws[..0] == [] && draws[..|draws|] == draws;
      while |batch| < size
        invariant 0 <= i <= |draws| && |batch| <= size
        invariant indices == set p | p in Firsts(draws[..i])
        invariant PickedBy(batch, Last(past, capacity), Firsts(draws[..i]))
        decreases |draws| - i
      {
        assert i < |draws|;
        FirstsSnoc(draws, i);
        indices, batch := Pick(draws[i], indices, batch, Firsts(draws[..i]));
        i := i + 1;
      }
      FirstsPrefix(draws, i);
    }

    /** One draw: an index not drawn before adds its sample. */
    method Pick(idx: nat, indices: set<nat>, batch: seq<TrainingSample>, ghost firsts: seq<nat>)
      returns (drawn: set<nat>, picked: seq<TrainingSample>)
      requires Valid() && idx < count
      requires indices == set p | p in firsts
      requires PickedBy(batch, Last(past, capacity), firsts)
      ensures drawn == set p | p in WithNew(firsts, idx)
      ensures PickedBy(picked, Last(past, capacity), WithNew(firsts, idx))
      ensures |batch| <= |picked| <= |batch| + 1
    {
      drawn, picked := indices, batch;
      if idx !in indices {
        drawn := indices + {idx};
        var sample := At(idx);
        picked := batch + [sample];
      }
    }
  }

  /** The elements of a list at the given indices. */
  ghost predicate PickedBy<T>(batch: seq<T>, all: seq<T>, ids: seq<nat>) {
    |batch| == |ids| && forall k :: 0 <= k < |batch| ==> ids[k] < |all| && batch[k] == all[ids[k]]
  }

  lemma {:induction false} FirstsSnoc(draws: seq<nat>, i: nat)
    requires i < |draws|
    ensures Firsts(draws[..i + 1]) == WithNew(Firsts(draws[..i]), draws[i])
  {
    assert draws[..i + 1][..i] == draws[..i];
  }

  /** The different values of a sequence, in the order of their first occurrence. */
  function Firsts(draws: seq<nat>): seq<nat> {
    if draws == [] then [] else WithNew(Firsts(draws[..|draws| - 1]), draws[|draws| - 1])
  }

  function WithNew(firsts: seq<nat>, idx: nat): seq<nat> {
    if idx in firsts then firsts else firsts + [idx]
  }

  /** Exactly the values drawn, the first one in front; all draws if they are different. */
  lemma {:induction false} FirstsAre(draws: seq<nat>)
    ensures forall x :: x in Firsts(draws) <==> x in draws
    ensures draws != [] ==> Firsts(draws) != [] && Firsts(draws)[0] == draws[0]
    ensures Distinct(draws) ==> Firsts(draws) == draws
  {
    if draws != [] {
      var front := draws[..|draws| - 1];
      assert draws == front + [draws[|draws| - 1]];
      FirstsAre(front);
    }
  }

  lemma {:induction false} FirstsDistinct(draws: seq<nat>)
    ensures Distinct(Firsts(draws))
  {
    if draws != [] { FirstsDistinct(draws[..|draws| - 1]); }
  }

  lemma {:induction false} FirstsPrefix(draws: seq<nat>, i: nat)
    requires i <= |draws|
    ensures Firsts(draws[..i]) <= Firsts(draws)
  {
    if i == |draws| {
      assert draws[..i] == draws;
    } else {
      FirstsPrefix(draws[..|draws| - 1], i);
      assert draws[..|draws| - 1][..i] == draws[..i];
    }
  }

  // ---------------------------------------------------------------- acceptance rates

  datatype AdaptiveConfig = AdaptiveConfig(initial: int, minDraft: int, maxDraft: int, windowSize: nat,
                                           increase: real, decrease: real)

  datatype Step = Step(accepted: int, drafted: int) {
    function Rate(): real {
      if drafted > 0 then (accepted as real) / (drafted as real) else 0.0
    }
  }

  function SumRates(steps: seq<Step>): real {
    if steps == [] then 0.0 else SumRates(steps[..|steps| - 1]) + steps[|steps| - 1].Rate()
  }

  function Average(steps: seq<Step>): real {
    if steps == [] then 0.0 else SumRates(steps) / (|steps| as real)
  }

  /** A quotient is on the side of a bound that its numerator is on. */
  lemma {:induction false} QuotientBound(a: real, n: real, q: real)
    requires n > 0.0
    ensures (a / n) * n == a
    ensures a >= q * n ==> a / n >= q
    ensures a <= q * n ==> a / n <= q
  {
    var p := a / n;
    assert p * n == a;
    if p < q { Less(p, q, n); }
    if p > q { Less(q, p, n); }
  }

  lemma {:induction false} Quotient(a: real, n: real)
    requires n > 0.0
    ensures (a / n) * n == a && (a >= 0.0 ==> a / n >= 0.0) && (a <= n ==> a / n <= 1.0) && (a == n ==> a / n == 1.0)
  {
    QuotientBound(a, n, 0.0);
    QuotientBound(a, n, 1.0);
  }

  lemma {:induction false} QuotientGrows(a: real, b: real, n: real)
    requires n > 0.0 && a >= b
    ensures a / n >= b / n
  {
    QuotientBound(b, n, 0.0);
    QuotientBound(a, n, b / n);
  }

  /** The rate is the accepted share of what was drafted. */
  lemma {:induction false} RateIs(s: Step)
    ensures s.drafted > 0 ==> s.Rate() * (s.drafted as real) == s.accepted as real
    ensures s.drafted <= 0 ==> s.Rate() == 0.0
    ensures 0 <= s.accepted <= s.drafted ==> 0.0 <= s.Rate() <= 1.0
    ensures 0 < s.accepted == s.drafted ==> s.Rate() == 1.0
  {
    if s.drafted > 0 { Quotient(s.accepted as real, s.drafted as real); }
  }

  /** As many drafted at each place, and at least as many accepted. */
  ghost predicate AtLeast(a: seq<Step>, b: seq<Step>) {
    |a| == |b| && forall i :: 0 <= i < |a| ==> a[i].drafted == b[i].drafted && a[i].accepted >= b[i].accepted
  }

  lemma {:induction false} RateGrows(a: Step, b: Step)
    requires a.drafted == b.drafted && a.accepted >= b.accepted
    ensures a.Rate() >= b.Rate()
  {
    if a.drafted > 0 { QuotientGrows(a.accepted as real, b.accepted as real, a.drafted as real); }
  }

  lemma {:induction false} SumGrows(a: seq<Step>, b: seq<Step>)
    requires AtLeast(a, b)
    ensures SumRates(a) >= SumRates(b)
  {
    if a != [] {
      SumGrows(a[..|a| - 1], b[..|b| - 1]);
      RateGrows(a[|a| - 1], b[|b| - 1]);
    }
  }

  lemma {:induction false} SumBounds(steps: seq<Step>)
    ensures (forall s :: s in steps ==> 0 <= s.accepted <= s.drafted) ==> 0.0 <= SumRates(steps) <= |steps| as real
    ensures (forall s :: s in steps ==> 0 < s.accepted == s.drafted) ==> SumRates(steps) == |steps| as real
  {
    if steps != [] {
      var last := steps[|steps| - 1];
      SumBounds(steps[..|steps| - 1]);
      RateIs(last);
      assert last in steps;
    }
  }

  /** The average over some steps: between 0 and 1, 1 if every draft was accepted in full, 0 if nothing was, and no less
      if more is accepted. */
  lemma {:induction false} AverageIs(steps: seq<Step>)
    requires steps != []
    ensures Average(steps) * (|steps| as real) == SumRates(steps)
    ensures (forall s :: s in steps ==> 0 <= s.accepted <= s.drafted) ==> 0.0 <= Average(steps) <= 1.0
    ensures (forall s :: s in steps ==> 0 < s.accepted == s.drafted) ==> Average(steps) == 1.0
    ensures forall more :: AtLeast(more, steps) ==> Average(more) >= Average(steps)
  {
    SumBounds(steps);
    Quotient(SumRates(steps), |steps| as real);
    forall more | AtLeast(more, steps) ensures Average(more) >= Average(steps) {
      SumGrows(more, steps);
      QuotientGrows(SumRates(more), SumRates(steps), |steps| as real);
    }
  }

  lemma {:induction false} SumConcat(a: seq<Step>, b: seq<Step>)
    ensures SumRates(a + b) == SumRates(a) + SumRates(b) && forall s: Step :: SumRates([s]) == s.Rate()
  {
    if b == [] {
      assert a + b == a;
    } else {
      assert (a + b)[..|a + b| - 1] == a + b[..|b| - 1];
      SumConcat(a, b[..|b| - 1]);
    }
  }

  /** The sum over the array is the sum over the window, whatever the rotation. */
  lemma {:induction false} SumCircular(slots: seq<Step>, head: nat, count: nat, past: seq<Step>)
    requires Circular(slots, head, count, past)
    ensures SumRates(slots[..count]) == SumRates(Last(past, |slots|))
  {
    if count == |slots| {
      assert slots[..count] == slots[..head] + slots[head..];
      SumRotated(slots[..head], slots[head..]);
    }
  }

  lemma {:induction false} SumRotated(a: seq<Step>, b: seq<Step>)
    ensures SumRates(a + b) == SumRates(b + a)
  {
    SumConcat(a, b);
    SumConcat(b, a);
  }

  /** How a full window with this average moves the draft length. */
  function Adjusted(c: AdaptiveConfig, current: int, rate: real): int {
    var moved := if rate > c.increase then current + 1 else if rate < c.decrease then current - 1 else current;
    var atLeast := if moved < c.minDraft then c.minDraft else moved;
    if atLeast > c.maxDraft then c.maxDraft else atLeast
  }

  /** From within the bounds it stays within them and moves by at most one. */
  lemma {:induction false} AdjustedStays(c: AdaptiveConfig, current: int, rate: real)
    requires c.minDraft <= current <= c.maxDraft
    ensures c.minDraft <= Adjusted(c, current, rate) <= c.maxDraft
    ensures -1 <= Adjusted(c, current, rate) - current <= 1
    ensures Adjusted(c, current, rate) > current ==> rate > c.increase
    ensures Adjusted(c, current, rate) < current ==> rate < c.decrease
    ensures rate > c.increase && current < c.maxDraft ==> Adjusted(c, current, rate) == current + 1
    ensures rate <= c.increase && rate < c.decrease && c.minDraft < current ==>
              Adjusted(c, current, rate) == current - 1
  {
  }

  class AdaptiveDraftLength {
    const config: AdaptiveConfig
    var current: int
    var window: seq<Step>
    var head: nat
    var count: nat
    ghost var past: seq<Step>     // all steps that drafted something

    ghost predicate Valid()
      reads this
    {
      |window| == config.windowSize && Circular(window, head, count, past)
    }

    constructor (config: AdaptiveConfig)
      requires config.windowSize > 0
      ensures Valid() && this.config == config && current == config.initial && past == []
    {
      this.config, current := config, config.initial;
      window := seq(config.windowSize, i => Step(0, 0));
      head, count, past := 0, 0, [];
    }

    method Push(step: Step)
      requires Valid()
      modifies this`window, this`head, this`count, this`past
      ensures Valid() && past == old(past) + [step]
    {
      ModStep(head, |window|);
      Advance(window, head, count, past, step);
      window := window[head := step];
      head := (head + 1) % config.windowSize;
      if count < config.windowSize {
        count := count + 1;
      }
      past := past + [step];
    }

    method WindowRate() returns (rate: real)
      requires Valid()
      ensures rate == Average(Last(past, config.windowSize))
    {
      if count == 0 {
        return 0.0;
      }
      var sum := 0.0;
      var i := 0;
      while i < count
        invariant 0 <= i <= count && sum == SumRates(window[..i])
      {
        assert window[..i + 1][..i] == window[..i];
        var e := window[i];
        if e.drafted > 0 {
          sum := sum + (e.accepted as real) / (e.drafted as real);
        }
        i := i + 1;
      }
      SumCircular(window, head, count, past);
      rate := sum / (count as real);
    }

    /** Steps without drafts are ignored; the length is adjusted once the window is full, by the average over
        exactly the last windowSize steps. */
    method RecordStep(accepted: int, drafted: int)
      requires Valid()
      modifies this
      ensures Valid() && past == if drafted <= 0 then old(past) else old(past) + [Step(accepted, drafted)]
      ensures current ==
        if drafted <= 0 || |past| < config.windowSize then old(current)
        else Adjusted(config, old(current), Average(Last(past, config.windowSize)))
    {
      if drafted <= 0 {
        return;
      }
      Push(Step(accepted, drafted));
      if count < config.windowSize {
        return;
      }
      var rate := WindowRate();
      Adjust(rate);
    }

    method Adjust(rate: real)
      modifies this`current
      ensures current == Adjusted(config, old(current), rate)
    {
      if rate > config.increase {
        current := current + 1;
      } else if rate < config.decrease {
        current := current - 1;
      }
      if current < config.minDraft {
        current := config.minDraft;
      }
      if current > config.maxDraft {
        current := config.maxDraft;
      }
    }
  }
}
