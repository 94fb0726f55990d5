/** Many sequences at once (inference/scheduler/scheduler.go): which are ready, which form the next batch, and one
    decode step over a batch on the paged cache, where every sequence has its own log of cached tokens. */
module Batching {
  import opened Arithmetic
  import opened Collections
  import opened Flattening
  import opened Sampling
  import opened Sequences
  import opened Speculation
  import opened Transparency

  type Confs = map<int, Conf>

  /** The choice from a row.  A single sequence's token is chosen on the device; with more, the rows are copied back
      and capped first. */
  function Chosen(m: Model, row: Row, many: bool): int {
    Greedy(if many then MapRow(m.softCap, row) else row)
  }

  /** The row for a sequence's input token. */
  function RowOfConf(m: Model, c: Conf): Row {
    m.logits(InputContext(c))
  }

  /** Its cache with the input token. */
  function FedOf(c: Conf): Log {
    c.cache.Feed([c.view.Input().0], c.view.Input().1)
  }

  function DecodedAmong(m: Model, lim: Limits, c: Conf, many: bool): Conf {
    if c.view.CanDecode() then Conf(Emit(c.view, Chosen(m, RowOfConf(m, c), many), lim), FedOf(c)) else c
  }

  /** A sequence after its prefill, if it needs one. */
  function AfterPrefill(m: Model, lim: Limits, c: Conf): Conf {
    if c.view.NeedsPrefill() then Prefilled(m, lim, c) else c
  }

  function Prefills(m: Model, lims: map<int, Limits>, confs: Confs, batch: seq<int>): (after: Confs)
    requires confs.Keys <= lims.Keys
    ensures after.Keys == confs.Keys
  {
    map id | id in confs :: if id in batch then AfterPrefill(m, lims[id], confs[id]) else confs[id]
  }

  /** The sequences of a batch that decode. */
  function Decoders(confs: Confs, batch: seq<int>): (decoding: seq<int>)
    ensures forall id :: id in decoding <==> id in batch && id in confs && confs[id].view.CanDecode()
    ensures Distinct(batch) ==> Distinct(decoding)
  {
    if batch == [] then []
    else
      var id := batch[|batch| - 1];
      Decoders(confs, batch[..|batch| - 1]) + if id in confs && confs[id].view.CanDecode() then [id] else []
  }

  function DecodedEach(m: Model, lims: map<int, Limits>, confs: Confs, ids: seq<int>, many: bool): (after: Confs)
    requires confs.Keys <= lims.Keys
    ensures after.Keys == confs.Keys
  {
    map id | id in confs :: if id in ids then DecodedAmong(m, lims[id], confs[id], many) else confs[id]
  }

  /** Every sequence of the batch is prefilled if it must be, and then decodes if it can. */
  function BatchStep(m: Model, lims: map<int, Limits>, confs: Confs, batch: seq<int>): (after: Confs)
    requires confs.Keys <= lims.Keys
    ensures after.Keys == confs.Keys
  {
    var p := Prefills(m, lims, confs, batch);
    var decoding := Decoders(p, batch);
    DecodedEach(m, lims, p, decoding, |decoding| > 1)
  }

  class Scheduler {
    const m: Model
    const maxBatchSize: nat
    var confs: Confs
    var lims: map<int, Limits>

    ghost predicate Valid()
      reads this
    {
      ValidModel(m) && confs.Keys <= lims.Keys
    }

    constructor (m: Model, maxBatchSize: nat)
      requires ValidModel(m)
      ensures Valid() && this.m == m && this.maxBatchSize == maxBatchSize && confs == map[]
    {
      this.m, this.maxBatchSize := m, maxBatchSize;
      confs, lims := map[], map[];
    }

    /** The sequences that have not finished, in any order. */
    method CollectReady() returns (ready: seq<int>)
      ensures Distinct(ready) && forall id :: id in ready <==> id in confs && confs[id].view.state != Finished
    {
      ready := [];
      var ids := confs.Keys;
      while ids != {}
        invariant ids <= confs.Keys && Distinct(ready)
        invariant forall id :: id in ready <==> id in confs && id !in ids && confs[id].view.state != Finished
        decreases |ids|
      {
        EmptyOrNot(ids);
        var id :| id in ids;
        if confs[id].view.state != Finished {
          ready := ready + [id];
        }
        ids := ids - {id};
      }
    }

    method FormBatches(ready: seq<int>) returns (batch: seq<int>)
      ensures batch <= ready && |batch| == if |ready| <= maxBatchSize then |ready| else maxBatchSize
    {
      if |ready| <= maxBatchSize {
        return ready;
      }
      return ready[..maxBatchSize];
    }

    /** First the prefills of the batch, then one pass for everything that can decode, its logits one row
        after the other, then a token for each. */
    method RunDecodeStep(batch: seq<int>)
      requires Valid() && Distinct(batch) && forall id :: id in batch ==> id in confs
      modifies this`confs
      ensures Valid() && confs == BatchStep(m, lims, old(confs), batch)
    {
      RunPrefills(batch);
      var decoding := Decodable(batch);
      confs := DecodeAll(decoding);
    }

    method DecodeAll(decoding: seq<int>) returns (after: Confs)
      requires Valid() && Distinct(decoding)
      requires forall i :: 0 <= i < |decoding| ==> decoding[i] in confs && confs[decoding[i]].view.CanDecode()
      ensures after == DecodedEach(m, lims, confs, decoding, |decoding| > 1)
    {
      var fed := FeedAll(decoding);
      var logits := AllRows(decoding);
      if |decoding| > 1 {
        logits := MapRow(m.softCap, logits);
      }
      after := EmitEach(decoding, fed, logits);
    }

    method RunPrefills(batch: seq<int>)
      requires Valid() && Distinct(batch) && forall id :: id in batch ==> id in confs
      modifies this`confs
      ensures Valid() && confs == Prefills(m, lims, old(confs), batch)
    {
      ghost var before := confs;
      PrefillsNone(m, lims, before);
      var i := 0;
      while i < |batch|
        invariant 0 <= i <= |batch| && Valid() && confs.Keys == before.Keys
        invariant batch[..0] == [] && confs == Prefills(m, lims, before, batch[..i])
      {
        var id := batch[i];
        PrefillsSnoc(m, lims, before, batch, i);
        if confs[id].view.NeedsPrefill() {
          confs := confs[id := Prefilled(m, lims[id], confs[id])];
        }
        i := i + 1;
      }
      assert batch[..i] == batch;
    }

    method Decodable(batch: seq<int>) returns (decoding: seq<int>)
      requires Distinct(batch) && forall id :: id in batch ==> id in confs
      ensures decoding == Decoders(confs, batch)
      ensures forall i :: 0 <= i < |decoding| ==> decoding[i] in confs && confs[decoding[i]].view.CanDecode()
    {
      decoding := [];
      var i := 0;
      while i < |batch|
        invariant 0 <= i <= |batch| && decoding == Decoders(confs, batch[..i])
      {
        var id := batch[i];
        assert id in batch;
        DecodersSnoc(confs, batch, i);
        if confs[id].view.CanDecode() {
          decoding := decoding + [id];
        }
        i := i + 1;
      }
      assert batch[..i] == batch;
      DecodersCan(confs, batch);
    }

    /** Every sequence's input token goes into its own cache, */
    method FeedAll(decoding: seq<int>) returns (fed: seq<Log>)
      requires forall i :: 0 <= i < |decoding| ==> decoding[i] in confs
      ensures fed == FedFor(confs, decoding)
    {
      fed := [];
      ghost var feds := FedFor(confs, decoding);
      var i := 0;
      while i < |decoding|
        invariant 0 <= i <= |decoding| && fed == feds[..i]
      {
        fed := fed + [FedOf(confs[decoding[i]])];
        assert feds[..i + 1] == feds[..i] + [feds[i]];
        i := i + 1;
      }
      assert feds[..i] == feds;
    }

    /** and gets a row, all of them in one buffer. */
    method AllRows(decoding: seq<int>) returns (logits: Row)
      requires forall i :: 0 <= i < |decoding| ==> decoding[i] in confs
      ensures logits == Flatten(RowsFor(m, confs, decoding))
    {
      logits := [];
      ghost var rows := RowsFor(m, confs, decoding);
      var i := 0;
      while i < |decoding|
        invariant 0 <= i <= |decoding| && logits == Flatten(rows[..i])
      {
        FlattenSnoc(rows, i);
        logits := logits + RowOfConf(m, confs[decoding[i]]);
        i := i + 1;
      }
      assert rows[..i] == rows;
    }

    method SampleRow(ghost rows: seq<Row>, logits: Row, i: nat) returns (tokenID: int)
      requires Valid() && i < |rows| && Uniform(rows, m.vocab) && logits == Readable(m, rows)
      ensures tokenID == Chosen(m, rows[i], |rows| > 1)
    {
      var start := i * m.vocab;
      ChosenBySlice(m, rows, i, start);
      tokenID := SampleSlice(logits, start);
    }

    method SampleSlice(logits: Row, start: nat) returns (tokenID: int)
      requires start + m.vocab <= |logits|
      ensures tokenID == Greedy(logits[start..start + m.vocab])
    {
      tokenID := Argmax(logits[start..start + m.vocab]);
    }

    /** The sampling loop: sequence i is given row i. */
    method EmitEach(decoding: seq<int>, fed: seq<Log>, logits: Row) returns (after: Confs)
      requires Valid() && Distinct(decoding)
      requires forall i :: 0 <= i < |decoding| ==> decoding[i] in confs && confs[decoding[i]].view.CanDecode()
      requires fed == FedFor(confs, decoding) && logits == Readable(m, RowsFor(m, confs, decoding))
      ensures after == DecodedEach(m, lims, confs, decoding, |decoding| > 1)
    {
      after := confs;
      ghost var rows := RowsFor(m, confs, decoding);
      RowsForUniform(m, confs, decoding);
      DecodedNone(m, lims, confs, |decoding| > 1);
      var i := 0;
      while i < |decoding|
        invariant 0 <= i <= |decoding| && decoding[..0] == []
        invariant after == DecodedEach(m, lims, confs, decoding[..i], |decoding| > 1)
      {
        var id := decoding[i];
        var tokenID := SampleRow(rows, logits, i);
        DecodedSnoc(m, lims, confs, decoding, i, |decoding| > 1, tokenID, fed[i]);
        after := after[id := Conf(Emit(confs[id].view, tokenID, lims[id]), fed[i])];
        i := i + 1;
      }
      assert decoding[..i] == decoding;
    }

    method DropFinished()
      modifies this`confs
      ensures confs == Unfinished(old(confs))
    {
      confs := Unfinished(confs);
    }

    /** One iteration of the main loop; with an empty batch the finished sequences are dropped. */
    method Step() returns (batch: seq<int>)
      requires Valid()
      modifies this`confs
      ensures Valid() && Distinct(batch) && |batch| <= maxBatchSize
      ensures forall id :: id in batch ==> id in old(confs) && old(confs)[id].view.state != Finished
      ensures confs == if batch == [] then Unfinished(old(confs)) else BatchStep(m, lims, old(confs), batch)
      ensures batch == [] && maxBatchSize > 0 ==> Unfinished(old(confs)) == map[]
    {
      var ready := CollectReady();
      batch := FormBatches(ready);
      if |batch| == 0 {
        if maxBatchSize > 0 {
          forall id | id in confs ensures confs[id].view.state == Finished { assert id !in ready; }
          assert Unfinished(confs).Keys == {};
        }
        DropFinished();
        return;
      }
      assert forall id :: id in batch ==> id in ready;
      RunDecodeStep(batch);
    }
  }

  function Unfinished(confs: Confs): Confs {
    map id | id in confs && confs[id].view.state != Finished :: confs[id]
  }

  /** The buffer the rows are read from. */
  ghost function Readable(m: Model, rows: seq<Row>): Row {
    if |rows| > 1 then MapRow(m.softCap, Flatten(rows)) else Flatten(rows)
  }

  ghost function RowsFor(m: Model, confs: Confs, ids: seq<int>): (rows: seq<Row>)
    requires forall i :: 0 <= i < |ids| ==> ids[i] in confs
    ensures |rows| == |ids| && forall i :: 0 <= i < |ids| ==> rows[i] == RowOfConf(m, confs[ids[i]])
  {
    seq(|ids|, i requires 0 <= i < |ids| => RowOfConf(m, confs[ids[i]]))
  }

  lemma {:induction false} PrefillsNone(m: Model, lims: map<int, Limits>, confs: Confs)
    requires confs.Keys <= lims.Keys
    ensures Prefills(m, lims, confs, []) == confs
  {
  }

  lemma {:induction false} PrefillsSnoc(m: Model, lims: map<int, Limits>, confs: Confs, batch: seq<int>, i: nat)
    requires confs.Keys <= lims.Keys && Distinct(batch) && i < |batch| && batch[i] in confs
    ensures var id, before := batch[i], Prefills(m, lims, confs, batch[..i]);
            && before[id] == confs[id]
            && before[id := AfterPrefill(m, lims[id], confs[id])] == Prefills(m, lims, confs, batch[..i + 1])
            && (!confs[id].view.NeedsPrefill() ==> before == Prefills(m, lims, confs, batch[..i + 1]))
  {
    var id, before := batch[i], Prefills(m, lims, confs, batch[..i]);
    assert batch[..i + 1] == batch[..i] + [id];
    assert before[id := AfterPrefill(m, lims[id], confs[id])] == Prefills(m, lims, confs, batch[..i + 1]);
  }

  lemma {:induction false} DecodersSnoc(confs: Confs, batch: seq<int>, i: nat)
    requires i < |batch|
    ensures Decoders(confs, batch[..i + 1]) ==
            Decoders(confs, batch[..i]) +
            if batch[i] in confs && confs[batch[i]].view.CanDecode() then [batch[i]] else []
  {
    assert batch[..i + 1][..i] == batch[..i];
  }

  lemma {:induction false} DecodersCan(confs: Confs, batch: seq<int>)
    ensures var ids := Decoders(confs, batch);
            forall k :: 0 <= k < |ids| ==> ids[k] in confs && confs[ids[k]].view.CanDecode()
  {
    var ids := Decoders(confs, batch);
    forall k | 0 <= k < |ids| ensures ids[k] in confs && confs[ids[k]].view.CanDecode() { assert ids[k] in ids; }
  }

  lemma {:induction false} DecodedNone(m: Model, lims: map<int, Limits>, confs: Confs, many: bool)
    requires confs.Keys <= lims.Keys
    ensures DecodedEach(m, lims, confs, [], many) == confs
  {
  }

  lemma {:induction false} DecodedSnoc(m: Model, lims: map<int, Limits>, confs: Confs, ids: seq<int>, i: nat,
                                       many: bool, tokenID: int, fed: Log)
    requires confs.Keys <= lims.Keys && i < |ids| && ids[i] in confs && confs[ids[i]].view.CanDecode()
    requires tokenID == Chosen(m, RowOfConf(m, confs[ids[i]]), many) && fed == FedOf(confs[ids[i]])
    ensures DecodedEach(m, lims, confs, ids[..i], many)
              [ids[i] := Conf(Emit(confs[ids[i]].view, tokenID, lims[ids[i]]), fed)] ==
            DecodedEach(m, lims, confs, ids[..i + 1], many)
  {
    var id := ids[i];
    assert ids[..i + 1] == ids[..i] + [id];
    assert DecodedEach(m, lims, confs, ids[..i], many)[id := DecodedAmong(m, lims[id], confs[id], many)] ==
           DecodedEach(m, lims, confs, ids[..i + 1], many);
  }

  /** The caches after the pass. */
  ghost function FedFor(confs: Confs, ids: seq<int>): (fed: seq<Log>)
    requires forall i :: 0 <= i < |ids| ==> ids[i] in confs
    ensures |fed| == |ids| && forall i :: 0 <= i < |ids| ==> fed[i] == FedOf(confs[ids[i]])
  {
    seq(|ids|, i requires 0 <= i < |ids| => FedOf(confs[ids[i]]))
  }

  lemma {:induction false} RowsForUniform(m: Model, confs: Confs, ids: seq<int>)
    requires ValidModel(m) && forall i :: 0 <= i < |ids| ==> ids[i] in confs
    ensures Uniform(RowsFor(m, confs, ids), m.vocab)
  {
    var rows := RowsFor(m, confs, ids);
    forall k | 0 <= k < |rows| ensures |rows[k]| == m.vocab { assert rows[k] == RowOfConf(m, confs[ids[k]]); }
  }

  lemma {:induction false} ReadableRow(m: Model, rows: seq<Row>, i: nat, start: nat)
    requires Uniform(rows, m.vocab) && i < |rows| && start == i * m.vocab
    ensures var flat := Readable(m, rows);
            && start + m.vocab <= |flat|
            && flat[start..start + m.vocab] == if |rows| > 1 then MapRow(m.softCap, rows[i]) else rows[i]
  {
    FlatRow(rows, m.vocab, i);
    MulSucc(i, m.vocab);
    MapSlice(m.softCap, Flatten(rows), start, start + m.vocab);
  }

  lemma {:induction false} ChosenBySlice(m: Model, rows: seq<Row>, i: nat, start: nat)
    requires Uniform(rows, m.vocab) && i < |rows| && start == i * m.vocab
    ensures var flat := Readable(m, rows);
            start + m.vocab <= |flat| && Greedy(flat[start..start + m.vocab]) == Chosen(m, rows[i], |rows| > 1)
  {
    ReadableRow(m, rows, i, start);
  }

  lemma {:induction false} MapSlice(f: Logit -> Logit, row: Row, lo: nat, hi: nat)
    requires lo <= hi <= |row|
    ensures MapRow(f, row)[lo..hi] == MapRow(f, row[lo..hi])
  {
  }

  // ---------------------------------------------------------------- runs

  function RunBatches(m: Model, lims: map<int, Limits>, confs: Confs, batches: seq<seq<int>>): (r: Confs)
    requires confs.Keys <= lims.Keys
    ensures r.Keys == confs.Keys
  {
    if batches == [] then confs
    else BatchStep(m, lims, RunBatches(m, lims, confs, batches[..|batches| - 1]), batches[|batches| - 1])
  }

  function Plains(n: nat): (choices: seq<Choice>)
    ensures |choices| == n && forall i :: 0 <= i < n ==> choices[i] == Plain
  {
    seq(n, i => Plain)
  }

  /** How many of the batches a sequence was in. */
  function Turns(batches: seq<seq<int>>, id: int): nat {
    if batches == [] then 0
    else Turns(batches[..|batches| - 1], id) + if id in batches[|batches| - 1] then 1 else 0
  }

  /** Several sequences decode in one pass, and the cap changes what one of them chooses. */
  ghost predicate TiedStep(m: Model, lims: map<int, Limits>, confs: Confs, batch: seq<int>, id: int)
    requires confs.Keys <= lims.Keys && id in confs
  {
    var p := Prefills(m, lims, confs, batch);
    && id in batch && p[id].view.CanDecode() && |Decoders(p, batch)| > 1
    && CapTies(m.softCap, RowOfConf(m, p[id]))
  }

  /** That has happened in a run. */
  ghost predicate Tied(m: Model, lims: map<int, Limits>, confs: Confs, batches: seq<seq<int>>, id: int)
    requires confs.Keys <= lims.Keys && id in confs
  {
    batches != [] &&
    var front := batches[..|batches| - 1];
    Tied(m, lims, confs, front, id) ||
    TiedStep(m, lims, RunBatches(m, lims, confs, front), batches[|batches| - 1], id)
  }

  /** The cap changes a decode exactly if several sequences decode and it ties the token with an earlier one. */
  lemma {:induction false} DecodedAmongIff(m: Model, lim: Limits, c: Conf, many: bool)
    requires Nondecreasing(m.softCap) && c.view.CanDecode()
    ensures DecodedAmong(m, lim, c, many) == Decoded(m, lim, c) <==>
            !(many && CapTies(m.softCap, RowOfConf(m, c)))
    ensures Chosen(m, RowOfConf(m, c), many) == Greedy(RowOfConf(m, c)) <==>
            !(many && CapTies(m.softCap, RowOfConf(m, c)))
  {
    var row := RowOfConf(m, c);
    SoftCapKeepsGreedyIff(m.softCap, row);
    EmitTells(c.view, Chosen(m, row, many), Greedy(row), lim);
  }

  lemma {:induction false} EmitTells(v: Snapshot, a: int, b: int, lim: Limits)
    ensures Emit(v, a, lim) == Emit(v, b, lim) <==> a == b
  {
    assert Emit(v, a, lim).generated[|v.generated|] == a;
    assert Emit(v, b, lim).generated[|v.generated|] == b;
  }

  lemma {:induction false} UntiedStepIsPlain(m: Model, lims: map<int, Limits>, confs: Confs, batch: seq<int>, id: int)
    requires Nondecreasing(m.softCap) && confs.Keys <= lims.Keys && id in confs && !TiedStep(m, lims, confs, batch, id)
    ensures BatchStep(m, lims, confs, batch)[id] ==
            if id in batch then PlainStep(m, lims[id], confs[id]) else confs[id]
  {
    var p := Prefills(m, lims, confs, batch);
    if id in batch && p[id].view.CanDecode() {
      DecodedAmongIff(m, lims[id], p[id], |Decoders(p, batch)| > 1);
    }
  }

  lemma {:induction false} OnePlainMore(m: Model, lim: Limits, c: Conf, n: nat)
    ensures Run(m, lim, c, Plains(n + 1)) == PlainStep(m, lim, Run(m, lim, c, Plains(n)))
  {
    assert Plains(n + 1)[..n] == Plains(n);
  }

  /** As long as that has not happened, a sequence is where as many plain steps on its own would leave it. */
  lemma {:induction false} TurnsArePlainSteps(m: Model, lims: map<int, Limits>, confs: Confs, batches: seq<seq<int>>,
                                              id: int)
    requires Nondecreasing(m.softCap) && confs.Keys <= lims.Keys && id in confs && !Tied(m, lims, confs, batches, id)
    ensures RunBatches(m, lims, confs, batches)[id] == Run(m, lims[id], confs[id], Plains(Turns(batches, id)))
  {
    if batches != [] {
      var front := batches[..|batches| - 1];
      TurnsArePlainSteps(m, lims, confs, front, id);
      UntiedStepIsPlain(m, lims, RunBatches(m, lims, confs, front), batches[|batches| - 1], id);
      OnePlainMore(m, lims[id], confs[id], Turns(front, id));
    }
  }

  /** Every token after the first is the target's choice after the text before it. */
  ghost predicate Continues(m: Model, prompt: seq<int>, generated: seq<int>) {
    forall i :: 1 <= i < |generated| ==> generated[i] == Next(m, prompt + generated[..i])
  }

  lemma {:induction false} ContinuesSnoc(m: Model, prompt: seq<int>, g: seq<int>, token: int)
    ensures Continues(m, prompt, g + [token]) <==>
            Continues(m, prompt, g) && (g != [] ==> token == Next(m, prompt + g))
  {
    var h := g + [token];
    assert forall i :: 0 <= i < |g| ==> h[i] == g[i] && h[..i] == g[..i];
    assert h[|g|] == token && h[..|g|] == g;
  }

  lemma {:induction false} RefContinues(m: Model, lim: Limits, prompt: seq<int>, n: nat)
    ensures Continues(m, prompt, Ref(m, lim, prompt, n).generated)
  {
    if n > 0 {
      RefContinues(m, lim, prompt, n - 1);
      RefExtends(m, lim, prompt, n);
      ContinuesOn(m, prompt, Ref(m, lim, prompt, n - 1).generated);
    }
  }

  lemma {:induction false} ContinuesOn(m: Model, prompt: seq<int>, g: seq<int>)
    requires Continues(m, prompt, g)
    ensures Continues(m, prompt, g + [Next(m, prompt + g)])
  {
    ContinuesSnoc(m, prompt, g, Next(m, prompt + g));
  }

  /** A wrong token stays in the output. */
  lemma {:induction false} StepKeepsAstray(m: Model, lims: map<int, Limits>, confs: Confs, batch: seq<int>, id: int,
                                           prompt: seq<int>)
    requires confs.Keys <= lims.Keys && id in confs && !Continues(m, prompt, confs[id].view.generated)
    ensures !Continues(m, prompt, BatchStep(m, lims, confs, batch)[id].view.generated)
  {
    if id in batch {
      var p := Prefills(m, lims, confs, batch);
      PrefillKeepsAstray(m, lims[id], confs[id], prompt);
      DecodeKeepsAstray(m, lims[id], p[id], |Decoders(p, batch)| > 1, prompt);
    }
  }

  lemma {:induction false} PrefillKeepsAstray(m: Model, lim: Limits, c: Conf, prompt: seq<int>)
    requires !Continues(m, prompt, c.view.generated)
    ensures !Continues(m, prompt, AfterPrefill(m, lim, c).view.generated)
  {
    if c.view.NeedsPrefill() {
      var row := m.logits(c.cache.Reset().Context(c.view.prompt, 0, |c.view.prompt| - 1));
      ContinuesSnoc(m, prompt, c.view.generated, Greedy(MapRow(m.softCap, row)));
    }
  }

  lemma {:induction false} DecodeKeepsAstray(m: Model, lim: Limits, c: Conf, many: bool, prompt: seq<int>)
    requires !Continues(m, prompt, c.view.generated)
    ensures !Continues(m, prompt, DecodedAmong(m, lim, c, many).view.generated)
  {
    ContinuesSnoc(m, prompt, c.view.generated, Chosen(m, RowOfConf(m, c), many));
  }

  /** From a state on the reference, a tie makes the next token a wrong one. */
  lemma {:induction false} TieGoesAstray(m: Model, lim: Limits, c: Conf)
    requires Nondecreasing(m.softCap) && Sound(c) && c.view.state == Decoding
    requires CapTies(m.softCap, RowOfConf(m, c))
    ensures !Continues(m, c.view.prompt, DecodedAmong(m, lim, c, true).view.generated)
  {
    DecodedFollowsRef(m, lim, c);
    DecodedAmongIff(m, lim, c, true);
    ContinuesSnoc(m, c.view.prompt, c.view.generated, Chosen(m, RowOfConf(m, c), true));
  }

  lemma {:induction false} PrefilledDecoder(m: Model, lim: Limits, prompt: seq<int>, kind: Kind, turns: nat)
    requires prompt != [] && AfterPrefill(m, lim, Run(m, lim, Start(prompt, kind), Plains(turns))).view.CanDecode()
    ensures var p := AfterPrefill(m, lim, Run(m, lim, Start(prompt, kind), Plains(turns)));
            Sound(p) && p.view.state == Decoding && p.view.prompt == prompt
  {
    var c := Run(m, lim, Start(prompt, kind), Plains(turns));
    var n := SpeculationIsTransparent(m, lim, prompt, kind, Plains(turns));
    if turns == 0 {
      PrefilledIsRef(m, lim, c);
      RefStarted(m, lim, prompt, 0);
    } else {
      RefStarted(m, lim, prompt, n);
    }
  }

  lemma {:induction false} TiedGoesAstray(m: Model, lims: map<int, Limits>, confs: Confs, batches: seq<seq<int>>,
                                          id: int, prompt: seq<int>, kind: Kind)
    requires Nondecreasing(m.softCap) && confs.Keys <= lims.Keys && prompt != []
    requires id in confs && confs[id] == Start(prompt, kind) && Tied(m, lims, confs, batches, id)
    ensures !Continues(m, prompt, RunBatches(m, lims, confs, batches)[id].view.generated)
  {
    var front, batch := batches[..|batches| - 1], batches[|batches| - 1];
    var before := RunBatches(m, lims, confs, front);
    if Tied(m, lims, confs, front, id) {
      TiedGoesAstray(m, lims, confs, front, id, prompt, kind);
      StepKeepsAstray(m, lims, before, batch, id, prompt);
    } else {
      TurnsArePlainSteps(m, lims, confs, front, id);
      PrefilledDecoder(m, lims[id], prompt, kind, Turns(front, id));
      TieGoesAstray(m, lims[id], AfterPrefill(m, lims[id], before[id]));
    }
  }

  /** Whatever batches were formed, on whichever cache: a sequence is where greedy steps on its own would leave it
      exactly if it never decoded together with others at a text where the cap ties its token with an earlier
      one; and then it is as far as it had turns. */
  lemma {:induction false} BatchingIsTransparentIff(m: Model, lims: map<int, Limits>, confs: Confs,
                                                    batches: seq<seq<int>>, id: int, prompt: seq<int>, kind: Kind)
    returns (n: nat)
    requires Nondecreasing(m.softCap) && confs.Keys <= lims.Keys && prompt != []
    requires id in confs && confs[id] == Start(prompt, kind) && Turns(batches, id) > 0
    ensures var c := RunBatches(m, lims, confs, batches)[id];
            && (IsReference(m, lims[id], prompt, c.view) <==> !Tied(m, lims, confs, batches, id))
            && (!Tied(m, lims, confs, batches, id) ==>
                  Tracks(m, lims[id], prompt, n, c) && Turns(batches, id) <= n + 1)
  {
    var c := RunBatches(m, lims, confs, batches)[id];
    if Tied(m, lims, confs, batches, id) {
      n := 0;
      TiedGoesAstray(m, lims, confs, batches, id, prompt, kind);
      if IsReference(m, lims[id], prompt, c.view) {
        var k :| c.view == Ref(m, lims[id], prompt, k);
        RefContinues(m, lims[id], prompt, k);
      }
    } else {
      TurnsArePlainSteps(m, lims, confs, batches, id);
      n := SpeculationIsTransparent(m, lims[id], prompt, kind, Plains(Turns(batches, id)));
    }
  }
}
