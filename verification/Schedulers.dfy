/** The passes that prefill and decode, and the Medusa scheduler with its tree verification, as objects
    (inference/scheduler/scheduler.go, medusa_scheduler.go).  Every method is proved to do what the step functions
    of `Speculation` say, so the run theorems there are about these methods. */
module Schedulers {
  import opened Arithmetic
  import opened Flattening
  import opened Sampling
  import opened Sequences
  import opened Speculation
  import Windows
  import opened Transparency
  import opened CandidateTrees
  import opened MedusaPolicy

  // ---------------------------------------------------------------- logits of several positions in one slice

  lemma {:induction false} Positions(n: nat, x: nat, vocab: nat)
    requires vocab > 0 && x == n * vocab
    ensures x / vocab == n
  {
    MulSucc(n, vocab);
    DivIs(x, n, vocab);
  }

  lemma {:induction false} RowsUniform(m: Model, c: Log, tokens: seq<int>, pos: nat)
    requires ValidModel(m)
    ensures Uniform(Rows(m, c, tokens, pos), m.vocab)
  {
    var rows := Rows(m, c, tokens, pos);
    forall i | 0 <= i < |rows| ensures |rows[i]| == m.vocab {
      assert rows[i] == m.logits(c.Context(tokens, pos, i));
    }
  }

  // ---------------------------------------------------------------- the cache

  class KVCache {
    const kind: Kind
    var slots: seq<Entry>
    var seqLen: nat

    ghost predicate Valid()
      reads this
    {
      seqLen <= |slots|
    }

    /** Truncation only moves the length; entries beyond it are stale. */
    function Log(): Log
      requires Valid()
      reads this
    {
      Speculation.Log.Log(kind, slots[..seqLen])
    }

    constructor (kind: Kind)
      ensures Valid() && Log() == Speculation.Log.Log(kind, [])
    {
      this.kind := kind;
      slots, seqLen := [], 0;
    }

    method Reset()
      requires Valid()
      modifies this
      ensures Valid() && Log() == old(Log()).Reset()
    {
      if kind == Contiguous {
        seqLen := 0;
      }
    }

    method Truncate(newSeqLen: int)
      requires Valid()
      modifies this
      ensures Valid() && Log() == old(Log()).Cut(newSeqLen)
    {
      var n := newSeqLen;
      if n < 0 { n := 0; }
      if n > seqLen { n := seqLen; }
      seqLen := n;
    }

    /** Overwrite one entry, or append it. */
    method Put(at: nat, entry: Entry)
      requires Valid() && at <= seqLen
      modifies this
      ensures Valid() && seqLen == |slots|
      ensures slots == Laid(old(slots[..seqLen]), at, [entry])
    {
      var live := slots[..seqLen];
      slots := live[..at] + [entry] + if at < |live| then live[at + 1..] else [];
      seqLen := |slots|;
    }

    /** The keys and values of a pass are cached, */
    method Store(at: nat, made: seq<Entry>)
      requires Valid() && at <= seqLen
      modifies this
      ensures Valid() && slots[..seqLen] == Laid(old(slots[..seqLen]), at, made)
    {
      ghost var live := slots[..seqLen];
      var i := 0;
      LaidNothing(live, at);
      while i < |made|
        invariant 0 <= i <= |made| && Valid()
        invariant made[..0] == [] && slots[..seqLen] == Laid(live, at, made[..i])
      {
        LaidSnoc(live, at, made, i);
        Put(at + i, made[i]);
        i := i + 1;
      }
      assert made[..i] == made;
    }

    /** and then a row is computed for each token from its part of the cache. */
    method Attend(m: Model, at: nat, made: seq<Entry>) returns (logits: Row)
      requires Valid() && at + |made| <= |Log().live| && Log().live[at..at + |made|] == made
      ensures logits == Flatten(RowsAt(m, Log().live[..at] + made, at))
    {
      var live := slots[..seqLen];
      ghost var rows := RowsAt(m, live[..at] + made, at);
      logits := [];
      var i := 0;
      while i < |made|
        invariant 0 <= i <= |made| && logits == Flatten(rows[..i])
      {
        RowSeen(m, live, at, made, i);
        logits := logits + m.logits(Window(live, at + i));
        FlattenSnoc(rows, i);
        i := i + 1;
      }
      assert rows[..i] == rows;
    }

    /** One forward pass over `tokens` at rotary position `pos`.  A paged pass must not leave a gap. */
    method Forward(m: Model, tokens: seq<int>, pos: nat) returns (logits: Row)
      requires Valid() && ValidModel(m) && (kind != Contiguous ==> pos <= seqLen)
      modifies this
      ensures Valid() && Log() == old(Log()).Feed(tokens, pos)
      ensures logits == Flatten(Rows(m, old(Log()), tokens, pos))
      ensures |logits| == |tokens| * m.vocab
    {
      var before := Log();
      var at := if kind != Contiguous then pos else seqLen;
      var made := before.Made(tokens, pos);
      Store(at, made);
      LaidIsFeed(before, tokens, pos);
      RowsAreAt(m, before, tokens, pos);
      assert Log().live == before.Feed(tokens, pos).live;
      logits := Attend(m, at, made);
      RowsUniform(m, before, tokens, pos);
      FlatLength(Rows(m, before, tokens, pos), m.vocab);
    }
  }

  /** Entries laid over a cache from some index on. */
  function Laid(live: seq<Entry>, at: nat, made: seq<Entry>): (s: seq<Entry>)
    requires at <= |live|
    ensures |s| >= at + |made| && s[..at] == live[..at] && s[at..at + |made|] == made
  {
    live[..at] + made + Behind(live, at + |made|)
  }

  lemma {:induction false} LaidNothing(live: seq<Entry>, at: nat)
    requires at <= |live|
    ensures Laid(live, at, []) == live
  {
  }

  lemma {:induction false} LaidSnoc(live: seq<Entry>, at: nat, made: seq<Entry>, i: nat)
    requires at <= |live| && i < |made|
    ensures Laid(Laid(live, at, made[..i]), at + i, [made[i]]) == Laid(live, at, made[..i + 1])
  {
    assert made[..i + 1] == made[..i] + [made[i]];
  }

  lemma {:induction false} LaidIsFeed(c: Log, tokens: seq<int>, pos: nat)
    requires c.kind != Contiguous ==> pos <= |c.live|
    ensures c.At(pos) == if c.kind != Contiguous then pos else |c.live|
    ensures Laid(c.live, c.At(pos), c.Made(tokens, pos)) == c.Feed(tokens, pos).live
  {
  }

  /** The rows of the entries from index `at` on. */
  ghost function RowsAt(m: Model, s: seq<Entry>, at: nat): (rows: seq<Row>)
    requires at <= |s|
    ensures |rows| == |s| - at && forall i :: 0 <= i < |rows| ==> rows[i] == m.logits(Window(s, at + i))
  {
    seq(|s| - at, i requires 0 <= i < |s| - at => m.logits(Window(s, at + i)))
  }

  /** Entries behind those of the pass play no part in it. */
  lemma {:induction false} RowSeen(m: Model, live: seq<Entry>, at: nat, made: seq<Entry>, i: nat)
    requires at + |made| <= |live| && live[at..at + |made|] == made && i < |made|
    ensures RowsAt(m, live[..at] + made, at)[i] == m.logits(Window(live, at + i))
  {
    var seen, rest := live[..at] + made, live[at + |made|..];
    assert live == seen + rest;
    WindowOfFront(seen, rest, at + i);
  }

  lemma {:induction false} RowsAreAt(m: Model, c: Log, tokens: seq<int>, pos: nat)
    requires c.kind != Contiguous ==> pos <= |c.live|
    ensures var live, at, made := c.Feed(tokens, pos).live, c.At(pos), c.Made(tokens, pos);
            && at + |made| <= |live| && live[at..at + |made|] == made
            && RowsAt(m, live[..at] + made, at) == Rows(m, c, tokens, pos)
  {
    LaidIsFeed(c, tokens, pos);
    RowsAreRows(m, c, tokens, pos);
  }

  lemma {:induction false} RowsAreRows(m: Model, c: Log, tokens: seq<int>, pos: nat)
    ensures RowsAt(m, c.live[..c.At(pos)] + c.Made(tokens, pos), c.At(pos)) == Rows(m, c, tokens, pos)
  {
    var rows := RowsAt(m, c.live[..c.At(pos)] + c.Made(tokens, pos), c.At(pos));
    forall i | 0 <= i < |rows| ensures rows[i] == Rows(m, c, tokens, pos)[i] {
      assert rows[i] == m.logits(c.Context(tokens, pos, i));
    }
  }

  // ---------------------------------------------------------------- tree verification

  /** How many proposals from i on are taken, when there may be fewer rows than proposals. */
  function Accepted(d: Draft, rows: seq<Row>, i: nat): (k: nat)
    requires i <= |d.tokens| && i <= |rows|
    ensures i <= k <= |d.tokens| && k <= |rows|
    decreases |d.tokens| - i
  {
    if i < |d.tokens| && i < |rows| && d.Takes(i, rows[i]) then Accepted(d, rows, i + 1) else i
  }

  /** With a row for every proposal and one more, nothing is cut short. */
  lemma {:induction false} AcceptedIsTaken(d: Draft, rows: seq<Row>, i: nat)
    requires i <= |d.tokens| < |rows|
    ensures Accepted(d, rows, i) == Taken(d, rows, i)
    decreases |d.tokens| - i
  {
    if i < |d.tokens| && d.Takes(i, rows[i]) { AcceptedIsTaken(d, rows, i + 1); }
  }

  /** Only the first path is evaluated: the accepted prefix, and the target's next token if a row for it exists. */
  method SelectBestTreePath(paths: seq<CandidatePath>, verifyLogits: Row, vocabSize: nat)
    returns (bestIdx: nat, accepted: nat, finalToken: int)
    ensures bestIdx == 0
    ensures paths == [] || verifyLogits == [] || vocabSize == 0 ==> accepted == 0 && finalToken == 0
    ensures paths != [] && verifyLogits != [] && vocabSize > 0 ==>
      var n := |verifyLogits| / vocabSize;
      && n * vocabSize <= |verifyLogits|
      && var rows := Unflatten(verifyLogits, vocabSize, n);
      && accepted == Accepted(PathDraft(paths[0].tokens), rows, 0)
      && finalToken == if accepted < n then Greedy(rows[accepted]) else 0
  {
    if |paths| == 0 || |verifyLogits| == 0 || vocabSize <= 0 {
      return 0, 0, 0;
    }
    var numPositions := |verifyLogits| / vocabSize;
    var tokens := paths[0].tokens;
    ghost var rows := Unflatten(verifyLogits, vocabSize, numPositions);
    var bestAccepted, bestFinal, rejected := 0, 0, false;
    if |tokens| > 0 {
      var i := 0;
      while i < |tokens| && i < numPositions && !rejected
        invariant 0 <= i <= |tokens| && i <= numPositions
        invariant bestAccepted == i && Accepted(PathDraft(tokens), rows, 0) == Accepted(PathDraft(tokens), rows, i)
        invariant if rejected then
                    i < |tokens| && i < numPositions && tokens[i] != Greedy(rows[i]) && bestFinal == Greedy(rows[i])
                  else bestFinal == 0
        decreases |tokens| - i, !rejected
      {
        var posLogits := RowOf(verifyLogits, vocabSize, numPositions, i);
        var targetToken := ArgmaxFloat32(posLogits);
        if tokens[i] == targetToken {
          bestAccepted := bestAccepted + 1;
          i := i + 1;
        } else {
          bestFinal := targetToken;
          rejected := true;
        }
      }
      if bestAccepted == |tokens| && bestAccepted < numPositions {
        var posLogits := RowOf(verifyLogits, vocabSize, numPositions, bestAccepted);
        bestFinal := ArgmaxFloat32(posLogits);
      }
    }
    if bestAccepted == 0 && numPositions > 0 && bestFinal == 0 {
      var posLogits := RowOf(verifyLogits, vocabSize, numPositions, 0);
      bestFinal := ArgmaxFloat32(posLogits);
    }
    return 0, bestAccepted, bestFinal;
  }

  /** The same verdict for one path from separate rows.  If the rows do not reach past the path and all of them
      agree, the final token only repeats the last accepted one. */
  method VerifyTreePath(path: CandidatePath, targetLogits: seq<Row>) returns (accepted: nat, finalToken: int)
    ensures path.tokens == [] ==> accepted == 0 && finalToken == 0
    ensures path.tokens != [] ==> accepted == Accepted(PathDraft(path.tokens), targetLogits, 0)
    ensures path.tokens != [] && accepted < |targetLogits| ==> finalToken == Greedy(targetLogits[accepted])
    ensures path.tokens != [] && accepted == |targetLogits| ==>
              finalToken == if accepted > 0 then path.tokens[accepted - 1] else 0
  {
    accepted, finalToken := 0, 0;
    if |path.tokens| == 0 {
      return;
    }
    ghost var d := PathDraft(path.tokens);
    var i := 0;
    while i < |path.tokens| && i < |targetLogits|
      invariant 0 <= i <= |path.tokens| && i <= |targetLogits| && accepted == i && finalToken == 0
      invariant Accepted(d, targetLogits, 0) == Accepted(d, targetLogits, i)
      invariant i > 0 ==> path.tokens[i - 1] == Greedy(targetLogits[i - 1])
    {
      var targetToken := Argmax(targetLogits[i]);
      if path.tokens[i] == targetToken {
        accepted := accepted + 1;
      } else {
        return accepted, targetToken;
      }
      i := i + 1;
    }
    if accepted == |path.tokens| && |targetLogits| > |path.tokens| {
      finalToken := Argmax(targetLogits[|path.tokens|]);
    } else if accepted > 0 && accepted <= |targetLogits| {
      finalToken := Argmax(targetLogits[accepted - 1]);
    }
  }

  // ---------------------------------------------------------------- what both schedulers share

  function ConfOf(s: Sequence, cache: KVCache): Conf
    reads s, cache
    requires cache.Valid()
  {
    Conf(s.Snap(), cache.Log())
  }

  /** Cache and sequence are coupled and the stream is consistent; every step keeps this. */
  ghost predicate Ready(s: Sequence, cache: KVCache)
    reads s, cache
  {
    cache.Valid() && Coupled(ConfOf(s, cache)) && StreamOk(s.Snap())
  }

  lemma {:induction false} EmitKeepsStream(v: Snapshot, token: int, lim: Limits)
    requires StreamOk(v) && PositionOk(v) && v.state == Decoding
    ensures StreamOk(Emit(v, token, lim))
  {
    assert (v.generated + [token])[..|v.generated|] == v.generated;
  }

  lemma {:induction false} EmitAllKeepsStream(v: Snapshot, tokens: seq<int>, lim: Limits)
    requires StreamOk(v) && PositionOk(v) && v.state == Decoding
    ensures StreamOk(EmitAll(v, tokens, lim))
  {
    if |tokens| > 1 {
      EmitAllKeepsStream(v, tokens[..|tokens| - 1], lim);
      var k := EmitAllShape(v, tokens[..|tokens| - 1], lim);
    }
    if tokens != [] && EmitAll(v, tokens[..|tokens| - 1], lim).state == Decoding {
      EmitKeepsStream(EmitAll(v, tokens[..|tokens| - 1], lim), tokens[|tokens| - 1], lim);
    }
  }

  /** The tokens after the one that finishes a sequence play no part. */
  lemma {:induction false} EmitAllStops(v: Snapshot, tokens: seq<int>, i: nat, lim: Limits)
    requires i <= |tokens| && EmitAll(v, tokens[..i], lim).state == Finished
    ensures EmitAll(v, tokens, lim) == EmitAll(v, tokens[..i], lim)
  {
    if i < |tokens| {
      assert tokens[..|tokens| - 1][..i] == tokens[..i];
      EmitAllStops(v, tokens[..|tokens| - 1], i, lim);
    } else {
      assert tokens[..i] == tokens;
    }
  }

  /** The last row of the logits of a pass. */
  lemma {:induction false} LastRow(m: Model, c: Log, tokens: seq<int>, pos: nat)
    requires ValidModel(m) && tokens != []
    ensures var flat := Flatten(Rows(m, c, tokens, pos));
            && |flat| >= m.vocab
            && flat[|flat| - m.vocab..] == m.logits(c.Context(tokens, pos, |tokens| - 1))
  {
    var rows := Rows(m, c, tokens, pos);
    RowsUniform(m, c, tokens, pos);
    FlatLength(rows[..|rows| - 1], m.vocab);
  }

  /** A fresh cache, the whole prompt in one pass, and a choice from its capped last row. */
  method PrefillAndChoose(m: Model, cache: KVCache, prompt: seq<int>) returns (tokenID: int)
    requires ValidModel(m) && cache.Valid() && prompt != []
    modifies cache
    ensures cache.Valid() && cache.Log() == old(cache.Log()).Reset().Feed(prompt, 0)
    ensures var row := m.logits(old(cache.Log()).Reset().Context(prompt, 0, |prompt| - 1));
            tokenID == Greedy(MapRow(m.softCap, row))
  {
    cache.Reset();
    LastRow(m, cache.Log(), prompt, 0);
    var logits := cache.Forward(m, prompt, 0);
    var capped := MapRow(m.softCap, logits[|logits| - m.vocab..]);
    tokenID := Argmax(capped);
  }

  method RunPrefill(m: Model, s: Sequence, cache: KVCache, eos: int, globalMax: int)
    requires ValidModel(m) && Ready(s, cache) && s.Snap().NeedsPrefill()
    modifies cache, s`state, s`promptPos, s`position, s`generatedTokens, s`sent, s`closed
    ensures cache.Valid() && ConfOf(s, cache) == Prefilled(m, s.LimitsFor(eos, globalMax), old(ConfOf(s, cache)))
    ensures Ready(s, cache) && s.Snap().state != Pending && s.Snap().PrefillComplete()
  {
    ghost var c0, lim := ConfOf(s, cache), s.LimitsFor(eos, globalMax);
    assert c0.view == Fresh(c0.view.prompt);
    var tokenID := PrefillAndChoose(m, cache, s.promptTokens);
    s.FinishPrefill(tokenID, eos, globalMax);
    PrefilledIsReady(m, lim, c0);
  }

  lemma {:induction false} PrefilledIsReady(m: Model, lim: Limits, c: Conf)
    requires ValidModel(m) && Coupled(c) && c.view == Fresh(c.view.prompt)
    ensures var r := Prefilled(m, lim, c);
            Coupled(r) && StreamOk(r.view) && r.view.state != Pending && r.view.PrefillComplete()
  {
    PrefilledIsRef(m, lim, c);
    PrefilledWellLived(m, lim, c);
  }

  /** Feed one token and choose the next one greedily. */
  method FeedAndChoose(m: Model, cache: KVCache, token: int, pos: nat) returns (tokenID: int)
    requires ValidModel(m) && cache.Valid() && (cache.kind != Contiguous ==> pos <= cache.seqLen)
    modifies cache
    ensures cache.Valid() && cache.Log() == old(cache.Log()).Feed([token], pos)
    ensures tokenID == Greedy(m.logits(old(cache.Log()).Context([token], pos, 0)))
  {
    LastRow(m, cache.Log(), [token], pos);
    var logits := cache.Forward(m, [token], pos);
    assert logits[|logits| - m.vocab..] == logits;
    tokenID := Argmax(logits);
  }

  /** One token: feed the input, choose greedily, emit. */
  method RunDecode(m: Model, s: Sequence, cache: KVCache, eos: int, globalMax: int)
    requires ValidModel(m) && Ready(s, cache) && s.Snap().state == Decoding
    modifies cache, s`state, s`promptPos, s`position, s`generatedTokens, s`sent, s`closed
    ensures cache.Valid() && ConfOf(s, cache) == Decoded(m, s.LimitsFor(eos, globalMax), old(ConfOf(s, cache)))
    ensures Ready(s, cache)
  {
    ghost var c0, lim := ConfOf(s, cache), s.LimitsFor(eos, globalMax);
    StartIsPosition(c0);
    var token, pos, hasMore := s.NextInputToken();
    assert hasMore;  // the fallback to token 1 at position 0 is only for sequences without a prompt
    var tokenID := FeedAndChoose(m, cache, token, pos);
    s.EmitToken(tokenID, eos, globalMax);
    DecodedKeepsCoupling(m, lim, c0);
    EmitKeepsStream(c0.view, tokenID, lim);
  }

  /** A plain step: prefill if needed, then decode whatever can be decoded. */
  method RunPlainStep(m: Model, s: Sequence, cache: KVCache, eos: int, globalMax: int) returns (decoded: bool)
    requires ValidModel(m) && Ready(s, cache)
    modifies cache, s`state, s`promptPos, s`position, s`generatedTokens, s`sent, s`closed
    ensures cache.Valid() && ConfOf(s, cache) == PlainStep(m, s.LimitsFor(eos, globalMax), old(ConfOf(s, cache)))
    ensures Ready(s, cache) && (decoded <==> Decodes(m, s.LimitsFor(eos, globalMax), old(ConfOf(s, cache))))
  {
    ghost var c0, lim := ConfOf(s, cache), s.LimitsFor(eos, globalMax);
    if s.state == Pending && |s.promptTokens| > 0 && s.promptPos < |s.promptTokens| {
      RunPrefill(m, s, cache, eos, globalMax);
    }
    decoded := s.state == Decoding;  // a prefilled sequence is no longer pending
    assert decoded <==> Decodes(m, lim, c0);
    if decoded {
      RunDecode(m, s, cache, eos, globalMax);
    }
  }

  /** Emit the tokens of a verification until one of them finishes the sequence. */
  method EmitAccepted(ghost v: Snapshot, ghost lim: Limits, s: Sequence, tokens: seq<int>, eos: int, globalMax: int)
    requires v == s.Snap() && StreamOk(v) && PositionOk(v) && v.state == Decoding
    requires lim == s.LimitsFor(eos, globalMax)
    modifies s`state, s`promptPos, s`position, s`generatedTokens, s`sent, s`closed
    ensures s.Snap() == EmitAll(v, tokens, lim) && StreamOk(s.Snap())
  {
    EmitAllKeepsStream(v, tokens, lim);
    var i := 0;
    while i < |tokens|
      invariant 0 <= i <= |tokens|
      invariant s.state == Decoding && StreamOk(s.Snap()) && PositionOk(s.Snap())
      invariant s.Snap() == EmitAll(v, tokens[..i], lim)
    {
      EmitKeepsStream(s.Snap(), tokens[i], lim);
      assert tokens[..i + 1][..i] == tokens[..i];
      s.EmitToken(tokens[i], eos, globalMax);
      assert s.Snap() == EmitAll(v, tokens[..i + 1], lim);
      if s.state == Finished {
        EmitAllStops(v, tokens, i + 1, lim);
        return;
      }
      i := i + 1;
    }
    assert tokens[..i] == tokens;
  }

  /** Tree verification is judged by the rows of its pass, and keeps the coupling. */
  lemma {:induction false} TreeStepIs(m: Model, lim: Limits, c: Conf, path: seq<int>)
    requires Coupled(c) && c.view.state == Decoding
    ensures TreeStep(m, lim, c, path) ==
            Judged(lim, c, PathDraft(path), c.view.position,
                   Rows(m, c.cache, [c.view.Input().0] + path, c.view.position))
    ensures Coupled(TreeStep(m, lim, c, path))
  {
    StartIsPosition(c);
    var _ := VerifiedKeepsCoupling(m, lim, c, PathDraft(path));
  }

  // ---------------------------------------------------------------- the Medusa scheduler, one sequence

  lemma {:induction false} HalfOrMore(total: nat, n: nat)
    requires n > 0
    ensures (total as real) / (n as real) >= 0.5 <==> 2 * total >= n
  {
    var q := (total as real) / (n as real);
    assert q * (n as real) == total as real;
    if q >= 0.5 {
      assert (q - 0.5) * (n as real) >= 0.0;
    } else {
      assert (0.5 - q) * (n as real) > 0.0;
    }
  }

  class MedusaScheduler {
    const m: Model
    const cache: KVCache
    const eos: int
    const globalMax: int
    var hasHidden: bool             // lastHidden != nil
    var recentAccepted: seq<nat>    // ring of accepted counts
    var recentIdx: nat
    var recentFull: bool
    var probeCounter: nat

    ghost predicate Valid()
      reads this
    {
      ValidModel(m) && |recentAccepted| > 0 && recentIdx < |recentAccepted|
    }

    ghost function Policy(): Policy
      reads this
    {
      MedusaPolicy.Policy.Policy(hasHidden, recentAccepted, recentIdx, recentFull, probeCounter)
    }

    constructor (m: Model, cache: KVCache, eos: int, globalMax: int)
      requires ValidModel(m)
      ensures Valid() && this.m == m && this.cache == cache && this.eos == eos && this.globalMax == globalMax
      ensures New(Policy()) && |recentAccepted| == 4
    {
      this.m, this.cache, this.eos, this.globalMax := m, cache, eos, globalMax;
      hasHidden, recentAccepted, recentIdx, recentFull, probeCounter := false, [0, 0, 0, 0], 0, false, 0;
    }

    method RecordAcceptance(accepted: nat)
      requires Valid()
      modifies this`recentAccepted, this`recentIdx, this`recentFull
      ensures Valid() && Records(old(Policy()), accepted, Policy())
    {
      Windows.ModStep(recentIdx, |recentAccepted|);
      recentAccepted := recentAccepted[recentIdx := accepted];
      recentIdx := (recentIdx + 1) % |recentAccepted|;
      if recentIdx == 0 {
        recentFull := true;
      }
    }

    /** At least half a token accepted per step on average, once the ring has filled. */
    method SpeculationEnabled() returns (enabled: bool)
      requires Valid()
      ensures enabled <==> Proven(Policy())
    {
      if !recentFull {
        return false;
      }
      var total := 0;
      var i := 0;
      while i < |recentAccepted|
        invariant 0 <= i <= |recentAccepted|
        invariant total == Sum(recentAccepted[..i])
      {
        assert recentAccepted[..i + 1][..i] == recentAccepted[..i];
        total := total + recentAccepted[i];
        i := i + 1;
      }
      assert recentAccepted[..i] == recentAccepted;
      HalfOrMore(total, |recentAccepted|);
      enabled := (total as real) / (|recentAccepted| as real) >= 0.5;
    }

    method RunDecodeStepWithTraining(ghost c: Conf, ghost lim: Limits, s: Sequence)
      requires Valid() && Ready(s, cache) && c == ConfOf(s, cache) && lim == s.LimitsFor(eos, globalMax)
      modifies this`hasHidden, cache, s`state, s`promptPos, s`position, s`generatedTokens, s`sent, s`closed
      ensures Valid() && Ready(s, cache) && ConfOf(s, cache) == PlainStep(m, lim, c)
      ensures hasHidden <==> old(hasHidden) || Decodes(m, lim, c)
    {
      var decoded := RunPlainStep(m, s, cache, eos, globalMax);
      if decoded {
        hasHidden := true;
      }
    }

    /** One pass over the input and the most confident path, and the target's verdict on that path. */
    method JudgePath(ghost c: Log, inputToken: int, startPos: nat, paths: seq<CandidatePath>)
      returns (accepted: nat, finalToken: int)
      requires ValidModel(m) && cache.Valid() && (cache.kind != Contiguous ==> startPos <= cache.seqLen) && paths != []
      requires c == cache.Log()
      modifies cache
      ensures cache.Valid() && cache.Log() == c.Feed([inputToken] + paths[0].tokens, startPos)
      ensures var draft := PathDraft(paths[0].tokens);
              var rows := Rows(m, c, [inputToken] + paths[0].tokens, startPos);
              accepted == Taken(draft, rows, 0) && finalToken == Greedy(rows[accepted])
    {
      var draft := paths[0].tokens;
      var verifyTokens := [inputToken] + draft;
      ghost var rows := Rows(m, c, verifyTokens, startPos);
      RowsUniform(m, c, verifyTokens, startPos);
      var allLogits := cache.Forward(m, verifyTokens, startPos);
      UnflattenFlatten(rows, m.vocab);
      Positions(|rows|, |allLogits|, m.vocab);
      AcceptedIsTaken(PathDraft(draft), rows, 0);
      var _, numAccepted, final := SelectBestTreePath(paths, allLogits, m.vocab);
      accepted, finalToken := numAccepted, final;
    }

    /** Verify the most confident path in one pass, keep what the target agrees with, roll the cache back. */
    method VerifyPath(ghost c: Conf, ghost lim: Limits, s: Sequence, paths: seq<CandidatePath>)
      requires Valid() && Ready(s, cache) && c == ConfOf(s, cache) && lim == s.LimitsFor(eos, globalMax)
      requires s.state == Decoding && paths != []
      modifies this, cache, s`state, s`promptPos, s`position, s`generatedTokens, s`sent, s`closed
      ensures Valid() && Ready(s, cache) && ConfOf(s, cache) == TreeStep(m, lim, c, paths[0].tokens)
      ensures Records(old(Policy()), AcceptedCount(m, c, paths[0].tokens), Policy())
      ensures probeCounter == old(probeCounter) && (hasHidden <==> s.state != Finished)
    {
      StartIsPosition(c);
      var inputToken, pos, hasMore := s.NextInputToken();
      assert hasMore;
      ghost var d := PathDraft(paths[0].tokens);
      SettlePath(c, lim, d, Rows(m, c.cache, [inputToken] + paths[0].tokens, pos), s, inputToken, pos, paths);
      TreeStepIs(m, lim, c, paths[0].tokens);
      hasHidden := s.state != Finished;
    }

    method SettlePath(ghost c: Conf, ghost lim: Limits, ghost d: Draft, ghost rows: seq<Row>, s: Sequence,
                      inputToken: int, pos: nat, paths: seq<CandidatePath>)
      requires Valid() && cache.Valid() && StreamOk(s.Snap()) && PositionOk(s.Snap()) && s.state == Decoding
      requires c == ConfOf(s, cache) && (inputToken, pos) == c.view.Input() && pos == cache.seqLen && paths != []
      requires d == PathDraft(paths[0].tokens) && rows == Rows(m, c.cache, [inputToken] + d.tokens, pos)
      requires lim == s.LimitsFor(eos, globalMax)
      modifies this`recentAccepted, this`recentIdx, this`recentFull, cache
      modifies s`state, s`promptPos, s`position, s`generatedTokens, s`sent, s`closed
      ensures Valid() && cache.Valid() && StreamOk(s.Snap())
      ensures ConfOf(s, cache) == Judged(lim, c, d, pos, rows)
      ensures Records(old(Policy()), Taken(d, rows, 0), Policy())
    {
      var startPos := if cache.kind == Contiguous then cache.seqLen else pos;
      var tokens := RollBack(c, d, rows, inputToken, startPos, paths);
      ghost var kept := cache.Log();
      EmitAccepted(c.view, lim, s, tokens, eos, globalMax);
      assert cache.Log() == kept;
    }

    /** Verify, and keep what was taken. */
    method RollBack(ghost c: Conf, ghost d: Draft, ghost rows: seq<Row>, inputToken: int, startPos: nat,
                    paths: seq<CandidatePath>)
      returns (tokens: seq<int>)
      requires Valid() && cache.Valid() && startPos == cache.seqLen && paths != []
      requires c.cache == cache.Log() && inputToken == c.view.Input().0 && d == PathDraft(paths[0].tokens)
      requires rows == Rows(m, c.cache, [inputToken] + d.tokens, startPos)
      modifies cache, this`recentAccepted, this`recentIdx, this`recentFull
      ensures Valid() && cache.Valid() && tokens == Verdict(d, rows) && cache.Log() == Kept(c, d, startPos, rows)
      ensures Records(old(Policy()), Taken(d, rows, 0), Policy())
    {
      var numAccepted, finalToken := JudgePath(c.cache, inputToken, startPos, paths);
      tokens := paths[0].tokens[..numAccepted] + [finalToken];
      assert tokens == Verdict(d, rows);
      RecordAcceptance(numAccepted);
      cache.Truncate(startPos + 1 + numAccepted);
    }

    /** A prefill starts the window over. */
    method PrefillAfresh(ghost c: Conf, ghost lim: Limits, s: Sequence)
      requires Valid() && Ready(s, cache) && c == ConfOf(s, cache) && lim == s.LimitsFor(eos, globalMax)
      modifies this, cache, s`state, s`promptPos, s`position, s`generatedTokens, s`sent, s`closed
      ensures Valid() && Ready(s, cache) && ConfOf(s, cache) == PlainStep(m, lim, c)
      ensures recentAccepted == old(recentAccepted) && recentIdx == 0 && !recentFull
      ensures probeCounter == old(probeCounter) && (hasHidden <==> old(hasHidden) || Decodes(m, lim, c))
    {
      recentIdx, recentFull := 0, false;
      RunDecodeStepWithTraining(c, lim, s);
    }

    /** The step with tree speculation; without a hidden state or candidates it is a plain step. */
    method RunTreeMedusaDecodeStep(ghost c: Conf, ghost lim: Limits, s: Sequence, paths: seq<CandidatePath>)
      requires Valid() && Ready(s, cache) && c == ConfOf(s, cache) && lim == s.LimitsFor(eos, globalMax)
      modifies this, cache, s`state, s`promptPos, s`position, s`generatedTokens, s`sent, s`closed
      ensures Valid() && Ready(s, cache)
      ensures ConfOf(s, cache) == if old(hasHidden) && paths != [] then TreeStep(m, lim, c, paths[0].tokens)
                                  else PlainStep(m, lim, c)
      ensures probeCounter == old(probeCounter)
      ensures if c.view.NeedsPrefill() then recentAccepted == old(recentAccepted) && recentIdx == 0 && !recentFull
              else if c.view.state == Decoding && old(hasHidden) && paths != [] then
                Records(old(Policy()), AcceptedCount(m, c, paths[0].tokens), Policy())
              else RingKept(old(Policy()), Policy())
      ensures hasHidden <==> if c.view.state == Decoding && old(hasHidden) && paths != [] then s.state != Finished
                             else old(hasHidden) || Decodes(m, lim, c)
    {
      if s.state == Pending && |s.promptTokens| > 0 && s.promptPos < |s.promptTokens| {
        PrefillAfresh(c, lim, s);
        return;
      }
      if s.state != Decoding {
        return;
      }
      if !hasHidden || paths == [] {
        RunDecodeStepWithTraining(c, lim, s);
        return;
      }
      VerifyPath(c, lim, s, paths);
    }

    /** Every eighth time that heads which are not proven could propose, the first of them is probed. */
    method Probe(ghost c: Conf, s: Sequence, o: Offer)
      requires Valid() && c.view == s.Snap()
      modifies this`recentAccepted, this`recentIdx, this`recentFull, this`probeCounter
      ensures Valid() && ProbeTurn(old(Policy()), c, o, Policy())
    {
      if o.ready && hasHidden {
        probeCounter := probeCounter + 1;
        if probeCounter >= 8 {
          probeCounter := 0;
          if |s.generatedTokens| >= 2 {
            RecordAcceptance(if o.probeHit then 1 else 0);
          }
        }
      }
    }

    /** One scheduling iteration: speculate if it has paid off, otherwise decode plainly and sometimes probe.  A
        finished sequence is not in the batch. */
    method Step(s: Sequence, o: Offer) returns (ghost choice: Choice)
      requires Valid() && Ready(s, cache)
      modifies this, cache, s`state, s`promptPos, s`position, s`generatedTokens, s`sent, s`closed
      ensures Valid() && Ready(s, cache)
      ensures ConfOf(s, cache) == Speculation.Step(m, s.LimitsFor(eos, globalMax), old(ConfOf(s, cache)), choice)
      ensures choice.Tree? <==> old(s.state) != Finished && o.ready && old(hasHidden) && o.paths != []
                                && old(recentFull) && 2 * Sum(old(recentAccepted)) >= |old(recentAccepted)|
      ensures Turn(m, s.LimitsFor(eos, globalMax), old(Policy()), old(ConfOf(s, cache)), o, choice, Policy())
    {
      ghost var c, lim, p := ConfOf(s, cache), s.LimitsFor(eos, globalMax), Policy();
      choice := Plain;
      if s.state == Finished {
        return;
      }
      var enabled := SpeculationEnabled();
      if o.ready && enabled {
        choice := ProvenIteration(c, lim, p, s, o);
      } else {
        PlainIteration(c, lim, p, s, o);
      }
    }

    method ProvenIteration(ghost c: Conf, ghost lim: Limits, ghost p: Policy, s: Sequence, o: Offer)
      returns (ghost choice: Choice)
      requires Valid() && Ready(s, cache) && c == ConfOf(s, cache) && lim == s.LimitsFor(eos, globalMax)
      requires p == Policy() && s.state != Finished && o.ready && Proven(p)
      modifies this, cache, s`state, s`promptPos, s`position, s`generatedTokens, s`sent, s`closed
      ensures Valid() && Ready(s, cache) && ConfOf(s, cache) == Speculation.Step(m, lim, c, choice)
      ensures (choice.Tree? <==> Speculates(p, o)) && Turn(m, lim, p, c, o, choice, Policy())
    {
      choice := if hasHidden && o.paths != [] then Tree(o.paths[0].tokens) else Plain;
      RunTreeMedusaDecodeStep(c, lim, s, o.paths);
      IsProvenTurn(m, lim, p, c, o, choice, Policy());
    }

    method PlainIteration(ghost c: Conf, ghost lim: Limits, ghost p: Policy, s: Sequence, o: Offer)
      requires Valid() && Ready(s, cache) && c == ConfOf(s, cache) && lim == s.LimitsFor(eos, globalMax)
      requires p == Policy() && s.state != Finished && !(o.ready && Proven(p))
      modifies this, cache, s`state, s`promptPos, s`position, s`generatedTokens, s`sent, s`closed
      ensures Valid() && Ready(s, cache) && ConfOf(s, cache) == Speculation.Step(m, lim, c, Plain)
      ensures Turn(m, lim, p, c, o, Plain, Policy())
    {
      Probe(c, s, o);
      RunDecodeStepWithTraining(c, lim, s);
      IsProbeTurn(m, lim, p, c, o, Policy());
    }

    /** Any number of iterations on a fresh sequence, whatever the heads propose and whatever probes find: a run of
        the protocol, in which every iteration speculates exactly as `Turn` says.  In the block pool the sequence is
        where greedy steps would leave it, and on the other caches as long as no path that was not empty has been
        verified, which none is in the first 33 iterations of a new scheduler. */
    method Generate(s: Sequence, offers: seq<Offer>) returns (ghost choices: seq<Choice>, ghost policies: seq<Policy>)
      requires Valid() && cache.Valid() && s.promptTokens != [] && offers != []
      requires ConfOf(s, cache) == Start(s.promptTokens, cache.kind)
      modifies this, cache, s`state, s`promptPos, s`position, s`generatedTokens, s`sent, s`closed
      ensures Valid() && Ready(s, cache) && s.promptTokens == old(s.promptTokens) && |choices| == |offers|
      ensures var lim, start := s.LimitsFor(eos, globalMax), Start(s.promptTokens, cache.kind);
              && ConfOf(s, cache) == Run(m, lim, start, choices) && Alive(lim, ConfOf(s, cache))
              && Turns(m, lim, start, policies, offers, choices)
              && (HarmlessRun(cache.kind, choices) ==> IsReference(m, lim, s.promptTokens, s.Snap()))
              && (s.state == Decoding ==> (Sound(ConfOf(s, cache)) <==> HarmlessRun(cache.kind, choices)))
      ensures policies[0] == old(Policy()) && policies[|offers|] == Policy()
      ensures cache.kind == BlockPool ==> HarmlessRun(cache.kind, choices)
      ensures New(old(Policy())) && |offers| <= 8 * |old(recentAccepted)| + 1 ==> HarmlessRun(cache.kind, choices)
      ensures s.state != Finished ==> |offers| <= |s.generatedTokens|
    {
      ghost var lim, prompt := s.LimitsFor(eos, globalMax), s.promptTokens;
      ghost var start := Start(prompt, cache.kind);
      choices, policies := [], [Policy()];
      var i := 0;
      while i < |offers|
        invariant 0 <= i <= |offers| && |choices| == i && |policies| == i + 1
        invariant Valid() && Ready(s, cache) && ConfOf(s, cache) == Run(m, lim, start, choices)
        invariant s.promptTokens == prompt && s.LimitsFor(eos, globalMax) == lim
        invariant policies[0] == old(Policy()) && policies[i] == Policy()
        invariant Turns(m, lim, start, policies, offers[..i], choices)
      {
        ghost var choice := Step(s, offers[i]);
        TurnsSnoc(m, lim, start, policies, offers, choices, choice, Policy());
        assert (choices + [choice])[..i] == choices;
        choices, policies := choices + [choice], policies + [Policy()];
        i := i + 1;
      }
      assert offers[..i] == offers;
      RunFacts(m, lim, prompt, cache.kind, choices);
      if New(policies[0]) && |offers| <= 8 * |policies[0].ring| + 1 {
        ShortRunsHarmless(m, lim, start, policies, offers, choices);
      }
    }
  }

  lemma {:induction false} RunFacts(m: Model, lim: Limits, prompt: seq<int>, kind: Kind, choices: seq<Choice>)
    requires prompt != [] && choices != []
    ensures var c := Run(m, lim, Start(prompt, kind), choices);
            && Alive(lim, c) && c.view.prompt == prompt
            && (HarmlessRun(kind, choices) ==> IsReference(m, lim, prompt, c.view))
            && (c.view.state == Decoding ==> (Sound(c) <==> HarmlessRun(kind, choices)))
            && (kind == BlockPool ==> HarmlessRun(kind, choices))
            && (c.view.state != Finished ==> |choices| <= |c.view.generated|)
  {
    RunsStayAligned(m, lim, prompt, kind, choices);
    if HarmlessRun(kind, choices) {
      var n := SpeculationIsTransparent(m, lim, prompt, kind, choices);
    }
    if Run(m, lim, Start(prompt, kind), choices).view.state == Decoding {
      RunSoundIff(m, lim, prompt, kind, choices);
    }
  }
}
