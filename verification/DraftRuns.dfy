/** Whole runs of the scheduler that speculates with a draft model (inference/scheduler/speculative_scheduler.go): what
    each step drafts, what the draft model's cache holds afterwards, and how many tokens are drafted next. */
module DraftRuns {
  import opened Arithmetic
  import opened Flattening
  import opened Sampling
  import opened Probabilities
  import opened Sequences
  import opened Speculation
  import opened Schedulers
  import opened DraftScheduling
  import Windows

  /** What the scheduler keeps between steps: the draft model's cache, the number of tokens to draft, and what was
      accepted of the drafts so far. */
  datatype Drafter = Drafter(live: seq<Entry>, length: int, past: seq<Windows.Step>) {
    function Drafts(): nat {
      if length > 0 then length else 0
    }
  }

  /** Each of the k tokens drafted is the draft model's own choice after what it had cached, the input and the tokens
      drafted before, and is compared with the draft model's own probability for it. */
  ghost predicate Proposes(dm: Model, prob: Probability, live: seq<Entry>, token: int, pos: nat, d: Draft, k: nat) {
    && |d.tokens| == k
    && forall i :: 0 <= i < k ==>
         var row := dm.logits(FedBy(live, token, d.tokens, pos, i + 1));
         && d.tokens[i] == Greedy(row)
         && forall r :: d.test(i, r) <==> prob(r, d.tokens[i]) >= prob(row, d.tokens[i])
  }

  /** How many of a draft's tokens are accepted by what is read back. */
  function AcceptedAsRead(m: Model, c: Conf, r: Reading): nat
    requires ValidModel(m) && MemoryOk(m, |r.draft.tokens|, r.beyond)
  {
    Taken(r.draft, ReadBack(m, c, r.draft, r.beyond), 0)
  }

  /** A draft of k tokens has been judged: the draft cache is cut to the position and the accepted tokens, and the
      number of tokens to draft follows the last steps once there are enough of them. */
  ghost predicate DraftJudged(m: Model, dm: Model, prob: Probability, config: Windows.AdaptiveConfig, p: Drafter,
                              c: Conf, r: Reading, q: Drafter)
    requires ValidModel(m) && MemoryOk(m, |r.draft.tokens|, r.beyond)
  {
    var (token, pos) := c.view.Input();
    var accepted := AcceptedAsRead(m, c, r);
    && Proposes(dm, prob, p.live, token, pos, r.draft, p.Drafts())
    && q.live == Log(Contiguous, FedBy(p.live, token, r.draft.tokens, pos, p.Drafts())).Cut(pos + accepted).live
    && q.past == p.past + [Windows.Step(accepted, p.Drafts())]
    && q.length == if |q.past| < config.windowSize then p.length
                   else Windows.Adjusted(config, p.length, Windows.Average(Windows.Last(q.past, config.windowSize)))
  }

  /** One step: a prefill gives the draft model the prompt, a speculation drafts and is judged, and a step without
      drafts leaves the draft model alone. */
  ghost predicate DraftTurn(m: Model, dm: Model, prob: Probability, config: Windows.AdaptiveConfig, p: Drafter,
                            c: Conf, r: Reading, q: Drafter)
    requires ValidModel(m) && MemoryOk(m, |r.draft.tokens|, r.beyond)
  {
    if c.view.NeedsPrefill() then q == p.(live := Stamp(c.view.prompt))
    else if c.view.state == Decoding && p.Drafts() > 0 then DraftJudged(m, dm, prob, config, p, c, r, q)
    else q == p && (c.view.state == Decoding ==> r.draft.tokens == [])
  }

  /** What the loop draws is proposed. */
  lemma {:induction false} DrawProposes(dm: Model, prob: Probability, live: seq<Entry>, token: int, pos: nat, k: nat)
    ensures var r := Draw(dm, prob, live, token, pos, k);
            Proposes(dm, prob, live, token, pos, ByProbability(prob, r.tokens, r.probs), k)
  {
    var r := Draw(dm, prob, live, token, pos, k);
    forall i | 0 <= i < k
      ensures var row := dm.logits(FedBy(live, token, r.tokens, pos, i + 1));
              r.tokens[i] == Greedy(row) && r.probs[i] == prob(row, r.tokens[i])
    {
      DrawIsGreedy(dm, prob, live, token, pos, k, i);
    }
  }

  // ---------------------------------------------------------------- runs

  /** The steps of a generation. */
  ghost predicate DraftTurns(m: Model, dm: Model, prob: Probability, config: Windows.AdaptiveConfig, lim: Limits,
                             start: Conf, ps: seq<Drafter>, readings: seq<Reading>)
    requires ValidModel(m) && ReadingsOk(m, readings)
  {
    |ps| == |readings| + 1 &&
    forall i :: 0 <= i < |readings| ==> DraftTurnAt(m, dm, prob, config, lim, start, ps, readings, i)
  }

  ghost predicate DraftTurnAt(m: Model, dm: Model, prob: Probability, config: Windows.AdaptiveConfig, lim: Limits,
                              start: Conf, ps: seq<Drafter>, readings: seq<Reading>, i: nat)
    requires ValidModel(m) && ReadingsOk(m, readings) && |ps| == |readings| + 1 && i < |readings|
  {
    DraftTurn(m, dm, prob, config, ps[i], RunAsRead(m, lim, start, readings[..i]), readings[i], ps[i + 1])
  }

  lemma {:induction false} DraftTurnsSnoc(m: Model, dm: Model, prob: Probability, config: Windows.AdaptiveConfig,
                                          lim: Limits, start: Conf, ps: seq<Drafter>, readings: seq<Reading>,
                                          r: Reading, p: Drafter)
    requires ValidModel(m) && ReadingsOk(m, readings) && MemoryOk(m, |r.draft.tokens|, r.beyond)
    requires DraftTurns(m, dm, prob, config, lim, start, ps, readings)
    requires DraftTurn(m, dm, prob, config, ps[|readings|], RunAsRead(m, lim, start, readings), r, p)
    ensures ReadingsOk(m, readings + [r])
    ensures DraftTurns(m, dm, prob, config, lim, start, ps + [p], readings + [r])
  {
    var qs, rs := ps + [p], readings + [r];
    forall i | 0 <= i <= |readings| ensures DraftTurnAt(m, dm, prob, config, lim, start, qs, rs, i) {
      if i < |readings| {
        TurnStays(m, dm, prob, config, lim, start, ps, readings, r, p, i);
      } else {
        assert (readings + [r])[..i] == readings;
      }
    }
  }

  lemma {:induction false} RunSnoc(m: Model, lim: Limits, start: Conf, readings: seq<Reading>, r: Reading)
    requires ValidModel(m) && ReadingsOk(m, readings) && MemoryOk(m, |r.draft.tokens|, r.beyond)
    ensures ReadingsOk(m, readings + [r])
    ensures RunAsRead(m, lim, start, readings + [r]) ==
            DraftStepAsRead(m, lim, RunAsRead(m, lim, start, readings), r.draft, r.beyond)
  {
    assert (readings + [r])[..|readings|] == readings;
  }

  lemma {:induction false} TurnStays(m: Model, dm: Model, prob: Probability, config: Windows.AdaptiveConfig,
                                     lim: Limits, start: Conf, ps: seq<Drafter>, readings: seq<Reading>,
                                     r: Reading, p: Drafter, i: nat)
    requires ValidModel(m) && ReadingsOk(m, readings + [r]) && ReadingsOk(m, readings) && |ps| == |readings| + 1
    requires i < |readings| && DraftTurnAt(m, dm, prob, config, lim, start, ps, readings, i)
    ensures DraftTurnAt(m, dm, prob, config, lim, start, ps + [p], readings + [r], i)
  {
    assert (readings + [r])[..i] == readings[..i];
  }

  /** How many tokens were accepted in all. */
  function TotalAccepted(past: seq<Windows.Step>): int {
    if past == [] then 0 else TotalAccepted(past[..|past| - 1]) + past[|past| - 1].accepted
  }

  lemma {:induction false} TotalSnoc(past: seq<Windows.Step>, s: Windows.Step)
    ensures TotalAccepted(past + [s]) == TotalAccepted(past) + s.accepted
  {
    assert (past + [s])[..|past|] == past;
  }

  /** How far the draft cache is behind the position. */
  ghost function Lag(p: Drafter, v: Snapshot): int {
    v.position - |p.live|
  }

  /** What holds of a decoding sequence after i steps. */
  ghost predicate InStep(p: Drafter, v: Snapshot, i: nat) {
    && |v.generated| == i + TotalAccepted(p.past)
    && (if i == 1 then p.live == Stamp(v.prompt) && |v.prompt| == v.position else Lag(p, v) >= 1)
  }

  /** A judged draft that leaves the sequence decoding has emitted the accepted tokens and one more. */
  lemma {:induction false} JudgedMoves(m: Model, lim: Limits, c: Conf, r: Reading)
    requires ValidModel(m) && MemoryOk(m, |r.draft.tokens|, r.beyond) && OnContiguous(c) && r.draft.tokens != []
    requires DraftStepAsRead(m, lim, c, r.draft, r.beyond).view.state == Decoding
    ensures var v, accepted := DraftStepAsRead(m, lim, c, r.draft, r.beyond).view, AcceptedAsRead(m, c, r);
            && |v.generated| == |c.view.generated| + accepted + 1 && v.position == c.view.position + accepted + 1
            && v.prompt == c.view.prompt && accepted <= |r.draft.tokens|
  {
    AsReadIsJudged(m, lim, c, r.draft, r.beyond);
    var k := JudgedKeepsCoupling(lim, c, r.draft, ReadBack(m, c, r.draft, r.beyond));
  }

  lemma {:induction false} TurnInStep(m: Model, dm: Model, prob: Probability, config: Windows.AdaptiveConfig,
                                      lim: Limits, p: Drafter, c: Conf, r: Reading, q: Drafter, i: nat)
    requires ValidModel(m) && MemoryOk(m, |r.draft.tokens|, r.beyond) && OnContiguous(c)
    requires DraftTurn(m, dm, prob, config, p, c, r, q) && i > 0 && InStep(p, c.view, i)
    requires DraftStepAsRead(m, lim, c, r.draft, r.beyond).view.state == Decoding
    ensures var v := DraftStepAsRead(m, lim, c, r.draft, r.beyond).view;
            InStep(q, v, i + 1) && v.prompt == c.view.prompt
    ensures p.Drafts() > 0 ==>
              Lag(q, DraftStepAsRead(m, lim, c, r.draft, r.beyond).view) ==
              NextLag(Lag(p, c.view), p.Drafts(), AcceptedAsRead(m, c, r))
  {
    var v := DraftStepAsRead(m, lim, c, r.draft, r.beyond).view;
    StartIsPosition(c);
    if p.Drafts() > 0 {
      JudgedMoves(m, lim, c, r);
      JudgedInStep(m, dm, prob, config, p, c, r, q, i, v);
    } else {
      DecodedKeepsCoupling(m, lim, c);
      assert v == Decoded(m, lim, c).view;
    }
  }

  lemma {:induction false} JudgedInStep(m: Model, dm: Model, prob: Probability, config: Windows.AdaptiveConfig,
                                        p: Drafter, c: Conf, r: Reading, q: Drafter, i: nat, v: Snapshot)
    requires ValidModel(m) && MemoryOk(m, |r.draft.tokens|, r.beyond) && OnContiguous(c) && p.Drafts() > 0
    requires DraftJudged(m, dm, prob, config, p, c, r, q) && i > 0 && InStep(p, c.view, i)
    requires var accepted := AcceptedAsRead(m, c, r);
             && |v.generated| == |c.view.generated| + accepted + 1 && v.position == c.view.position + accepted + 1
             && v.prompt == c.view.prompt && accepted <= |r.draft.tokens|
    ensures InStep(q, v, i + 1) && Lag(q, v) == NextLag(Lag(p, c.view), p.Drafts(), AcceptedAsRead(m, c, r))
  {
    StartIsPosition(c);
    TotalSnoc(p.past, Windows.Step(AcceptedAsRead(m, c, r), p.Drafts()));
    CutLags(p.live, c.view.Input().0, r.draft.tokens, c.view.position, p.Drafts(), AcceptedAsRead(m, c, r));
  }

  /** What a cut to position + accepted leaves of a cache that lags behind the position. */
  lemma {:induction false} CutLags(live: seq<Entry>, token: int, tokens: seq<int>, pos: nat, k: nat, accepted: nat)
    requires k == |tokens| && accepted <= k && |live| <= pos
    ensures var cut := Log(Contiguous, FedBy(live, token, tokens, pos, k)).Cut(pos + accepted);
            |cut.live| + NextLag(pos - |live|, k, accepted) == pos + accepted + 1
  {
  }

  lemma {:induction false} PrefillInStep(m: Model, dm: Model, prob: Probability, config: Windows.AdaptiveConfig,
                                         lim: Limits, p: Drafter, prompt: seq<int>, r: Reading, q: Drafter)
    requires ValidModel(m) && MemoryOk(m, |r.draft.tokens|, r.beyond) && prompt != []
    requires DraftTurn(m, dm, prob, config, p, Start(prompt, Contiguous), r, q) && p.past == []
    requires DraftStepAsRead(m, lim, Start(prompt, Contiguous), r.draft, r.beyond).view.state == Decoding
    ensures var v := DraftStepAsRead(m, lim, Start(prompt, Contiguous), r.draft, r.beyond).view;
            InStep(q, v, 1) && v.prompt == prompt
  {
    PrefilledIsRef(m, lim, Start(prompt, Contiguous));
    RefStarted(m, lim, prompt, 0);
  }

  /** Over a whole generation, as long as it goes on: the tokens generated are one for each step and those accepted
      besides; after the prefill the draft cache is the prompt and level with the position; and from the next step
      on it lags behind, never to be level again. */
  lemma {:induction false} RunInStep(m: Model, dm: Model, prob: Probability, config: Windows.AdaptiveConfig,
                                     lim: Limits, prompt: seq<int>, ps: seq<Drafter>, readings: seq<Reading>, i: nat)
    requires ValidModel(m) && ReadingsOk(m, readings) && prompt != [] && 0 < i <= |readings| && |ps| == |readings| + 1
    requires DraftTurns(m, dm, prob, config, lim, Start(prompt, Contiguous), ps, readings) && ps[0].past == []
    requires RunAsRead(m, lim, Start(prompt, Contiguous), readings[..i]).view.state == Decoding
    ensures InStep(ps[i], RunAsRead(m, lim, Start(prompt, Contiguous), readings[..i]).view, i)
  {
    var start, before := Start(prompt, Contiguous), readings[..i - 1];
    var c, r := RunAsRead(m, lim, start, before), readings[i - 1];
    assert readings[..i][..i - 1] == before && readings[..i][i - 1] == r;
    assert DraftTurnAt(m, dm, prob, config, lim, start, ps, readings, i - 1);
    RunsAsReadStayAligned(m, lim, prompt, before);
    if i == 1 {
      PrefillInStep(m, dm, prob, config, lim, ps[0], prompt, r, ps[1]);
    } else {
      if c.view.state == Finished { DraftScheduling.FinishedStays(m, lim, c, r.draft, r.beyond); }
      RunInStep(m, dm, prob, config, lim, prompt, ps, readings, i - 1);
      RunKeepsContiguous(m, lim, start, before);
      TurnInStep(m, dm, prob, config, lim, ps[i - 1], c, r, ps[i], i - 1);
    }
  }

  lemma {:induction false} RunKeepsContiguous(m: Model, lim: Limits, start: Conf, readings: seq<Reading>)
    requires ValidModel(m) && ReadingsOk(m, readings)
    ensures RunAsRead(m, lim, start, readings).cache.kind == start.cache.kind
  {
    if readings != [] { RunKeepsContiguous(m, lim, start, readings[..|readings| - 1]); }
  }

  /** The first draft continues the prompt and the first token as the draft model would. */
  lemma {:induction false} FirstDraftFollows(m: Model, dm: Model, prob: Probability, config: Windows.AdaptiveConfig,
                                             lim: Limits, prompt: seq<int>, ps: seq<Drafter>, readings: seq<Reading>)
    requires ValidModel(m) && ReadingsOk(m, readings) && prompt != [] && |readings| > 1 && |ps| == |readings| + 1
    requires DraftTurns(m, dm, prob, config, lim, Start(prompt, Contiguous), ps, readings) && ps[0].past == []
    requires RunAsRead(m, lim, Start(prompt, Contiguous), readings[..1]).view.state == Decoding && ps[1].length > 0
    ensures var v, d := RunAsRead(m, lim, Start(prompt, Contiguous), readings[..1]).view, readings[1].draft;
            |d.tokens| == ps[1].length && Follows(dm, v.All(), d.tokens)
  {
    var c := RunAsRead(m, lim, Start(prompt, Contiguous), readings[..1]);
    RunInStep(m, dm, prob, config, lim, prompt, ps, readings, 1);
    RunsAsReadStayAligned(m, lim, prompt, readings[..1]);
    assert DraftTurnAt(m, dm, prob, config, lim, Start(prompt, Contiguous), ps, readings, 1);
    StartIsPosition(c);
    PassExtends(c, []);
    ProposalsFollow(dm, prob, prompt, c.view.Input().0, readings[1].draft, ps[1].Drafts());
    assert Past(c.view) == prompt;
  }

  lemma {:induction false} ProposalsFollow(dm: Model, prob: Probability, text: seq<int>, token: int, d: Draft, k: nat)
    requires Proposes(dm, prob, Stamp(text), token, |text|, d, k)
    ensures Follows(dm, text + [token], d.tokens)
  {
    forall i | 0 <= i < k ensures d.tokens[i] == Next(dm, text + [token] + d.tokens[..i]) {
      StampAppend(text, ([token] + d.tokens)[..i + 1]);
      assert text + ([token] + d.tokens)[..i + 1] == text + [token] + d.tokens[..i];
    }
  }

  /** Over a whole generation the number of tokens to draft stays within its bounds. */
  lemma {:induction false} LengthsStay(m: Model, dm: Model, prob: Probability, config: Windows.AdaptiveConfig,
                                       lim: Limits, start: Conf, ps: seq<Drafter>, readings: seq<Reading>, i: nat)
    requires ValidModel(m) && ReadingsOk(m, readings) && DraftTurns(m, dm, prob, config, lim, start, ps, readings)
    requires i <= |readings| && config.minDraft <= ps[0].length <= config.maxDraft
    ensures config.minDraft <= ps[i].length <= config.maxDraft
  {
    if i > 0 {
      LengthsStay(m, dm, prob, config, lim, start, ps, readings, i - 1);
      assert DraftTurnAt(m, dm, prob, config, lim, start, ps, readings, i - 1);
      Windows.AdjustedStays(config, ps[i - 1].length,
                            Windows.Average(Windows.Last(ps[i].past, config.windowSize)));
    }
  }

  // ---------------------------------------------------------------- the scheduler, one sequence

  class SpeculativeScheduler {
    const m: Model
    const dm: Model
    const cache: KVCache
    const draftCache: KVCache
    const adaptive: Windows.AdaptiveDraftLength
    const prob: Probability
    const eos: int
    const globalMax: int

    ghost predicate Valid()
      reads draftCache, adaptive
    {
      && ValidModel(m) && ValidModel(dm) && adaptive.Valid()
      && draftCache != cache && draftCache.Valid() && cache.kind == Contiguous && draftCache.kind == Contiguous
    }

    ghost function State(): Drafter
      requires draftCache.Valid()
      reads draftCache, adaptive
    {
      Drafter(draftCache.Log().live, adaptive.current, adaptive.past)
    }

    constructor (m: Model, dm: Model, cache: KVCache, draftCache: KVCache, adaptive: Windows.AdaptiveDraftLength,
                 prob: Probability, eos: int, globalMax: int)
      requires ValidModel(m) && ValidModel(dm) && adaptive.Valid()
      requires draftCache != cache && draftCache.Valid() && cache.kind == Contiguous && draftCache.kind == Contiguous
      ensures Valid() && this.m == m && this.dm == dm && this.cache == cache && this.draftCache == draftCache
      ensures this.adaptive == adaptive && this.prob == prob && this.eos == eos && this.globalMax == globalMax
    {
      this.m, this.dm, this.cache, this.draftCache, this.adaptive := m, dm, cache, draftCache, adaptive;
      this.prob, this.eos, this.globalMax := prob, eos, globalMax;
    }

    method PrefillDraftModel(s: Sequence)
      requires Valid() && s.promptTokens != []
      modifies draftCache
      ensures Valid() && draftCache.Log().live == Stamp(s.promptTokens)
    {
      draftCache.Reset();
      EmptyMade(draftCache.Log(), s.promptTokens);
      var _ := draftCache.Forward(dm, s.promptTokens, 0);
    }

    method PrefillBoth(s: Sequence)
      requires Valid() && Ready(s, cache) && s.Snap().NeedsPrefill()
      modifies cache, draftCache, s`state, s`promptPos, s`position, s`generatedTokens, s`sent, s`closed
      ensures Valid() && Ready(s, cache)
      ensures ConfOf(s, cache) == Prefilled(m, s.LimitsFor(eos, globalMax), old(ConfOf(s, cache)))
      ensures draftCache.Log().live == Stamp(s.promptTokens)
    {
      RunPrefill(m, s, cache, eos, globalMax);
      ghost var prefilled := ConfOf(s, cache);
      PrefillDraftModel(s);
      assert ConfOf(s, cache) == prefilled;
    }

    /** One pass of the target over input and draft, and what is read back after it. */
    method ReadLogits(ghost c: Conf, startPos: nat, inputToken: int, ghost d: Draft, draftTokens: seq<int>,
                      beyond: seq<Row>)
      returns (allLogits: Row)
      requires Valid() && cache.Valid() && cache.Log() == c.cache && (inputToken, startPos) == c.view.Input()
      requires d.tokens == draftTokens && MemoryOk(m, |draftTokens|, beyond)
      modifies cache
      ensures Valid() && cache.Valid() && cache.Log() == c.cache.Feed([inputToken] + draftTokens, startPos)
      ensures allLogits != [] && WholeRows(allLogits, m.vocab) == ReadBack(m, c, d, beyond)
    {
      var verifyTokens := [inputToken] + draftTokens;
      LastRow(m, c.cache, verifyTokens, startPos);
      var all := cache.Forward(m, verifyTokens, startPos);
      var last := all[|all| - m.vocab..];
      allLogits := last + Flatten(beyond);
      ReadBackIs(m, c, d, beyond, last);
    }

    /** The verdict on the proposals by what is read back. */
    method VerifyDraftTokens(ghost c: Conf, ghost d: Draft, startPos: nat, inputToken: int, draftTokens: seq<int>,
                             draftProbs: seq<real>, beyond: seq<Row>)
      returns (numAccepted: nat, finalToken: int)
      requires Valid() && cache.Valid() && cache.Log() == c.cache && (inputToken, startPos) == c.view.Input()
      requires draftTokens != [] && |draftProbs| == |draftTokens| && MemoryOk(m, |draftTokens|, beyond)
      requires d == ByProbability(prob, draftTokens, draftProbs)
      modifies cache
      ensures Valid() && cache.Valid()
      ensures cache.Log() == c.cache.Feed([inputToken] + draftTokens, startPos)
      ensures var rows := ReadBack(m, c, d, beyond);
              numAccepted == Taken(d, rows, 0) && finalToken == Greedy(rows[numAccepted])
    {
      var allLogits := ReadLogits(c, startPos, inputToken, d, draftTokens, beyond);
      var accepted, final, _ := VerifyDraftAgainstLogits(allLogits, draftTokens, draftProbs, m.vocab, prob);
      AcceptedIsTaken(d, ReadBack(m, c, d, beyond), 0);
      numAccepted, finalToken := accepted, final;
    }

    /** Verify the proposals and roll both caches back to what was accepted. */
    method RollBack(ghost c: Conf, ghost d: Draft, ghost drafts: Log, pos: nat, inputToken: int, draftTokens: seq<int>,
                    draftProbs: seq<real>, beyond: seq<Row>)
      returns (tokens: seq<int>, accepted: nat)
      requires Valid() && cache.Valid() && cache.Log() == c.cache && (inputToken, pos) == c.view.Input()
      requires drafts == draftCache.Log() && d == ByProbability(prob, draftTokens, draftProbs)
      requires draftTokens != [] && |draftProbs| == |draftTokens| && MemoryOk(m, |draftTokens|, beyond)
      modifies cache, draftCache
      ensures Valid() && cache.Valid()
      ensures var rows := ReadBack(m, c, d, beyond);
              && tokens == Verdict(d, rows) && cache.Log() == Kept(c, d, pos, rows) && accepted == Taken(d, rows, 0)
      ensures draftCache.Log() == drafts.Cut(pos + accepted)
    {
      var numAccepted, finalToken := VerifyDraftTokens(c, d, pos, inputToken, draftTokens, draftProbs, beyond);
      accepted := numAccepted;
      tokens := draftTokens[..accepted] + [finalToken];
      assert tokens == Verdict(d, ReadBack(m, c, d, beyond));
      cache.Truncate(pos + 1 + accepted);
      draftCache.Truncate(pos + accepted);
    }

    /** Draft, verify, roll both caches back, emit. */
    method Speculate(ghost c: Conf, ghost lim: Limits, s: Sequence, pos: nat, inputToken: int, k: nat,
                     beyond: seq<Row>)
      returns (ghost d: Draft, accepted: nat)
      requires Valid() && cache.Valid() && StreamOk(s.Snap()) && PositionOk(s.Snap()) && s.state == Decoding
      requires c == ConfOf(s, cache) && (inputToken, pos) == c.view.Input() && 0 < k && MemoryOk(m, k, beyond)
      requires lim == s.LimitsFor(eos, globalMax)
      modifies cache, draftCache, s`state, s`promptPos, s`position, s`generatedTokens, s`sent, s`closed
      ensures Valid() && cache.Valid() && StreamOk(s.Snap()) && |d.tokens| == k
      ensures Proposes(dm, prob, old(draftCache.Log()).live, inputToken, pos, d, k)
      ensures ConfOf(s, cache) == JudgedAsRead(m, lim, c, d, beyond)
      ensures accepted == AcceptedAsRead(m, c, Reading(d, beyond))
      ensures draftCache.Log() ==
              Log(Contiguous, FedBy(old(draftCache.Log()).live, inputToken, d.tokens, pos, k)).Cut(pos + accepted)
    {
      var draftTokens, draftProbs;
      ghost var drafted;
      draftTokens, draftProbs, drafted := Propose(pos, inputToken, k);
      d := ByProbability(prob, draftTokens, draftProbs);
      assert ConfOf(s, cache) == c;
      ghost var drafts := Log(Contiguous, drafted.live);
      var tokens;
      tokens, accepted := RollBack(c, d, drafts, pos, inputToken, draftTokens, draftProbs, beyond);
      ghost var kept := cache.Log();
      EmitAccepted(c.view, lim, s, tokens, eos, globalMax);
      assert cache.Log() == kept;
    }

    method Propose(pos: nat, inputToken: int, k: nat)
      returns (draftTokens: seq<int>, draftProbs: seq<real>, ghost drafted: Drafted)
      requires Valid()
      modifies draftCache
      ensures Valid() && draftCache.Log() == Log(Contiguous, drafted.live)
      ensures draftTokens == drafted.tokens && draftProbs == drafted.probs && |draftTokens| == |draftProbs| == k
      ensures Proposes(dm, prob, old(draftCache.Log()).live, inputToken, pos,
                       ByProbability(prob, draftTokens, draftProbs), k)
      ensures drafted.live == FedBy(old(draftCache.Log()).live, inputToken, draftTokens, pos, k)
    {
      ghost var live := draftCache.Log().live;
      draftTokens, draftProbs := GenerateDraftTokensFrom(dm, prob, draftCache, inputToken, pos, k);
      drafted := Drafted(draftTokens, draftProbs, draftCache.Log().live);
      DrawProposes(dm, prob, live, inputToken, pos, k);
      DrawFeeds(dm, prob, live, inputToken, pos, k);
    }

    /** The step on a decoding sequence with something to draft. */
    method SpeculateNext(ghost c: Conf, ghost lim: Limits, ghost p: Drafter, s: Sequence, beyond: seq<Row>)
      returns (ghost d: Draft)
      requires Valid() && Ready(s, cache) && s.state == Decoding && p == State() && c == ConfOf(s, cache)
      requires lim == s.LimitsFor(eos, globalMax) && p.Drafts() > 0 && MemoryOk(m, p.Drafts(), beyond)
      modifies cache, draftCache, adaptive, s`state, s`promptPos, s`position, s`generatedTokens, s`sent, s`closed
      ensures Valid() && Ready(s, cache) && MemoryOk(m, |d.tokens|, beyond)
      ensures ConfOf(s, cache) == DraftStepAsRead(m, lim, c, d, beyond)
      ensures DraftTurn(m, dm, prob, adaptive.config, p, c, Reading(d, beyond), State())
    {
      StartIsPosition(c);
      var inputToken, pos, hasMore := s.NextInputToken();
      assert hasMore;
      d := SpeculateAndTune(c, lim, p, s, pos, inputToken, beyond);
      AsReadIsJudged(m, lim, c, d, beyond);
      AlignedAsRead(m, lim, c, d, beyond);
    }

    method SpeculateAndTune(ghost c: Conf, ghost lim: Limits, ghost p: Drafter, s: Sequence, pos: nat, inputToken: int,
                            beyond: seq<Row>)
      returns (ghost d: Draft)
      requires Valid() && cache.Valid() && StreamOk(s.Snap()) && PositionOk(s.Snap()) && s.state == Decoding
      requires c == ConfOf(s, cache) && (inputToken, pos) == c.view.Input() && p == State()
      requires lim == s.LimitsFor(eos, globalMax) && p.Drafts() > 0 && MemoryOk(m, p.Drafts(), beyond)
      modifies cache, draftCache, adaptive, s`state, s`promptPos, s`position, s`generatedTokens, s`sent, s`closed
      ensures Valid() && cache.Valid() && StreamOk(s.Snap()) && |d.tokens| == p.Drafts()
      ensures ConfOf(s, cache) == JudgedAsRead(m, lim, c, d, beyond)
      ensures DraftJudged(m, dm, prob, adaptive.config, p, c, Reading(d, beyond), State())
    {
      var k := adaptive.current;
      var accepted;
      d, accepted := Speculate(c, lim, s, pos, inputToken, k, beyond);
      ghost var r, drafts := ConfOf(s, cache), draftCache.Log();
      Tune(p, accepted, k);
      assert ConfOf(s, cache) == r && draftCache.Log() == drafts;
    }

    method Tune(ghost p: Drafter, accepted: int, k: int)
      requires adaptive.Valid() && adaptive.current == p.length && adaptive.past == p.past && k > 0
      modifies adaptive
      ensures adaptive.Valid() && adaptive.past == p.past + [Windows.Step(accepted, k)]
      ensures adaptive.current ==
              if |adaptive.past| < adaptive.config.windowSize then p.length
              else Windows.Adjusted(adaptive.config, p.length,
                                    Windows.Average(Windows.Last(adaptive.past, adaptive.config.windowSize)))
    {
      adaptive.RecordStep(accepted, k);
    }

    method RunSpeculativeDecodeStep(ghost c: Conf, ghost lim: Limits, ghost p: Drafter, s: Sequence, beyond: seq<Row>)
      returns (ghost d: Draft)
      requires Valid() && Ready(s, cache) && p == State() && c == ConfOf(s, cache) && lim == s.LimitsFor(eos, globalMax)
      requires MemoryOk(m, p.Drafts(), beyond)
      modifies cache, draftCache, adaptive, s`state, s`promptPos, s`position, s`generatedTokens, s`sent, s`closed
      ensures Valid() && Ready(s, cache) && MemoryOk(m, |d.tokens|, beyond)
      ensures ConfOf(s, cache) == DraftStepAsRead(m, lim, c, d, beyond)
      ensures DraftTurn(m, dm, prob, adaptive.config, p, c, Reading(d, beyond), State())
    {
      d := PathDraft(Zeros(p.Drafts()));
      if s.state == Pending && |s.promptTokens| > 0 && s.promptPos < |s.promptTokens| {
        PrefillBoth(s);
        return;
      }
      if s.state != Decoding {
        return;
      }
      if adaptive.current <= 0 {
        var _ := RunPlainStep(m, s, cache, eos, globalMax);
        assert State() == p;
        return;
      }
      d := SpeculateNext(c, lim, p, s, beyond);
    }

    /** One step of a run, with what the memory behind the row read back holds. */
    method NextStep(ghost c: Conf, ghost lim: Limits, ghost p: Drafter, s: Sequence, memory: nat -> Row)
      returns (ghost r: Reading)
      requires Valid() && Ready(s, cache) && p == State() && c == ConfOf(s, cache) && lim == s.LimitsFor(eos, globalMax)
      requires forall j :: |memory(j)| == m.vocab
      modifies cache, draftCache, adaptive, s`state, s`promptPos, s`position, s`generatedTokens, s`sent, s`closed
      ensures Valid() && Ready(s, cache) && MemoryOk(m, |r.draft.tokens|, r.beyond)
      ensures ConfOf(s, cache) == DraftStepAsRead(m, lim, c, r.draft, r.beyond)
      ensures DraftTurn(m, dm, prob, adaptive.config, p, c, r, State())
    {
      var k := if adaptive.current > 0 then adaptive.current else 0;
      var beyond := seq(k, j requires 0 <= j < k => memory(j));
      ghost var d := RunSpeculativeDecodeStep(c, lim, p, s, beyond);
      r := Reading(d, beyond);
    }

    /** Any number of steps on a fresh sequence, whatever the memory behind the rows read back holds. */
    method RunSteps(s: Sequence, memories: seq<nat -> Row>)
      returns (ghost readings: seq<Reading>, ghost states: seq<Drafter>)
      requires Valid() && cache.Valid() && s.promptTokens != [] && adaptive.past == []
      requires ConfOf(s, cache) == Start(s.promptTokens, Contiguous)
      requires forall i, j :: 0 <= i < |memories| ==> |memories[i](j)| == m.vocab
      modifies cache, draftCache, adaptive, s`state, s`promptPos, s`position, s`generatedTokens, s`sent, s`closed
      ensures Valid() && Ready(s, cache) && |readings| == |memories| && ReadingsOk(m, readings)
      ensures var lim, start := s.LimitsFor(eos, globalMax), Start(s.promptTokens, Contiguous);
              && ConfOf(s, cache) == RunAsRead(m, lim, start, readings)
              && DraftTurns(m, dm, prob, adaptive.config, lim, start, states, readings)
      ensures states[0] == old(State()) && states[|memories|] == State()
      ensures s.state == Decoding && memories != [] ==> InStep(State(), s.Snap(), |memories|)
      ensures s.state != Finished ==> |memories| <= |s.generatedTokens|
    {
      ghost var lim, prompt := s.LimitsFor(eos, globalMax), s.promptTokens;
      ghost var start := Start(prompt, Contiguous);
      ghost var first := State();
      readings, states := [], [first];
      var i := 0;
      while i < |memories|
        invariant 0 <= i <= |memories| && |readings| == i && ReadingsOk(m, readings)
        invariant Valid() && Ready(s, cache) && ConfOf(s, cache) == RunAsRead(m, lim, start, readings)
        invariant s.promptTokens == prompt && s.LimitsFor(eos, globalMax) == lim
        invariant DraftTurns(m, dm, prob, adaptive.config, lim, start, states, readings)
        invariant states[0] == first && states[i] == State()
      {
        ghost var r := NextStep(ConfOf(s, cache), lim, State(), s, memories[i]);
        DraftTurnsSnoc(m, dm, prob, adaptive.config, lim, start, states, readings, r, State());
        RunSnoc(m, lim, start, readings, r);
        readings, states := readings + [r], states + [State()];
        i := i + 1;
      }
      RunsAsReadStayAligned(m, lim, prompt, readings);
      RunEnds(m, dm, prob, adaptive.config, lim, prompt, states, readings);
    }
  }

  lemma {:induction false} RunEnds(m: Model, dm: Model, prob: Probability, config: Windows.AdaptiveConfig, lim: Limits,
                                   prompt: seq<int>, ps: seq<Drafter>, readings: seq<Reading>)
    requires ValidModel(m) && ReadingsOk(m, readings) && prompt != [] && |ps| == |readings| + 1
    requires DraftTurns(m, dm, prob, config, lim, Start(prompt, Contiguous), ps, readings) && ps[0].past == []
    ensures var v := RunAsRead(m, lim, Start(prompt, Contiguous), readings).view;
            v.state == Decoding && readings != [] ==> InStep(ps[|readings|], v, |readings|)
  {
    assert readings[..|readings|] == readings;
    if readings != [] && RunAsRead(m, lim, Start(prompt, Contiguous), readings).view.state == Decoding {
      RunInStep(m, dm, prob, config, lim, prompt, ps, readings, |readings|);
    }
  }
}
