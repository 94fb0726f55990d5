/** Speculation with a draft model: inference/scheduler/speculative.go and speculative_scheduler.go.  It runs on the
    contiguous cache only, whose passes over several tokens do not show them the text.

    `VerifyDraftTokens` reads (1+K)*vocab logits back from the device, but the pass it runs leaves only the
    last token's row there.  On the GPU the copy goes on into the memory behind that row, and what it finds is
    a parameter here (`beyond`); on the CPU the slice is out of range and the step panics, which is not part of
    this model.  The lemmas say what follows from the single row that is there, and what would follow if all
    rows were, which is what the code expects. */
module DraftScheduling {
  import opened Arithmetic
  import opened Flattening
  import opened Sampling
  import opened Probabilities
  import opened Sequences
  import opened Speculation
  import opened Transparency
  import opened Schedulers

  /** Proposals with the draft model's probabilities: also accepted if the target finds them as likely. */
  function ByProbability(prob: Probability, tokens: seq<int>, probs: seq<real>): Draft {
    Draft(tokens, (i: nat, row) => i < |tokens| && i < |probs| && prob(row, tokens[i]) >= probs[i])
  }

  // ---------------------------------------------------------------- the draft model proposes

  /** Proposals with their probabilities, and what the draft cache holds after proposing. */
  datatype Drafted = Drafted(tokens: seq<int>, probs: seq<real>, live: seq<Entry>) {
    /** The token to feed next. */
    function Input(token: int): int {
      if tokens == [] then token else tokens[|tokens| - 1]
    }
  }

  /** The draft cache is contiguous and fed one token at a time, each of which sees everything before it. */
  function Fed(live: seq<Entry>, token: int, pos: nat): seq<Entry> {
    live + [Entry(token, pos, Back(|live|))]
  }

  lemma {:induction false} FedIsFeed(c: Log, token: int, pos: nat)
    requires c.kind == Contiguous
    ensures Fed(c.live, token, pos) == c.Context([token], pos, 0) == c.Feed([token], pos).live
  {
    AppendsOne(c, token, pos);
    assert c.live[..c.At(pos)] == c.live && c.Made([token], pos) == [Entry(token, pos, Back(|c.live|))];
  }

  /** One proposal more: the draft model's choice, and its probability. */
  function Extended(dm: Model, prob: Probability, sofar: Drafted, token: int, pos: nat): Drafted {
    var live := Fed(sofar.live, token, pos);
    var row := dm.logits(live);
    Drafted(sofar.tokens + [Greedy(row)], sofar.probs + [prob(row, Greedy(row))], live)
  }

  function Draw(dm: Model, prob: Probability, live: seq<Entry>, token: int, pos: nat, k: nat): (r: Drafted)
    ensures |r.tokens| == |r.probs| == k && |r.live| == |live| + k
  {
    if k == 0 then Drafted([], [], live)
    else
      var sofar := Draw(dm, prob, live, token, pos, k - 1);
      Extended(dm, prob, sofar, sofar.Input(token), pos + k - 1)
  }

  lemma {:induction false} DrawOneMore(dm: Model, prob: Probability, live: seq<Entry>, token: int, pos: nat, k: nat,
                                       after: seq<Entry>)
    requires var sofar := Draw(dm, prob, live, token, pos, k); after == Fed(sofar.live, sofar.Input(token), pos + k)
    ensures var sofar, row := Draw(dm, prob, live, token, pos, k), dm.logits(after);
            && Draw(dm, prob, live, token, pos, k + 1) ==
               Drafted(sofar.tokens + [Greedy(row)], sofar.probs + [prob(row, Greedy(row))], after)
            && Draw(dm, prob, live, token, pos, k + 1).Input(token) == Greedy(row)
  {
  }

  /** What the draft cache holds after the first k inputs. */
  function FedBy(live: seq<Entry>, token: int, tokens: seq<int>, pos: nat, k: nat): seq<Entry>
    requires k <= |tokens| + 1
  {
    live + Entries(([token] + tokens)[..k], pos, |live|)
  }

  lemma {:induction false} FedBySnoc(live: seq<Entry>, token: int, tokens: seq<int>, pos: nat, k: nat)
    requires k <= |tokens|
    ensures FedBy(live, token, tokens, pos, k) + [Entry(([token] + tokens)[k], pos + k, Back(|live| + k))] ==
            FedBy(live, token, tokens, pos, k + 1)
  {
  }

  lemma {:induction false} FedByFront(live: seq<Entry>, token: int, tokens: seq<int>, next: int, pos: nat, k: nat)
    requires k <= |tokens| + 1
    ensures FedBy(live, token, tokens + [next], pos, k) == FedBy(live, token, tokens, pos, k)
  {
    assert ([token] + (tokens + [next]))[..k] == ([token] + tokens)[..k];
  }

  /** Proposing leaves the input and all proposals but the last in the draft cache. */
  lemma {:induction false} DrawFeeds(dm: Model, prob: Probability, live: seq<Entry>, token: int, pos: nat, k: nat)
    ensures var r := Draw(dm, prob, live, token, pos, k); r.live == FedBy(live, token, r.tokens, pos, k)
  {
    if k > 0 {
      var sofar, r := Draw(dm, prob, live, token, pos, k - 1), Draw(dm, prob, live, token, pos, k);
      DrawFeeds(dm, prob, live, token, pos, k - 1);
      FedBySnoc(live, token, sofar.tokens, pos, k - 1);
      FedByFront(live, token, sofar.tokens, r.tokens[k - 1], pos, k);
    }
  }

  /** Every proposal is the draft model's own choice after what was cached, the input and the proposals before it,
      with its own probability there. */
  lemma {:induction false} DrawIsGreedy(dm: Model, prob: Probability, live: seq<Entry>, token: int, pos: nat, k: nat,
                                        i: nat)
    requires i < k
    ensures var r := Draw(dm, prob, live, token, pos, k);
            var row := dm.logits(FedBy(live, token, r.tokens, pos, i + 1));
            r.tokens[i] == Greedy(row) && r.probs[i] == prob(row, r.tokens[i])
  {
    var sofar, r := Draw(dm, prob, live, token, pos, k - 1), Draw(dm, prob, live, token, pos, k);
    FedByFront(live, token, sofar.tokens, r.tokens[k - 1], pos, i + 1);
    if i < k - 1 {
      DrawIsGreedy(dm, prob, live, token, pos, k - 1, i);
    } else {
      DrawFeeds(dm, prob, live, token, pos, k);
    }
  }

  /** From a level cache the proposals are the draft model's greedy continuation of the text. */
  lemma {:induction false} DrawFollows(dm: Model, prob: Probability, text: seq<int>, token: int, k: nat)
    ensures Follows(dm, text + [token], Draw(dm, prob, Stamp(text), token, |text|, k).tokens)
  {
    var r := Draw(dm, prob, Stamp(text), token, |text|, k);
    forall i | 0 <= i < k ensures r.tokens[i] == Next(dm, text + [token] + r.tokens[..i]) {
      DrawIsGreedy(dm, prob, Stamp(text), token, |text|, k, i);
      StampAppend(text, ([token] + r.tokens)[..i + 1]);
      assert text + ([token] + r.tokens)[..i + 1] == text + [token] + r.tokens[..i];
    }
  }

  /** One pass of the draft model over one token. */
  method DraftOne(dm: Model, draftCache: KVCache, token: int, pos: nat) returns (logits: Row, tokenID: int)
    requires ValidModel(dm) && draftCache.Valid() && draftCache.kind == Contiguous
    modifies draftCache
    ensures draftCache.Valid() && draftCache.Log().live == Fed(old(draftCache.Log()).live, token, pos)
    ensures logits == dm.logits(draftCache.Log().live) && tokenID == Greedy(logits)
  {
    LastRow(dm, draftCache.Log(), [token], pos);
    FedIsFeed(draftCache.Log(), token, pos);
    logits := draftCache.Forward(dm, [token], pos);
    logits := logits[|logits| - dm.vocab..];
    tokenID := Argmax(logits);
  }

  method GenerateDraftTokensFrom(dm: Model, prob: Probability, draftCache: KVCache, inputToken: int, startPos: nat,
                                 k: nat)
    returns (draftTokens: seq<int>, draftProbs: seq<real>)
    requires ValidModel(dm) && draftCache.Valid() && draftCache.kind == Contiguous
    modifies draftCache
    ensures draftCache.Valid()
    ensures Drafted(draftTokens, draftProbs, draftCache.Log().live) ==
            Draw(dm, prob, old(draftCache.Log()).live, inputToken, startPos, k)
  {
    draftTokens, draftProbs := [], [];
    var currentToken, currentPos := inputToken, startPos;
    ghost var live := draftCache.Log().live;
    var i := 0;
    while i < k
      invariant 0 <= i <= k && draftCache.Valid() && currentPos == startPos + i
      invariant Drafted(draftTokens, draftProbs, draftCache.Log().live) ==
                Draw(dm, prob, live, inputToken, startPos, i)
      invariant currentToken == Draw(dm, prob, live, inputToken, startPos, i).Input(inputToken)
    {
      var logits, tokenID := DraftOne(dm, draftCache, currentToken, currentPos);
      DrawOneMore(dm, prob, live, inputToken, startPos, i, draftCache.Log().live);
      draftTokens := draftTokens + [tokenID];
      draftProbs := draftProbs + [prob(logits, tokenID)];
      currentToken := tokenID;
      currentPos := currentPos + 1;
      i := i + 1;
    }
  }

  // ---------------------------------------------------------------- the target judges

  /** Accepted count and final token for a flat slice of logits of any length. */
  method VerifyDraftAgainstLogits(allLogits: Row, draftTokens: seq<int>, draftProbs: seq<real>, vocabSize: nat,
                                  prob: Probability)
    returns (numAccepted: nat, finalToken: int, finalLogits: Row)
    requires vocabSize > 0 && |draftProbs| == |draftTokens|
    ensures draftTokens == [] || allLogits == [] ==> (numAccepted, finalToken, finalLogits) == (0, 0, [])
    ensures draftTokens != [] && allLogits != [] ==>
      var rows := WholeRows(allLogits, vocabSize);
      && numAccepted == Accepted(ByProbability(prob, draftTokens, draftProbs), rows, 0)
      && finalLogits == (if numAccepted < |rows| then rows[numAccepted] else [])
      && finalToken == Greedy(finalLogits)
  {
    numAccepted, finalToken, finalLogits := 0, 0, [];
    if |draftTokens| == 0 || |allLogits| == 0 {
      return;
    }
    numAccepted, finalToken, finalLogits := JudgeRows(WholeRows(allLogits, vocabSize), draftTokens, draftProbs, prob);
  }

  /** The loop over the drafted tokens; it stops early if the logits do not reach far enough. */
  method JudgeRows(rows: seq<Row>, draftTokens: seq<int>, draftProbs: seq<real>, prob: Probability)
    returns (numAccepted: nat, finalToken: int, finalLogits: Row)
    requires |draftProbs| == |draftTokens|
    ensures numAccepted == Accepted(ByProbability(prob, draftTokens, draftProbs), rows, 0)
    ensures finalLogits == if numAccepted < |rows| then rows[numAccepted] else []
    ensures finalToken == Greedy(finalLogits)
  {
    numAccepted, finalToken, finalLogits := 0, 0, [];
    ghost var d := ByProbability(prob, draftTokens, draftProbs);
    var i := 0;
    while i < |draftTokens|
      invariant 0 <= i <= |draftTokens| && i <= |rows| && numAccepted == i
      invariant finalToken == 0 && finalLogits == []
      invariant Accepted(d, rows, 0) == Accepted(d, rows, i)
    {
      if i >= |rows| {
        return;
      }
      var accept, targetToken := JudgeToken(rows[i], draftTokens[i], draftProbs[i], prob);
      if accept {
        numAccepted := numAccepted + 1;
      } else {
        return numAccepted, targetToken, rows[i];
      }
      i := i + 1;
    }
    if |draftTokens| < |rows| {
      finalLogits := rows[|draftTokens|];
      finalToken := Argmax(finalLogits);
    }
  }

  /** Accept what the target would choose, or finds at least as likely as the draft model did. */
  method JudgeToken(targetLogits: Row, draftToken: int, draftProb: real, prob: Probability)
    returns (accept: bool, targetToken: int)
    ensures targetToken == Greedy(targetLogits)
    ensures accept <==> draftToken == targetToken || prob(targetLogits, draftToken) >= draftProb
  {
    var targetProb := prob(targetLogits, draftToken);
    targetToken := Argmax(targetLogits);
    accept := draftToken == targetToken || targetProb >= draftProb;
  }

  /** The complete rows in a flat slice. */
  function WholeRows(flat: Row, vocab: nat): (rows: seq<Row>)
    requires vocab > 0
    ensures |rows| == |flat| / vocab && Uniform(rows, vocab)
  {
    Fits(0, |flat|, vocab);
    Unflatten(flat, vocab, |flat| / vocab)
  }

  /** Row i is inside a slice of `size` elements exactly when there are more than i whole rows. */
  lemma {:induction false} Fits(i: nat, size: nat, vocab: nat)
    requires vocab > 0
    ensures (i + 1) * vocab == i * vocab + vocab
    ensures (i + 1) * vocab <= size <==> i < size / vocab
    ensures (size / vocab) * vocab <= size
  {
    var q := size / vocab;
    DivBounds(size, vocab);
    MulSucc(i, vocab);
    if i < q { MulMono(i + 1, q, vocab); } else { MulMono(q + 1, i + 1, vocab); }
  }

  // ---------------------------------------------------------------- what is read back after a pass

  /** What the GPU's memory behind the last token's row holds, cut into k rows. */
  ghost predicate MemoryOk(m: Model, k: nat, beyond: seq<Row>) {
    |beyond| == k && Uniform(beyond, m.vocab)
  }

  /** The rows the verifier sees: the last token's row, and then whatever the memory after it holds. */
  function ReadBack(m: Model, c: Conf, d: Draft, beyond: seq<Row>): (rows: seq<Row>)
    requires ValidModel(m) && MemoryOk(m, |d.tokens|, beyond)
    ensures |rows| == |d.tokens| + 1
  {
    [LastOf(m, c, d)] + beyond
  }

  function LastOf(m: Model, c: Conf, d: Draft): Row {
    m.logits(c.cache.Context([c.view.Input().0] + d.tokens, c.view.Input().1, |d.tokens|))
  }

  /** A target cache with a sequence in it, on which this scheduler verifies. */
  ghost predicate OnContiguous(c: Conf) {
    Coupled(c) && c.view.state == Decoding && c.cache.kind == Contiguous
  }

  /** That row belongs to input and draft alone: the pass does not see the text. */
  lemma {:induction false} LastIsOwn(m: Model, c: Conf, d: Draft)
    requires OnContiguous(c) && d.tokens != []
    ensures LastOf(m, c, d) == m.logits(Entries([c.view.Input().0] + d.tokens, c.view.position, 0))
  {
    PassExtends(c, d.tokens);
    var fed := [c.view.Input().0] + d.tokens;
    OwnContext(c.cache, fed, c.view.position, |d.tokens|);
    assert fed[..|d.tokens| + 1] == fed;
  }

  /** The draft step as the code performs it. */
  function DraftStepAsRead(m: Model, lim: Limits, c: Conf, d: Draft, beyond: seq<Row>): Conf
    requires ValidModel(m) && MemoryOk(m, |d.tokens|, beyond)
  {
    if c.view.NeedsPrefill() then Prefilled(m, lim, c)
    else if !c.view.CanDecode() then c
    else if d.tokens == [] then PlainStep(m, lim, c)
    else JudgedAsRead(m, lim, c, d, beyond)
  }

  function JudgedAsRead(m: Model, lim: Limits, c: Conf, d: Draft, beyond: seq<Row>): Conf
    requires ValidModel(m) && MemoryOk(m, |d.tokens|, beyond)
  {
    Judged(lim, c, d, c.view.Input().1, ReadBack(m, c, d, beyond))
  }

  /** What the scheduler makes of a verdict: cut the cache behind the accepted proposals, emit. */
  function Settled(lim: Limits, c: Conf, tokens: seq<int>, numAccepted: nat, finalToken: int): Conf
    requires numAccepted <= |tokens|
  {
    var (token, pos) := c.view.Input();
    Conf(EmitAll(c.view, tokens[..numAccepted] + [finalToken], lim),
         c.cache.Feed([token] + tokens, pos).Cut(pos + 1 + numAccepted))
  }

  lemma {:induction false} WholeRowsFlatten(rows: seq<Row>, vocab: nat)
    requires vocab > 0 && Uniform(rows, vocab)
    ensures WholeRows(Flatten(rows), vocab) == rows
  {
    UnflattenFlatten(rows, vocab);
    Positions(|rows|, |Flatten(rows)|, vocab);
  }

  /** Given the rows of all tokens of the pass, `VerifyDraftAgainstLogits` finds what makes a verification by the
      pass's own rows. */
  lemma {:induction false} AllRowsWouldDo(m: Model, lim: Limits, c: Conf, prob: Probability, tokens: seq<int>,
                                          probs: seq<real>)
    requires ValidModel(m) && OnContiguous(c) && tokens != []
    ensures var d, allLogits := ByProbability(prob, tokens, probs),
                                Flatten(Rows(m, c.cache, [c.view.Input().0] + tokens, c.view.Input().1));
            var rows := WholeRows(allLogits, m.vocab);
            var numAccepted := Accepted(d, rows, 0);
            && numAccepted < |rows| && allLogits != []
            && Settled(lim, c, tokens, numAccepted, Greedy(rows[numAccepted])) ==
               Verified(m, lim, c, d, c.view.position)
  {
    var (token, pos) := c.view.Input();
    var d := ByProbability(prob, tokens, probs);
    var rows := Rows(m, c.cache, [token] + tokens, pos);
    StartIsPosition(c);
    RowsUniform(m, c.cache, [token] + tokens, pos);
    WholeRowsFlatten(rows, m.vocab);
    SettledIsJudged(lim, c, d, rows);
    assert Flatten(rows) != [] by { FlatRow(rows, m.vocab, 0); }
  }

  lemma {:induction false} SettledIsJudged(lim: Limits, c: Conf, d: Draft, rows: seq<Row>)
    requires |d.tokens| < |rows|
    ensures var k := Accepted(d, rows, 0);
            k < |rows| && Settled(lim, c, d.tokens, k, Greedy(rows[k])) == Judged(lim, c, d, c.view.Input().1, rows)
  {
    AcceptedIsTaken(d, rows, 0);
  }

  /** Even those rows do not make it right: whatever the test, what they yield is the continuation of the text for
      every target exactly if nothing was drafted and the cache is sound. */
  lemma {:induction false} AllRowsFollowIff(c: Conf, d: Draft)
    requires OnContiguous(c)
    ensures (forall m :: ValidModel(m) ==> Follows(m, c.view.All(), Proposed(m, c, d))) <==>
            d.tokens == [] && Sound(c)
  {
    if d.tokens == [] && Sound(c) {
      forall m | ValidModel(m) ensures Follows(m, c.view.All(), Proposed(m, c, d)) {
        PassRowsOfText(m, c, d.tokens);
        StrictVerdictFollows(m, c.view.All(), d, Rows(m, c.cache, [c.view.Input().0] + d.tokens, c.view.position));
      }
    } else {
      var m := Contrary(d);
      ContraryMissteps(c, d);
    }
  }

  /** What a verification yields first, if its first row chooses token 1. */
  function FirstByOne(d: Draft): int {
    if d.tokens != [] && d.Takes(0, Peak(2, 1)) then d.tokens[0] else 1
  }

  /** A target that chooses something else after a text, and token 1 if it does not see all of it. */
  function Contrary(d: Draft): (m: Model)
    ensures ValidModel(m) && m.vocab == 2
  {
    Model(2, s => Peak(2, if Textual(s) && FirstByOne(d) == 1 then 0 else 1), x => x)
  }

  lemma {:induction false} ContraryMissteps(c: Conf, d: Draft)
    requires OnContiguous(c) && !(d.tokens == [] && Sound(c))
    ensures !Follows(Contrary(d), c.view.All(), Proposed(Contrary(d), c, d))
  {
    var m, fed := Contrary(d), [c.view.Input().0] + d.tokens;
    ContextIsTextIff(c, d.tokens);
    var rows := Rows(m, c.cache, fed, c.view.position);
    assert rows[0] == Peak(2, 1);
    FirstOf(d, rows);
    assert Textual(Stamp(c.view.All()));
    if Follows(m, c.view.All(), Proposed(m, c, d)) { FollowsFirst(m, c.view.All(), Proposed(m, c, d)); }
  }

  /** The first token of a verdict. */
  lemma {:induction false} FirstOf(d: Draft, rows: seq<Row>)
    requires |d.tokens| < |rows|
    ensures Verdict(d, rows)[0] == if d.tokens != [] && d.Takes(0, rows[0]) then d.tokens[0] else Greedy(rows[0])
  {
  }

  lemma {:induction false} ReadBackIs(m: Model, c: Conf, d: Draft, beyond: seq<Row>, last: Row)
    requires ValidModel(m) && MemoryOk(m, |d.tokens|, beyond) && last == LastOf(m, c, d)
    ensures last + Flatten(beyond) != [] && WholeRows(last + Flatten(beyond), m.vocab) == ReadBack(m, c, d, beyond)
  {
    FlattenCons(last, beyond);
    WholeRowsFlatten([last] + beyond, m.vocab);
  }

  lemma {:induction false} AsReadIsJudged(m: Model, lim: Limits, c: Conf, d: Draft, beyond: seq<Row>)
    requires ValidModel(m) && MemoryOk(m, |d.tokens|, beyond)
    requires Coupled(c) && c.view.state == Decoding && d.tokens != []
    ensures DraftStepAsRead(m, lim, c, d, beyond) == JudgedAsRead(m, lim, c, d, beyond)
    ensures c.view.Input().1 == c.view.position
  {
    StartIsPosition(c);
  }

  /** Whatever was read back: the cache stays coupled to the sequence, so the target cache length equals the
      position, and a verification emits between 1 and K+1 tokens. */
  lemma {:induction false} AlignedAsRead(m: Model, lim: Limits, c: Conf, d: Draft, beyond: seq<Row>)
    requires ValidModel(m) && MemoryOk(m, |d.tokens|, beyond)
    requires Coupled(c) && (c.view.state == Pending ==> c.view == Fresh(c.view.prompt))
    ensures var r := DraftStepAsRead(m, lim, c, d, beyond);
            && Coupled(r) && r.view.prompt == c.view.prompt && r.view.state != Pending
            && (r.view.state == Decoding ==> |r.cache.live| == r.view.position)
            && (c.view.state == Decoding ==>
                  1 <= |r.view.generated| - |c.view.generated| <= |d.tokens| + 1)
  {
    if c.view.state == Pending {
      PrefilledIsRef(m, lim, c);
      RefStarted(m, lim, c.view.prompt, 0);
    } else if c.view.state == Decoding {
      StartIsPosition(c);
      if d.tokens == [] {
        DecodedKeepsCoupling(m, lim, c);
      } else {
        var _ := JudgedKeepsCoupling(lim, c, d, ReadBack(m, c, d, beyond));
      }
    }
  }

  // ---------------------------------------------------------------- runs of the step as read

  /** The draft of a step, and what the memory after its one row holds. */
  datatype Reading = Reading(draft: Draft, beyond: seq<Row>)

  ghost predicate ReadingsOk(m: Model, readings: seq<Reading>) {
    forall i :: 0 <= i < |readings| ==> MemoryOk(m, |readings[i].draft.tokens|, readings[i].beyond)
  }

  function RunAsRead(m: Model, lim: Limits, c: Conf, readings: seq<Reading>): Conf
    requires ValidModel(m) && ReadingsOk(m, readings)
  {
    if readings == [] then c
    else
      var r := readings[|readings| - 1];
      DraftStepAsRead(m, lim, RunAsRead(m, lim, c, readings[..|readings| - 1]), r.draft, r.beyond)
  }

  /** Over every run of the draft scheduler, with any drafts, any test and anything in the memory read back at each
      step: the target cache is coupled to the sequence, and every step yields a token until the end. */
  lemma {:induction false} RunsAsReadStayAligned(m: Model, lim: Limits, prompt: seq<int>, readings: seq<Reading>)
    requires ValidModel(m) && prompt != [] && ReadingsOk(m, readings)
    ensures var c := RunAsRead(m, lim, Start(prompt, Contiguous), readings);
            && Coupled(c) && c.view.prompt == prompt
            && (c.view.state == Pending ==> readings == [] && c == Start(prompt, Contiguous))
            && (c.view.state == Decoding ==> |c.cache.live| == c.view.position)
            && (c.view.state != Finished ==> |readings| <= |c.view.generated|)
  {
    if readings != [] {
      var before, r := readings[..|readings| - 1], readings[|readings| - 1];
      RunsAsReadStayAligned(m, lim, prompt, before);
      var c := RunAsRead(m, lim, Start(prompt, Contiguous), before);
      AlignedAsRead(m, lim, c, r.draft, r.beyond);
      if c.view.state == Finished { FinishedStays(m, lim, c, r.draft, r.beyond); }
    }
  }

  lemma {:induction false} FinishedStays(m: Model, lim: Limits, c: Conf, d: Draft, beyond: seq<Row>)
    requires ValidModel(m) && MemoryOk(m, |d.tokens|, beyond) && c.view.state == Finished
    ensures DraftStepAsRead(m, lim, c, d, beyond) == c
  {
  }

  // ---------------------------------------------------------------- one row is not enough

  /** The first token emitted is the choice of the row of input and draft alone, or the first proposal if it passes
      by that row. */
  lemma {:induction false} FirstAsRead(m: Model, c: Conf, d: Draft, beyond: seq<Row>)
    requires ValidModel(m) && MemoryOk(m, |d.tokens|, beyond) && OnContiguous(c) && d.tokens != []
    ensures var row := m.logits(Entries([c.view.Input().0] + d.tokens, c.view.position, 0));
            && ReadBack(m, c, d, beyond)[0] == row
            && Verdict(d, ReadBack(m, c, d, beyond))[0] == if d.Takes(0, row) then d.tokens[0] else Greedy(row)
  {
    LastIsOwn(m, c, d);
    FirstOf(d, ReadBack(m, c, d, beyond));
  }

  ghost predicate AlwaysFollows(m: Model, c: Conf, d: Draft)
    requires ValidModel(m)
  {
    forall beyond: seq<Row> :: MemoryOk(m, |d.tokens|, beyond) ==>
      Follows(m, c.view.All(), Verdict(d, ReadBack(m, c, d, beyond)))
  }

  /** Exactly when verification as read yields what plain decoding would, whatever the memory holds and by
      whatever test: never by accepting anything, only when the first proposal is rejected by the row of input
      and draft alone, and that row happens to choose what the target would choose after the text. */
  lemma {:induction false} FollowsAsReadIff(m: Model, c: Conf, d: Draft)
    requires ValidModel(m) && m.vocab > 1 && d.tokens != [] && OnContiguous(c)
    ensures var row := m.logits(Entries([c.view.Input().0] + d.tokens, c.view.position, 0));
            AlwaysFollows(m, c, d) <==> Greedy(row) == Next(m, c.view.All()) && !d.Takes(0, row)
  {
    LastIsOwn(m, c, d);
    if d.Takes(0, LastOf(m, c, d)) {
      var beyond := Misleading(m, c, d);
    } else {
      RejectsAtOnce(m, c, d);
    }
  }

  /** Where the draft first leaves the target's own choices, or its end. */
  lemma {:induction false} FirstDisagreement(m: Model, text: seq<int>, tokens: seq<int>, i: nat) returns (f: nat)
    requires i <= |tokens|
    ensures i <= f <= |tokens| && forall j :: i <= j < f ==> tokens[j] == Next(m, text + tokens[..j])
    ensures f < |tokens| ==> tokens[f] != Next(m, text + tokens[..f])
    decreases |tokens| - i
  {
    if i < |tokens| && tokens[i] == Next(m, text + tokens[..i]) {
      f := FirstDisagreement(m, text, tokens, i + 1);
    } else {
      f := i;
    }
  }

  /** Rows that lead the verifier along the target's own choices and then away from them. */
  function MisleadingRows(m: Model, text: seq<int>, tokens: seq<int>): (rows: seq<Row>)
    requires ValidModel(m) && m.vocab > 1
    ensures |rows| == |tokens| && forall i :: 0 <= i < |tokens| ==> rows[i] == PeakAstray(m, text, tokens, i + 1)
  {
    seq(|tokens|, i requires 0 <= i < |tokens| => PeakAstray(m, text, tokens, i + 1))
  }

  function PeakAstray(m: Model, text: seq<int>, tokens: seq<int>, i: nat): (row: Row)
    requires ValidModel(m) && m.vocab > 1 && i <= |tokens|
    ensures |row| == m.vocab && Greedy(row) == Astray(m, text, tokens, i)
  {
    Peak(m.vocab, Astray(m, text, tokens, i))
  }

  function Astray(m: Model, text: seq<int>, tokens: seq<int>, i: nat): (g: nat)
    requires ValidModel(m) && m.vocab > 1 && i <= |tokens|
    ensures g < m.vocab
  {
    var next := Next(m, text + tokens[..i]);
    if i < |tokens| && tokens[i] == next then next else if next == 0 then 1 else 0
  }

  /** Memory contents with which an accepted first proposal is followed by a wrong token. */
  lemma {:induction false} Misleading(m: Model, c: Conf, d: Draft) returns (beyond: seq<Row>)
    requires ValidModel(m) && m.vocab > 1 && d.tokens != [] && d.Takes(0, LastOf(m, c, d))
    ensures MemoryOk(m, |d.tokens|, beyond) && !Follows(m, c.view.All(), Verdict(d, ReadBack(m, c, d, beyond)))
  {
    var text := c.view.All();
    beyond := MisleadingRows(m, text, d.tokens);
    MisledVerdict(m, text, d, ReadBack(m, c, d, beyond), beyond);
  }

  lemma {:induction false} MisledVerdict(m: Model, text: seq<int>, d: Draft, rows: seq<Row>, rest: seq<Row>)
    requires ValidModel(m) && m.vocab > 1 && d.tokens != [] && rest == MisleadingRows(m, text, d.tokens)
    requires |rows| == |d.tokens| + 1 && rows[1..] == rest && d.Takes(0, rows[0])
    ensures !Follows(m, text, Verdict(d, rows))
  {
    var f := FirstDisagreement(m, text, d.tokens, 1);
    TakenAlong(m, text, d, rows, rest, f);
    var verdict := Verdict(d, rows);
    assert verdict[..f] == d.tokens[..f];
    assert verdict[f] != Next(m, text + d.tokens[..f]);
  }

  lemma {:induction false} TakenAlong(m: Model, text: seq<int>, d: Draft, rows: seq<Row>, rest: seq<Row>, f: nat)
    requires ValidModel(m) && m.vocab > 1 && d.tokens != [] && rest == MisleadingRows(m, text, d.tokens)
    requires |rows| == |d.tokens| + 1 && rows[1..] == rest && d.Takes(0, rows[0]) && 1 <= f <= |d.tokens|
    requires forall j :: 1 <= j < f ==> d.tokens[j] == Next(m, text + d.tokens[..j])
    ensures f <= Taken(d, rows, 0) && Greedy(rows[f]) == Astray(m, text, d.tokens, f)
  {
    assert forall i :: 1 <= i <= |d.tokens| ==> rows[i] == rest[i - 1] == PeakAstray(m, text, d.tokens, i);
    forall j | 0 <= j < f ensures d.Takes(j, rows[j]) {
      if j > 0 { assert Greedy(rows[j]) == Astray(m, text, d.tokens, j); }
    }
  }

  lemma {:induction false} RejectsAtOnce(m: Model, c: Conf, d: Draft)
    requires ValidModel(m) && d.tokens != [] && !d.Takes(0, LastOf(m, c, d))
    ensures AlwaysFollows(m, c, d) <==> Greedy(LastOf(m, c, d)) == Next(m, c.view.All())
  {
    forall beyond: seq<Row> | MemoryOk(m, |d.tokens|, beyond)
      ensures Follows(m, c.view.All(), Verdict(d, ReadBack(m, c, d, beyond))) <==>
              Greedy(LastOf(m, c, d)) == Next(m, c.view.All())
    {
      FirstOf(d, ReadBack(m, c, d, beyond));
      var verdict := Verdict(d, ReadBack(m, c, d, beyond));
      assert |verdict| == 1 && c.view.All() + verdict[..0] == c.view.All();
    }
    var beyond := seq(|d.tokens|, i => Peak(m.vocab, 0));
    assert MemoryOk(m, |d.tokens|, beyond);
  }

  function Zeros(k: nat): (tokens: seq<int>)
    ensures |tokens| == k && forall i :: 0 <= i < k ==> tokens[i] == 0
  {
    seq(k, i => 0)
  }

  /** A draft of any length that is right throughout is rejected and replaced by a wrong token. */
  lemma {:induction false} OneRowBreaksRightDraft(c: Conf, k: nat, beyond: seq<Row>)
    requires OnContiguous(c) && k > 0 && MemoryOk(Attentive(), k, beyond)
    ensures var m, text, d := Attentive(), c.view.All(), PathDraft(Zeros(k));
            && Follows(m, text, d.tokens) && Next(m, text) == 0
            && Verdict(d, ReadBack(m, c, d, beyond)) == [1]
  {
    var m, text, d := Attentive(), c.view.All(), PathDraft(Zeros(k));
    ZerosAreRight(text, k);
    AttentiveNext(text);
    ReadsOne(c, d);
    RejectedAtOnce(d, ReadBack(m, c, d, beyond));
  }

  lemma {:induction false} ZerosAreRight(text: seq<int>, k: nat)
    ensures Follows(Attentive(), text, Zeros(k))
  {
    forall i | 0 <= i < k ensures Zeros(k)[i] == Next(Attentive(), text + Zeros(k)[..i]) {
      AttentiveNext(text + Zeros(k)[..i]);
    }
  }

  /** The row read by the attentive target chooses token 1. */
  lemma {:induction false} ReadsOne(c: Conf, d: Draft)
    requires OnContiguous(c) && d.tokens != []
    ensures LastOf(Attentive(), c, d) == Peak(2, 1)
  {
    PassExtends(c, d.tokens);
    LastIsOwn(Attentive(), c, d);
    var own := Entries([c.view.Input().0] + d.tokens, c.view.position, 0);
    assert own[0].pos == c.view.position;
  }

  lemma {:induction false} RejectedAtOnce(d: Draft, rows: seq<Row>)
    requires 0 < |d.tokens| < |rows| && !d.Takes(0, rows[0])
    ensures Verdict(d, rows) == [Greedy(rows[0])]
  {
  }

  function Constant(row: Row): (m: Model)
    requires row != []
    ensures ValidModel(m) && m.vocab == |row|
  {
    Model(|row|, s => row, x => x)
  }

  lemma {:induction false} WeightsSnoc(exp: Exp, row: Row, x: Logit, max: real)
    ensures Weights(exp, row + [x], max) == Weights(exp, row, max) + Weight(exp, x, max)
  {
    assert (row + [x])[..|row|] == row;
  }

  function ThreeRow(a: Logit, b: Logit, c: Logit): Row {
    [] + [a] + [b] + [c]
  }

  lemma {:induction false} ThreeWeights(exp: Exp, a: Logit, b: Logit, c: Logit, max: real)
    ensures Weights(exp, ThreeRow(a, b, c), max) == Weight(exp, a, max) + Weight(exp, b, max) + Weight(exp, c, max)
  {
    WeightsSnoc(exp, [], a, max);
    WeightsSnoc(exp, [] + [a], b, max);
    WeightsSnoc(exp, [] + [a] + [b], c, max);
  }

  lemma {:induction false} ThreeGreedy()
    ensures Greedy(ThreeRow(0.0, 1.0, 1.0)) == 1 && Greedy(ThreeRow(1.0, 1.0, 0.0)) == 0
  {
    FirstMaxIsGreedy(ThreeRow(0.0, 1.0, 1.0), 1);
    FirstMaxIsGreedy(ThreeRow(1.0, 1.0, 0.0), 0);
  }

  /** The draft model proposes token 1 and finds it as likely as the target does, which would choose token 0. */
  lemma {:induction false} SameProbability(exp: Exp)
    ensures Softmax(exp)(ThreeRow(0.0, 1.0, 1.0), 1) == Softmax(exp)(ThreeRow(1.0, 1.0, 0.0), 1)
  {
    ThreeGreedy();
    MiddleProbability(exp, 0.0, 1.0, 1.0);
    MiddleProbability(exp, 1.0, 1.0, 0.0);
  }

  lemma {:induction false} MiddleProbability(exp: Exp, a: Logit, b: Logit, c: Logit)
    ensures var max := ThreeRow(a, b, c)[Greedy(ThreeRow(a, b, c))];
            Softmax(exp)(ThreeRow(a, b, c), 1) ==
            Weight(exp, b, max) / (Weight(exp, a, max) + Weight(exp, b, max) + Weight(exp, c, max))
  {
    ThreeWeights(exp, a, b, c, ThreeRow(a, b, c)[Greedy(ThreeRow(a, b, c))]);
  }

  /** What a draft model that always sees the same row proposes. */
  lemma {:induction false} DrawOne(row: Row, prob: Probability, live: seq<Entry>, token: int, pos: nat)
    requires row != []
    ensures var r := Draw(Constant(row), prob, live, token, pos, 1);
            r.tokens == [Greedy(row)] && r.probs == [prob(row, Greedy(row))]
  {
    var none := Draw(Constant(row), prob, live, token, pos, 0);
    assert Draw(Constant(row), prob, live, token, pos, 1) == Extended(Constant(row), prob, none, token, pos);
  }

  /** The probability test alone changes output, even with all rows at hand: whatever the exponential and whatever
      the caches hold, this greedy draft is kept although the target would choose otherwise. */
  lemma {:induction false} ProbabilityTestChangesOutput(c: Conf, exp: Exp, drafts: seq<Entry>)
    requires Coupled(c) && c.view.state == Decoding
    ensures var (token, pos) := c.view.Input();
            var m, dm := Constant(ThreeRow(1.0, 1.0, 0.0)), Constant(ThreeRow(0.0, 1.0, 1.0));
            var drafted := Draw(dm, Softmax(exp), drafts, token, pos, 1);
            && Proposed(m, c, ByProbability(Softmax(exp), drafted.tokens, drafted.probs)) == [1, 0]
            && Next(m, c.view.All()) == 0
  {
    var (token, pos) := c.view.Input();
    var row := ThreeRow(0.0, 1.0, 1.0);
    ThreeGreedy();
    SameProbability(exp);
    DrawOne(row, Softmax(exp), drafts, token, pos);
    EquallyLikelyIsKept(c, Softmax(exp), ThreeRow(1.0, 1.0, 0.0), 1, Softmax(exp)(row, 1));
  }

  /** A target that always sees the same row keeps any proposal it finds as likely as the draft model did. */
  lemma {:induction false} EquallyLikelyIsKept(c: Conf, prob: Probability, row: Row, token: int, p: real)
    requires Coupled(c) && c.view.state == Decoding && row != [] && prob(row, token) >= p
    ensures Proposed(Constant(row), c, ByProbability(prob, [token], [p])) == [token, Greedy(row)]
  {
    var d := ByProbability(prob, [token], [p]);
    KeptByTest(d, Rows(Constant(row), c.cache, [c.view.Input().0] + d.tokens, c.view.position), token, row);
  }

  lemma {:induction false} KeptByTest(d: Draft, rows: seq<Row>, token: int, row: Row)
    requires d.tokens == [token] && rows == [row, row] && d.test(0, row)
    ensures Verdict(d, rows) == [token, Greedy(row)]
  {
    assert d.Takes(0, rows[0]);
    assert Taken(d, rows, 0) == Taken(d, rows, 1) == 1;
  }

  // ---------------------------------------------------------------- the draft model's cache

  /** How far the draft cache is behind the position, after a step that accepted `accepted` of k proposals. */
  function NextLag(lag: nat, k: nat, accepted: nat): int {
    if lag + 1 + accepted - k < 1 then 1 else lag + 1 + accepted - k
  }

  /** Cut to position + accepted, the draft cache is never level with the target again: the last accepted
      token is missing from it, and a fully accepted draft makes it lag one token more. */
  lemma {:induction false} DraftCacheLags(dm: Model, prob: Probability, live: seq<Entry>, token: int, pos: nat, k: nat,
                                          accepted: nat, lag: nat)
    requires |live| + lag == pos && accepted <= k
    ensures var cut := Log(Contiguous, Draw(dm, prob, live, token, pos, k).live).Cut(pos + accepted);
            |cut.live| + NextLag(lag, k, accepted) == pos + accepted + 1
  {
  }

  /** From a level cache, what is left is the new text without its last cached token. */
  lemma {:induction false} LastAcceptedIsMissing(dm: Model, prob: Probability, text: seq<int>, token: int, k: nat,
                                                 accepted: nat)
    requires 0 < accepted <= k
    ensures var r := Draw(dm, prob, Stamp(text), token, |text|, k);
            Log(Contiguous, r.live).Cut(|text| + accepted).live == Stamp(text + [token] + r.tokens[..accepted - 1])
  {
    var r := Draw(dm, prob, Stamp(text), token, |text|, k);
    DrawFeeds(dm, prob, Stamp(text), token, |text|, k);
    var fed := ([token] + r.tokens)[..k];
    StampAppend(text, fed);
    CutStamp(text, fed, accepted);
    assert text + fed[..accepted] == text + [token] + r.tokens[..accepted - 1];
  }
}
