/** One generation request (inference/scheduler/sequence.go): its lifecycle, as a value and as the object. */
module Sequences {
  import opened Arithmetic

  datatype State = Pending | Prefill | Decoding | Finished

  /** What ends generation: the primary end token, per-sequence extra stop tokens, and the token limits. */
  datatype Limits = Limits(eos: int, stops: seq<int>, maxTokens: int, globalMax: int) {
    predicate IsStop(token: int) {
      token == eos || token in stops
    }

    /** The per-sequence limit if it is positive, the global one otherwise; not positive means none. */
    function Limit(): int {
      if maxTokens <= 0 then globalMax else maxTokens
    }

    predicate Reached(count: nat) {
      0 < Limit() && Limit() <= count
    }

    /** Generation stops right after the count-th token, if that token is `token`. */
    predicate Ends(token: int, count: nat) {
      IsStop(token) || Reached(count)
    }
  }

  /** `sent` are the tokens offered to the stream; `closed` says whether the stream has been closed. */
  datatype Snapshot = Snapshot(state: State, prompt: seq<int>, promptPos: nat, position: nat,
                       generated: seq<int>, sent: seq<int>, closed: bool)
  {
    /** Prompt followed by everything generated. */
    function All(): seq<int> {
      prompt + generated
    }

    predicate PrefillComplete() {
      promptPos >= |prompt|
    }

    predicate NeedsPrefill() {
      state == Pending && |prompt| > 0 && !PrefillComplete()
    }

    predicate CanDecode() {
      state == Decoding || (state == Pending && PrefillComplete())
    }

    /** Token and position to feed next; with nothing at all to feed, token 1 at position 0. */
    function Input(): (int, nat) {
      if promptPos < |prompt| then (prompt[promptPos], promptPos)
      else if |generated| > 0 then (generated[|generated| - 1], position)
      else (1, 0)
    }
  }

  function Fresh(prompt: seq<int>): Snapshot {
    Snapshot(Pending, prompt, 0, 0, [], [], false)
  }

  function Finish(v: Snapshot): Snapshot {
    v.(state := Finished, closed := true)
  }

  /** The common tail of every decode path: count the token, then finish or stream it. */
  function Emit(v: Snapshot, token: int, lim: Limits): Snapshot {
    var advanced := v.(promptPos := if v.promptPos < |v.prompt| then v.promptPos + 1 else v.promptPos,
                       position := v.position + 1,
                       state := if v.state == Pending then Decoding else v.state,
                       generated := v.generated + [token]);
    if lim.Ends(token, |advanced.generated|) then Finish(advanced)
    else advanced.(sent := advanced.sent + [token])
  }

  /** Tokens of one speculative step are emitted one by one until one of them ends the sequence. */
  function EmitAll(v: Snapshot, tokens: seq<int>, lim: Limits): Snapshot {
    if tokens == [] then v
    else
      var w := EmitAll(v, tokens[..|tokens| - 1], lim);
      if w.state == Finished then w else Emit(w, tokens[|tokens| - 1], lim)
  }

  /** Prefill emits the first token; only a stop token, not the limit, can finish the sequence here. */
  function EmitFirst(v: Snapshot, token: int, lim: Limits): Snapshot {
    var w := v.(promptPos := |v.prompt|, position := |v.prompt|, generated := v.generated + [token]);
    if lim.IsStop(token) then Finish(w)
    else w.(sent := w.sent + [token], state := Decoding)
  }

  class Sequence {
    var state: State
    var promptTokens: seq<int>
    var promptPos: nat
    var position: nat
    var generatedTokens: seq<int>
    var maxTokens: int
    var stopTokens: seq<int>
    // The token channel: what has been offered to it, and whether it is closed.
    var sent: seq<int>
    var closed: bool

    function Snap(): Snapshot
      reads this
    {
      Snapshot(state, promptTokens, promptPos, position, generatedTokens, sent, closed)
    }

    function LimitsFor(eos: int, globalMax: int): Limits
      reads this`maxTokens, this`stopTokens
    {
      Limits(eos, stopTokens, maxTokens, globalMax)
    }

    constructor (prompt: seq<int>, maxTokens: int, stops: seq<int>)
      ensures Snap() == Fresh(prompt)
      ensures this.maxTokens == maxTokens && stopTokens == stops
    {
      state, promptTokens, promptPos, position := Pending, prompt, 0, 0;
      generatedTokens, sent, closed := [], [], false;
      this.maxTokens, stopTokens := maxTokens, stops;
    }

    method NextInputToken() returns (token: int, pos: nat, hasMore: bool)
      ensures hasMore ==> (token, pos) == Snap().Input()
      ensures hasMore <==> promptPos < |promptTokens| || |generatedTokens| > 0
    {
      if promptPos < |promptTokens| {
        return promptTokens[promptPos], promptPos, true;
      }
      if |generatedTokens| > 0 {
        return generatedTokens[|generatedTokens| - 1], position, true;
      }
      return 0, 0, false;
    }

    method AdvancePosition()
      modifies this`promptPos, this`position
      ensures promptPos == if old(promptPos) < |promptTokens| then old(promptPos) + 1 else old(promptPos)
      ensures position == old(position) + 1
    {
      if promptPos < |promptTokens| {
        promptPos := promptPos + 1;
      }
      position := position + 1;
    }

    method SetPrefillComplete(numTokens: nat)
      modifies this`promptPos, this`position
      ensures promptPos == |promptTokens| && position == numTokens
    {
      promptPos := |promptTokens|;
      position := numTokens;
    }

    method ReachedMaxTokens(globalMax: int) returns (reached: bool)
      ensures reached <==> if maxTokens > 0 then |generatedTokens| >= maxTokens
                           else 0 < globalMax <= |generatedTokens|
      ensures forall eos :: reached <==> LimitsFor(eos, globalMax).Reached(|generatedTokens|)
    {
      var limit := maxTokens;
      if limit <= 0 {
        limit := globalMax;
      }
      reached := limit > 0 && |generatedTokens| >= limit;
    }

    method IsExtraStopToken(tokenID: int) returns (found: bool)
      ensures found <==> tokenID in stopTokens
    {
      var i := 0;
      while i < |stopTokens|
        invariant 0 <= i <= |stopTokens|
        invariant tokenID !in stopTokens[..i]
      {
        if stopTokens[i] == tokenID {
          return true;
        }
        i := i + 1;
      }
      return false;
    }

    /** Sending on a closed channel panics. */
    method PushToken(token: int)
      requires !closed
      modifies this`sent
      ensures sent == old(sent) + [token]
    {
      sent := sent + [token];
    }

    /** Closing a closed channel panics. */
    method Close()
      requires !closed
      modifies this`closed
      ensures closed
    {
      closed := true;
    }

    /** Record one decoded token and finish the sequence or stream the token. */
    method EmitToken(tokenID: int, eos: int, globalMax: int)
      requires !closed
      modifies this`state, this`promptPos, this`position, this`generatedTokens, this`sent, this`closed
      ensures Snap() == Emit(old(Snap()), tokenID, LimitsFor(eos, globalMax))
      ensures tokenID == eos || tokenID in stopTokens ==> state == Finished && closed && sent == old(sent)
      ensures tokenID != eos && tokenID !in stopTokens && maxTokens <= 0 && globalMax <= 0 && old(state) != Finished ==>
                state != Finished && !closed && sent == old(sent) + [tokenID]
    {
      AdvancePosition();
      if state == Pending {
        state := Decoding;
      }
      generatedTokens := generatedTokens + [tokenID];
      var extra := IsExtraStopToken(tokenID);
      if tokenID == eos || extra {
        state := Finished;
        Close();
        return;
      }
      var reached := ReachedMaxTokens(globalMax);
      if reached {
        assert LimitsFor(eos, globalMax).Reached(|generatedTokens|);
        state := Finished;
        Close();
        return;
      }
      assert !LimitsFor(eos, globalMax).Reached(|generatedTokens|);
      PushToken(tokenID);
    }

    /** The end of a prefill, once the first token has been chosen. */
    method FinishPrefill(tokenID: int, eos: int, globalMax: int)
      requires !closed
      modifies this`state, this`promptPos, this`position, this`generatedTokens, this`sent, this`closed
      ensures Snap() == EmitFirst(old(Snap()), tokenID, LimitsFor(eos, globalMax))
      ensures state == Finished <==> tokenID == eos || tokenID in stopTokens
      ensures closed <==> state == Finished
    {
      SetPrefillComplete(|promptTokens|);
      generatedTokens := generatedTokens + [tokenID];
      var extra := IsExtraStopToken(tokenID);
      if tokenID == eos || extra {
        state := Finished;
        Close();
        return;
      }
      PushToken(tokenID);
      state := Decoding;
    }
  }

  // ---------------------------------------------------------------- lifecycle over whole runs

  /** What a scheduler may do to a sequence, with whatever token the sampler returned. */
  datatype Event = FirstToken(token: int) | NextToken(token: int)

  /** Events that do not apply in the current state leave the sequence alone. */
  function Apply(v: Snapshot, e: Event, lim: Limits): Snapshot {
    match e
    case FirstToken(t) => if v.NeedsPrefill() then EmitFirst(v, t, lim) else v
    case NextToken(t) => if v.CanDecode() then Emit(v, t, lim) else v
  }

  function Live(v: Snapshot, es: seq<Event>, lim: Limits): Snapshot {
    if es == [] then v else Apply(Live(v, es[..|es| - 1], lim), es[|es| - 1], lim)
  }

  /** The stream is closed exactly when the sequence has finished, and carries all tokens but the last. */
  ghost predicate StreamOk(v: Snapshot) {
    && (v.closed <==> v.state == Finished)
    && (v.state == Finished ==> v.generated != [] && v.sent == v.generated[..|v.generated| - 1])
    && (v.state != Finished ==> v.sent == v.generated)
  }

  /** The position counts everything fed so far: all of prompt and output but the last token. */
  ghost predicate PositionOk(v: Snapshot) {
    && v.state != Prefill
    && (v.state == Pending ==> v.generated == [] && v.position == 0 && v.promptPos == 0)
    && (v.state != Pending ==> v.generated != [] && v.PrefillComplete()
                               && v.position + 1 == |v.prompt| + |v.generated|)
  }

  /** The count is at a limit: the sequence's own if it has one, else the global one if there is one. */
  ghost predicate AtLimit(lim: Limits, count: nat) {
    if lim.maxTokens > 0 then lim.maxTokens <= count else 0 < lim.globalMax <= count
  }

  /** Output stops at the first end or stop token, and at the limit, except that prefill ignores the limit. */
  ghost predicate StopsOk(v: Snapshot, lim: Limits) {
    && (forall i :: 0 <= i < |v.generated| - 1 ==> v.generated[i] != lim.eos && v.generated[i] !in lim.stops)
    && (forall c :: 2 <= c < |v.generated| ==> !AtLimit(lim, c))
    && (v.generated != [] ==>
          var last, count := v.generated[|v.generated| - 1], |v.generated|;
          v.state == Finished <==> last == lim.eos || last in lim.stops || (count > 1 && AtLimit(lim, count)))
  }

  /** What ends a sequence: recording the end token or one of its stop tokens does, whatever the limits; without
      limits nothing else does. */
  lemma {:induction false} WhatEnds(v: Snapshot, token: int, lim: Limits)
    requires v.state == Decoding && !v.closed
    ensures var w := Emit(v, token, lim);
            && (token == lim.eos ==> w.state == Finished && w.closed)
            && (token in lim.stops ==> w.state == Finished && w.closed)
            && (w.state == Finished ==> token == lim.eos || token in lim.stops || AtLimit(lim, |w.generated|))
            && (token != lim.eos && token !in lim.stops && lim.maxTokens <= 0 && lim.globalMax <= 0 ==>
                  w.state == Decoding && !w.closed && w.sent == v.sent + [token])
  {
    LimitIs(lim, |v.generated| + 1);
  }

  lemma {:induction false} LimitIs(lim: Limits, count: nat)
    ensures lim.Reached(count) <==> AtLimit(lim, count)
  {
  }

  ghost predicate WellLived(v: Snapshot, lim: Limits) {
    StreamOk(v) && PositionOk(v) && StopsOk(v, lim)
  }

  /** Over every run: the stream is closed once, on finishing, and carries every generated token but the
      last; generation ends exactly at the first end or stop token or at the limit L, which is exceeded only for
      L = 1; and the next token fed is the last of prompt and output, at its own position. */
  lemma {:induction false} RunsAreWellLived(prompt: seq<int>, es: seq<Event>, lim: Limits)
    requires prompt != []
    ensures var v := Live(Fresh(prompt), es, lim);
            && WellLived(v, lim) && v.prompt == prompt
            && (0 < lim.maxTokens ==> |v.generated| <= Max(2, lim.maxTokens))
            && (lim.maxTokens <= 0 < lim.globalMax ==> |v.generated| <= Max(2, lim.globalMax))
            && (v.state == Decoding ==> v.Input() == (v.All()[v.position], v.position))
  {
    if es != [] {
      RunsAreWellLived(prompt, es[..|es| - 1], lim);
      EventKeepsWellLived(Live(Fresh(prompt), es[..|es| - 1], lim), es[|es| - 1], lim);
    }
    var v := Live(Fresh(prompt), es, lim);
    if |v.generated| > 2 { assert !AtLimit(lim, |v.generated| - 1); }
  }

  lemma {:induction false} EventKeepsWellLived(v: Snapshot, e: Event, lim: Limits)
    requires v.prompt != [] && WellLived(v, lim)
    ensures WellLived(Apply(v, e, lim), lim) && Apply(v, e, lim).prompt == v.prompt
  {
    var w := Apply(v, e, lim);
    if w != v {
      EventShape(v, e, lim);
      EventKeepsStops(v, e, lim);
    }
  }

  lemma {:induction false} EventShape(v: Snapshot, e: Event, lim: Limits)
    requires v.prompt != [] && StreamOk(v) && PositionOk(v) && Apply(v, e, lim) != v
    ensures var w := Apply(v, e, lim);
            StreamOk(w) && PositionOk(w) && w.prompt == v.prompt && w.generated == v.generated + [e.token]
  {
    var w := Apply(v, e, lim);
    assert w.generated[..|w.generated| - 1] == v.generated;
  }

  lemma {:induction false} EventKeepsStops(v: Snapshot, e: Event, lim: Limits)
    requires v.prompt != [] && PositionOk(v) && StopsOk(v, lim) && Apply(v, e, lim) != v
    requires Apply(v, e, lim).generated == v.generated + [e.token]
    ensures StopsOk(Apply(v, e, lim), lim)
  {
    var w := Apply(v, e, lim);
    LimitIs(lim, |w.generated|);
    forall i | 0 <= i < |w.generated| - 1 ensures w.generated[i] != lim.eos && w.generated[i] !in lim.stops {
      assert w.generated[i] == v.generated[i];
    }
  }

  /** Finished is permanent: no later event changes anything. */
  lemma {:induction false} FinishedForever(v: Snapshot, es: seq<Event>, lim: Limits)
    requires v.state == Finished
    ensures Live(v, es, lim) == v
  {
    if es != [] { FinishedForever(v, es[..|es| - 1], lim); }
  }

  /** With limit 1 a second token is generated: prefill skips the check. */
  lemma {:induction false} LimitOneIsExceeded(prompt: seq<int>, a: int, b: int, lim: Limits)
    requires prompt != [] && a != lim.eos && a !in lim.stops
    requires lim.maxTokens == 1 || (lim.maxTokens <= 0 && lim.globalMax == 1)
    ensures Live(Fresh(prompt), [FirstToken(a), NextToken(b)], lim).generated == [a, b]
  {
    var es := [FirstToken(a), NextToken(b)];
    assert es[..1] == [FirstToken(a)] && es[..1][..0] == [];
    assert Live(Fresh(prompt), es[..1], lim) == EmitFirst(Fresh(prompt), a, lim);
  }
}
