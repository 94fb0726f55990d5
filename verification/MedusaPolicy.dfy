/** When the Medusa scheduler speculates (inference/scheduler/medusa_scheduler.go): a ring of the counts accepted by
    recent verifications and probes, which has to be full and good enough on average. */
module MedusaPolicy {
  import opened Sampling
  import opened Sequences
  import opened Speculation
  import opened CandidateTrees
  import Windows

  datatype Policy = Policy(hidden: bool, ring: seq<nat>, idx: nat, full: bool, probes: nat)

  /** What one iteration is offered: whether the heads are trained, the paths of their candidate tree, and whether a
      probe of the first head would hit. */
  datatype Offer = Offer(ready: bool, paths: seq<CandidatePath>, probeHit: bool)

  function Sum(xs: seq<nat>): nat {
    if xs == [] then 0 else Sum(xs[..|xs| - 1]) + xs[|xs| - 1]
  }

  lemma {:induction false} SumConcat(a: seq<nat>, b: seq<nat>)
    ensures Sum(a + b) == Sum(a) + Sum(b) && forall x :: Sum([x]) == x
  {
    if b == [] {
      assert a + b == a;
    } else {
      assert (a + b)[..|a + b| - 1] == a + b[..|b| - 1];
      SumConcat(a, b[..|b| - 1]);
    }
  }

  // ---------------------------------------------------------------- one iteration

  ghost predicate Proven(p: Policy) {
    p.full && 2 * Sum(p.ring) >= |p.ring|
  }

  ghost predicate Speculates(p: Policy, o: Offer) {
    o.ready && p.hidden && o.paths != [] && Proven(p)
  }

  ghost predicate Records(p: Policy, count: nat, q: Policy) {
    && p.idx < |p.ring| && q.ring == p.ring[p.idx := count]
    && q.idx == (if p.idx + 1 == |p.ring| then 0 else p.idx + 1)
    && q.full == (p.full || p.idx + 1 == |p.ring|)
  }

  ghost predicate RingKept(p: Policy, q: Policy) {
    q.ring == p.ring && q.idx == p.idx && q.full == p.full
  }

  /** How many tokens of a path a verification accepts. */
  function AcceptedCount(m: Model, c: Conf, path: seq<int>): nat {
    Taken(PathDraft(path), Rows(m, c.cache, [c.view.Input().0] + path, c.view.Input().1), 0)
  }

  /** Whether a plain step decodes, after a prefill perhaps. */
  function Decodes(m: Model, lim: Limits, c: Conf): bool {
    c.view.state == Decoding || (c.view.NeedsPrefill() && Prefilled(m, lim, c).view.state == Decoding)
  }

  /** A probe is due at every eighth iteration that could speculate but has not been proven to pay off. */
  ghost predicate ProbeTurn(p: Policy, c: Conf, o: Offer, q: Policy) {
    if o.ready && p.hidden then
      if p.probes >= 7 then
        && q.probes == 0
        && if |c.view.generated| >= 2 then Records(p, if o.probeHit then 1 else 0, q) else RingKept(p, q)
      else q.probes == p.probes + 1 && RingKept(p, q)
    else q.probes == p.probes && RingKept(p, q)
  }

  /** Once it has been proven, a prefill starts the window over and a verification is recorded. */
  ghost predicate ProvenTurn(m: Model, p: Policy, c: Conf, o: Offer, q: Policy) {
    && q.probes == p.probes
    && if c.view.NeedsPrefill() then q.ring == p.ring && q.idx == 0 && !q.full
       else if c.view.state == Decoding && Speculates(p, o) then Records(p, AcceptedCount(m, c, o.paths[0].tokens), q)
       else RingKept(p, q)
  }

  /** One iteration: which step it takes, and what it remembers.  A finished sequence is not in the batch. */
  ghost predicate Turn(m: Model, lim: Limits, p: Policy, c: Conf, o: Offer, choice: Choice, q: Policy) {
    if c.view.state == Finished then choice.Plain? && q == p
    else
      && (choice.Tree? <==> Speculates(p, o))
      && (choice.Tree? ==> choice.path == o.paths[0].tokens)
      && (q.hidden <==> if c.view.state == Decoding && choice.Tree? then Step(m, lim, c, choice).view.state != Finished
                        else p.hidden || Decodes(m, lim, c))
      && if o.ready && Proven(p) then ProvenTurn(m, p, c, o, q) else ProbeTurn(p, c, o, q)
  }

  lemma {:induction false} IsProvenTurn(m: Model, lim: Limits, p: Policy, c: Conf, o: Offer, choice: Choice, q: Policy)
    requires c.view.state != Finished && o.ready && Proven(p) && q.probes == p.probes
    requires choice == if p.hidden && o.paths != [] then Tree(o.paths[0].tokens) else Plain
    requires if c.view.NeedsPrefill() then q.ring == p.ring && q.idx == 0 && !q.full
             else if c.view.state == Decoding && p.hidden && o.paths != [] then
               Records(p, AcceptedCount(m, c, o.paths[0].tokens), q)
             else RingKept(p, q)
    requires q.hidden <==> if c.view.state == Decoding && p.hidden && o.paths != [] then
                             TreeStep(m, lim, c, o.paths[0].tokens).view.state != Finished
                           else p.hidden || Decodes(m, lim, c)
    ensures Turn(m, lim, p, c, o, choice, q)
  {
  }

  lemma {:induction false} IsProbeTurn(m: Model, lim: Limits, p: Policy, c: Conf, o: Offer, q: Policy)
    requires c.view.state != Finished && !(o.ready && Proven(p)) && ProbeTurn(p, c, o, q)
    requires q.hidden <==> p.hidden || Decodes(m, lim, c)
    ensures Turn(m, lim, p, c, o, Plain, q)
  {
  }

  /** The count that is recorded after a verification is one less than the tokens it emitted, unless one of them
      finished the sequence. */
  lemma {:induction false} CountIsEmitted(m: Model, lim: Limits, p: Policy, c: Conf, o: Offer, choice: Choice,
                                          q: Policy)
    requires Turn(m, lim, p, c, o, choice, q) && choice.Tree? && Coupled(c) && c.view.state == Decoding
    ensures var r, count := Step(m, lim, c, choice), AcceptedCount(m, c, choice.path);
            && Records(p, count, q) && count <= |choice.path|
            && |r.view.generated| <= |c.view.generated| + count + 1
            && (r.view.state == Decoding ==> |r.view.generated| == |c.view.generated| + count + 1)
  {
    LaterStep(m, lim, c, choice);
    StartIsPosition(c);
    var d := PathDraft(choice.path);
    var k := JudgedKeepsCoupling(lim, c, d, Rows(m, c.cache, [c.view.Input().0] + choice.path, c.view.position));
  }

  // ---------------------------------------------------------------- runs

  /** The iterations of a generation. */
  ghost predicate Turns(m: Model, lim: Limits, start: Conf, ps: seq<Policy>, os: seq<Offer>, choices: seq<Choice>) {
    |ps| == |os| + 1 == |choices| + 1 && forall i :: 0 <= i < |choices| ==> TurnAt(m, lim, start, ps, os, choices, i)
  }

  ghost predicate TurnAt(m: Model, lim: Limits, start: Conf, ps: seq<Policy>, os: seq<Offer>, choices: seq<Choice>,
                         i: nat)
    requires |ps| == |os| + 1 == |choices| + 1 && i < |choices|
  {
    Turn(m, lim, ps[i], Run(m, lim, start, choices[..i]), os[i], choices[i], ps[i + 1])
  }

  lemma {:induction false} TurnsSnoc(m: Model, lim: Limits, start: Conf, ps: seq<Policy>, os: seq<Offer>,
                                     choices: seq<Choice>, choice: Choice, p: Policy)
    requires |choices| < |os| && Turns(m, lim, start, ps, os[..|choices|], choices)
    requires Turn(m, lim, ps[|choices|], Run(m, lim, start, choices), os[|choices|], choice, p)
    ensures Turns(m, lim, start, ps + [p], os[..|choices| + 1], choices + [choice])
  {
    var n := |choices|;
    var qs, os', cs := ps + [p], os[..n + 1], choices + [choice];
    forall i | 0 <= i <= n ensures TurnAt(m, lim, start, qs, os', cs, i) {
      if i < n {
        TurnStays(m, lim, start, ps, os, choices, choice, p, i);
      } else {
        assert (choices + [choice])[..n] == choices;
      }
    }
  }

  lemma {:induction false} TurnStays(m: Model, lim: Limits, start: Conf, ps: seq<Policy>, os: seq<Offer>,
                                     choices: seq<Choice>, choice: Choice, p: Policy, i: nat)
    requires i < |choices| < |os| && |ps| == |choices| + 1 && TurnAt(m, lim, start, ps, os[..|choices|], choices, i)
    ensures TurnAt(m, lim, start, ps + [p], os[..|choices| + 1], choices + [choice], i)
  {
    assert (choices + [choice])[..i] == choices[..i];
  }

  /** The scheduler as it is made. */
  ghost predicate New(p: Policy) {
    !p.hidden && p.ring != [] && p.idx == 0 && !p.full && p.probes == 0
  }

  /** As long as nothing has been proven, every count in the ring has taken eight iterations, and the first of all
      cannot count. */
  ghost predicate Unproven(p: Policy, n: nat, i: nat) {
    && |p.ring| == n && p.idx < n && p.probes < 8
    && (i == 0 ==> !p.hidden && p.idx == 0 && p.probes == 0)
    && (i > 0 ==> 8 * p.idx + p.probes <= i - 1)
  }

  lemma {:induction false} TurnUnproven(m: Model, lim: Limits, p: Policy, c: Conf, o: Offer, choice: Choice, q: Policy,
                                        i: nat)
    requires Turn(m, lim, p, c, o, choice, q) && !p.full && Unproven(p, |p.ring|, i)
    ensures choice.Plain? && if q.full then 8 * |p.ring| <= i else Unproven(q, |p.ring|, i + 1)
  {
  }

  lemma {:induction false} UnprovenAt(m: Model, lim: Limits, start: Conf, ps: seq<Policy>, os: seq<Offer>,
                                      choices: seq<Choice>, i: nat)
    requires Turns(m, lim, start, ps, os, choices) && i < |choices| && !ps[i].full && Unproven(ps[i], |ps[i].ring|, i)
    ensures choices[i].Plain?
    ensures if ps[i + 1].full then 8 * |ps[i].ring| <= i else Unproven(ps[i + 1], |ps[i].ring|, i + 1)
  {
    assert TurnAt(m, lim, start, ps, os, choices, i);
    TurnUnproven(m, lim, ps[i], Run(m, lim, start, choices[..i]), os[i], choices[i], ps[i + 1], i);
  }

  lemma {:induction false} RunUnproven(m: Model, lim: Limits, start: Conf, ps: seq<Policy>, os: seq<Offer>,
                                       choices: seq<Choice>, i: nat)
    requires Turns(m, lim, start, ps, os, choices) && New(ps[0]) && i <= 8 * |ps[0].ring| && i <= |choices|
    ensures !ps[i].full && Unproven(ps[i], |ps[0].ring|, i)
  {
    if i > 0 {
      RunUnproven(m, lim, start, ps, os, choices, i - 1);
      UnprovenAt(m, lim, start, ps, os, choices, i - 1);
    }
  }

  /** Speculation starts off: with a window of n counts none of the first 8n+1 iterations speculates, whatever the heads
      propose and however well they probe. */
  lemma {:induction false} StartsPlain(m: Model, lim: Limits, start: Conf, ps: seq<Policy>, os: seq<Offer>,
                                       choices: seq<Choice>, i: nat)
    requires Turns(m, lim, start, ps, os, choices) && New(ps[0]) && i < |choices| && i <= 8 * |ps[0].ring|
    ensures choices[i].Plain?
  {
    RunUnproven(m, lim, start, ps, os, choices, i);
    UnprovenAt(m, lim, start, ps, os, choices, i);
  }

  /** So a short generation is transparent on every cache. */
  lemma {:induction false} ShortRunsHarmless(m: Model, lim: Limits, start: Conf, ps: seq<Policy>, os: seq<Offer>,
                                             choices: seq<Choice>)
    requires Turns(m, lim, start, ps, os, choices) && New(ps[0]) && |choices| <= 8 * |ps[0].ring| + 1
    ensures HarmlessRun(start.cache.kind, choices)
  {
    forall i | 1 <= i < |choices| ensures Harmless(start.cache.kind, choices[i]) {
      StartsPlain(m, lim, start, ps, os, choices, i);
    }
  }

  // ---------------------------------------------------------------- what the ring holds

  /** The ring holds the last of the counts recorded since the window was last started. */
  ghost predicate Remembers(p: Policy, past: seq<nat>) {
    Windows.Circular(p.ring, p.idx, if p.full then |p.ring| else p.idx, past) && (!p.full ==> p.idx < |p.ring|)
  }

  lemma {:induction false} RecordRemembers(p: Policy, past: seq<nat>, count: nat, q: Policy)
    requires Remembers(p, past) && Records(p, count, q)
    ensures Remembers(q, past + [count]) && |q.ring| == |p.ring|
  {
    Windows.AdvanceTo(p.ring, p.idx, if p.full then |p.ring| else p.idx, past, count, q.idx);
  }

  /** Speculation is proven exactly when n counts have been recorded and the last n of them average at least a half. */
  lemma {:induction false} ProvenIff(p: Policy, past: seq<nat>)
    requires Remembers(p, past)
    ensures Proven(p) <==> |past| >= |p.ring| && 2 * Sum(past[|past| - |p.ring|..]) >= |p.ring|
  {
    if p.full {
      assert p.ring == p.ring[..p.idx] + p.ring[p.idx..];
      SumConcat(p.ring[..p.idx], p.ring[p.idx..]);
      SumConcat(p.ring[p.idx..], p.ring[..p.idx]);
    }
  }

  /** The counts recorded since the window was last started, after one more iteration. */
  ghost function PastAfter(m: Model, p: Policy, c: Conf, o: Offer, past: seq<nat>): seq<nat> {
    if c.view.state == Finished then past
    else if o.ready && Proven(p) then
      if c.view.NeedsPrefill() then []
      else if c.view.state == Decoding && Speculates(p, o) then past + [AcceptedCount(m, c, o.paths[0].tokens)]
      else past
    else if o.ready && p.hidden && p.probes >= 7 && |c.view.generated| >= 2 then past + [if o.probeHit then 1 else 0]
    else past
  }

  lemma {:induction false} TurnRemembers(m: Model, lim: Limits, p: Policy, c: Conf, o: Offer, choice: Choice, q: Policy,
                                         past: seq<nat>)
    requires Turn(m, lim, p, c, o, choice, q) && Remembers(p, past)
    ensures Remembers(q, PastAfter(m, p, c, o, past)) && |q.ring| == |p.ring|
  {
    if c.view.state == Finished {
    } else if o.ready && Proven(p) {
      if !c.view.NeedsPrefill() && c.view.state == Decoding && Speculates(p, o) {
        RecordRemembers(p, past, AcceptedCount(m, c, o.paths[0].tokens), q);
      }
    } else if o.ready && p.hidden && p.probes >= 7 && |c.view.generated| >= 2 {
      RecordRemembers(p, past, if o.probeHit then 1 else 0, q);
    }
  }

  ghost function PastAt(m: Model, lim: Limits, start: Conf, ps: seq<Policy>, os: seq<Offer>, choices: seq<Choice>,
                        i: nat): seq<nat>
    requires i <= |choices| && |ps| == |os| + 1 == |choices| + 1
  {
    if i == 0 then []
    else PastAfter(m, ps[i - 1], Run(m, lim, start, choices[..i - 1]), os[i - 1],
                   PastAt(m, lim, start, ps, os, choices, i - 1))
  }

  lemma {:induction false} RunRemembers(m: Model, lim: Limits, start: Conf, ps: seq<Policy>, os: seq<Offer>,
                                        choices: seq<Choice>, i: nat)
    requires Turns(m, lim, start, ps, os, choices) && New(ps[0]) && i <= |choices|
    ensures Remembers(ps[i], PastAt(m, lim, start, ps, os, choices, i)) && |ps[i].ring| == |ps[0].ring|
  {
    if i > 0 {
      RunRemembers(m, lim, start, ps, os, choices, i - 1);
      assert TurnAt(m, lim, start, ps, os, choices, i - 1);
      TurnRemembers(m, lim, ps[i - 1], Run(m, lim, start, choices[..i - 1]), os[i - 1], choices[i - 1], ps[i],
                    PastAt(m, lim, start, ps, os, choices, i - 1));
    }
  }

  /** While a sequence is decoding there is a hidden state to propose from. */
  lemma {:induction false} RunHidden(m: Model, lim: Limits, start: Conf, ps: seq<Policy>, os: seq<Offer>,
                                     choices: seq<Choice>, i: nat)
    requires Turns(m, lim, start, ps, os, choices) && 0 < i <= |choices|
    requires start == Start(start.view.prompt, start.cache.kind) && start.view.prompt != []
    requires Run(m, lim, start, choices[..i]).view.state == Decoding
    ensures ps[i].hidden
  {
    var c := Run(m, lim, start, choices[..i - 1]);
    RunFront(m, lim, start, choices, i);
    assert TurnAt(m, lim, start, ps, os, choices, i - 1);
    RunAlive(m, lim, start, choices[..i - 1]);
    TurnHidden(m, lim, ps[i - 1], c, os[i - 1], choices[i - 1], ps[i]);
  }

  lemma {:induction false} RunFront(m: Model, lim: Limits, start: Conf, choices: seq<Choice>, i: nat)
    requires 0 < i <= |choices|
    ensures Run(m, lim, start, choices[..i]) == Step(m, lim, Run(m, lim, start, choices[..i - 1]), choices[i - 1])
  {
    assert choices[..i][..i - 1] == choices[..i - 1];
  }

  lemma {:induction false} RunAlive(m: Model, lim: Limits, start: Conf, choices: seq<Choice>)
    requires start == Start(start.view.prompt, start.cache.kind) && start.view.prompt != []
    ensures Alive(lim, Run(m, lim, start, choices))
  {
    RunsStayAligned(m, lim, start.view.prompt, start.cache.kind, choices);
  }

  lemma {:induction false} TurnHidden(m: Model, lim: Limits, p: Policy, c: Conf, o: Offer, choice: Choice, q: Policy)
    requires Turn(m, lim, p, c, o, choice, q) && Alive(lim, c) && Step(m, lim, c, choice).view.state == Decoding
    ensures q.hidden
  {
    if c.view.state == Pending {
      FirstStep(m, lim, c, choice);
    } else if c.view.state == Finished {
      FinishedStays(m, lim, c, choice);
    }
  }

  /** Over a whole generation: an iteration on a decoding sequence speculates exactly if the heads are ready, there is a
      path, and at least n counts have been recorded since the window was started, the last n of which average at
      least a half. */
  lemma {:induction false} RunSpeculatesIff(m: Model, lim: Limits, start: Conf, ps: seq<Policy>, os: seq<Offer>,
                                            choices: seq<Choice>, i: nat)
    requires Turns(m, lim, start, ps, os, choices) && New(ps[0]) && 0 < i < |choices|
    requires start == Start(start.view.prompt, start.cache.kind) && start.view.prompt != []
    requires Run(m, lim, start, choices[..i]).view.state == Decoding
    ensures var n, past := |ps[0].ring|, PastAt(m, lim, start, ps, os, choices, i);
            choices[i].Tree? <==>
            os[i].ready && os[i].paths != [] && |past| >= n && 2 * Sum(past[|past| - n..]) >= n
  {
    RunProvenIff(m, lim, start, ps, os, choices, i);
    RunHidden(m, lim, start, ps, os, choices, i);
    TurnChooses(m, lim, start, ps, os, choices, i);
  }

  lemma {:induction false} RunProvenIff(m: Model, lim: Limits, start: Conf, ps: seq<Policy>, os: seq<Offer>,
                                        choices: seq<Choice>, i: nat)
    requires Turns(m, lim, start, ps, os, choices) && New(ps[0]) && i <= |choices|
    ensures var n, past := |ps[0].ring|, PastAt(m, lim, start, ps, os, choices, i);
            Proven(ps[i]) <==> |past| >= n && 2 * Sum(past[|past| - n..]) >= n
  {
    RunRemembers(m, lim, start, ps, os, choices, i);
    ProvenIff(ps[i], PastAt(m, lim, start, ps, os, choices, i));
  }

  lemma {:induction false} TurnChooses(m: Model, lim: Limits, start: Conf, ps: seq<Policy>, os: seq<Offer>,
                                       choices: seq<Choice>, i: nat)
    requires Turns(m, lim, start, ps, os, choices) && i < |choices|
    requires Run(m, lim, start, choices[..i]).view.state != Finished
    ensures choices[i].Tree? <==> Speculates(ps[i], os[i])
    ensures choices[i].Tree? ==> choices[i].path == os[i].paths[0].tokens
  {
    assert TurnAt(m, lim, start, ps, os, choices, i);
  }
}
