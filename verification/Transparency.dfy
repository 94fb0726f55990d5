/** Exactly which steps and runs leave the output what plain decoding makes of it: those whose passes show each
    token the text before it.  One target suffices to tell: it chooses token 0 as long as what it attends to is a
    text that was seen from its beginning, and token 1 otherwise. */
module Transparency {
  import opened Sampling
  import opened Sequences
  import opened Speculation

  /** What a text looks like to its last token, if every token saw all before it. */
  predicate Textual(s: seq<Entry>) {
    forall i :: 0 <= i < |s| ==> s[i].pos == i && s[i].view == Back(i)
  }

  function Attentive(): (m: Model)
    ensures ValidModel(m) && m.vocab == 2
  {
    Model(2, s => Peak(2, if Textual(s) then 0 else 1), x => x)
  }

  lemma {:induction false} AttentiveNext(text: seq<int>)
    ensures Next(Attentive(), text) == 0
  {
    assert Textual(Stamp(text));
  }

  // ---------------------------------------------------------------- one pass

  lemma {:induction false} SoundIffTextual(c: Conf)
    requires Coupled(c) && c.view.state == Decoding
    ensures Sound(c) <==> Textual(c.cache.live)
  {
    if Textual(c.cache.live) {
      assert c.cache.live == Stamp(Past(c.view));
    }
  }

  /** The first entry of a pass has seen the text exactly if the pass shows it. */
  lemma {:induction false} FirstMade(c: Conf, ts: seq<int>)
    requires Coupled(c) && c.view.state == Decoding
    ensures var first := c.cache.Made([c.view.Input().0] + ts, c.view.position)[0];
            && first.pos == c.view.position == |c.cache.live| > 0
            && (first.view == Back(c.view.position) <==> SeesText(c.cache.kind, ts))
            && (!SeesText(c.cache.kind, ts) ==> first.view == Back(0) || first.view.Front?)
  {
    PassExtends(c, ts);
  }

  /** What the input token attends to in a pass is a text exactly if the cache is sound and the pass shows it. */
  lemma {:induction false} ContextIsTextIff(c: Conf, ts: seq<int>)
    requires Coupled(c) && c.view.state == Decoding
    ensures Textual(c.cache.Context([c.view.Input().0] + ts, c.view.position, 0)) <==>
            Sound(c) && SeesText(c.cache.kind, ts)
  {
    FirstMade(c, ts);
    SoundIffTextual(c);
    ContextOfInput(c, ts);
    WindowOfNext(c.cache.live, c.cache.Made([c.view.Input().0] + ts, c.view.position));
  }

  lemma {:induction false} ContextOfInput(c: Conf, ts: seq<int>)
    requires Coupled(c) && c.view.state == Decoding
    ensures var fed := [c.view.Input().0] + ts;
            c.cache.Context(fed, c.view.position, 0) ==
            Window(c.cache.live + c.cache.Made(fed, c.view.position), |c.cache.live|)
  {
    PassExtends(c, ts);
  }

  /** The window of the first of some new entries is a text exactly if the old ones are, and it saw them all. */
  lemma {:induction false} WindowOfNext(live: seq<Entry>, made: seq<Entry>)
    requires live != [] && made != [] && made[0].pos == |live|
    requires made[0].view == Back(|live|) || made[0].view == Back(0) || made[0].view.Front?
    ensures Textual(Window(live + made, |live|)) <==> Textual(live) && made[0].view == Back(|live|)
  {
    var w := Window(live + made, |live|);
    assert (live + made)[|live|] == made[0] == w[|w| - 1];
    if made[0].view == Back(|live|) {
      assert w == live + [made[0]];
      TextualSnoc(live, made[0]);
    } else if made[0].view == Back(0) {
      assert |w| == 1;
    }
  }

  lemma {:induction false} TextualSnoc(live: seq<Entry>, e: Entry)
    ensures Textual(live + [e]) <==> Textual(live) && e.pos == |live| && e.view == Back(|live|)
  {
    if Textual(live + [e]) { FrontTextual(live, [e]); }
  }

  lemma {:induction false} FrontTextual(live: seq<Entry>, made: seq<Entry>)
    requires made != [] && Textual(live + made)
    ensures Textual(live) && made[0].view == Back(|live|) && made[0].pos == |live|
  {
    var s := live + made;
    assert s[|live|] == made[0];
    forall i | 0 <= i < |live| ensures live[i].pos == i && live[i].view == Back(i) { assert s[i] == live[i]; }
  }

  /** The first token a tree verification yields is what the first row chooses. */
  lemma {:induction false} FirstChosen(path: seq<int>, rows: seq<Row>)
    requires |path| < |rows|
    ensures Verdict(PathDraft(path), rows)[0] == Greedy(rows[0])
  {
    var d := PathDraft(path);
    if Taken(d, rows, 0) > 0 { assert d.Takes(0, rows[0]); }
  }

  lemma {:induction false} AttentiveProposes(c: Conf, path: seq<int>)
    requires Coupled(c) && c.view.state == Decoding
    ensures Proposed(Attentive(), c, PathDraft(path))[0] ==
            if Sound(c) && SeesText(c.cache.kind, path) then 0 else 1
  {
    ContextIsTextIff(c, path);
    FirstChosen(path, Rows(Attentive(), c.cache, [c.view.Input().0] + path, c.view.position));
  }

  /** What a tree verification yields is the target's own continuation of the text, whatever the target, exactly if
      the cache is sound and the pass shows each token the text: on the contiguous cache and on the CPU, exactly if
      the path is empty. */
  lemma {:induction false} VerdictAlwaysFollowsIff(c: Conf, path: seq<int>)
    requires Coupled(c) && c.view.state == Decoding
    ensures (forall m :: ValidModel(m) ==> Follows(m, c.view.All(), Proposed(m, c, PathDraft(path)))) <==>
            Sound(c) && SeesText(c.cache.kind, path)
  {
    if Sound(c) && SeesText(c.cache.kind, path) {
      PathIsStrict(path);
      forall m | ValidModel(m) ensures Follows(m, c.view.All(), Proposed(m, c, PathDraft(path))) {
        PassRowsOfText(m, c, path);
        StrictVerdictFollows(m, c.view.All(), PathDraft(path),
                             Rows(m, c.cache, [c.view.Input().0] + path, c.view.position));
      }
    } else {
      AttentiveGoesAstray(c, path);
    }
  }

  /** A verification that does not show the text yields a wrong token at once. */
  lemma {:induction false} AttentiveGoesAstray(c: Conf, path: seq<int>)
    requires Coupled(c) && c.view.state == Decoding && !(Sound(c) && SeesText(c.cache.kind, path))
    ensures var m, proposed := Attentive(), Proposed(Attentive(), c, PathDraft(path));
            && Next(m, c.view.All()) == 0 && proposed[0] == 1 && !Follows(m, c.view.All(), proposed)
  {
    AttentiveNext(c.view.All());
    AttentiveProposes(c, path);
    var proposed := Proposed(Attentive(), c, PathDraft(path));
    if Follows(Attentive(), c.view.All(), proposed) { FollowsFirst(Attentive(), c.view.All(), proposed); }
  }

  ghost predicate DecodesGreedily(m: Model, lim: Limits, c: Conf) {
    Decoded(m, lim, c).view == RefStep(m, lim, c.view)
  }

  /** A plain decode is a greedy step of every target exactly if the cache is sound. */
  lemma {:induction false} DecodeAlwaysFollowsIff(c: Conf, lim: Limits)
    requires Coupled(c) && c.view.state == Decoding
    ensures (forall m :: ValidModel(m) ==> DecodesGreedily(m, lim, c)) <==> Sound(c)
  {
    if Sound(c) {
      forall m | ValidModel(m) ensures DecodesGreedily(m, lim, c) {
        DecodedFollowsRef(m, lim, c);
      }
    } else {
      AttentiveMisstep(c, lim);
    }
  }

  lemma {:induction false} AttentiveMisstep(c: Conf, lim: Limits)
    requires Coupled(c) && c.view.state == Decoding && !Sound(c)
    ensures !DecodesGreedily(Attentive(), lim, c)
  {
    AttentiveDecodes(c, lim);
    AttentiveSteps(c.view, lim);
    Apart(c.view.generated, Decoded(Attentive(), lim, c).view, RefStep(Attentive(), lim, c.view));
  }

  lemma {:induction false} Apart(generated: seq<int>, v: Snapshot, w: Snapshot)
    requires v.generated == generated + [1] && w.generated == generated + [0]
    ensures v != w
  {
    assert v.generated[|generated|] == 1 && w.generated[|generated|] == 0;
  }

  lemma {:induction false} AttentiveSteps(v: Snapshot, lim: Limits)
    requires v.state != Finished
    ensures RefStep(Attentive(), lim, v).generated == v.generated + [0]
  {
    AttentiveNext(v.All());
  }

  lemma {:induction false} EmitRecords(v: Snapshot, token: int, lim: Limits)
    ensures Emit(v, token, lim).generated == v.generated + [token]
  {
  }

  lemma {:induction false} AttentiveDecodes(c: Conf, lim: Limits)
    requires Coupled(c) && c.view.state == Decoding
    ensures Decoded(Attentive(), lim, c).view.generated == c.view.generated + [if Sound(c) then 0 else 1]
  {
    PassExtends(c, []);
    ContextIsTextIff(c, []);
    assert [c.view.Input().0] + [] == [c.view.Input().0];
  }

  // ---------------------------------------------------------------- what a pass leaves behind

  /** In a contiguous pass over several tokens each token attends to those of the pass alone, whatever is cached. */
  lemma {:induction false} OwnContext(c: Log, tokens: seq<int>, pos: nat, i: nat)
    requires c.kind == Contiguous && i < |tokens| && |tokens| > 1
    ensures c.Context(tokens, pos, i) == Entries(tokens[..i + 1], pos, 0)
  {
    assert c.live[..c.At(pos)] == c.live && c.Made(tokens, pos) == Entries(tokens, pos, 0);
    OwnWindow(c.live, tokens, pos, i);
  }

  /** A single token, a token of a pass over an empty cache and any token in the block pool attend to everything before
      them and to themselves, */
  lemma {:induction false} FullContext(c: Log, tokens: seq<int>, pos: nat, i: nat)
    requires i < |tokens| && (c.kind == BlockPool || |tokens| == 1 || c.At(pos) == 0)
    ensures c.Context(tokens, pos, i) == c.live[..c.At(pos)] + Entries(tokens[..i + 1], pos, c.At(pos))
  {
    var at := c.At(pos);
    var s := c.live[..at] + Entries(tokens, pos, at);
    assert s[at + i] == Entries(tokens, pos, at)[i];
    assert s[..at + i + 1] == c.live[..at] + Entries(tokens[..i + 1], pos, at);
  }

  /** and token i of several on the CPU's paged cache to the first i+1 entries of the cache, whatever the pass has left
      there, and to itself: to none of its own pass that stand behind those. */
  lemma {:induction false} PagedContext(c: Log, tokens: seq<int>, pos: nat, i: nat)
    requires c.kind == CpuPaged && |tokens| > 1 && c.At(pos) > 0 && i < |tokens|
    ensures |c.Context(tokens, pos, i)| == i + 2 && c.Context(tokens, pos, i)[i + 1] == PagedEntry(tokens, pos, i)
    ensures forall k :: 0 <= k <= i ==>
              c.Context(tokens, pos, i)[k] ==
              if k < c.At(pos) then c.live[k] else PagedEntry(tokens, pos, k - c.At(pos))
  {
    var at := c.At(pos);
    var s := c.live[..at] + c.Made(tokens, pos);
    assert s[at + i] == c.Made(tokens, pos)[i] && i + 1 <= at + i;
    assert c.Context(tokens, pos, i) == s[..i + 1] + [s[at + i]];
  }

  /** What such a pass leaves for token i: it has seen the first i+1 entries. */
  function PagedEntry(tokens: seq<int>, pos: nat, i: nat): Entry
    requires i < |tokens|
  {
    Entry(tokens[i], pos + i, Front(i + 1))
  }

  lemma {:induction false} OwnWindow(live: seq<Entry>, tokens: seq<int>, pos: nat, i: nat)
    requires i < |tokens|
    ensures Window(live + Entries(tokens, pos, 0), |live| + i) == Entries(tokens[..i + 1], pos, 0)
  {
    var s := live + Entries(tokens, pos, 0);
    assert s[|live| + i] == Entries(tokens, pos, 0)[i];
    assert s[|live|..|live| + i + 1] == Entries(tokens[..i + 1], pos, 0);
    if live == [] { assert s[..i + 1] == s[|live|..|live| + i + 1]; }
  }

  /** Whatever it was judged by, a verification leaves a sound cache exactly if it found one and showed each token
      the text. */
  lemma {:induction false} JudgedSoundIff(lim: Limits, c: Conf, d: Draft, rows: seq<Row>)
    requires Coupled(c) && c.view.state == Decoding && |d.tokens| < |rows|
    requires Judged(lim, c, d, c.view.position, rows).view.state == Decoding
    ensures Sound(Judged(lim, c, d, c.view.position, rows)) <==> Sound(c) && SeesText(c.cache.kind, d.tokens)
  {
    if Sound(c) && SeesText(c.cache.kind, d.tokens) {
      JudgedKeepsSound(lim, c, d, rows);
    } else {
      var r := Judged(lim, c, d, c.view.position, rows);
      var _ := JudgedKeepsCoupling(lim, c, d, rows);
      SoundIffTextual(r);
      if Sound(r) { JudgedNotSound(lim, c, d, rows); }
    }
  }

  lemma {:induction false} JudgedNotSound(lim: Limits, c: Conf, d: Draft, rows: seq<Row>)
    requires Coupled(c) && c.view.state == Decoding && |d.tokens| < |rows|
    requires Textual(Judged(lim, c, d, c.view.position, rows).cache.live)
    ensures Sound(c) && SeesText(c.cache.kind, d.tokens)
  {
    KeptIsText(lim, c, d, rows);
    FirstMade(c, d.tokens);
    SoundIffTextual(c);
    var made := c.cache.Made([c.view.Input().0] + d.tokens, c.view.position);
    FrontTextual(c.cache.live, made[..|Verdict(d, rows)|]);
  }

  /** A plain decode does not repair a cache. */
  lemma {:induction false} DecodedSoundIff(m: Model, lim: Limits, c: Conf)
    requires Coupled(c) && c.view.state == Decoding && Decoded(m, lim, c).view.state == Decoding
    ensures Sound(Decoded(m, lim, c)) <==> Sound(c)
  {
    if Sound(c) {
      DecodedFollowsRef(m, lim, c);
    } else {
      var r := Decoded(m, lim, c);
      DecodedKeepsCoupling(m, lim, c);
      SoundIffTextual(c);
      SoundIffTextual(r);
      if Sound(r) {
        FrontTextual(c.cache.live, [Entry(c.view.Input().0, c.view.position, Back(c.view.position))]);
      }
    }
  }

  lemma {:induction false} StepSoundIff(m: Model, lim: Limits, c: Conf, choice: Choice)
    requires Coupled(c) && c.view.state == Decoding && Step(m, lim, c, choice).view.state == Decoding
    ensures Sound(Step(m, lim, c, choice)) <==> Sound(c) && Harmless(c.cache.kind, choice)
  {
    LaterStep(m, lim, c, choice);
    if choice.Plain? {
      DecodedSoundIff(m, lim, c);
    } else {
      JudgedSoundIff(lim, c, PathDraft(choice.path),
                     Rows(m, c.cache, [c.view.Input().0] + choice.path, c.view.position));
    }
  }

  // ---------------------------------------------------------------- runs

  lemma {:induction false} HarmlessRunSnoc(kind: Kind, choices: seq<Choice>)
    requires |choices| > 1
    ensures HarmlessRun(kind, choices) <==>
            HarmlessRun(kind, choices[..|choices| - 1]) && Harmless(kind, choices[|choices| - 1])
  {
    var before := choices[..|choices| - 1];
    if HarmlessRun(kind, choices) {
      forall i | 1 <= i < |before| ensures Harmless(kind, before[i]) { assert before[i] == choices[i]; }
    } else {
      var i :| 1 <= i < |choices| && !Harmless(kind, choices[i]);
      if i < |before| { assert before[i] == choices[i]; }
    }
  }

  /** As long as a sequence is decoding its cache is sound exactly if every pass after the first step has shown each
      token the text: one that did not is never made good again. */
  lemma {:induction false} RunSoundIff(m: Model, lim: Limits, prompt: seq<int>, kind: Kind, choices: seq<Choice>)
    requires prompt != [] && Run(m, lim, Start(prompt, kind), choices).view.state == Decoding
    ensures Sound(Run(m, lim, Start(prompt, kind), choices)) <==> HarmlessRun(kind, choices)
  {
    if |choices| <= 1 {
      var _ := SpeculationIsTransparent(m, lim, prompt, kind, choices);
    } else {
      var before, choice := choices[..|choices| - 1], choices[|choices| - 1];
      var c := Run(m, lim, Start(prompt, kind), before);
      RunsStayAligned(m, lim, prompt, kind, before);
      RunKeepsKind(m, lim, Start(prompt, kind), before);
      if c.view.state == Finished { FinishedStays(m, lim, c, choice); }
      RunSoundIff(m, lim, prompt, kind, before);
      StepSoundIff(m, lim, c, choice);
      HarmlessRunSnoc(kind, choices);
    }
  }

  /** Neither a stop token nor a limit. */
  function Endless(): Limits {
    Limits(-1, [], 0, 0)
  }

  /** A step only adds to the output. */
  lemma {:induction false} StepAppends(m: Model, lim: Limits, c: Conf, choice: Choice)
    requires Alive(lim, c)
    ensures c.view.generated <= Step(m, lim, c, choice).view.generated
  {
    if c.view.state == Decoding {
      LaterStep(m, lim, c, choice);
      if choice.Plain? {
        EmitRecords(c.view, Greedy(m.logits(InputContext(c))), lim);
        StartIsPosition(c);
      } else {
        var _ := VerifiedKeepsCoupling(m, lim, c, PathDraft(choice.path));
      }
    } else if c.view.state == Finished {
      FinishedStays(m, lim, c, choice);
    }
  }

  /** The attentive target's reference never ends and never has a token 1. */
  lemma {:induction false} AttentiveRef(prompt: seq<int>, n: nat)
    requires prompt != []
    ensures var v := Ref(Attentive(), Endless(), prompt, n); v.state == Decoding && 1 !in v.generated
  {
    var m, lim := Attentive(), Endless();
    if n == 0 {
      AttentiveNext(prompt);
      assert MapRow(m.softCap, m.logits(Stamp(prompt))) == m.logits(Stamp(prompt));
    } else {
      AttentiveRef(prompt, n - 1);
      AttentiveNext(Ref(m, lim, prompt, n - 1).All());
      EmitRecords(Ref(m, lim, prompt, n - 1), 0, lim);
    }
  }

  /** In a run with a pass that does not show the text it generates one. */
  lemma {:induction false} HarmfulRunGoesAstray(prompt: seq<int>, kind: Kind, choices: seq<Choice>)
    requires prompt != [] && !HarmlessRun(kind, choices)
    ensures 1 in Run(Attentive(), Endless(), Start(prompt, kind), choices).view.generated
  {
    var m, lim, before, choice := Attentive(), Endless(), choices[..|choices| - 1], choices[|choices| - 1];
    var c := Run(m, lim, Start(prompt, kind), before);
    RunsStayAligned(m, lim, prompt, kind, before);
    RunKeepsKind(m, lim, Start(prompt, kind), before);
    HarmlessRunSnoc(kind, choices);
    if !HarmlessRun(kind, before) {
      HarmfulRunGoesAstray(prompt, kind, before);
      StepAppends(m, lim, c, choice);
    } else {
      var n := SpeculationIsTransparent(m, lim, prompt, kind, before);
      AttentiveRef(prompt, n);
      HarmfulStep(lim, c, choice);
    }
  }

  lemma {:induction false} HarmfulStep(lim: Limits, c: Conf, choice: Choice)
    requires Coupled(c) && c.view.state == Decoding && !Harmless(c.cache.kind, choice)
    ensures 1 in Step(Attentive(), lim, c, choice).view.generated
  {
    var d := PathDraft(choice.path);
    LaterStep(Attentive(), lim, c, choice);
    AttentiveGoesAstray(c, choice.path);
    var k := VerifiedKeepsCoupling(Attentive(), lim, c, d);
    assert Proposed(Attentive(), c, d)[..k][0] == 1;
  }

  /** Where a number of greedy steps would be. */
  ghost predicate IsReference(m: Model, lim: Limits, prompt: seq<int>, v: Snapshot) {
    exists n :: v == Ref(m, lim, prompt, n)
  }

  /** A run leaves the sequence where greedy steps would, whatever the target and the limits, exactly if every pass
      after the first step shows each token the text: always in the block pool, and on the other caches exactly if
      no step verified a path that was not empty. */
  lemma {:induction false} RunAlwaysTransparentIff(prompt: seq<int>, kind: Kind, choices: seq<Choice>)
    requires prompt != [] && choices != []
    ensures (forall m, lim :: ValidModel(m) ==>
               IsReference(m, lim, prompt, Run(m, lim, Start(prompt, kind), choices).view)) <==>
            HarmlessRun(kind, choices)
  {
    if HarmlessRun(kind, choices) {
      forall m, lim | ValidModel(m)
        ensures IsReference(m, lim, prompt, Run(m, lim, Start(prompt, kind), choices).view)
      {
        var n := SpeculationIsTransparent(m, lim, prompt, kind, choices);
      }
    } else {
      HarmfulRunGoesAstray(prompt, kind, choices);
      var v := Run(Attentive(), Endless(), Start(prompt, kind), choices).view;
      if IsReference(Attentive(), Endless(), prompt, v) {
        var n :| v == Ref(Attentive(), Endless(), prompt, n);
        AttentiveRef(prompt, n);
      }
    }
  }
}
