/** Speculative decoding as a step protocol.

    The model is any function from what a token attends to, to a row of logits.  A cache entry remembers the token,
    the position it was rotated to, and what it attended to itself when its vectors were computed; a row is the
    target's own only if every entry it is computed from stands at its own position and saw the whole text before
    it.  Plain decoding is the reference `Ref`, which has no cache at all; the steps below are what the schedulers
    do, with a cache that is filled by verification and cut back after a rejection. */
module Speculation {
  import opened Arithmetic
  import opened Sampling
  import opened Sequences

  /** What an entry was computed from: itself and the n entries before it, or the first n entries of the cache
      and not itself. */
  datatype View = Back(n: nat) | Front(n: nat)

  datatype Entry = Entry(token: int, pos: nat, view: View)

  datatype Model = Model(vocab: nat, logits: seq<Entry> -> Row, softCap: Logit -> Logit)

  ghost predicate ValidModel(m: Model) {
    && m.vocab > 0
    && (forall s :: |m.logits(s)| == m.vocab)
  }

  // ---------------------------------------------------------------- reference: one token at a time

  /** Tokens at consecutive positions from `pos`, each of which sees the entries before it: `base` older ones, and
      those of its own pass. */
  function Entries(tokens: seq<int>, pos: nat, base: nat): (es: seq<Entry>)
    ensures |es| == |tokens| && forall i :: 0 <= i < |es| ==> es[i] == Entry(tokens[i], pos + i, Back(base + i))
  {
    seq(|tokens|, i requires 0 <= i < |tokens| => Entry(tokens[i], pos + i, Back(base + i)))
  }

  /** A text from its beginning, all of it seen. */
  function Stamp(text: seq<int>): seq<Entry> {
    Entries(text, 0, 0)
  }

  /** The target's choice after a text. */
  function Next(m: Model, text: seq<int>): int {
    Greedy(m.logits(Stamp(text)))
  }

  /** The first token after a prompt: prefill applies the final soft cap, which decoding does not. */
  function FirstChoice(m: Model, prompt: seq<int>): int {
    Greedy(MapRow(m.softCap, m.logits(Stamp(prompt))))
  }

  function RefStep(m: Model, lim: Limits, v: Snapshot): Snapshot {
    if v.state == Finished then v else Emit(v, Next(m, v.All()), lim)
  }

  /** Prefill and then n one-token greedy steps. */
  function Ref(m: Model, lim: Limits, prompt: seq<int>, n: nat): Snapshot {
    if n == 0 then EmitFirst(Fresh(prompt), FirstChoice(m, prompt), lim)
    else RefStep(m, lim, Ref(m, lim, prompt, n - 1))
  }

  // ---------------------------------------------------------------- the cache, as a log of entries

  /** The three caches: contiguous on the GPU, block pool on the GPU, and the paged cache on the CPU. */
  datatype Kind = Contiguous | BlockPool | CpuPaged

  /** What entry i of a cache attends to, itself at the end. */
  function Window(s: seq<Entry>, i: nat): (w: seq<Entry>)
    requires i < |s|
    ensures w != [] && w[|w| - 1] == s[i]
  {
    match s[i].view
    case Back(n) => if n < i then s[i - n..i + 1] else s[..i + 1]
    case Front(n) => (if n < i then s[..n] else s[..i]) + [s[i]]
  }

  /** The entries from index k on, if there are any. */
  function Behind(live: seq<Entry>, k: nat): seq<Entry> {
    if k <= |live| then live[k..] else []
  }

  datatype Log = Log(kind: Kind, live: seq<Entry>) {
    /** Where a pass starting at `pos` writes: the contiguous cache at its own length, the paged ones at the
        position.  They are never asked to leave a gap (see Coupled). */
    function At(pos: nat): (at: nat)
      ensures at <= |live|
    {
      if kind != Contiguous && pos < |live| then pos else |live|
    }

    /** The entries of a pass.  A single token sees the whole cache, and so do several in the block pool.  Several
        tokens on the contiguous cache are given the vectors of the pass alone; on the CPU paged cache they are
        given the whole cache, but token i attends to its first i+1 entries. */
    function Made(tokens: seq<int>, pos: nat): (es: seq<Entry>)
      ensures |es| == |tokens| && forall i :: 0 <= i < |es| ==> es[i].token == tokens[i] && es[i].pos == pos + i
    {
      if |tokens| <= 1 || At(pos) == 0 || kind == BlockPool then Entries(tokens, pos, At(pos))
      else if kind == Contiguous then Entries(tokens, pos, 0)
      else seq(|tokens|, i requires 0 <= i < |tokens| => Entry(tokens[i], pos + i, Front(i + 1)))
    }

    function Feed(tokens: seq<int>, pos: nat): Log {
      var at := At(pos);
      Log(kind, live[..at] + Made(tokens, pos) + Behind(live, at + |tokens|))
    }

    /** What token i of such a pass attends to. */
    function Context(tokens: seq<int>, pos: nat, i: nat): seq<Entry>
      requires i < |tokens|
    {
      Window(live[..At(pos)] + Made(tokens, pos), At(pos) + i)
    }

    function Cut(n: int): Log {
      Log(kind, live[..if n < 0 then 0 else if n > |live| then |live| else n])
    }

    function Reset(): Log {
      if kind == Contiguous then Log(Contiguous, []) else this
    }
  }

  function Rows(m: Model, c: Log, tokens: seq<int>, pos: nat): (rows: seq<Row>)
    ensures |rows| == |tokens|
  {
    seq(|tokens|, i requires 0 <= i < |tokens| => m.logits(c.Context(tokens, pos, i)))
  }

  // ---------------------------------------------------------------- the steps

  datatype Conf = Conf(view: Snapshot, cache: Log)

  /** Proposed tokens, and a test by which a proposal may be accepted although the target prefers another. */
  datatype Draft = Draft(tokens: seq<int>, test: (nat, Row) -> bool) {
    predicate Takes(i: nat, row: Row)
      requires i < |tokens|
    {
      tokens[i] == Greedy(row) || test(i, row)
    }

    /** The test accepts nothing that the row would not have chosen. */
    ghost predicate Strict() {
      forall i, row :: 0 <= i < |tokens| && test(i, row) ==> tokens[i] == Greedy(row)
    }
  }

  function PathDraft(tokens: seq<int>): Draft {
    Draft(tokens, (i, row) => false)
  }

  /** How many proposals from i on are taken before the first rejection. */
  function Taken(d: Draft, rows: seq<Row>, i: nat): (k: nat)
    requires i <= |d.tokens| && |d.tokens| < |rows|
    ensures i <= k <= |d.tokens|
    ensures forall j {:trigger d.Takes(j, rows[j])} :: i <= j < k ==> d.Takes(j, rows[j])
    ensures k < |d.tokens| ==> !d.Takes(k, rows[k])
    decreases |d.tokens| - i
  {
    if i < |d.tokens| && d.Takes(i, rows[i]) then Taken(d, rows, i + 1) else i
  }

  /** The tokens a verification yields: the taken proposals and the choice of the row after them. */
  function Verdict(d: Draft, rows: seq<Row>): (tokens: seq<int>)
    requires |d.tokens| < |rows|
    ensures 1 <= |tokens| <= |d.tokens| + 1
  {
    var k := Taken(d, rows, 0);
    d.tokens[..k] + [Greedy(rows[k])]
  }

  function Prefilled(m: Model, lim: Limits, c: Conf): Conf
    requires c.view.prompt != []
  {
    var cache, prompt := c.cache.Reset(), c.view.prompt;
    var row := m.logits(cache.Context(prompt, 0, |prompt| - 1));
    Conf(EmitFirst(c.view, Greedy(MapRow(m.softCap, row)), lim), cache.Feed(prompt, 0))
  }

  /** What the input token of a sequence attends to in a plain decode. */
  function InputContext(c: Conf): seq<Entry> {
    c.cache.Context([c.view.Input().0], c.view.Input().1, 0)
  }

  function Decoded(m: Model, lim: Limits, c: Conf): Conf {
    if c.view.CanDecode() then
      var (token, pos) := c.view.Input();
      Conf(Emit(c.view, Greedy(m.logits(InputContext(c))), lim), c.cache.Feed([token], pos))
    else c
  }

  /** A plain step prefills if it must, and then decodes in the same step. */
  function PlainStep(m: Model, lim: Limits, c: Conf): Conf {
    Decoded(m, lim, if c.view.NeedsPrefill() then Prefilled(m, lim, c) else c)
  }

  /** Verify a draft in one pass written at `start`, keep what was taken, emit it. */
  function Verified(m: Model, lim: Limits, c: Conf, d: Draft, start: nat): Conf {
    Judged(lim, c, d, start, Rows(m, c.cache, [c.view.Input().0] + d.tokens, start))
  }

  /** The same with whatever rows the verifier was given to judge by. */
  function Judged(lim: Limits, c: Conf, d: Draft, start: nat, rows: seq<Row>): Conf
    requires |d.tokens| < |rows|
  {
    Conf(EmitAll(c.view, Verdict(d, rows), lim), Kept(c, d, start, rows))
  }

  /** The cache after input and proposals, cut behind the taken ones. */
  function Kept(c: Conf, d: Draft, start: nat, rows: seq<Row>): Log
    requires |d.tokens| < |rows|
  {
    c.cache.Feed([c.view.Input().0] + d.tokens, start).Cut(start + 1 + Taken(d, rows, 0))
  }

  /** Tree verification starts where the contiguous cache ends. */
  function TreeStep(m: Model, lim: Limits, c: Conf, path: seq<int>): Conf {
    if c.view.NeedsPrefill() then PlainStep(m, lim, c)
    else if !c.view.CanDecode() then c
    else
      var pos := c.view.Input().1;
      Verified(m, lim, c, PathDraft(path), if c.cache.kind == Contiguous then |c.cache.live| else pos)
  }

  datatype Choice = Plain | Tree(path: seq<int>)

  function Step(m: Model, lim: Limits, c: Conf, choice: Choice): Conf {
    match choice
    case Plain => PlainStep(m, lim, c)
    case Tree(path) => TreeStep(m, lim, c, path)
  }

  function Start(prompt: seq<int>, kind: Kind): Conf {
    Conf(Fresh(prompt), Log(kind, []))
  }

  function Run(m: Model, lim: Limits, c: Conf, choices: seq<Choice>): Conf {
    if choices == [] then c
    else Step(m, lim, Run(m, lim, c, choices[..|choices| - 1]), choices[|choices| - 1])
  }

  // ---------------------------------------------------------------- the coupling invariant

  /** The cache has the tokens of a text, each at its own position, whatever they were computed from. */
  ghost predicate Placed(live: seq<Entry>, text: seq<int>) {
    |live| == |text| && forall i :: 0 <= i < |live| ==> live[i].token == text[i] && live[i].pos == i
  }

  /** The tokens of the sequence that are cached. */
  function Past(v: Snapshot): seq<int>
    requires v.position <= |v.All()|
  {
    v.All()[..v.position]
  }

  /** The cache has exactly the tokens before the current position, each at its own position.
      A sequence that finished inside a draft may leave a longer cache behind. */
  ghost predicate Coupled(c: Conf) {
    && c.view.prompt != []
    && PositionOk(c.view)
    && (c.view.state == Pending && c.cache.kind != Contiguous ==> c.cache.live == [])
    && (c.view.state == Decoding ==> Placed(c.cache.live, Past(c.view)))
    && (c.view.state == Finished ==>
          c.view.position <= |c.cache.live| && Placed(c.cache.live[..c.view.position], Past(c.view)))
  }

  /** Moreover every entry has seen the whole text before it. */
  ghost predicate Sound(c: Conf) {
    Coupled(c) && (c.view.state == Decoding ==> c.cache.live == Stamp(Past(c.view)))
  }

  lemma {:induction false} StampAppend(a: seq<int>, b: seq<int>)
    ensures Stamp(a) + Entries(b, |a|, |a|) == Stamp(a + b)
  {
  }

  lemma {:induction false} StampTake(a: seq<int>, n: nat)
    requires n <= |a|
    ensures Stamp(a)[..n] == Stamp(a[..n])
  {
  }

  lemma {:induction false} StampPlaced(text: seq<int>)
    ensures Placed(Stamp(text), text)
  {
  }

  lemma {:induction false} WindowOfStamp(text: seq<int>, i: nat)
    requires i < |text|
    ensures Window(Stamp(text), i) == Stamp(text[..i + 1])
  {
    StampTake(text, i + 1);
  }

  /** Entries behind an entry play no part in its window. */
  lemma {:induction false} WindowOfFront(s: seq<Entry>, rest: seq<Entry>, i: nat)
    requires i < |s|
    ensures Window(s + rest, i) == Window(s, i)
  {
    assert (s + rest)[..i + 1] == s[..i + 1] && (s + rest)[..i] == s[..i];
    match s[i].view
    case Back(n) => if n < i { assert (s + rest)[i - n..i + 1] == s[i - n..i + 1]; }
    case Front(n) => if n < i { assert (s + rest)[..n] == s[..n]; }
  }

  /** In a coupled decoding state a pass over the input and some proposals is written at the position, and extends
      the text by them. */
  lemma {:induction false} PassExtends(c: Conf, ts: seq<int>)
    requires Coupled(c) && c.view.state == Decoding
    ensures c.view.Input() == (c.view.generated[|c.view.generated| - 1], c.view.position)
    ensures c.cache.At(c.view.position) == |c.cache.live| == c.view.position > 0
    ensures c.view.All() == Past(c.view) + [c.view.Input().0]
    ensures var fed := [c.view.Input().0] + ts;
            && c.cache.Feed(fed, c.view.position).live == c.cache.live + c.cache.Made(fed, c.view.position)
            && Placed(c.cache.Feed(fed, c.view.position).live, c.view.All() + ts)
  {
    var fed := [c.view.Input().0] + ts;
    assert Past(c.view) + fed == c.view.All() + ts;
  }

  /** Whether such a pass shows each token the text before it. */
  predicate SeesText(kind: Kind, ts: seq<int>) {
    kind == BlockPool || ts == []
  }

  /** If it does, and the cache is sound, row i of the pass is the target's row for the text so far plus the first
      i proposals. */
  lemma {:induction false} ContextIsText(c: Conf, ts: seq<int>, i: nat)
    requires Sound(c) && c.view.state == Decoding && i <= |ts| && SeesText(c.cache.kind, ts)
    ensures c.cache.Context([c.view.Input().0] + ts, c.view.position, i) == Stamp(c.view.All() + ts[..i])
    ensures c.cache.Feed([c.view.Input().0] + ts, c.view.position).live == Stamp(c.view.All() + ts)
  {
    var fed, text := [c.view.Input().0] + ts, c.view.All() + ts;
    PassExtends(c, ts);
    StampAppend(Past(c.view), fed);
    assert Past(c.view) + fed == text;
    WindowOfStamp(text, c.view.position + i);
    assert text[..c.view.position + i + 1] == c.view.All() + ts[..i];
  }

  // ---------------------------------------------------------------- one step

  /** What emitting a batch does: a nonempty prefix is recorded, all of it unless the sequence finished. */
  lemma {:induction false} EmitAllShape(v: Snapshot, tokens: seq<int>, lim: Limits) returns (k: nat)
    requires PositionOk(v) && v.state == Decoding && tokens != []
    ensures var w := EmitAll(v, tokens, lim);
            && 1 <= k <= |tokens|
            && w.prompt == v.prompt && w.generated == v.generated + tokens[..k] && w.position == v.position + k
            && PositionOk(w) && (w.state == Finished || (w.state == Decoding && k == |tokens|))
  {
    var front := tokens[..|tokens| - 1];
    if front == [] {
      k := 1;
      assert EmitAll(v, front, lim) == v && tokens[..1] == tokens == [tokens[0]];
    } else {
      k := EmitAllShape(v, front, lim);
      assert front[..k] == tokens[..k];
      if EmitAll(v, front, lim).state != Finished {
        k := |tokens|;
        assert tokens[..k] == front + [tokens[|tokens| - 1]];
      }
    }
  }

  /** Each token is the target's choice after the text before it. */
  ghost predicate Follows(m: Model, text: seq<int>, tokens: seq<int>) {
    forall i {:trigger Next(m, text + tokens[..i])} :: 0 <= i < |tokens| ==> tokens[i] == Next(m, text + tokens[..i])
  }

  /** The first token is the target's choice after the text. */
  lemma {:induction false} FollowsFirst(m: Model, text: seq<int>, tokens: seq<int>)
    requires Follows(m, text, tokens) && tokens != []
    ensures tokens[0] == Next(m, text)
  {
    assert text + tokens[..0] == text;
    assert tokens[0] == Next(m, text + tokens[..0]);
  }

  lemma {:induction false} LastFollows(m: Model, text: seq<int>, front: seq<int>, last: int, tokens: seq<int>)
    requires Follows(m, text, tokens) && tokens == front + [last]
    ensures Follows(m, text, front) && last == Next(m, text + front)
  {
    forall i | 0 <= i < |front| ensures front[i] == Next(m, text + front[..i]) {
      assert front[..i] == tokens[..i];
      assert tokens[i] == Next(m, text + tokens[..i]);
    }
    assert tokens[..|front|] == front;
    assert tokens[|front|] == Next(m, text + tokens[..|front|]);
  }

  /** Emitting a batch of greedy choices is running the reference for as many steps. */
  lemma {:induction false} EmitAllFollowsRef(m: Model, lim: Limits, prompt: seq<int>, n: nat, v: Snapshot,
                                             tokens: seq<int>)
    returns (k: nat)
    requires v == Ref(m, lim, prompt, n) && v.state == Decoding && PositionOk(v)
    requires tokens != [] && Follows(m, v.All(), tokens)
    ensures 1 <= k && EmitAll(v, tokens, lim) == Ref(m, lim, prompt, n + k)
  {
    var front, last := tokens[..|tokens| - 1], tokens[|tokens| - 1];
    LastFollows(m, v.All(), front, last, tokens);
    k := 0;
    if front != [] {
      k := EmitAllFollowsRef(m, lim, prompt, n, v, front);
    }
    assert tokens == front + [last];
    k := EmitLastFollowsRef(m, lim, prompt, n, v, front, last, k);
  }

  lemma {:induction false} EmitLastFollowsRef(m: Model, lim: Limits, prompt: seq<int>, n: nat, v: Snapshot,
                                              front: seq<int>, last: int, k: nat)
    returns (k': nat)
    requires EmitAll(v, front, lim) == Ref(m, lim, prompt, n + k) && v.state == Decoding && PositionOk(v)
    requires last == Next(m, v.All() + front) && (k == 0 ==> front == [])
    ensures 1 <= k' && EmitAll(v, front + [last], lim) == Ref(m, lim, prompt, n + k')
  {
    var w := EmitAll(v, front, lim);
    FrontRecorded(v, front, lim);
    EmitAllSnoc(v, front, last, lim);
    k' := k;
    if w.state != Finished {
      OneMore(m, lim, prompt, n + k, w, last);
      k' := k + 1;
    }
  }

  lemma {:induction false} EmitAllSnoc(v: Snapshot, front: seq<int>, last: int, lim: Limits)
    ensures var w := EmitAll(v, front, lim);
            EmitAll(v, front + [last], lim) == if w.state == Finished then w else Emit(w, last, lim)
  {
    assert (front + [last])[..|front|] == front;
  }

  lemma {:induction false} FrontRecorded(v: Snapshot, front: seq<int>, lim: Limits)
    requires PositionOk(v) && v.state == Decoding
    ensures var w := EmitAll(v, front, lim);
            && (w.state == Finished ==> front != [])
            && (w.state != Finished ==> w.All() == v.All() + front)
            && (front == [] ==> w == v)
  {
    if front != [] {
      var k := EmitAllShape(v, front, lim);
    }
  }

  lemma {:induction false} OneMore(m: Model, lim: Limits, prompt: seq<int>, n: nat, v: Snapshot, token: int)
    requires v == Ref(m, lim, prompt, n) && v.state != Finished && token == Next(m, v.All())
    ensures Emit(v, token, lim) == Ref(m, lim, prompt, n + 1)
  {
  }

  /** Verification starts at the position, whether the scheduler takes it from the sequence or from the cache. */
  lemma {:induction false} StartIsPosition(c: Conf)
    requires Coupled(c) && c.view.state == Decoding
    ensures c.view.Input().1 == c.view.position == |c.cache.live|
    ensures !c.view.NeedsPrefill() && c.view.CanDecode()
  {
  }

  /** What one verification yields in a decoding state. */
  function Proposed(m: Model, c: Conf, d: Draft): (tokens: seq<int>)
    ensures 1 <= |tokens| <= |d.tokens| + 1
  {
    Verdict(d, Rows(m, c.cache, [c.view.Input().0] + d.tokens, c.view.position))
  }

  /** The rows are the target's own, for the text and each prefix of the proposals. */
  ghost predicate RowsOfText(m: Model, text: seq<int>, ts: seq<int>, rows: seq<Row>) {
    |rows| == |ts| + 1 && forall i :: 0 <= i <= |ts| ==> rows[i] == m.logits(Stamp(text + ts[..i]))
  }

  lemma {:induction false} PassRowsOfText(m: Model, c: Conf, ts: seq<int>)
    requires Sound(c) && c.view.state == Decoding && SeesText(c.cache.kind, ts)
    ensures RowsOfText(m, c.view.All(), ts, Rows(m, c.cache, [c.view.Input().0] + ts, c.view.position))
  {
    var rows := Rows(m, c.cache, [c.view.Input().0] + ts, c.view.position);
    forall i | 0 <= i <= |ts| ensures rows[i] == m.logits(Stamp(c.view.All() + ts[..i])) {
      ContextIsText(c, ts, i);
    }
  }

  /** Token i of the verdict follows the first i proposals, and was judged by the target's row for them. */
  lemma {:induction false} VerdictToken(m: Model, text: seq<int>, d: Draft, rows: seq<Row>, i: nat)
    requires RowsOfText(m, text, d.tokens, rows) && i < |Verdict(d, rows)|
    ensures var verdict := Verdict(d, rows);
            && i <= |d.tokens| && verdict[..i] == d.tokens[..i] && rows[i] == m.logits(Stamp(text + verdict[..i]))
            && (verdict[i] == Next(m, text + verdict[..i]) || (i < Taken(d, rows, 0) && verdict[i] == d.tokens[i]))
  {
    assert Verdict(d, rows)[..i] == d.tokens[..i];
  }

  /** Whatever rows it was judged by, a verification keeps the coupling and emits between 1 and K+1 tokens:
      a nonempty prefix of its verdict. */
  lemma {:induction false} JudgedKeepsCoupling(lim: Limits, c: Conf, d: Draft, rows: seq<Row>) returns (k: nat)
    requires Coupled(c) && c.view.state == Decoding && |d.tokens| < |rows|
    ensures var r := Judged(lim, c, d, c.view.position, rows);
            && Coupled(r) && r.view.prompt == c.view.prompt && r.view.state != Pending
            && 1 <= k <= |Verdict(d, rows)|
            && r.view.generated == c.view.generated + Verdict(d, rows)[..k]
            && (r.view.state == Decoding ==> k == |Verdict(d, rows)|)
  {
    var v, verdict := c.view, Verdict(d, rows);
    var taken := |verdict| - 1;
    k := EmitAllShape(v, verdict, lim);
    KeptIsText(lim, c, d, rows);
    var r := Judged(lim, c, d, v.position, rows);
    assert r.view.All() == v.All() + verdict[..k];
    assert (v.All() + verdict[..taken])[..r.view.position] == Past(r.view);
  }

  /** What the rollback leaves: the text so far and the taken proposals, and the old cache in front of it. */
  lemma {:induction false} KeptIsText(lim: Limits, c: Conf, d: Draft, rows: seq<Row>)
    requires Coupled(c) && c.view.state == Decoding && |d.tokens| < |rows|
    ensures var live, verdict := Judged(lim, c, d, c.view.position, rows).cache.live, Verdict(d, rows);
            && Placed(live, c.view.All() + verdict[..|verdict| - 1])
            && live == c.cache.live + c.cache.Made([c.view.Input().0] + d.tokens, c.view.position)[..|verdict|]
  {
    PassExtends(c, d.tokens);
    KeptIsFront(lim, c, d, rows);
    var taken := Taken(d, rows, 0);
    assert (c.view.All() + d.tokens)[..c.view.position + 1 + taken] == c.view.All() + d.tokens[..taken];
  }

  /** The rollback leaves the first entries of the pass. */
  lemma {:induction false} KeptIsFront(lim: Limits, c: Conf, d: Draft, rows: seq<Row>)
    requires Coupled(c) && c.view.state == Decoding && |d.tokens| < |rows|
    ensures var fed, verdict := [c.view.Input().0] + d.tokens, Verdict(d, rows);
            && verdict[..|verdict| - 1] == d.tokens[..Taken(d, rows, 0)] && |verdict| == Taken(d, rows, 0) + 1
            && c.view.position + |verdict| <= |c.cache.Feed(fed, c.view.position).live|
            && Judged(lim, c, d, c.view.position, rows).cache.live ==
               c.cache.Feed(fed, c.view.position).live[..c.view.position + |verdict|]
  {
    PassExtends(c, d.tokens);
  }

  lemma {:induction false} VerifiedKeepsCoupling(m: Model, lim: Limits, c: Conf, d: Draft) returns (k: nat)
    requires Coupled(c) && c.view.state == Decoding
    ensures var r := Verified(m, lim, c, d, c.view.position);
            && Coupled(r) && r.view.prompt == c.view.prompt && r.view.state != Pending
            && 1 <= k <= |Proposed(m, c, d)|
            && r.view.generated == c.view.generated + Proposed(m, c, d)[..k]
  {
    k := JudgedKeepsCoupling(lim, c, d, Rows(m, c.cache, [c.view.Input().0] + d.tokens, c.view.position));
  }

  lemma {:induction false} StrictVerdictFollows(m: Model, text: seq<int>, d: Draft, rows: seq<Row>)
    requires RowsOfText(m, text, d.tokens, rows) && d.Strict()
    ensures Follows(m, text, Verdict(d, rows))
  {
    var verdict := Verdict(d, rows);
    forall i | 0 <= i < |verdict| ensures verdict[i] == Next(m, text + verdict[..i]) {
      VerdictToken(m, text, d, rows, i);
      if i < Taken(d, rows, 0) { assert d.Takes(i, rows[i]); }
    }
  }

  /** What a verification leaves in a cache that shows each token the text is sound again. */
  lemma {:induction false} JudgedKeepsSound(lim: Limits, c: Conf, d: Draft, rows: seq<Row>)
    requires Sound(c) && c.view.state == Decoding && SeesText(c.cache.kind, d.tokens) && |d.tokens| < |rows|
    ensures Sound(Judged(lim, c, d, c.view.position, rows))
  {
    var k := JudgedKeepsCoupling(lim, c, d, rows);
    KeptIsSound(lim, c, d, rows);
    var r := Judged(lim, c, d, c.view.position, rows);
    if r.view.state == Decoding { PastAfter(c.view, r.view, Verdict(d, rows)); }
  }

  /** All tokens but the last are cached. */
  lemma {:induction false} PastAfter(v: Snapshot, w: Snapshot, tokens: seq<int>)
    requires PositionOk(w) && w.prompt == v.prompt && w.generated == v.generated + tokens && tokens != []
    requires w.state == Decoding
    ensures Past(w) == v.All() + tokens[..|tokens| - 1]
  {
    assert w.All() == v.All() + tokens;
  }

  lemma {:induction false} KeptIsSound(lim: Limits, c: Conf, d: Draft, rows: seq<Row>)
    requires Sound(c) && c.view.state == Decoding && SeesText(c.cache.kind, d.tokens) && |d.tokens| < |rows|
    ensures var verdict := Verdict(d, rows);
            Judged(lim, c, d, c.view.position, rows).cache.live == Stamp(c.view.All() + verdict[..|verdict| - 1])
  {
    ContextIsText(c, d.tokens, 0);
    KeptIsFront(lim, c, d, rows);
    CutStamp(c.view.All(), d.tokens, Taken(d, rows, 0));
  }

  lemma {:induction false} CutStamp(text: seq<int>, ts: seq<int>, k: nat)
    requires k <= |ts|
    ensures Stamp(text + ts)[..|text| + k] == Stamp(text + ts[..k])
  {
    StampTake(text + ts, |text| + k);
    assert (text + ts)[..|text| + k] == text + ts[..k];
  }

  /** A plain decode keeps the coupling, */
  lemma {:induction false} DecodedKeepsCoupling(m: Model, lim: Limits, c: Conf)
    requires Coupled(c) && c.view.state == Decoding
    ensures var r := Decoded(m, lim, c);
            && Coupled(r) && r.cache.live == c.cache.live + [Entry(c.view.Input().0, c.view.position,
                                                                   Back(c.view.position))]
            && r.view.prompt == c.view.prompt && r.view.state != Pending && Past(r.view) == c.view.All()
            && |r.view.generated| == |c.view.generated| + 1
  {
    FedOne(c);
    var r := Decoded(m, lim, c);
    assert Past(r.view) == c.view.All();
    assert r.cache.live[..r.view.position] == r.cache.live;
  }

  lemma {:induction false} FedOne(c: Conf)
    requires Coupled(c) && c.view.state == Decoding
    ensures var (token, pos) := c.view.Input();
            var after := c.cache.Feed([token], pos).live;
            && pos == c.view.position && Placed(after, c.view.All())
            && after == c.cache.live + [Entry(token, pos, Back(pos))]
  {
    PassExtends(c, []);
    AppendsOne(c.cache, c.view.Input().0, c.view.position);
  }

  lemma {:induction false} AppendsOne(c: Log, token: int, pos: nat)
    requires c.At(pos) == |c.live|
    ensures c.Feed([token], pos).live == c.live + [Entry(token, pos, Back(|c.live|))]
  {
    assert c.Made([token], pos) == [Entry(token, pos, Back(|c.live|))];
  }

  /** and on a sound cache it is one reference step. */
  lemma {:induction false} DecodedFollowsRef(m: Model, lim: Limits, c: Conf)
    requires Sound(c) && c.view.state == Decoding
    ensures Sound(Decoded(m, lim, c)) && Decoded(m, lim, c).view == RefStep(m, lim, c.view)
    ensures InputContext(c) == Stamp(c.view.All())
  {
    ContextIsText(c, [], 0);
    PassExtends(c, []);
    DecodedKeepsCoupling(m, lim, c);
    assert [c.view.Input().0] + [] == [c.view.Input().0] && c.view.All() + [] == c.view.All();
  }

  /** Prefill fills the cache with the prompt and chooses the reference's first token. */
  lemma {:induction false} PrefilledIsRef(m: Model, lim: Limits, c: Conf)
    requires Coupled(c) && c.view == Fresh(c.view.prompt)
    ensures Sound(Prefilled(m, lim, c)) && Prefilled(m, lim, c).view == Ref(m, lim, c.view.prompt, 0)
  {
    EmptyPass(c.cache.Reset(), c.view.prompt);
    StampPlaced(c.view.prompt);
    PrefilledIsSound(m, lim, c);
  }

  lemma {:induction false} PrefilledIsSound(m: Model, lim: Limits, c: Conf)
    requires c.view == Fresh(c.view.prompt) && c.view.prompt != []
    requires var live := Prefilled(m, lim, c).cache.live; live == Stamp(c.view.prompt) && Placed(live, c.view.prompt)
    ensures Sound(Prefilled(m, lim, c))
  {
    var r := Prefilled(m, lim, c);
    assert Past(r.view) == c.view.prompt;
    assert r.cache.live[..r.view.position] == r.cache.live;
  }

  /** In a pass over an empty cache, the last token attends to exactly the tokens fed, whatever the cache. */
  lemma {:induction false} EmptyPass(c: Log, tokens: seq<int>)
    requires c.live == [] && tokens != []
    ensures c.Context(tokens, 0, |tokens| - 1) == Stamp(tokens) == c.Feed(tokens, 0).live
  {
    EmptyMade(c, tokens);
    LastWindow(tokens);
  }

  lemma {:induction false} LastWindow(tokens: seq<int>)
    requires tokens != []
    ensures Window(Stamp(tokens), |tokens| - 1) == Stamp(tokens)
  {
    WindowOfStamp(tokens, |tokens| - 1);
    assert tokens[..|tokens|] == tokens;
  }

  lemma {:induction false} EmptyMade(c: Log, tokens: seq<int>)
    requires c.live == []
    ensures c.At(0) == 0 && c.live[..0] + c.Made(tokens, 0) == Stamp(tokens) == c.Feed(tokens, 0).live
  {
    assert c.Made(tokens, 0) == Stamp(tokens);
  }

  // ---------------------------------------------------------------- whole runs

  /** A step after the first whose pass shows each token the text before it. */
  predicate Harmless(kind: Kind, choice: Choice) {
    choice.Tree? ==> SeesText(kind, choice.path)
  }

  /** The first step is a prefill, whatever was chosen. */
  ghost predicate HarmlessRun(kind: Kind, choices: seq<Choice>) {
    forall i :: 1 <= i < |choices| ==> Harmless(kind, choices[i])
  }

  lemma {:induction false} RefStarted(m: Model, lim: Limits, prompt: seq<int>, n: nat)
    ensures var v := Ref(m, lim, prompt, n);
            && v.prompt == prompt && (v.state == Decoding || v.state == Finished)
            && (v.state == Decoding ==> |v.generated| == n + 1)
  {
    if n > 0 { RefStarted(m, lim, prompt, n - 1); }
  }

  /** Which of the step functions applies in a decoding state. */
  lemma {:induction false} LaterStep(m: Model, lim: Limits, c: Conf, choice: Choice)
    requires Coupled(c) && c.view.state == Decoding
    ensures Step(m, lim, c, choice) == if choice.Plain? then Decoded(m, lim, c)
                                       else Verified(m, lim, c, PathDraft(choice.path), c.view.position)
  {
    StartIsPosition(c);
  }

  lemma {:induction false} FirstStep(m: Model, lim: Limits, c: Conf, choice: Choice)
    requires c.view.NeedsPrefill()
    ensures Step(m, lim, c, choice) == Decoded(m, lim, Prefilled(m, lim, c))
  {
  }

  /** The cache is sound, and the sequence is the reference after n steps. */
  ghost predicate Tracks(m: Model, lim: Limits, prompt: seq<int>, n: nat, c: Conf) {
    Sound(c) && c.view == Ref(m, lim, prompt, n)
  }

  /** The first step goes on to the second token in the same step, unless the first one ended the output. */
  lemma {:induction false} FirstStepTracks(m: Model, lim: Limits, c: Conf, choice: Choice) returns (n: nat)
    requires Coupled(c) && c.view == Fresh(c.view.prompt)
    ensures Tracks(m, lim, c.view.prompt, n, Step(m, lim, c, choice))
    ensures n == if Ref(m, lim, c.view.prompt, 0).state == Finished then 0 else 1
  {
    var prompt := c.view.prompt;
    FirstStep(m, lim, c, choice);
    PrefilledIsRef(m, lim, c);
    RefStarted(m, lim, prompt, 0);
    var p := Prefilled(m, lim, c);
    if p.view.state == Finished {
      n := 0;
    } else {
      DecodedFollowsRef(m, lim, p);
      n := 1;
      assert Ref(m, lim, prompt, 1) == RefStep(m, lim, p.view);
    }
  }

  lemma {:induction false} DecodedTracks(m: Model, lim: Limits, prompt: seq<int>, n: nat, c: Conf)
    requires Tracks(m, lim, prompt, n, c) && c.view.state == Decoding
    ensures Tracks(m, lim, prompt, n + 1, Decoded(m, lim, c))
  {
    DecodedFollowsRef(m, lim, c);
  }

  /** A verification that shows each token the text, judged by a strict test, is a number of reference steps, and leaves
      a sound cache. */
  lemma {:induction false} VerifiedFollowsRef(m: Model, lim: Limits, prompt: seq<int>, n: nat, c: Conf, d: Draft)
    returns (n': nat)
    requires Tracks(m, lim, prompt, n, c) && c.view.state == Decoding && SeesText(c.cache.kind, d.tokens) && d.Strict()
    ensures n < n' && Tracks(m, lim, prompt, n', Verified(m, lim, c, d, c.view.position))
  {
    PassRowsOfText(m, c, d.tokens);
    var rows := Rows(m, c.cache, [c.view.Input().0] + d.tokens, c.view.position);
    n' := JudgedFollowsRef(m, lim, prompt, n, c, d, rows);
  }

  lemma {:induction false} JudgedFollowsRef(m: Model, lim: Limits, prompt: seq<int>, n: nat, c: Conf, d: Draft,
                                            rows: seq<Row>)
    returns (n': nat)
    requires Tracks(m, lim, prompt, n, c) && c.view.state == Decoding && SeesText(c.cache.kind, d.tokens) && d.Strict()
    requires RowsOfText(m, c.view.All(), d.tokens, rows)
    ensures n < n' && Tracks(m, lim, prompt, n', Judged(lim, c, d, c.view.position, rows))
  {
    JudgedKeepsSound(lim, c, d, rows);
    n' := VerdictFollowsRef(m, lim, prompt, n, c.view, d, rows);
  }

  lemma {:induction false} VerdictFollowsRef(m: Model, lim: Limits, prompt: seq<int>, n: nat, v: Snapshot, d: Draft,
                                             rows: seq<Row>)
    returns (n': nat)
    requires v == Ref(m, lim, prompt, n) && v.state == Decoding && PositionOk(v)
    requires d.Strict() && RowsOfText(m, v.All(), d.tokens, rows)
    ensures n < n' && EmitAll(v, Verdict(d, rows), lim) == Ref(m, lim, prompt, n')
  {
    StrictVerdictFollows(m, v.All(), d, rows);
    var k := EmitAllFollowsRef(m, lim, prompt, n, v, Verdict(d, rows));
    n' := n + k;
  }

  /** A tree path is only taken where it is the target's choice. */
  lemma {:induction false} PathIsStrict(path: seq<int>)
    ensures PathDraft(path).tokens == path && PathDraft(path).Strict()
  {
  }

  lemma {:induction false} StartedStepTracks(m: Model, lim: Limits, prompt: seq<int>, n: nat, c: Conf, choice: Choice)
    returns (n': nat)
    requires Tracks(m, lim, prompt, n, c) && Harmless(c.cache.kind, choice)
    ensures n < n' && Tracks(m, lim, prompt, n', Step(m, lim, c, choice))
  {
    n' := n + 1;
    if c.view.state == Finished {
      FinishedStays(m, lim, c, choice);
    } else {
      RefStarted(m, lim, prompt, n);
      LaterStep(m, lim, c, choice);
      if choice.Plain? {
        DecodedTracks(m, lim, prompt, n, c);
      } else {
        PathIsStrict(choice.path);
        n' := VerifiedFollowsRef(m, lim, prompt, n, c, PathDraft(choice.path));
      }
    }
  }

  lemma {:induction false} FinishedStays(m: Model, lim: Limits, c: Conf, choice: Choice)
    requires c.view.state == Finished
    ensures Step(m, lim, c, choice) == c
  {
  }

  lemma {:induction false} StepKeepsKind(m: Model, lim: Limits, c: Conf, choice: Choice)
    ensures Step(m, lim, c, choice).cache.kind == c.cache.kind
  {
  }

  lemma {:induction false} RunKeepsKind(m: Model, lim: Limits, c: Conf, choices: seq<Choice>)
    ensures Run(m, lim, c, choices).cache.kind == c.cache.kind
  {
    if choices != [] {
      var before := choices[..|choices| - 1];
      RunKeepsKind(m, lim, c, before);
      StepKeepsKind(m, lim, Run(m, lim, c, before), choices[|choices| - 1]);
    }
  }

  /** The headline: on the block pool any mix of plain steps and tree steps with arbitrary candidate paths, and on
      the other caches any number of plain steps, leaves the sequence exactly where a number of one-token greedy
      steps would, and the cache sound; every step after the first makes at least one token of progress. */
  lemma {:induction false} SpeculationIsTransparent(m: Model, lim: Limits, prompt: seq<int>, kind: Kind,
                                                    choices: seq<Choice>)
    returns (n: nat)
    requires prompt != [] && HarmlessRun(kind, choices)
    ensures var c := Run(m, lim, Start(prompt, kind), choices);
            && (choices == [] ==> c == Start(prompt, kind))
            && (choices != [] ==> Tracks(m, lim, prompt, n, c) && |choices| <= n + 1)
  {
    n := 0;
    if choices != [] {
      var before := choices[..|choices| - 1];
      var c, choice := Run(m, lim, Start(prompt, kind), before), choices[|choices| - 1];
      var n0 := SpeculationIsTransparent(m, lim, prompt, kind, before);
      if before == [] {
        n := FirstStepTracks(m, lim, c, choice);
      } else {
        RunKeepsKind(m, lim, Start(prompt, kind), before);
        n := StartedStepTracks(m, lim, prompt, n0, c, choice);
      }
    }
  }

  lemma {:induction false} RefStutters(m: Model, lim: Limits, prompt: seq<int>, n: nat, n': nat)
    requires n <= n' && Ref(m, lim, prompt, n).state == Finished
    ensures Ref(m, lim, prompt, n') == Ref(m, lim, prompt, n)
  {
    if n < n' { RefStutters(m, lim, prompt, n, n' - 1); }
  }

  lemma {:induction false} FollowsSnoc(m: Model, text: seq<int>, g: seq<int>)
    requires Follows(m, text, g)
    ensures Follows(m, text, g + [Next(m, text + g)])
  {
    var h := g + [Next(m, text + g)];
    forall i | 0 <= i < |h| ensures h[i] == Next(m, text + h[..i]) {
      assert h[..i] == g[..i];
      assert g[..|g|] == g;
    }
  }

  lemma {:induction false} RefExtends(m: Model, lim: Limits, prompt: seq<int>, n: nat)
    requires n > 0
    ensures var v, w := Ref(m, lim, prompt, n - 1), Ref(m, lim, prompt, n);
            w.generated == if v.state == Finished then v.generated else v.generated + [Next(m, prompt + v.generated)]
  {
    RefStarted(m, lim, prompt, n - 1);
  }

  /** The first token generated is always the capped choice after the prompt. */
  lemma {:induction false} RefBegins(m: Model, lim: Limits, prompt: seq<int>, n: nat)
    ensures var g := Ref(m, lim, prompt, n).generated; g != [] && g[0] == FirstChoice(m, prompt)
  {
    if n == 0 {
      assert Ref(m, lim, prompt, 0).generated == [FirstChoice(m, prompt)];
    } else {
      RefBegins(m, lim, prompt, n - 1);
      RefExtends(m, lim, prompt, n);
    }
  }

  /** The reference is the greedy continuation of the prompt exactly when the soft cap does not tie the first token
      with an earlier one. */
  lemma {:induction false} RefIsGreedyIff(m: Model, lim: Limits, prompt: seq<int>, n: nat)
    requires Nondecreasing(m.softCap)
    ensures Follows(m, prompt, Ref(m, lim, prompt, n).generated) <==> !CapTies(m.softCap, m.logits(Stamp(prompt)))
  {
    SoftCapKeepsGreedyIff(m.softCap, m.logits(Stamp(prompt)));
    if FirstChoice(m, prompt) == Next(m, prompt) {
      RefIsGreedy(m, lim, prompt, n);
    } else {
      var g := Ref(m, lim, prompt, n).generated;
      RefBegins(m, lim, prompt, n);
      if Follows(m, prompt, g) { FollowsFirst(m, prompt, g); }
    }
  }

  lemma {:induction false} RefIsGreedy(m: Model, lim: Limits, prompt: seq<int>, n: nat)
    requires FirstChoice(m, prompt) == Next(m, prompt)
    ensures Follows(m, prompt, Ref(m, lim, prompt, n).generated)
  {
    if n == 0 {
      FollowsSnoc(m, prompt, []);
      assert prompt + [] == prompt;
    } else {
      RefIsGreedy(m, lim, prompt, n - 1);
      RefExtends(m, lim, prompt, n);
      FollowsSnoc(m, prompt, Ref(m, lim, prompt, n - 1).generated);
    }
  }

  /** Speculation never changes output: two such runs that finish, on whichever caches, have generated and streamed
      the same tokens, and the output is the greedy continuation of the prompt unless the soft cap ties its
      first token. */
  lemma {:induction false} SameOutput(m: Model, lim: Limits, prompt: seq<int>, kind: Kind, choices: seq<Choice>,
                                      kind': Kind, choices': seq<Choice>)
    requires prompt != [] && HarmlessRun(kind, choices) && HarmlessRun(kind', choices')
    requires Run(m, lim, Start(prompt, kind), choices).view.state == Finished
    requires Run(m, lim, Start(prompt, kind'), choices').view.state == Finished
    ensures Run(m, lim, Start(prompt, kind), choices).view == Run(m, lim, Start(prompt, kind'), choices').view
    ensures Nondecreasing(m.softCap) ==>
              (Follows(m, prompt, Run(m, lim, Start(prompt, kind), choices).view.generated) <==>
               !CapTies(m.softCap, m.logits(Stamp(prompt))))
  {
    var n := SpeculationIsTransparent(m, lim, prompt, kind, choices);
    var n' := SpeculationIsTransparent(m, lim, prompt, kind', choices');
    if n <= n' { RefStutters(m, lim, prompt, n, n'); } else { RefStutters(m, lim, prompt, n', n); }
    if Nondecreasing(m.softCap) { RefIsGreedyIff(m, lim, prompt, n); }
  }

  // ---------------------------------------------------------------- all runs, harmless or not

  lemma {:induction false} EmitAllWellLived(v: Snapshot, tokens: seq<int>, lim: Limits)
    requires v.prompt != [] && WellLived(v, lim) && v.state == Decoding
    ensures var w := EmitAll(v, tokens, lim);
            WellLived(w, lim) && w.prompt == v.prompt && (w.state == Decoding || w.state == Finished)
  {
    if tokens != [] {
      var w := EmitAll(v, tokens[..|tokens| - 1], lim);
      EmitAllWellLived(v, tokens[..|tokens| - 1], lim);
      if w.state != Finished { EventKeepsWellLived(w, NextToken(tokens[|tokens| - 1]), lim); }
    }
  }

  lemma {:induction false} DecodedWellLived(m: Model, lim: Limits, c: Conf)
    requires c.view.prompt != [] && WellLived(c.view, lim) && c.view.state == Decoding
    ensures WellLived(Decoded(m, lim, c).view, lim)
  {
    EventKeepsWellLived(c.view, NextToken(Greedy(m.logits(InputContext(c)))), lim);
  }

  lemma {:induction false} PrefilledWellLived(m: Model, lim: Limits, c: Conf)
    requires Coupled(c) && c.view == Fresh(c.view.prompt)
    ensures var r := Prefilled(m, lim, c);
            && WellLived(r.view, lim) && r.view.prompt == c.view.prompt && r.view.state != Pending
            && r.view.generated != []
  {
    PrefilledIsRef(m, lim, c);
    RefWellLived(m, lim, c.view.prompt);
  }

  lemma {:induction false} RefWellLived(m: Model, lim: Limits, prompt: seq<int>)
    requires prompt != []
    ensures var v := Ref(m, lim, prompt, 0);
            WellLived(v, lim) && v.prompt == prompt && v.state != Pending && v.generated != []
  {
    RefStarted(m, lim, prompt, 0);
    EventKeepsWellLived(Fresh(prompt), FirstToken(FirstChoice(m, prompt)), lim);
  }

  /** Coupled, with every fact about the life of a sequence. */
  ghost predicate Alive(lim: Limits, c: Conf) {
    Coupled(c) && WellLived(c.view, lim) && (c.view.state == Pending ==> c.view == Fresh(c.view.prompt))
  }

  /** Every step keeps all that, and yields a token unless the sequence has finished. */
  lemma {:induction false} StepKeepsAlive(m: Model, lim: Limits, c: Conf, choice: Choice)
    requires Alive(lim, c)
    ensures var r := Step(m, lim, c, choice);
            && Alive(lim, r) && r.view.prompt == c.view.prompt && r.view.state != Pending
            && (c.view.state != Finished ==> |r.view.generated| > |c.view.generated|)
  {
    if c.view.state == Pending {
      FirstStep(m, lim, c, choice);
      PrefilledIsRef(m, lim, c);
      PrefilledWellLived(m, lim, c);
      DecodeKeepsAlive(m, lim, Prefilled(m, lim, c));
    } else if c.view.state == Decoding {
      LaterStep(m, lim, c, choice);
      if choice.Plain? {
        DecodeKeepsAlive(m, lim, c);
      } else {
        VerifyKeepsAlive(m, lim, c, PathDraft(choice.path),
                         Rows(m, c.cache, [c.view.Input().0] + choice.path, c.view.position));
      }
    } else {
      FinishedStays(m, lim, c, choice);
    }
  }

  lemma {:induction false} DecodeKeepsAlive(m: Model, lim: Limits, c: Conf)
    requires Alive(lim, c) && c.view.state != Pending
    ensures var r := Decoded(m, lim, c);
            && Alive(lim, r) && r.view.prompt == c.view.prompt && r.view.state != Pending
            && |r.view.generated| == |c.view.generated| + if c.view.state == Decoding then 1 else 0
  {
    if c.view.state == Decoding {
      DecodedKeepsCoupling(m, lim, c);
      DecodedWellLived(m, lim, c);
    }
  }

  lemma {:induction false} VerifyKeepsAlive(m: Model, lim: Limits, c: Conf, d: Draft, rows: seq<Row>)
    requires Alive(lim, c) && c.view.state == Decoding && |d.tokens| < |rows|
    ensures var r := Judged(lim, c, d, c.view.position, rows);
            && Alive(lim, r) && r.view.prompt == c.view.prompt && r.view.state != Pending
            && 1 <= |r.view.generated| - |c.view.generated| <= |d.tokens| + 1
  {
    var _ := JudgedKeepsCoupling(lim, c, d, rows);
    EmitAllWellLived(c.view, Verdict(d, rows), lim);
  }

  /** Over every run, on every cache: the cache length equals the position, output stops where it should, and every
      step yields a token until then. */
  lemma {:induction false} RunsStayAligned(m: Model, lim: Limits, prompt: seq<int>, kind: Kind, choices: seq<Choice>)
    requires prompt != []
    ensures var c := Run(m, lim, Start(prompt, kind), choices);
            && Alive(lim, c) && c.view.prompt == prompt
            && (c.view.state == Pending ==> choices == [])
            && (c.view.state == Decoding ==> |c.cache.live| == c.view.position)
            && (c.view.state != Finished ==> |choices| <= |c.view.generated|)
  {
    if choices != [] {
      var before, choice := choices[..|choices| - 1], choices[|choices| - 1];
      RunsStayAligned(m, lim, prompt, kind, before);
      var c := Run(m, lim, Start(prompt, kind), before);
      StepKeepsAlive(m, lim, c, choice);
      if c.view.state == Finished { FinishedStays(m, lim, c, choice); }
    }
  }

  /** With a limit, every long enough run finishes. */
  lemma {:induction false} LimitedRunsFinish(m: Model, lim: Limits, prompt: seq<int>, kind: Kind, choices: seq<Choice>)
    requires prompt != []
    requires var limit := if lim.maxTokens > 0 then lim.maxTokens else lim.globalMax;
             0 < limit && Max(2, limit) <= |choices|
    ensures Run(m, lim, Start(prompt, kind), choices).view.state == Finished
  {
    RunsStayAligned(m, lim, prompt, kind, choices);
    var v := Run(m, lim, Start(prompt, kind), choices).view;
    if v.state != Finished {
      assert AtLimit(lim, |v.generated|);
      assert false;
    }
  }

  // ---------------------------------------------------------------- verification by a test that is not strict

  /** Judged by the target's own rows, a verdict follows the target exactly when the draft is the target's own choice
      throughout, or the first proposal that is not also fails the test. */
  lemma {:induction false} VerdictFollowsIff(m: Model, text: seq<int>, d: Draft, rows: seq<Row>)
    requires RowsOfText(m, text, d.tokens, rows)
    ensures var k := Taken(PathDraft(d.tokens), rows, 0);
            Follows(m, text, Verdict(d, rows)) <==> k == |d.tokens| || !d.test(k, rows[k])
  {
    var verdict, strict := Verdict(d, rows), PathDraft(d.tokens);
    var k := Taken(strict, rows, 0);
    TakesAtLeast(d, rows, k);
    forall i | 0 <= i < |verdict|
      ensures verdict[i] == Next(m, text + verdict[..i]) <==> (i < Taken(d, rows, 0) ==> strict.Takes(i, rows[i]))
    {
      VerdictToken(m, text, d, rows, i);
    }
  }

  /** Whatever the rows: the test makes the verdict another one exactly when it takes the first proposal that is not
      the choice of its row. */
  lemma {:induction false} TestChangesVerdictIff(d: Draft, rows: seq<Row>)
    requires |d.tokens| < |rows|
    ensures var strict := PathDraft(d.tokens);
            var k := Taken(strict, rows, 0);
            Verdict(d, rows) == Verdict(strict, rows) <==> k == |d.tokens| || !d.test(k, rows[k])
  {
    var strict := PathDraft(d.tokens);
    var k := Taken(strict, rows, 0);
    TakesAtLeast(d, rows, k);
    if k < Taken(d, rows, 0) {
      assert Verdict(d, rows)[k] == d.tokens[k] && Verdict(strict, rows)[k] == Greedy(rows[k]);
    }
  }

  /** The proposals the rows would have chosen are taken, and the next one only if the test takes it. */
  lemma {:induction false} TakesAtLeast(d: Draft, rows: seq<Row>, k: nat)
    requires |d.tokens| < |rows| && k == Taken(PathDraft(d.tokens), rows, 0)
    ensures k <= Taken(d, rows, 0)
    ensures k < Taken(d, rows, 0) <==> k < |d.tokens| && d.test(k, rows[k])
  {
    var strict, t := PathDraft(d.tokens), Taken(d, rows, 0);
    forall j | 0 <= j < k ensures d.Takes(j, rows[j]) { assert strict.Takes(j, rows[j]); }
    if k < |d.tokens| { assert !strict.Takes(k, rows[k]); }
    if k < t { assert d.Takes(k, rows[k]); }
  }
}
