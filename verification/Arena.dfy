/** Scratch memory: the sizes computed in inference/runtime/config.go against what a forward pass allocates from
    the arena (inference/memory/arena.go, inference/runtime/decode.go) and carves out of its layer scratch
    (inference/runtime/block.go). */
module Arenas {
  import opened Arithmetic

  datatype ModelConfig = ModelConfig(hidden: nat, inter: nat, heads: nat, kvHeads: nat, headDim: nat, vocab: nat) {
    function EffectiveHeadDim(): nat
      requires heads > 0
    {
      if headDim > 0 then headDim else hidden / heads
    }

    /** Elements of the nine buffers of a layer. */
    function BlockScratch(b: nat): nat
      requires heads > 0
    {
      var q, kv := b * heads * EffectiveHeadDim(), b * kvHeads * EffectiveHeadDim();
      b * hidden + q + kv + kv + q + b * b + b * inter + b * inter + b * inter * 2
    }

    function ScratchBytes(b: nat): nat {
      if heads == 0 then 0 else Max(BlockScratch(b), b * vocab) * 4
    }

    function PlannedBytes(b: nat): nat {
      b * 4 + b * hidden * 4 + ScratchBytes(b) + vocab * 4
    }

    /** With a tenth of headroom. */
    function TotalArenaBytes(b: nat): nat {
      PlannedBytes(b) + PlannedBytes(b) / 10
    }

    /** What a verification pass over s tokens allocates: logits for every token. */
    function VerifyBytes(s: nat): nat {
      s * 4 + s * hidden * 4 + ScratchBytes(s) + s * vocab * 4
    }

    /** Keys and values of one token. */
    function TokenBytes(): nat
      requires heads > 0
    {
      kvHeads * EffectiveHeadDim() * 8
    }

    function TextBytes(n: nat): (bytes: nat)
      requires heads > 0
      ensures bytes == n * TokenBytes()
    {
      assert n * TokenBytes() >= 0;
      n * TokenBytes()
    }

    /** A paged verification also makes room for the keys and values of the whole text. */
    function PagedVerifyBytes(s: nat, startPos: nat): nat
      requires heads > 0
    {
      VerifyBytes(s) + TextBytes(startPos + s)
    }

    /** What a paged prefill of s tokens allocates: scores once more on top of the layer scratch. */
    function PrefillBytes(s: nat): nat {
      s * 4 + s * hidden * 4 + (ScratchBytes(s) + s * s * 4) + vocab * 4
    }
  }

  // ---------------------------------------------------------------- sizes grow with the batch

  lemma {:induction false} BlockScratchGrows(c: ModelConfig, b: nat, m: nat)
    requires c.heads > 0 && b <= m
    ensures c.BlockScratch(b) <= c.BlockScratch(m)
  {
    var d := c.EffectiveHeadDim();
    MulMono(b, m, c.hidden);
    MulMono(b, m, c.heads);
    MulMono(b * c.heads, m * c.heads, d);
    MulMono(b, m, c.kvHeads);
    MulMono(b * c.kvHeads, m * c.kvHeads, d);
    MulMono(b, m, b);
    MulMono(b, m, m);
    MulMono(b, m, c.inter);
  }

  lemma {:induction false} ScratchGrows(c: ModelConfig, b: nat, m: nat)
    requires b <= m
    ensures c.ScratchBytes(b) <= c.ScratchBytes(m)
  {
    if c.heads > 0 { BlockScratchGrows(c, b, m); }
    MulMono(b, m, c.vocab);
  }

  /** Twice the batch needs at least twice the layer scratch. */
  lemma {:induction false} BlockScratchDoubles(c: ModelConfig, b: nat)
    requires c.heads > 0
    ensures 2 * c.BlockScratch(b) <= c.BlockScratch(2 * b)
  {
    var d := c.EffectiveHeadDim();
    MulTwice(b, c.hidden);
    MulTwice(b, c.heads);
    MulTwice(b * c.heads, d);
    MulTwice(b, c.kvHeads);
    MulTwice(b * c.kvHeads, d);
    MulTwice(b, c.inter);
    MulTwice(b, b);
    MulTwice(b, 2 * b);
    assert (2 * b) * (2 * b) == 2 * (b * (2 * b));
    MulMono(b, 2 * b, b);
  }

  lemma {:induction false} ScratchDoubles(c: ModelConfig, s: nat)
    ensures 2 * c.ScratchBytes(s) <= c.ScratchBytes(2 * s)
    ensures c.heads > 0 ==> s * c.vocab * 4 <= c.ScratchBytes(s) && s * s * 4 <= c.ScratchBytes(s)
  {
    MulTwice(s, c.vocab);
    if c.heads > 0 {
      BlockScratchDoubles(c, s);
      BlockScratchCovers(c, s);
      MaxDoubles(c.BlockScratch(s), s * c.vocab, c.BlockScratch(2 * s), (2 * s) * c.vocab);
    }
  }

  lemma {:induction false} MaxDoubles(a: nat, b: nat, a': nat, b': nat)
    requires 2 * a <= a' && 2 * b <= b'
    ensures 2 * (Max(a, b) * 4) <= Max(a', b') * 4 && b * 4 <= Max(a, b) * 4 && a * 4 <= Max(a, b) * 4
  {
  }

  lemma {:induction false} BlockScratchCovers(c: ModelConfig, s: nat)
    requires c.heads > 0
    ensures s * s <= c.BlockScratch(s)
  {
    var q, kv := s * c.heads * c.EffectiveHeadDim(), s * c.kvHeads * c.EffectiveHeadDim();
    MulMono(0, s, c.hidden);
    MulMono(0, s, c.inter);
    MulMono(0, s * c.heads, c.EffectiveHeadDim());
    MulMono(0, s * c.kvHeads, c.EffectiveHeadDim());
    assert q >= 0 && kv >= 0;
  }

  lemma {:induction false} MulTwice(a: nat, v: nat)
    ensures (2 * a) * v == 2 * (a * v)
  {
  }

  // ---------------------------------------------------------------- the arena

  class Arena {
    const size: nat
    var offset: nat

    ghost predicate Valid()
      reads this
    {
      offset <= size
    }

    constructor (size: nat)
      ensures Valid() && this.size == size && offset == 0
    {
      this.size, offset := size, 0;
    }

    /** Bump allocation; the result is relative to the start of the arena. */
    method Alloc(bytes: nat) returns (ok: bool, addr: nat)
      requires Valid()
      modifies this
      ensures Valid() && (ok <==> old(offset) + bytes <= size)
      ensures ok ==> addr == old(offset) && offset == addr + bytes
      ensures !ok ==> offset == old(offset)
    {
      if offset + bytes > size {
        return false, 0;
      }
      offset := offset + bytes;
      return true, offset - bytes;
    }

    method Reset()
      modifies this
      ensures Valid() && offset == 0
    {
      offset := 0;
    }
  }

  /** Consecutive buffers that do not overlap and end within a limit. */
  ghost predicate Disjoint(starts: seq<nat>, sizes: seq<nat>, limit: nat) {
    && |starts| == |sizes|
    && (forall i, j :: 0 <= i < j < |starts| ==> starts[i] + sizes[i] <= starts[j])
    && (forall i :: 0 <= i < |starts| ==> starts[i] + sizes[i] <= limit)
  }

  /** Tokens, hidden state, layer scratch and logits, in that order; the first that does not fit ends the pass. */
  method AllocPass(arena: Arena, tokenBytes: nat, stateBytes: nat, scratchBytes: nat, logitsBytes: nat)
    returns (ok: bool, starts: seq<nat>)
    modifies arena
    ensures arena.Valid()
    ensures ok <==> tokenBytes + stateBytes + scratchBytes + logitsBytes <= arena.size
    ensures ok ==> Disjoint(starts, [tokenBytes, stateBytes, scratchBytes, logitsBytes], arena.size)
  {
    arena.Reset();
    starts := [];
    var token, state, scratch, logits;
    ok, token := arena.Alloc(tokenBytes);
    if !ok { return; }
    ok, state := arena.Alloc(stateBytes);
    if !ok { return; }
    ok, scratch := arena.Alloc(scratchBytes);
    if !ok { return; }
    ok, logits := arena.Alloc(logitsBytes);
    if !ok { return; }
    starts := [token, state, scratch, logits];
  }

  /** DecodeWithGPUKV over b tokens, in an arena planned for passes of up to m tokens: it never runs out. */
  method DecodePass(arena: Arena, c: ModelConfig, b: nat, m: nat) returns (starts: seq<nat>)
    requires b <= m && arena.size == c.TotalArenaBytes(m)
    modifies arena
    ensures arena.Valid()
    ensures Disjoint(starts, [b * 4, b * c.hidden * 4, c.ScratchBytes(b), c.vocab * 4], arena.size)
  {
    ScratchGrows(c, b, m);
    MulMono(b, m, c.hidden);
    var ok;
    ok, starts := AllocPass(arena, b * 4, b * c.hidden * 4, c.ScratchBytes(b), c.vocab * 4);
  }

  /** VerifySpeculative over s tokens on the contiguous cache, in the same arena. */
  method VerifyPass(arena: Arena, c: ModelConfig, s: nat, m: nat) returns (ok: bool)
    requires arena.size == c.TotalArenaBytes(m)
    modifies arena
    ensures arena.Valid() && (ok <==> c.VerifyBytes(s) <= c.TotalArenaBytes(m))
    ensures c.heads > 0 && 2 * s <= m ==> ok
  {
    if c.heads > 0 && 2 * s <= m { HalfPlanFits(c, s, m); }
    var fits, _ := AllocPass(arena, s * 4, s * c.hidden * 4, c.ScratchBytes(s), s * c.vocab * 4);
    ok := fits;
  }

  /** VerifySpeculativeWithPagedKVAndHidden over s tokens from position startPos, in the same arena. */
  method PagedVerifyPass(arena: Arena, c: ModelConfig, s: nat, startPos: nat, m: nat) returns (ok: bool)
    requires c.heads > 0 && arena.size == c.TotalArenaBytes(m)
    modifies arena
    ensures arena.Valid() && (ok <==> c.PagedVerifyBytes(s, startPos) <= c.TotalArenaBytes(m))
    ensures 4 * s <= m && startPos + s <= m && c.kvHeads <= c.heads ==> ok
  {
    if 4 * s <= m && startPos + s <= m && c.kvHeads <= c.heads { QuarterPlanFits(c, s, startPos, m); }
    var text := c.TextBytes(startPos + s);
    var fits, _ := AllocPass(arena, s * 4, s * c.hidden * 4, c.ScratchBytes(s) + text, s * c.vocab * 4);
    ok := fits;
  }

  /** PrefillWithPagedKV of s tokens, in the same arena. */
  method PrefillPass(arena: Arena, c: ModelConfig, s: nat, m: nat) returns (ok: bool)
    requires arena.size == c.TotalArenaBytes(m)
    modifies arena
    ensures arena.Valid() && (ok <==> c.PrefillBytes(s) <= c.TotalArenaBytes(m))
    ensures c.heads > 0 && 2 * s <= m ==> ok
    ensures s == m ==> (ok <==> 40 * (m * m) <= c.PlannedBytes(m))
  {
    if c.heads > 0 && 2 * s <= m { HalfPlanFits(c, s, m); }
    PrefillFitsIff(c, m);
    var fits, _ := AllocPass(arena, s * 4, s * c.hidden * 4, c.ScratchBytes(s) + s * s * 4, c.vocab * 4);
    ok := fits;
  }

  /** Whatever was planned, a paged verification fits up to some position of the text, and not from there on. */
  lemma {:induction false} PagedVerifyFitsIff(c: ModelConfig, s: nat, startPos: nat, m: nat)
    requires c.heads > 0 && c.TokenBytes() > 0
    ensures var total := c.TotalArenaBytes(m);
            c.PagedVerifyBytes(s, startPos) <= total <==>
            c.VerifyBytes(s) <= total && startPos + s <= (total - c.VerifyBytes(s)) / c.TokenBytes()
  {
    var total, n, b := c.TotalArenaBytes(m), startPos + s, c.TokenBytes();
    if c.VerifyBytes(s) <= total {
      var room := total - c.VerifyBytes(s);
      DivBounds(room, b);
      if n <= room / b { MulMono(n, room / b, b); } else { MulMono(room / b + 1, n, b); }
    } else {
      MulMono(0, n, b);
    }
  }

  /** It fits for a quarter of the planned batch as long as the text is no longer than the plan. */
  lemma {:induction false} QuarterPlanFits(c: ModelConfig, s: nat, startPos: nat, m: nat)
    requires 4 * s <= m && startPos + s <= m && 0 < c.heads && c.kvHeads <= c.heads
    ensures c.PagedVerifyBytes(s, startPos) <= c.PlannedBytes(m) <= c.TotalArenaBytes(m)
  {
    ScratchDoubles(c, s);
    ScratchDoubles(c, 2 * s);
    ScratchGrows(c, 4 * s, m);
    assert 2 * (2 * s) == 4 * s;
    MulMono(s, m, c.hidden);
    TextCovered(c, startPos + s, m);
    QuarterPlanSum(s, m, s * c.hidden, m * c.hidden, c.ScratchBytes(s), c.ScratchBytes(2 * s), c.ScratchBytes(m),
                   s * c.vocab, c.TextBytes(startPos + s), c.vocab);
    assert c.VerifyBytes(s) == s * 4 + (s * c.hidden) * 4 + c.ScratchBytes(s) + (s * c.vocab) * 4;
  }

  lemma {:induction false} QuarterPlanSum(s: nat, m: nat, sh: nat, mh: nat, scratch: nat, twice: nat, planned: nat,
                                          sv: nat, text: nat, v: nat)
    requires s <= m && sh <= mh && 2 * scratch <= twice && 2 * twice <= planned && sv * 4 <= scratch
    requires 2 * text <= planned
    ensures s * 4 + sh * 4 + scratch + sv * 4 + text <= m * 4 + mh * 4 + planned + v * 4
  {
  }

  /** Keys and values of a text as long as the plan take no more than half the planned scratch. */
  lemma {:induction false} TextCovered(c: ModelConfig, n: nat, m: nat)
    requires n <= m && 0 < c.heads && c.kvHeads <= c.heads
    ensures 2 * c.TextBytes(n) <= c.ScratchBytes(m)
  {
    var d := c.EffectiveHeadDim();
    var q, kv := m * c.heads * d, m * c.kvHeads * d;
    MulMono(n, m, c.TokenBytes());
    MulMono(c.kvHeads, c.heads, m);
    MulMono(m * c.kvHeads, m * c.heads, d);
    TextSum(m, c.kvHeads, d);
    MulMono(0, m, c.hidden);
    MulMono(0, m, c.inter);
    MulMono(0, m, m);
    assert 2 * q + 2 * kv <= c.BlockScratch(m);
  }

  lemma {:induction false} TextSum(m: nat, kv: nat, d: nat)
    ensures m * (kv * d * 8) == (m * kv * d) * 8
  {
    assert m * (kv * d) == m * kv * d;
  }

  /** A single token, within the plan, at a position from which it does not fit. */
  lemma {:induction false} PagedVerificationMayNotFit()
    ensures var c := ModelConfig(1, 1, 1, 1, 1, 1);
            c.PagedVerifyBytes(1, 26) <= c.TotalArenaBytes(4) < c.PagedVerifyBytes(1, 27)
  {
    var c := ModelConfig(1, 1, 1, 1, 1, 1);
    assert c.BlockScratch(4) == 52 && c.BlockScratch(1) == 10;
    assert c.TotalArenaBytes(4) == 268 && c.VerifyBytes(1) == 52;
  }

  /** A contiguous verification or a prefill of at most half the planned batch always fits, */
  lemma {:induction false} HalfPlanFits(c: ModelConfig, s: nat, m: nat)
    requires 2 * s <= m && c.heads > 0
    ensures c.VerifyBytes(s) <= c.PlannedBytes(m) <= c.TotalArenaBytes(m)
    ensures c.PrefillBytes(s) <= c.PlannedBytes(m)
  {
    ScratchDoubles(c, s);
    ScratchGrows(c, 2 * s, m);
    MulMono(s, m, c.hidden);
    HalfPlanSum(s, m, s * c.hidden, m * c.hidden, c.ScratchBytes(s), c.ScratchBytes(m), s * c.vocab, s * s, c.vocab);
    assert c.VerifyBytes(s) == s * 4 + (s * c.hidden) * 4 + c.ScratchBytes(s) + (s * c.vocab) * 4;
  }

  lemma {:induction false} HalfPlanSum(s: nat, m: nat, sh: nat, mh: nat, scratch: nat, planned: nat, sv: nat, ss: nat,
                                       v: nat)
    requires s <= m && sh <= mh && 2 * scratch <= planned && sv * 4 <= scratch && ss * 4 <= scratch
    ensures s * 4 + sh * 4 + scratch + sv * 4 <= m * 4 + mh * 4 + planned + v * 4
    ensures s * 4 + sh * 4 + (scratch + ss * 4) + v * 4 <= m * 4 + mh * 4 + planned + v * 4
  {
  }

  /** A prefill of the whole planned batch fits exactly when the tenth of headroom covers its scores. */
  lemma {:induction false} PrefillFitsIff(c: ModelConfig, m: nat)
    ensures c.PrefillBytes(m) <= c.TotalArenaBytes(m) <==> 40 * (m * m) <= c.PlannedBytes(m)
  {
    TenthCovers(m * m, c.PlannedBytes(m));
    assert c.PrefillBytes(m) == c.PlannedBytes(m) + 4 * (m * m);
  }

  lemma {:induction false} TenthCovers(x: nat, planned: nat)
    ensures 4 * x <= planned / 10 <==> 40 * x <= planned
  {
  }

  /** What fits for a prompt fits for a shorter one. */
  lemma {:induction false} PrefillGrows(c: ModelConfig, s: nat, t: nat)
    requires s <= t
    ensures c.PrefillBytes(s) <= c.PrefillBytes(t)
  {
    ScratchGrows(c, s, t);
    MulMono(s, t, c.hidden);
    SquareGrows(s, t);
    PrefillSum(s, t, s * c.hidden, t * c.hidden, c.ScratchBytes(s), c.ScratchBytes(t), s * s, t * t, c.vocab);
    assert c.PrefillBytes(s) == s * 4 + (s * c.hidden) * 4 + (c.ScratchBytes(s) + (s * s) * 4) + c.vocab * 4;
    assert c.PrefillBytes(t) == t * 4 + (t * c.hidden) * 4 + (c.ScratchBytes(t) + (t * t) * 4) + c.vocab * 4;
  }

  lemma {:induction false} SquareGrows(s: nat, t: nat)
    requires s <= t
    ensures s * s <= t * t
  {
    MulMono(s, t, s);
    MulMono(s, t, t);
  }

  lemma {:induction false} PrefillSum(s: nat, t: nat, sh: nat, th: nat, a: nat, b: nat, ss: nat, tt: nat, v: nat)
    requires s <= t && sh <= th && a <= b && ss <= tt
    ensures s * 4 + sh * 4 + (a + ss * 4) + v * 4 <= t * 4 + th * 4 + (b + tt * 4) + v * 4
  {
  }

  /** A prompt within the plan that does not fit. */
  lemma {:induction false} PrefillMayNotFit()
    ensures var c := ModelConfig(1, 1, 1, 1, 1, 1);
            c.PrefillBytes(100) > c.TotalArenaBytes(100)
  {
    var c := ModelConfig(1, 1, 1, 1, 1, 1);
    assert c.BlockScratch(100) == 10900 && c.ScratchBytes(100) == 43600;
  }

  /** but one within the planned batch may not. */
  lemma {:induction false} VerificationMayNotFit()
    ensures var c := ModelConfig(1, 1, 1, 1, 1, 1000);
            c.VerifyBytes(2) > c.TotalArenaBytes(2)
  {
    var c := ModelConfig(1, 1, 1, 1, 1, 1000);
    assert c.BlockScratch(2) == 22 && c.ScratchBytes(2) == 8000;
  }

  // ---------------------------------------------------------------- the buffers of one layer

  /** Bytes of normOut, Q, K, V, attnOut, gate, up and the fused MLP temporary, for s tokens. */
  function SubSizes(c: ModelConfig, s: nat): (sizes: seq<nat>)
    requires c.heads > 0
    ensures |sizes| == 8
  {
    var q, kv := s * c.heads * c.EffectiveHeadDim(), s * c.kvHeads * c.EffectiveHeadDim();
    [s * c.hidden * 4, q * 4, kv * 4, kv * 4, q * 4, s * c.inter * 4, s * c.inter * 4, s * c.inter * 2 * 4]
  }

  /** On the CPU the eight buffers are carved out of the layer scratch one after the other. */
  method CarveScratch(c: ModelConfig, s: nat) returns (starts: seq<nat>)
    requires c.heads > 0
    ensures Disjoint(starts, SubSizes(c, s), c.ScratchBytes(s))
  {
    var q, kv := s * c.heads * c.EffectiveHeadDim(), s * c.kvHeads * c.EffectiveHeadDim();
    starts := Carve(s * c.hidden * 4, q * 4, kv * 4, s * c.inter * 4, s * c.inter * 2 * 4);
  }

  method Carve(normOutBytes: nat, qBytes: nat, kvBytes: nat, gateBytes: nat, fusedBytes: nat) returns (starts: seq<nat>)
    ensures Disjoint(starts, [normOutBytes, qBytes, kvBytes, kvBytes, qBytes, gateBytes, gateBytes, fusedBytes],
                     normOutBytes + qBytes + kvBytes + kvBytes + qBytes + gateBytes + gateBytes + fusedBytes)
  {
    var offset := 0;
    var normOut := offset;
    offset := offset + normOutBytes;
    var q := offset;
    offset := offset + qBytes;
    var k := offset;
    offset := offset + kvBytes;
    var v := offset;
    offset := offset + kvBytes;
    var attnOut := offset;
    offset := offset + qBytes;
    var gate := offset;
    offset := offset + gateBytes;
    var up := offset;
    offset := offset + gateBytes;
    var fusedTemp := offset;
    starts := [normOut, q, k, v, attnOut, gate, up, fusedTemp];
  }
}
