/** The GPU block pool as an object (inference/runtime/gpu_block_pool.go).  Each method does to every layer what the
    operations of `BlockPool` say, so the run theorems of `BlockContents` and `BlockTables` are about it. */
module GpuBlockPool {
  import opened Arithmetic
  import opened Collections
  import opened Flattening
  import opened BlockOwnership
  import opened BlockPool
  import opened BlockContents
  import opened BlockTables

  /** Per-sequence state: one block table, device copy and dirty bit per layer, and one length. */
  datatype SeqState = SeqState(blockTables: seq<seq<int>>, seqLen: int, btGPU: seq<Option<seq<int>>>,
                               btDirty: seq<bool>)
  {
    predicate Sized(n: nat) {
      |blockTables| == |btGPU| == |btDirty| == n
    }

    function At(l: nat): Seq
      requires l < |blockTables| == |btGPU| == |btDirty|
    {
      Seq(blockTables[l], seqLen, btDirty[l], btGPU[l])
    }

    function WithTable(l: nat, table: seq<int>): SeqState
      requires l < |blockTables| && l < |btDirty|
    {
      this.(blockTables := blockTables[l := table], btDirty := btDirty[l := true])
    }
  }

  predicate AllSized(seqs: map<int, SeqState>, n: nat) {
    forall id :: id in seqs ==> seqs[id].Sized(n)
  }

  /** One layer's view of all sequences. */
  function SeqsOf(seqs: map<int, SeqState>, n: nat, l: nat): Seqs
    requires AllSized(seqs, n) && l < n
  {
    map id | id in seqs :: seqs[id].At(l)
  }

  lemma {:induction false} SeqsOfUpdate(seqs: map<int, SeqState>, n: nat, l: nat, id: int, st: SeqState)
    requires AllSized(seqs, n) && l < n && st.Sized(n)
    ensures AllSized(seqs[id := st], n)
    ensures SeqsOf(seqs[id := st], n, l) == SeqsOf(seqs, n, l)[id := st.At(l)]
  {
  }

  lemma {:induction false} SeqsOfRemove(seqs: map<int, SeqState>, n: nat, l: nat, id: int)
    requires AllSized(seqs, n) && l < n
    ensures AllSized(seqs - {id}, n)
    ensures SeqsOf(seqs - {id}, n, l) == SeqsOf(seqs, n, l) - {id}
  {
  }

  class GPUBlockPool {
    const numLayers: nat
    const g: Shape
    var freeLists: seq<seq<int>>
    var refCounts: seq<map<int, int>>
    var pools: seq<seq<Vec>>
    var seqs: map<int, SeqState>

    predicate Sized()
      reads this
    {
      |freeLists| == |refCounts| == |pools| == numLayers && g.blockSize > 0 && AllSized(seqs, numLayers)
    }

    function BlocksOf(l: nat): Blocks
      requires Sized() && l < numLayers
      reads this
    {
      Blocks(freeLists[l], refCounts[l])
    }

    function LayerOf(l: nat): Layer
      requires Sized() && l < numLayers
      reads this
    {
      Layer(BlocksOf(l), SeqsOf(seqs, numLayers, l), pools[l])
    }

    ghost predicate Valid()
      reads this
    {
      Sized() && forall l :: 0 <= l < numLayers ==> Owned(g, LayerOf(l))
    }

    constructor (numLayers: nat, g: Shape, memory: seq<seq<Vec>>)
      requires g.blockSize > 0 && |memory| == numLayers && forall l :: 0 <= l < numLayers ==> MemOk(g, memory[l])
      ensures Valid() && this.numLayers == numLayers && this.g == g
      ensures forall l :: 0 <= l < numLayers ==> LayerOf(l) == NewLayer(g, memory[l])
    {
      this.numLayers, this.g := numLayers, g;
      freeLists := seq(numLayers, i => Range(g.maxBlocks));
      refCounts := seq(numLayers, i => map[]);
      pools := memory;
      seqs := map[];
      new;
      forall l | 0 <= l < numLayers ensures Owned(g, LayerOf(l)) && LayerOf(l) == NewLayer(g, memory[l]) {
        assert SeqsOf(seqs, numLayers, l) == map[];
        NewOwned(g, memory[l]);
      }
    }

    /** An existing sequence is overwritten without releasing its blocks. */
    method CreateSequence(id: int)
      requires Valid()
      modifies this`seqs
      ensures Sized() && forall l :: 0 <= l < numLayers ==> LayerOf(l) == Created(old(LayerOf(l)), id)
      ensures id !in old(seqs) ==> Valid()
    {
      ghost var before := seqs;
      var st := SeqState(seq(numLayers, i => []), 0, seq(numLayers, i => None), seq(numLayers, i => false));
      seqs := seqs[id := st];
      forall l | 0 <= l < numLayers
        ensures LayerOf(l) == Created(old(LayerOf(l)), id) && (id !in before ==> Owned(g, LayerOf(l)))
      {
        SeqsOfUpdate(before, numLayers, l, id, st);
        CreateOwnedIff(g, old(LayerOf(l)), id);
      }
    }

    method AllocBlock(layer: nat) returns (ok: bool, block: int)
      requires Sized() && layer < numLayers
      modifies this`freeLists, this`refCounts
      ensures Sized() && ok == (old(freeLists[layer]) != [])
      ensures !ok ==> freeLists == old(freeLists) && refCounts == old(refCounts)
      ensures ok ==> (block, BlocksOf(layer)) == Alloc(old(BlocksOf(layer)))
      ensures freeLists == old(freeLists)[layer := freeLists[layer]]
      ensures refCounts == old(refCounts)[layer := refCounts[layer]]
    {
      var fl := freeLists[layer];
      if |fl| == 0 {
        return false, 0;
      }
      block := fl[|fl| - 1];
      freeLists := freeLists[layer := fl[..|fl| - 1]];
      refCounts := refCounts[layer := refCounts[layer][block := 1]];
      ok := true;
    }

    method ReleaseBlock(layer: nat, block: int)
      requires Sized() && layer < numLayers
      modifies this`freeLists, this`refCounts
      ensures Sized() && BlocksOf(layer) == Release(old(BlocksOf(layer)), block)
      ensures freeLists == old(freeLists)[layer := freeLists[layer]]
      ensures refCounts == old(refCounts)[layer := refCounts[layer]]
    {
      var rc := if block in refCounts[layer] then refCounts[layer][block] else 0;
      if rc <= 1 {
        refCounts := refCounts[layer := refCounts[layer] - {block}];
        freeLists := freeLists[layer := freeLists[layer] + [block]];
      } else {
        refCounts := refCounts[layer := refCounts[layer][block := rc - 1]];
      }
    }

    /** The release loops of deletion and truncation. */
    method ReleaseBlocks(layer: nat, blocks: seq<int>)
      requires Sized() && layer < numLayers
      modifies this`freeLists, this`refCounts
      ensures Sized() && BlocksOf(layer) == ReleaseAll(old(BlocksOf(layer)), blocks)
      ensures freeLists == old(freeLists)[layer := freeLists[layer]]
      ensures refCounts == old(refCounts)[layer := refCounts[layer]]
    {
      var i := 0;
      while i < |blocks|
        invariant 0 <= i <= |blocks| && Sized()
        invariant BlocksOf(layer) == ReleaseAll(old(BlocksOf(layer)), blocks[..i])
        invariant freeLists == old(freeLists)[layer := freeLists[layer]]
        invariant refCounts == old(refCounts)[layer := refCounts[layer]]
      {
        assert blocks[..i + 1][..i] == blocks[..i];
        ReleaseBlock(layer, blocks[i]);
        i := i + 1;
      }
      assert blocks[..i] == blocks;
    }

    method DeleteSequence(id: int)
      requires Valid()
      modifies this`freeLists, this`refCounts, this`seqs
      ensures Valid() && forall l :: 0 <= l < numLayers ==> LayerOf(l) == Deleted(old(LayerOf(l)), id)
    {
      if id !in seqs {
        return;
      }
      var st := seqs[id];
      var layer := 0;
      while layer < numLayers
        invariant 0 <= layer <= numLayers && Sized() && seqs == old(seqs)
        invariant forall l :: 0 <= l < layer ==> BlocksOf(l) == ReleaseAll(old(BlocksOf(l)), st.blockTables[l])
        invariant forall l :: layer <= l < numLayers ==> BlocksOf(l) == old(BlocksOf(l))
      {
        ReleaseBlocks(layer, st.blockTables[layer]);
        layer := layer + 1;
      }
      seqs := seqs - {id};
      forall l | 0 <= l < numLayers ensures LayerOf(l) == Deleted(old(LayerOf(l)), id) && Owned(g, LayerOf(l)) {
        SeqsOfRemove(old(seqs), numLayers, l, id);
        DeleteOwned(g, old(LayerOf(l)), id);
      }
    }

    /** Cut every table of a sequence to k blocks and release the rest. */
    method CutTables(st0: SeqState, k: nat) returns (st: SeqState)
      requires Sized() && st0.Sized(numLayers)
      modifies this`freeLists, this`refCounts
      ensures Sized() && st.Sized(numLayers) && st.seqLen == st0.seqLen
      ensures forall l :: 0 <= l < numLayers ==>
        CutAt(st0.At(l), st.At(l), k) && BlocksOf(l) == ReleaseAll(old(BlocksOf(l)), Beyond(st0.blockTables[l], k))
    {
      st := st0;
      var layer := 0;
      while layer < numLayers
        invariant 0 <= layer <= numLayers && Sized() && st.Sized(numLayers) && st.seqLen == st0.seqLen
        invariant forall l :: 0 <= l < layer ==>
          CutAt(st0.At(l), st.At(l), k) && BlocksOf(l) == ReleaseAll(old(BlocksOf(l)), Beyond(st0.blockTables[l], k))
        invariant forall l :: layer <= l < numLayers ==> BlocksOf(l) == old(BlocksOf(l)) && st.At(l) == st0.At(l)
      {
        var bt := st.blockTables[layer];
        ReleaseBlocks(layer, Beyond(bt, k));
        if k < |bt| {
          st := st.WithTable(layer, bt[..k]);
        }
        layer := layer + 1;
      }
    }

    method TruncateSequence(id: int, newSeqLen: int)
      requires Valid()
      modifies this`freeLists, this`refCounts, this`seqs
      ensures Valid() && forall l :: 0 <= l < numLayers ==> LayerOf(l) == Truncated(g, old(LayerOf(l)), id, newSeqLen)
    {
      if id !in seqs || newSeqLen >= seqs[id].seqLen {
        return;
      }
      var newNumBlocks := 0;
      if newSeqLen > 0 {
        newNumBlocks := (newSeqLen - 1) / g.blockSize + 1;
      }
      var st0 := seqs[id];
      var st := CutTables(st0, newNumBlocks);
      seqs := seqs[id := st.(seqLen := newSeqLen)];
      forall l | 0 <= l < numLayers
        ensures LayerOf(l) == Truncated(g, old(LayerOf(l)), id, newSeqLen) && Owned(g, LayerOf(l))
      {
        SeqsOfUpdate(old(seqs), numLayers, l, id, st.(seqLen := newSeqLen));
        TruncatedIs(g, old(LayerOf(l)), id, newSeqLen, newNumBlocks, st.At(l));
        TruncateOwned(g, old(LayerOf(l)), id, newSeqLen);
      }
    }

    /** Blocks for every position before endPos, appended one at a time until done or out of blocks. */
    method ReserveBlocks(layerIdx: nat, id: int, endPos: int) returns (ok: bool, st: SeqState)
      requires Sized() && layerIdx < numLayers && id in seqs
      modifies this`freeLists, this`refCounts, this`seqs
      ensures Sized() && LayerOf(layerIdx) == Reserved(g, old(LayerOf(layerIdx)), id, endPos)
      ensures forall l :: 0 <= l < numLayers && l != layerIdx ==> LayerOf(l) == old(LayerOf(l))
      ensures ok <==> Fits(g, old(LayerOf(layerIdx)), id, endPos)
      ensures seqs == old(seqs)[id := st] && st.seqLen == old(seqs)[id].seqLen
    {
      st := seqs[id];
      var lastBlock := GoDiv(endPos - 1, g.blockSize);
      ghost var st0, p0 := st, BlocksOf(layerIdx);
      ghost var goal := Grow(p0, st0.blockTables[layerIdx], lastBlock + 1);
      ok := true;
      while ok && |st.blockTables[layerIdx]| <= lastBlock
        invariant Sized() && seqs == old(seqs) && st.Sized(numLayers) && st.seqLen == st0.seqLen
        invariant freeLists == old(freeLists)[layerIdx := freeLists[layerIdx]]
        invariant refCounts == old(refCounts)[layerIdx := refCounts[layerIdx]]
        invariant Grow(BlocksOf(layerIdx), st.blockTables[layerIdx], lastBlock + 1) == goal
        invariant !ok ==> freeLists[layerIdx] == [] && |st.blockTables[layerIdx]| <= lastBlock
        invariant |st0.blockTables[layerIdx]| <= |st.blockTables[layerIdx]|
        invariant var grown := |st.blockTables[layerIdx]| > |st0.blockTables[layerIdx]|;
                  st.At(layerIdx) == Seq(st.blockTables[layerIdx], st0.seqLen, st0.btDirty[layerIdx] || grown,
                                         st0.btGPU[layerIdx])
        invariant forall l :: 0 <= l < numLayers && l != layerIdx ==> st.At(l) == st0.At(l)
        decreases |freeLists[layerIdx]|, ok
      {
        var got, block := AllocBlock(layerIdx);
        if got {
          st := st.WithTable(layerIdx, st.blockTables[layerIdx] + [block]);
        } else {
          ok := false;
        }
      }
      seqs := seqs[id := st];
      forall l | 0 <= l < numLayers
        ensures l == layerIdx ==> LayerOf(l) == Reserved(g, old(LayerOf(l)), id, endPos)
        ensures l != layerIdx ==> LayerOf(l) == old(LayerOf(l))
      {
        SeqsOfUpdate(old(seqs), numLayers, l, id, st);
      }
    }

    /** One token's key and value vector, to the block and offset of its position. */
    method ReshapePagedKV(layerIdx: nat, table: seq<int>, pos: nat, k: Vec, v: Vec)
      requires Sized() && layerIdx < numLayers && MemOk(g, pools[layerIdx]) && TableOk(g, table)
      requires Covered(g, table, pos)
      modifies this`pools
      ensures pools == old(pools)[layerIdx := ScatterToken(g, old(pools[layerIdx]), table, pos, k, v)]
    {
      var physBlock, offset := table[pos / g.blockSize], pos % g.blockSize;
      var kSlot, vSlot := Slot(g.blockSize, physBlock, false, offset), Slot(g.blockSize, physBlock, true, offset);
      assert kSlot == Where(g, table, pos, false) && vSlot == Where(g, table, pos, true);
      var mem := pools[layerIdx];
      mem := mem[kSlot := k];
      mem := mem[vSlot := v];
      pools := pools[layerIdx := mem];
    }

    /** Scatter the tokens one by one through the table. */
    method ScatterTokens(layerIdx: nat, table: seq<int>, startPos: nat, ks: seq<Vec>, vs: seq<Vec>)
      requires Sized() && layerIdx < numLayers && MemOk(g, pools[layerIdx]) && TableOk(g, table) && |ks| == |vs|
      requires forall j :: startPos <= j < startPos + |ks| ==> Covered(g, table, j)
      modifies this`pools
      ensures Sized()
      ensures pools == old(pools)[layerIdx := Scatter(g, old(pools[layerIdx]), table, startPos, ks, vs, |ks|)]
    {
      var i := 0;
      while i < |ks|
        invariant 0 <= i <= |ks| && Sized() && MemOk(g, pools[layerIdx])
        invariant pools == old(pools)[layerIdx := Scatter(g, old(pools[layerIdx]), table, startPos, ks, vs, i)]
      {
        ReshapePagedKV(layerIdx, table, startPos + i, ks[i], vs[i]);
        i := i + 1;
      }
    }

    /** The second half of a store: the tokens, and the length of the sequence in all layers. */
    method WriteTokens(layerIdx: nat, id: int, startPos: nat, ks: seq<Vec>, vs: seq<Vec>)
      requires Sized() && layerIdx < numLayers && id in seqs && |ks| == |vs|
      requires MemOk(g, pools[layerIdx]) && TableOk(g, seqs[id].blockTables[layerIdx])
      requires forall j :: startPos <= j < startPos + |ks| ==> Covered(g, seqs[id].blockTables[layerIdx], j)
      modifies this`pools, this`seqs
      ensures Sized() && forall l :: 0 <= l < numLayers ==>
        var long := Lengthened(old(LayerOf(l)), id, startPos + |ks|);
        LayerOf(l) == if l != layerIdx then long
                      else long.(mem := Scatter(g, old(pools[layerIdx]), old(seqs)[id].blockTables[layerIdx],
                                                startPos, ks, vs, |ks|))
    {
      var st, endPos := seqs[id], startPos + |ks|;
      ScatterTokens(layerIdx, st.blockTables[layerIdx], startPos, ks, vs);
      if endPos > st.seqLen {
        st := st.(seqLen := endPos);
      }
      seqs := seqs[id := st];
      forall l | 0 <= l < numLayers
        ensures LayerOf(l).blocks == old(LayerOf(l)).blocks
        ensures LayerOf(l).seqs == Lengthened(old(LayerOf(l)), id, endPos).seqs
      {
        SeqsOfUpdate(old(seqs), numLayers, l, id, st);
      }
    }

    method ReserveAndWrite(layerIdx: nat, id: int, startPos: nat, ks: seq<Vec>, vs: seq<Vec>) returns (ok: bool)
      requires Valid() && layerIdx < numLayers && id in seqs && |ks| == |vs|
      modifies this`freeLists, this`refCounts, this`seqs, this`pools
      ensures Sized() && (ok <==> Fits(g, old(LayerOf(layerIdx)), id, startPos + |ks|))
      ensures LayerOf(layerIdx) == WrittenLayer(g, old(LayerOf(layerIdx)), id, startPos, ks, vs)
      ensures forall l :: 0 <= l < numLayers && l != layerIdx ==>
        LayerOf(l) == if ok then Lengthened(old(LayerOf(l)), id, startPos + |ks|) else old(LayerOf(l))
    {
      ReserveOwned(g, LayerOf(layerIdx), id, startPos + |ks|);
      var st;
      ok, st := ReserveBlocks(layerIdx, id, startPos + |ks|);
      if ok {
        AllCovered(g, st.blockTables[layerIdx], startPos, startPos + |ks|);
        WriteTokens(layerIdx, id, startPos, ks, vs);
      }
    }

    /** Store tokens of one layer.  Out of blocks, it fails with the table partly extended. */
    method StoreKV(layerIdx: nat, id: int, startPos: nat, ks: seq<Vec>, vs: seq<Vec>) returns (ok: bool)
      requires Valid() && layerIdx < numLayers && |ks| == |vs|
      modifies this`freeLists, this`refCounts, this`seqs, this`pools
      ensures Valid()
      ensures id !in old(seqs) ==> !ok && forall l :: 0 <= l < numLayers ==> LayerOf(l) == old(LayerOf(l))
      ensures id in old(seqs) ==>
        && (ok <==> Fits(g, old(LayerOf(layerIdx)), id, startPos + |ks|))
        && LayerOf(layerIdx) == Do(g, old(LayerOf(layerIdx)), Store(id, startPos, ks, vs))
        && forall l :: 0 <= l < numLayers && l != layerIdx ==>
             LayerOf(l) == if ok then Lengthened(old(LayerOf(l)), id, startPos + |ks|) else old(LayerOf(l))
    {
      if id !in seqs {
        return false;
      }
      ok := ReserveAndWrite(layerIdx, id, startPos, ks, vs);
      DoStore(g, old(LayerOf(layerIdx)), id, startPos, ks, vs);
      forall l | 0 <= l < numLayers ensures Owned(g, LayerOf(l)) {
        LengthenedOwned(g, old(LayerOf(l)), id, startPos + |ks|);
      }
    }

    /** The kernel's view of a table is refreshed when it is dirty or missing. */
    method SyncTable(layerIdx: nat, id: int, kvLen: int, numBlocks: int) returns (device: seq<int>)
      requires Sized() && layerIdx < numLayers && id in seqs && numBlocks == NumBlocks(g, seqs[id].At(layerIdx), kvLen)
      modifies this`seqs
      ensures Sized() && forall l :: 0 <= l < numLayers ==>
        LayerOf(l) == if l != layerIdx then old(LayerOf(l))
                      else old(LayerOf(l)).(seqs := old(LayerOf(l)).seqs[id := Uploaded(g, old(seqs)[id].At(l), kvLen)])
      ensures Some(device) == Uploaded(g, old(seqs)[id].At(layerIdx), kvLen).device
    {
      var st := seqs[id];
      var bt := st.blockTables[layerIdx];
      if st.btDirty[layerIdx] || st.btGPU[layerIdx].None? {
        var room := bt[..Clamp(numBlocks, |bt|)];
        st := st.(btGPU := st.btGPU[layerIdx := Some(room)], btDirty := st.btDirty[layerIdx := false]);
      }
      seqs := seqs[id := st];
      device := st.btGPU[layerIdx].value;
      forall l | 0 <= l < numLayers
        ensures l != layerIdx ==> SeqsOf(seqs, numLayers, l) == SeqsOf(old(seqs), numLayers, l)
        ensures l == layerIdx ==> SeqsOf(seqs, numLayers, l) ==
                                  SeqsOf(old(seqs), numLayers, l)[id := Uploaded(g, old(seqs)[id].At(l), kvLen)]
      {
        SeqsOfUpdate(old(seqs), numLayers, l, id, st);
        if l != layerIdx { assert st.At(l) == old(seqs)[id].At(l); }
      }
    }

    /** What the attention kernel is given: the device copy of the table and how far to read. */
    method AttentionWithKVLen(layerIdx: nat, id: int, kvLen: int)
      returns (ok: bool, device: seq<int>, numBlocks: int, tokensInLastBlock: int)
      requires Valid() && layerIdx < numLayers
      modifies this`seqs
      ensures Valid() && (ok <==> id in old(seqs) && old(LayerOf(layerIdx)).seqs[id].table != [])
      ensures forall l :: 0 <= l < numLayers && (!ok || l != layerIdx) ==> LayerOf(l) == old(LayerOf(l))
      ensures ok ==>
        var before := old(LayerOf(layerIdx));
        && LayerOf(layerIdx) == Attended(g, before, id, kvLen)
        && Some(device) == LayerOf(layerIdx).seqs[id].device
        && numBlocks == NumBlocks(g, before.seqs[id], kvLen)
        && tokensInLastBlock == TokensInLastBlock(g, before.seqs[id], kvLen)
    {
      ok, device, numBlocks, tokensInLastBlock := false, [], 0, 0;
      if id !in seqs {
        return;
      }
      var st := seqs[id];
      numBlocks := |st.blockTables[layerIdx]|;
      if numBlocks == 0 {
        return;
      }
      var effectiveLen := st.seqLen;
      if kvLen > 0 {
        effectiveLen := kvLen;
      }
      var effectiveBlocks := GoDiv(effectiveLen + g.blockSize - 1, g.blockSize);
      if effectiveBlocks < numBlocks {
        numBlocks := effectiveBlocks;
      }
      tokensInLastBlock := effectiveLen - (numBlocks - 1) * g.blockSize;
      ghost var before := LayerOf(layerIdx);
      device := SyncTable(layerIdx, id, kvLen, numBlocks);
      ok := true;
      assert LayerOf(layerIdx) == Attended(g, before, id, kvLen);
    }

    /** Attention over the whole sequence, which is all the program asks for. */
    method Attention(layerIdx: nat, id: int)
      returns (ok: bool, device: seq<int>, numBlocks: int, tokensInLastBlock: int)
      requires Valid() && layerIdx < numLayers
      modifies this`seqs
      ensures Valid() && (ok <==> id in old(seqs) && old(LayerOf(layerIdx)).seqs[id].table != [])
      ensures forall l :: 0 <= l < numLayers && l != layerIdx ==> LayerOf(l) == old(LayerOf(l))
      ensures LayerOf(layerIdx) == Next(g, old(LayerOf(layerIdx)), Attend(id))
      ensures ok ==>
        var before := old(LayerOf(layerIdx));
        && Some(device) == LayerOf(layerIdx).seqs[id].device
        && numBlocks == NumBlocks(g, before.seqs[id], 0)
        && tokensInLastBlock == TokensInLastBlock(g, before.seqs[id], 0)
    {
      ok, device, numBlocks, tokensInLastBlock := AttentionWithKVLen(layerIdx, id, 0);
    }

    /** Attention of several queries at once: the whole table, to a buffer of its own length. */
    method AttentionMultiquery(layerIdx: nat, id: int) returns (ok: bool, device: seq<int>, numBlocks: nat)
      requires Valid() && layerIdx < numLayers
      modifies this`seqs
      ensures Valid() && (ok <==> id in old(seqs) && old(LayerOf(layerIdx)).seqs[id].table != [])
      ensures forall l :: 0 <= l < numLayers && l != layerIdx ==> LayerOf(l) == old(LayerOf(l))
      ensures LayerOf(layerIdx) == Next(g, old(LayerOf(layerIdx)), AttendMany(id))
      ensures ok ==>
        && Some(device) == LayerOf(layerIdx).seqs[id].device
        && numBlocks == |old(LayerOf(layerIdx)).seqs[id].table|
    {
      ok, device, numBlocks := false, [], 0;
      if id !in seqs || seqs[id].blockTables[layerIdx] == [] {
        return;
      }
      ghost var before := LayerOf(layerIdx);
      numBlocks := |seqs[id].blockTables[layerIdx]|;
      device := SyncWholeTable(layerIdx, id);
      ok := true;
      assert LayerOf(layerIdx) == FullyAttended(g, before, id);
    }

    method SyncWholeTable(layerIdx: nat, id: int) returns (device: seq<int>)
      requires Sized() && layerIdx < numLayers && id in seqs
      modifies this`seqs
      ensures Sized() && forall l :: 0 <= l < numLayers ==>
        LayerOf(l) == if l != layerIdx then old(LayerOf(l))
                      else old(LayerOf(l)).(seqs := old(LayerOf(l)).seqs[id := FullyUploaded(old(seqs)[id].At(l))])
      ensures Some(device) == FullyUploaded(old(seqs)[id].At(layerIdx)).device
    {
      var st := seqs[id];
      if st.btDirty[layerIdx] || st.btGPU[layerIdx].None? {
        st := st.(btGPU := st.btGPU[layerIdx := Some(st.blockTables[layerIdx])],
                  btDirty := st.btDirty[layerIdx := false]);
      }
      seqs := seqs[id := st];
      device := st.btGPU[layerIdx].value;
      forall l | 0 <= l < numLayers
        ensures l != layerIdx ==> SeqsOf(seqs, numLayers, l) == SeqsOf(old(seqs), numLayers, l)
        ensures l == layerIdx ==> SeqsOf(seqs, numLayers, l) ==
                                  SeqsOf(old(seqs), numLayers, l)[id := FullyUploaded(old(seqs)[id].At(l))]
      {
        SeqsOfUpdate(old(seqs), numLayers, l, id, st);
        if l != layerIdx { assert st.At(l) == old(seqs)[id].At(l); }
      }
    }

    /** The first totalTokens entries of a sequence in contiguous buffers: its log, if it has that many. */
    method GatherKV(layerIdx: nat, id: int, totalTokens: nat) returns (ok: bool, kOut: seq<Vec>, vOut: seq<Vec>)
      requires Valid() && layerIdx < numLayers
      ensures ok <==> id in seqs
      ensures ok ==> |kOut| == |vOut| == totalTokens
      ensures ok ==> forall log :: HoldsFor(g, LayerOf(layerIdx), log, id) && totalTokens <= |log| ==>
                       Zip(kOut, vOut) == log[..totalTokens]
    {
      if id !in seqs {
        return false, [], [];
      }
      ok := true;
      var mem, bt := pools[layerIdx], seqs[id].blockTables[layerIdx];
      OwnedTable(g, LayerOf(layerIdx), id);
      assert LayerOf(layerIdx).seqs[id].table == bt;
      ghost var copied;
      kOut, vOut, copied := GatherBlocks(g, mem, bt, totalTokens);
      forall log | HoldsFor(g, LayerOf(layerIdx), log, id) && totalTokens <= |log|
        ensures Zip(kOut, vOut) == log[..totalTokens]
      {
        GatheredAll(g, mem, bt, kOut, vOut, copied, log);
      }
    }

    /** Reference a block once more. */
    method RetainBlock(layer: nat, block: int)
      requires Sized() && layer < numLayers
      modifies this`refCounts
      ensures Sized() && BlocksOf(layer) == Retain(old(BlocksOf(layer)), block)
      ensures refCounts == old(refCounts)[layer := refCounts[layer]]
    {
      var rc := if block in refCounts[layer] then refCounts[layer][block] else 0;
      refCounts := refCounts[layer := refCounts[layer][block := rc + 1]];
    }

    /** The inner loop of ShareBlocks: append entries to a table and count them. */
    method AppendShared(layer: nat, table: seq<int>, prefix: seq<int>) returns (longer: seq<int>)
      requires Sized() && layer < numLayers
      modifies this`refCounts
      ensures Sized() && longer == table + prefix
      ensures BlocksOf(layer) == RetainAll(old(BlocksOf(layer)), prefix)
      ensures refCounts == old(refCounts)[layer := refCounts[layer]]
    {
      longer := table;
      var i := 0;
      while i < |prefix|
        invariant 0 <= i <= |prefix| && Sized() && longer == table + prefix[..i]
        invariant BlocksOf(layer) == RetainAll(old(BlocksOf(layer)), prefix[..i])
        invariant refCounts == old(refCounts)[layer := refCounts[layer]]
      {
        assert prefix[..i + 1][..i] == prefix[..i];
        longer := longer + [prefix[i]];
        RetainBlock(layer, prefix[i]);
        i := i + 1;
      }
      assert prefix[..i] == prefix;
    }

    /** The layer loop of ShareBlocks: it stops at the first layer whose source table is too short. */
    method ShareTables(src: SeqState, d: SeqState, numBlocks: int) returns (ok: bool, dst: SeqState, reached: nat)
      requires Sized() && src.Sized(numLayers) && d.Sized(numLayers)
      modifies this`refCounts
      ensures Sized() && dst.Sized(numLayers) && dst.seqLen == d.seqLen
      ensures reached <= numLayers && (ok ==> reached == numLayers)
      ensures !ok ==> reached < numLayers && numBlocks > |src.blockTables[reached]|
      ensures forall l :: 0 <= l < reached ==>
        && SharedAt(src.blockTables[l], d.At(l), dst.At(l), Max(0, numBlocks))
        && BlocksOf(l) == RetainAll(old(BlocksOf(l)), src.blockTables[l][..Max(0, numBlocks)])
      ensures forall l :: reached <= l < numLayers ==> BlocksOf(l) == old(BlocksOf(l)) && dst.At(l) == d.At(l)
    {
      dst, reached := d, 0;
      while reached < numLayers
        invariant 0 <= reached <= numLayers && Sized() && dst.Sized(numLayers) && dst.seqLen == d.seqLen
        invariant forall l :: 0 <= l < reached ==>
          && SharedAt(src.blockTables[l], d.At(l), dst.At(l), Max(0, numBlocks))
          && BlocksOf(l) == RetainAll(old(BlocksOf(l)), src.blockTables[l][..Max(0, numBlocks)])
        invariant forall l :: reached <= l < numLayers ==> BlocksOf(l) == old(BlocksOf(l)) && dst.At(l) == d.At(l)
      {
        if numBlocks > |src.blockTables[reached]| {
          return false, dst, reached;
        }
        var prefix := src.blockTables[reached][..Max(0, numBlocks)];
        var longer := AppendShared(reached, dst.blockTables[reached], prefix);
        dst := dst.WithTable(reached, longer);
        reached := reached + 1;
      }
      ok := true;
    }

    /** Share a prefix in every layer.  On failure the layers before the one that is too short stay shared. */
    method ShareBlocks(srcID: int, dstID: int, numTokens: int) returns (ok: bool, ghost reached: nat)
      requires Valid()
      modifies this`refCounts, this`seqs
      ensures Valid() && reached <= numLayers && (ok ==> reached == numLayers)
      ensures ok <==> srcID in old(seqs) && dstID in old(seqs) && forall l :: 0 <= l < numLayers ==>
                        SharedBlocks(g, numTokens) <= |old(LayerOf(l)).seqs[srcID].table|
      ensures forall l :: 0 <= l < numLayers ==>
                LayerOf(l) == if l < reached then Do(g, old(LayerOf(l)), Share(srcID, dstID, numTokens, ok))
                              else old(LayerOf(l))
    {
      if srcID !in seqs || dstID !in seqs {
        return false, 0;
      }
      ok, reached := ShareLayers(srcID, dstID, numTokens);
      forall l | 0 <= l < numLayers
        ensures Owned(g, LayerOf(l))
        ensures l < reached ==> LayerOf(l) == Do(g, old(LayerOf(l)), Share(srcID, dstID, numTokens, ok))
      {
        DoShare(g, old(LayerOf(l)), srcID, dstID, numTokens, ok);
      }
    }

    method ShareLayers(srcID: int, dstID: int, numTokens: int) returns (ok: bool, ghost reached: nat)
      requires Sized() && srcID in seqs && dstID in seqs
      modifies this`refCounts, this`seqs
      ensures Sized() && reached <= numLayers && (ok ==> reached == numLayers)
      ensures !ok ==> reached < numLayers && SharedBlocks(g, numTokens) > |old(LayerOf(reached)).seqs[srcID].table|
      ensures forall l :: 0 <= l < reached ==>
        && SharedBlocks(g, numTokens) <= |old(LayerOf(l)).seqs[srcID].table|
        && LayerOf(l) == ShareStep(g, old(LayerOf(l)), srcID, dstID, numTokens, ok)
      ensures forall l :: reached <= l < numLayers ==> LayerOf(l) == old(LayerOf(l))
    {
      var numBlocks := GoDiv(numTokens + g.blockSize - 1, g.blockSize);
      var src, d := seqs[srcID], seqs[dstID];
      var dst, layers;
      ok, dst, layers := ShareTables(src, d, numBlocks);
      reached := layers;
      if ok && numTokens > dst.seqLen {
        dst := dst.(seqLen := numTokens);
      }
      seqs := seqs[dstID := dst];
      forall l | 0 <= l < numLayers
        ensures l < reached ==> LayerOf(l) == ShareStep(g, old(LayerOf(l)), srcID, dstID, numTokens, ok)
        ensures l >= reached ==> LayerOf(l) == old(LayerOf(l))
      {
        SeqsOfUpdate(old(seqs), numLayers, l, dstID, dst);
        if l >= reached {
          assert dst.At(l) == d.At(l);
        } else {
          SharedLayer(g, old(LayerOf(l)), srcID, dstID, numTokens, ok, dst.At(l));
        }
      }
    }
  }

  /** Table and dirty bit after a prefix of k source blocks was appended. */
  predicate SharedAt(src: seq<int>, before: Seq, after: Seq, k: nat) {
    k <= |src| && after == before.(table := before.table + src[..k], dirty := true)
  }

  lemma {:induction false} SharedLayer(g: Shape, l: Layer, src: int, dst: int, numTokens: int, ok: bool, after: Seq)
    requires g.blockSize > 0 && src in l.seqs && dst in l.seqs
    requires SharedBlocks(g, numTokens) <= |l.seqs[src].table|
    requires var d, prefix := l.seqs[dst], l.seqs[src].table[..SharedBlocks(g, numTokens)];
             after == Seq(d.table + prefix, if ok then Max(d.len, numTokens) else d.len, true, d.device)
    ensures var prefix := l.seqs[src].table[..SharedBlocks(g, numTokens)];
            ShareStep(g, l, src, dst, numTokens, ok) ==
            Layer(RetainAll(l.blocks, prefix), l.seqs[dst := after], l.mem)
  {
  }

  /** Fresh device memory. */
  method UninitializedBuffer(n: nat) returns (buffer: seq<Vec>)
    ensures |buffer| == n
  {
    ghost var blank: seq<Vec> := seq(n, i => []);
    assert |blank| == n;
    buffer :| |buffer| == n;
  }

  /** Copy the blocks of a table out to contiguous buffers, whose other contents are unspecified. */
  method GatherBlocks(g: Shape, mem: seq<Vec>, bt: seq<int>, totalTokens: nat)
    returns (kOut: seq<Vec>, vOut: seq<Vec>, ghost copied: nat)
    requires g.blockSize > 0 && MemOk(g, mem) && TableOk(g, bt)
    ensures |kOut| == |vOut| == totalTokens && Gathered(g, mem, bt, kOut, vOut, copied)
    ensures copied == totalTokens || copied == |bt| * g.blockSize
  {
    kOut := UninitializedBuffer(totalTokens);
    vOut := UninitializedBuffer(totalTokens);
    var remaining, logicalBlock := totalTokens, 0;
    while logicalBlock < |bt| && remaining > 0
      invariant 0 <= logicalBlock <= |bt| && 0 <= remaining <= totalTokens && |kOut| == |vOut| == totalTokens
      invariant remaining > 0 ==> totalTokens - remaining == logicalBlock * g.blockSize
      invariant Gathered(g, mem, bt, kOut, vOut, totalTokens - remaining)
    {
      var tokensInBlock := if g.blockSize > remaining then remaining else g.blockSize;
      kOut, vOut := CopyBlock(g, mem, bt, kOut, vOut, logicalBlock, tokensInBlock);
      MulSucc(logicalBlock, g.blockSize);
      remaining := remaining - tokensInBlock;
      logicalBlock := logicalBlock + 1;
    }
    copied := totalTokens - remaining;
  }

  method CopyBlock(g: Shape, mem: seq<Vec>, bt: seq<int>, k: seq<Vec>, v: seq<Vec>, block: nat, count: nat)
    returns (kOut: seq<Vec>, vOut: seq<Vec>)
    requires MemOk(g, mem) && TableOk(g, bt) && block < |bt| && count <= g.blockSize
    requires Gathered(g, mem, bt, k, v, block * g.blockSize) && block * g.blockSize + count <= |k|
    ensures |kOut| == |k| && Gathered(g, mem, bt, kOut, vOut, block * g.blockSize + count)
  {
    var srcBase, dst := bt[block] * (2 * g.blockSize), block * g.blockSize;
    SlotsApart(g.blockSize, bt[block], g.maxBlocks);
    GatheredMore(g, mem, bt, k, v, block, count, dst, srcBase);
    kOut := Blit(k, dst, mem[srcBase..srcBase + count]);
    vOut := Blit(v, dst, mem[srcBase + g.blockSize..srcBase + g.blockSize + count]);
  }

  /** The first n positions have been copied out. */
  ghost predicate Gathered(g: Shape, mem: seq<Vec>, table: seq<int>, kOut: seq<Vec>, vOut: seq<Vec>, n: nat)
    requires MemOk(g, mem) && TableOk(g, table)
  {
    && n <= |kOut| == |vOut|
    && forall p :: 0 <= p < n ==> Covered(g, table, p) && CellAt(g, mem, table, p) == (kOut[p], vOut[p])
  }

  lemma {:induction false} CellInBlock(g: Shape, mem: seq<Vec>, table: seq<int>, block: nat, off: nat)
    requires MemOk(g, mem) && TableOk(g, table) && block < |table| && off < g.blockSize
    ensures var p, base := block * g.blockSize + off, table[block] * (2 * g.blockSize);
            && Covered(g, table, p) && base + g.blockSize + off < |mem|
            && CellAt(g, mem, table, p) == (mem[base + off], mem[base + g.blockSize + off])
  {
    MulSucc(block, g.blockSize);
    DivIs(block * g.blockSize + off, block, g.blockSize);
    SlotsApart(g.blockSize, table[block], g.maxBlocks);
  }

  lemma {:induction false} GatheredMore(g: Shape, mem: seq<Vec>, table: seq<int>, kOut: seq<Vec>, vOut: seq<Vec>,
                                        block: nat, count: nat, dst: nat, base: nat)
    requires MemOk(g, mem) && TableOk(g, table) && block < |table| && count <= g.blockSize
    requires dst == block * g.blockSize && base == table[block] * (2 * g.blockSize) && base + 2 * g.blockSize <= |mem|
    requires Gathered(g, mem, table, kOut, vOut, dst) && dst + count <= |kOut|
    ensures Gathered(g, mem, table, Blit(kOut, dst, mem[base..base + count]),
                     Blit(vOut, dst, mem[base + g.blockSize..base + g.blockSize + count]), dst + count)
  {
    var k := Blit(kOut, dst, mem[base..base + count]);
    var v := Blit(vOut, dst, mem[base + g.blockSize..base + g.blockSize + count]);
    forall p | 0 <= p < dst + count ensures Covered(g, table, p) && CellAt(g, mem, table, p) == (k[p], v[p]) {
      if p >= dst {
        CellInBlock(g, mem, table, block, p - dst);
      } else {
        assert Covered(g, table, p) && CellAt(g, mem, table, p) == (kOut[p], vOut[p]);
      }
    }
  }

  /** Either everything was copied or all blocks were, and a log fits in the blocks. */
  lemma {:induction false} GatheredAll(g: Shape, mem: seq<Vec>, table: seq<int>, kOut: seq<Vec>, vOut: seq<Vec>, n: nat,
                                       log: seq<(Vec, Vec)>)
    requires MemOk(g, mem) && TableOk(g, table) && Gathered(g, mem, table, kOut, vOut, n) && |kOut| <= |log|
    requires Reads(g, mem, table, log) && (n == |kOut| || n == |table| * g.blockSize)
    ensures Zip(kOut, vOut) == log[..|kOut|]
  {
    if n < |kOut| {
      assert Covered(g, table, n);
      MulSucc(|table|, g.blockSize);
      DivIs(n, |table|, g.blockSize);
      assert false;
    }
  }

  /** Truncation of one layer from the number of blocks kept. */
  lemma {:induction false} TruncatedIs(g: Shape, l: Layer, id: int, n: int, keep: nat, cut: Seq)
    requires g.blockSize > 0 && id in l.seqs && n < l.seqs[id].len && keep == BlocksFor(g, n)
    requires CutAt(l.seqs[id], cut, keep)
    ensures Truncated(g, l, id, n) ==
            Layer(ReleaseAll(l.blocks, Beyond(l.seqs[id].table, keep)), l.seqs[id := cut.(len := n)], l.mem)
  {
  }

  predicate CutAt(before: Seq, after: Seq, k: nat) {
    after == if k < |before.table| then before.(table := before.table[..k], dirty := true) else before
  }

  function ShareStep(g: Shape, l: Layer, src: int, dst: int, numTokens: int, complete: bool): Layer
    requires g.blockSize > 0
  {
    var r := Shared(g, l, src, dst, numTokens);
    if complete && src in l.seqs then Lengthened(r, dst, numTokens) else r
  }

  lemma {:induction false} DoShare(g: Shape, l: Layer, src: int, dst: int, numTokens: int, complete: bool)
    requires g.blockSize > 0 && Owned(g, l)
    ensures Do(g, l, Share(src, dst, numTokens, complete)) == ShareStep(g, l, src, dst, numTokens, complete)
    ensures Owned(g, ShareStep(g, l, src, dst, numTokens, complete))
  {
  }
}
