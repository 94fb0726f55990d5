/** The CPU paged cache (inference/kv/paged.go, paged_cache.go), in runs without fragments.

    It is a second implementation of the block pool: each of its operations is proved to do to every layer what
    the operation of `BlockPool` does, with every count 1.  Its own reference counts are keyed by block id
    alone, so different layers share an entry; that does no harm as long as no block is ever referenced twice. */
module PagedCache {
  import opened Arithmetic
  import opened Collections
  import opened Flattening
  import opened BlockOwnership
  import opened BlockPool
  import opened BlockContents

  /** Blocks per layer, and one length. */
  datatype BlockTable = BlockTable(blocks: seq<seq<int>>, seqLen: int)

  /** No block is referenced twice. */
  ghost predicate Single(l: Layer) {
    forall b :: b in l.blocks.counts ==> l.blocks.counts[b] == 1
  }

  /** Storing to an unknown sequence creates it. */
  function Ensured(l: Layer, id: int): Layer {
    if id in l.seqs then l else Created(l, id)
  }

  lemma {:induction false} EnsuredOwned(g: Shape, l: Layer, id: int)
    requires Owned(g, l)
    ensures Owned(g, Ensured(l, id))
  {
    CreateOwnedIff(g, l, id);
  }

  /** In a layer without sharing, a block is in one table, at one place. */
  lemma {:induction false} OneTableEach(g: Shape, l: Layer, id: int, i: nat, id': int, i': nat)
    requires Owned(g, l) && Single(l) && id in l.seqs && i < |l.seqs[id].table| && id' in l.seqs
    requires i' < |l.seqs[id'].table|
    requires l.seqs[id].table[i] == l.seqs[id'].table[i']
    ensures (id, i) == (id', i')
  {
    OwnedTable(g, l, id);
    assert Balance(l.blocks, Uses(l.seqs), g.maxBlocks, l.seqs[id].table[i]);
    OnlyPlace(l.seqs, id, i, id', i');
  }

  lemma {:induction false} NeverShared(g: Shape, l: Layer, id: int, start: nat, n: nat)
    requires g.blockSize > 0 && Owned(g, l) && Single(l) && id in l.seqs
    ensures Unshared(g, l, id, start, n)
  {
    OwnedTable(g, l, id);
    forall p | start <= p < start + n && Covered(g, l.seqs[id].table, p)
      ensures CountOf(l.blocks, l.seqs[id].table[p / g.blockSize]) == 1
    {
      assert Balance(l.blocks, Uses(l.seqs), g.maxBlocks, l.seqs[id].table[p / g.blockSize]);
    }
  }

  /** Without sharing, releasing is appending to the free list. */
  lemma {:induction false} ReleaseAppends(p: Blocks, blocks: seq<int>)
    requires forall b :: b in p.counts ==> p.counts[b] == 1
    ensures var q := ReleaseAll(p, blocks);
            q.free == p.free + blocks && forall b :: b in q.counts ==> q.counts[b] == 1
  {
    if blocks != [] {
      ReleaseAppends(p, blocks[..|blocks| - 1]);
      assert p.free + blocks == (p.free + blocks[..|blocks| - 1]) + [blocks[|blocks| - 1]];
    }
  }

  lemma {:induction false} GrowSingle(p: Blocks, table: seq<int>, n: int)
    requires forall b :: b in p.counts ==> p.counts[b] == 1
    ensures forall b :: b in Grow(p, table, n).0.counts ==> Grow(p, table, n).0.counts[b] == 1
    decreases |p.free|
  {
    if !(n <= |table| || p.free == []) {
      var (block, q) := Alloc(p);
      GrowSingle(q, table + [block], n);
    }
  }

  lemma {:induction false} StoreGrows(g: Shape, l: Layer, id: int, pos: nat)
    requires g.blockSize > 0 && Owned(g, l) && id in l.seqs
    ensures var grown := Grow(l.blocks, l.seqs[id].table, pos / g.blockSize + 1).1;
            TableOk(g, grown) && (Fits(g, l, id, pos + 1) <==> |grown| > pos / g.blockSize)
  {
    ReserveOwned(g, l, id, pos + 1);
  }

  function AfterStore(before: seq<Layer>, layer: nat, stored: Layer, id: int, endPos: int, ok: bool): (r: seq<Layer>)
    ensures |r| == |before| && (layer < |before| ==> r[layer] == stored)
    ensures forall l :: 0 <= l < |before| && l != layer ==>
              r[l] == if ok then Lengthened(before[l], id, endPos) else before[l]
  {
    seq(|before|, l requires 0 <= l < |before| =>
      if l == layer then stored else if ok then Lengthened(before[l], id, endPos) else before[l])
  }

  ghost predicate MatchesAt(view: Layer, free: seq<int>, rows: seq<seq<Vec>>, sequences: map<int, BlockTable>, l: nat)
    requires forall id :: id in sequences ==> l < |sequences[id].blocks|
  {
    && view.blocks.free == free && view.mem == Flatten(rows) && Single(view)
    && view.seqs.Keys == sequences.Keys
    && forall id :: id in sequences ==>
         view.seqs[id].table == sequences[id].blocks[l] && view.seqs[id].len == sequences[id].seqLen
  }

  /** What a store does to the layer it is for, */
  lemma {:induction false} StoreMatches(g: Shape, view: Layer, free: seq<int>, rows: seq<seq<Vec>>,
                                        sequences: map<int, BlockTable>, l: nat, id: int, pos: nat, k: Vec, v: Vec,
                                        rows': seq<seq<Vec>>, table': BlockTable)
    requires g.blockSize > 0 && Owned(g, view) && id in sequences && l < |table'.blocks|
    requires forall id :: id in sequences ==> l < |sequences[id].blocks|
    requires MatchesAt(view, free, rows, sequences, l)
    requires var (q, grown) := Grow(view.blocks, sequences[id].blocks[l], pos / g.blockSize + 1);
             var ok := |grown| > pos / g.blockSize;
             && table'.blocks[l] == grown && RowsOk(g, rows) && (ok ==> TableOk(g, grown))
             && table'.seqLen == (if ok then Max(sequences[id].seqLen, pos + 1) else sequences[id].seqLen)
             && rows' == if ok then WrittenRows(g, rows, grown, pos, k, v) else rows
    ensures var q := Grow(view.blocks, sequences[id].blocks[l], pos / g.blockSize + 1).0;
            MatchesAt(Do(g, view, Store(id, pos, [k], [v])), q.free, rows', sequences[id := table'], l)
  {
    var grown := Grow(view.blocks, sequences[id].blocks[l], pos / g.blockSize + 1).1;
    StoreOne(g, view, id, pos, k, v);
    GrowSingle(view.blocks, sequences[id].blocks[l], pos / g.blockSize + 1);
    if |grown| > pos / g.blockSize { WriteBlock(g, rows, grown, pos, k, v); }
    AfterMatches(view, free, rows, sequences, l, id, Do(g, view, Store(id, pos, [k], [v])), rows', table');
  }

  lemma {:induction false} AfterMatches(view: Layer, free: seq<int>, rows: seq<seq<Vec>>,
                                        sequences: map<int, BlockTable>, l: nat, id: int, after: Layer,
                                        rows': seq<seq<Vec>>, table': BlockTable)
    requires id in sequences && l < |table'.blocks| && forall id :: id in sequences ==> l < |sequences[id].blocks|
    requires MatchesAt(view, free, rows, sequences, l)
    requires Single(after) && after.mem == Flatten(rows') && after.seqs.Keys == view.seqs.Keys
    requires after.seqs[id].table == table'.blocks[l] && after.seqs[id].len == table'.seqLen
    requires forall id' :: id' in view.seqs && id' != id ==> after.seqs[id'] == view.seqs[id']
    ensures MatchesAt(after, after.blocks.free, rows', sequences[id := table'], l)
  {
  }

  /** and to the others. */
  lemma {:induction false} OtherMatches(view: Layer, free: seq<int>, rows: seq<seq<Vec>>,
                                        sequences: map<int, BlockTable>,
                                        l: nat, id: int, endPos: int, table': BlockTable, ok: bool)
    requires id in sequences && l < |table'.blocks| && forall id :: id in sequences ==> l < |sequences[id].blocks|
    requires MatchesAt(view, free, rows, sequences, l) && table'.blocks[l] == sequences[id].blocks[l]
    requires table'.seqLen == if ok then Max(sequences[id].seqLen, endPos) else sequences[id].seqLen
    ensures MatchesAt(if ok then Lengthened(view, id, endPos) else view, free, rows, sequences[id := table'], l)
  {
  }

  /** The initial free list: block 0 is popped first. */
  function Downward(n: nat): (r: seq<int>)
    ensures |r| == n && forall i :: 0 <= i < n ==> r[i] == n - 1 - i
    ensures forall b :: b in r <==> 0 <= b < n
  {
    var r := seq(n, i requires 0 <= i < n => n - 1 - i);
    assert forall b :: b in r <==> 0 <= b < n by {
      forall b | 0 <= b < n ensures b in r { assert r[n - 1 - b] == b; }
    }
    r
  }

  class PagedKVCache {
    const numLayers: nat
    const g: Shape
    const kvSize: nat
    var freeList: seq<seq<int>>
    var refCounts: map<int, int>
    var data: seq<seq<seq<Vec>>>          // per layer and block: blockSize keys, then blockSize values
    var sequences: map<int, BlockTable>
    var nextSeqID: int
    ghost var view: seq<Layer>

    ghost predicate Sized()
      reads this
    {
      && |freeList| == |data| == |view| == numLayers && g.blockSize > 0
      && (forall l :: 0 <= l < numLayers ==> RowsOk(g, data[l]))
      && (forall id :: id in sequences ==> |sequences[id].blocks| == numLayers)
    }

    /** The view of a layer is what the concrete state says. */
    ghost predicate Matches(l: nat)
      requires Sized() && l < numLayers
      reads this
    {
      MatchesAt(view[l], freeList[l], data[l], sequences, l)
    }

    ghost predicate Valid()
      reads this
    {
      && Sized() && (forall b :: b in refCounts ==> refCounts[b] == 1)
      && forall l :: 0 <= l < numLayers ==> Matches(l) && Owned(g, view[l])
    }

    constructor (numLayers: nat, g: Shape, kvSize: nat)
      requires g.blockSize > 0
      ensures Valid() && this.numLayers == numLayers && this.g == g && this.kvSize == kvSize
      ensures sequences == map[] && nextSeqID == 1 && freeList == seq(numLayers, l => Downward(g.maxBlocks))
    {
      this.numLayers, this.g, this.kvSize := numLayers, g, kvSize;
      var zero: Vec := seq(kvSize, i => 0.0);
      var rows := seq(g.maxBlocks, b => seq(2 * g.blockSize, i => zero));
      var empty := Layer(Blocks(Downward(g.maxBlocks), map[]), map[], Flatten(rows));
      freeList := seq(numLayers, l => Downward(g.maxBlocks));
      refCounts, sequences, nextSeqID := map[], map[], 1;
      data := seq(numLayers, l => rows);
      view := seq(numLayers, l => empty);
      FlatLength(rows, 2 * g.blockSize);
      AllFreeOwned(g, Downward(g.maxBlocks), Flatten(rows));
    }

    method Allocate(layer: nat) returns (ok: bool, block: int)
      requires layer < |freeList| && forall b :: b in refCounts ==> refCounts[b] == 1
      modifies this`freeList, this`refCounts
      ensures ok == (old(freeList)[layer] != []) && forall b :: b in refCounts ==> refCounts[b] == 1
      ensures !ok ==> freeList == old(freeList)
      ensures ok ==> var fl := old(freeList)[layer];
                     freeList == old(freeList)[layer := fl[..|fl| - 1]] && block == fl[|fl| - 1]
    {
      if |freeList[layer]| == 0 {
        return false, 0;
      }
      var n := |freeList[layer]|;
      block := freeList[layer][n - 1];
      freeList := freeList[layer := freeList[layer][..n - 1]];
      refCounts := refCounts[block := 1];
      ok := true;
    }

    /** Whatever the shared count said, the block becomes free. */
    method Free(layer: nat, block: int)
      requires layer < |freeList| == |data| && 0 <= block < |data[layer]|
      requires forall b :: b in refCounts ==> refCounts[b] == 1
      modifies this`freeList, this`refCounts
      ensures freeList == old(freeList)[layer := old(freeList)[layer] + [block]]
      ensures forall b :: b in refCounts ==> refCounts[b] == 1
    {
      var rc := (if block in refCounts then refCounts[block] else 0) - 1;
      refCounts := refCounts[block := rc];
      if refCounts[block] <= 0 {
        refCounts := refCounts - {block};
        freeList := freeList[layer := freeList[layer] + [block]];
      }
    }

    method FreeAll(layer: nat, blocks: seq<int>)
      requires layer < |freeList| == |data| && forall i :: 0 <= i < |blocks| ==> 0 <= blocks[i] < |data[layer]|
      requires forall b :: b in refCounts ==> refCounts[b] == 1
      modifies this`freeList, this`refCounts
      ensures freeList == old(freeList)[layer := old(freeList)[layer] + blocks]
      ensures forall b :: b in refCounts ==> refCounts[b] == 1
    {
      assert old(freeList)[layer] + blocks[..0] == old(freeList)[layer];
      var i := 0;
      while i < |blocks|
        invariant 0 <= i <= |blocks| && |freeList| == |old(freeList)|
        invariant freeList == old(freeList)[layer := old(freeList)[layer] + blocks[..i]]
        invariant forall b :: b in refCounts ==> refCounts[b] == 1
      {
        Free(layer, blocks[i]);
        assert old(freeList)[layer] + blocks[..i] + [blocks[i]] == old(freeList)[layer] + blocks[..i + 1];
        i := i + 1;
      }
      assert blocks[..i] == blocks;
    }

    method CreateSequence() returns (id: int)
      requires Valid()
      modifies this`sequences, this`nextSeqID, this`view
      ensures id == old(nextSeqID) && nextSeqID == id + 1
      ensures id !in old(sequences) ==> Valid()
      ensures |view| == numLayers && forall l :: 0 <= l < numLayers ==> view[l] == Created(old(view)[l], id)
    {
      id := nextSeqID;
      nextSeqID := nextSeqID + 1;
      sequences := sequences[id := BlockTable(seq(numLayers, i => []), 0)];
      ghost var before := view;
      view := seq(numLayers, l requires 0 <= l < |before| => Created(before[l], id));
      forall l | 0 <= l < numLayers && id !in old(sequences) ensures Owned(g, view[l]) && Matches(l) {
        assert old(Matches(l)) && old(Owned(g, view[l]));
        CreateOwnedIff(g, before[l], id);
      }
    }

    /** Every entry of every table of a sequence is a block. */
    ghost predicate InRange(blocks: seq<seq<int>>)
      reads this`data
    {
      && |blocks| <= |data|
      && forall l, i :: 0 <= l < |blocks| && 0 <= i < |blocks[l]| ==> 0 <= blocks[l][i] < |data[l]|
    }

    lemma {:induction false} TablesInRange(id: int)
      requires Valid() && id in sequences
      ensures InRange(sequences[id].blocks)
    {
      var blocks := sequences[id].blocks;
      forall l, i | 0 <= l < |blocks| && 0 <= i < |blocks[l]| ensures 0 <= blocks[l][i] < |data[l]| {
        assert Matches(l);
        OwnedTable(g, view[l], id);
      }
    }

    /** Free, layer by layer, the blocks from the k-th on. */
    method FreeBeyond(blocks: seq<seq<int>>, k: nat) returns (kept: seq<seq<int>>)
      requires |blocks| == |freeList| == |data| && InRange(blocks) && forall b :: b in refCounts ==> refCounts[b] == 1
      modifies this`freeList, this`refCounts
      ensures |kept| == |freeList| == |blocks| && forall b :: b in refCounts ==> refCounts[b] == 1
      ensures forall l :: 0 <= l < |blocks| ==>
        freeList[l] == old(freeList)[l] + Beyond(blocks[l], k) && kept[l] == Within(blocks[l], k)
    {
      kept := blocks;
      var layer := 0;
      while layer < |blocks|
        invariant 0 <= layer <= |blocks| == |kept| == |freeList|
        invariant forall l :: 0 <= l < layer ==>
          freeList[l] == old(freeList)[l] + Beyond(blocks[l], k) && kept[l] == Within(blocks[l], k)
        invariant forall l :: layer <= l < |blocks| ==> freeList[l] == old(freeList)[l] && kept[l] == blocks[l]
        invariant forall b :: b in refCounts ==> refCounts[b] == 1
      {
        FreeAll(layer, Beyond(blocks[layer], k));
        kept := kept[layer := Within(blocks[layer], k)];
        layer := layer + 1;
      }
    }

    method DeleteSequence(id: int)
      requires Valid()
      modifies this`freeList, this`refCounts, this`sequences, this`view
      ensures Valid() && forall l :: 0 <= l < numLayers ==> view[l] == Deleted(old(view)[l], id)
    {
      if id !in sequences {
        assert forall l :: 0 <= l < numLayers ==> Matches(l);
        return;
      }
      TablesInRange(id);
      var table := sequences[id];
      var _ := FreeBeyond(table.blocks, 0);
      sequences := sequences - {id};
      ghost var before := view;
      view := seq(numLayers, l requires 0 <= l < |before| => Deleted(before[l], id));
      forall l | 0 <= l < numLayers ensures Matches(l) && Owned(g, view[l]) {
        assert old(Matches(l)) && old(Owned(g, view[l]));
        ReleaseAppends(before[l].blocks, table.blocks[l]);
        DeleteOwned(g, before[l], id);
      }
    }

    method TruncateSequence(id: int, newSeqLen: int)
      requires Valid()
      modifies this`freeList, this`refCounts, this`sequences, this`view
      ensures Valid() && forall l :: 0 <= l < numLayers ==> view[l] == Truncated(g, old(view)[l], id, newSeqLen)
    {
      if id !in sequences || newSeqLen >= sequences[id].seqLen {
        assert forall l :: 0 <= l < numLayers ==> Matches(l);
        return;
      }
      var neededBlocks := 0;
      if newSeqLen > 0 {
        neededBlocks := (newSeqLen + g.blockSize - 1) / g.blockSize;
        Ceil(newSeqLen, g.blockSize);
      }
      assert neededBlocks == BlocksFor(g, newSeqLen);
      TablesInRange(id);
      var table := sequences[id];
      var kept := FreeBeyond(table.blocks, neededBlocks);
      sequences := sequences[id := BlockTable(kept, newSeqLen)];
      ghost var before := view;
      view := seq(numLayers, l requires 0 <= l < |before| => Truncated(g, before[l], id, newSeqLen));
      forall l | 0 <= l < numLayers ensures Matches(l) && Owned(g, view[l]) {
        assert old(Matches(l)) && old(Owned(g, view[l]));
        ReleaseAppends(before[l].blocks, Beyond(table.blocks[l], neededBlocks));
        TruncateOwned(g, before[l], id, newSeqLen);
      }
    }

    /** Extend one table block by block until it has a block blockIdx. */
    method EnsureBlocks(id: int, layer: nat, blockIdx: nat, ghost p: Blocks) returns (ok: bool, ghost q: Blocks)
      requires id in sequences && layer < |freeList| && layer < |sequences[id].blocks|
      requires p.free == freeList[layer] && forall b :: b in refCounts ==> refCounts[b] == 1
      modifies this`freeList, this`refCounts, this`sequences
      ensures forall b :: b in refCounts ==> refCounts[b] == 1
      ensures freeList == old(freeList)[layer := q.free]
      ensures var table := old(sequences)[id];
              var (_, grown) := Grow(p, table.blocks[layer], blockIdx + 1);
              && Grow(p, table.blocks[layer], blockIdx + 1).0 == q && (ok <==> |grown| > blockIdx)
              && sequences == old(sequences)[id := table.(blocks := table.blocks[layer := grown])]
    {
      var table := sequences[id];
      ghost var goal := Grow(p, table.blocks[layer], blockIdx + 1);
      ghost var t0 := table;
      q := p;
      ok := true;
      while ok && |table.blocks[layer]| <= blockIdx
        invariant layer < |freeList| == |old(freeList)| && layer < |table.blocks| && sequences == old(sequences)
        invariant freeList == old(freeList)[layer := q.free]
        invariant Grow(q, table.blocks[layer], blockIdx + 1) == goal
        invariant table == t0.(blocks := t0.blocks[layer := table.blocks[layer]])
        invariant !ok ==> q.free == [] && |table.blocks[layer]| <= blockIdx
        invariant forall b :: b in refCounts ==> refCounts[b] == 1
        decreases |q.free|, ok
      {
        var got, block := Allocate(layer);
        if got {
          table := table.(blocks := table.blocks[layer := table.blocks[layer] + [block]]);
          q := Alloc(q).1;
        } else {
          ok := false;
        }
      }
      sequences := sequences[id := table];
    }

    method EnsureSequence(id: int)
      requires Valid()
      modifies this`sequences, this`view
      ensures Valid() && id in sequences && forall l :: 0 <= l < numLayers ==> view[l] == Ensured(old(view)[l], id)
    {
      if id !in sequences {
        sequences := sequences[id := BlockTable(seq(numLayers, i => []), 0)];
      }
      ghost var before := view;
      view := seq(numLayers, l requires 0 <= l < |before| => Ensured(before[l], id));
      forall l | 0 <= l < numLayers ensures Matches(l) && Owned(g, view[l]) {
        assert old(Matches(l)) && old(Owned(g, view[l]));
        EnsuredOwned(g, before[l], id);
      }
    }

    /** Store one token of one layer, creating sequence and blocks as needed. */
    method StoreKV(id: int, layer: nat, pos: nat, k: Vec, v: Vec) returns (ok: bool)
      requires Valid() && layer < numLayers
      modifies this`freeList, this`refCounts, this`sequences, this`data, this`view
      ensures Valid() && id in sequences
      ensures Owned(g, Ensured(old(view)[layer], id))
      ensures ok <==> Fits(g, Ensured(old(view)[layer], id), id, pos + 1)
      ensures view[layer] == Do(g, Ensured(old(view)[layer], id), Store(id, pos, [k], [v]))
      ensures forall l :: 0 <= l < numLayers && l != layer ==>
        var base := Ensured(old(view)[l], id);
        view[l] == if ok then Lengthened(base, id, pos + 1) else base
    {
      EnsureSequence(id);
      ok := StoreKnown(id, layer, pos, k, v);
    }

    method StoreKnown(id: int, layer: nat, pos: nat, k: Vec, v: Vec) returns (ok: bool)
      requires Valid() && layer < numLayers && id in sequences
      modifies this`freeList, this`refCounts, this`sequences, this`data, this`view
      ensures Valid() && id in sequences
      ensures ok <==> Fits(g, old(view)[layer], id, pos + 1)
      ensures view[layer] == Do(g, old(view)[layer], Store(id, pos, [k], [v]))
      ensures forall l :: 0 <= l < numLayers && l != layer ==>
        view[l] == if ok then Lengthened(old(view)[l], id, pos + 1) else old(view)[l]
    {
      ghost var before, free0, data0, tables0 := view, freeList, data, sequences;
      assert forall l :: 0 <= l < numLayers ==> Matches(l) && Owned(g, before[l]);
      ghost var stored;
      ok, stored := StoreInLayer(id, layer, pos, k, v);
      view := AfterStore(before, layer, stored, id, pos + 1, ok);
      forall l | 0 <= l < numLayers && l != layer
        ensures MatchesAt(view[l], freeList[l], data[l], sequences, l) && Owned(g, view[l])
      {
        LengthenedOwned(g, before[l], id, pos + 1);
        OtherMatches(before[l], free0[l], data0[l], tables0, l, id, pos + 1, sequences[id], ok);
      }
    }

    /** The layer the store is for. */
    method StoreInLayer(id: int, layer: nat, pos: nat, k: Vec, v: Vec) returns (ok: bool, ghost stored: Layer)
      requires Sized() && layer < numLayers && id in sequences && Matches(layer) && Owned(g, view[layer])
      requires forall b :: b in refCounts ==> refCounts[b] == 1
      modifies this`freeList, this`refCounts, this`sequences, this`data
      ensures Sized() && forall b :: b in refCounts ==> refCounts[b] == 1
      ensures ok <==> Fits(g, view[layer], id, pos + 1)
      ensures stored == Do(g, view[layer], Store(id, pos, [k], [v])) && Owned(g, stored)
      ensures MatchesAt(stored, freeList[layer], data[layer], sequences, layer)
      ensures freeList == old(freeList)[layer := freeList[layer]] && data == old(data)[layer := data[layer]]
      ensures var t := old(sequences)[id];
              id in sequences && sequences == old(sequences)[id := sequences[id]] &&
              sequences[id] == BlockTable(t.blocks[layer := sequences[id].blocks[layer]],
                                          if ok then Max(t.seqLen, pos + 1) else t.seqLen)
    {
      ghost var free0, data0, tables0 := freeList[layer], data[layer], sequences;
      StoreGrows(g, view[layer], id, pos);
      ok := StoreToken(id, layer, pos, k, v, view[layer].blocks);
      StoreMatches(g, view[layer], free0, data0, tables0, layer, id, pos, k, v, data[layer], sequences[id]);
      stored := Do(g, view[layer], Store(id, pos, [k], [v]));
    }

    /** The concrete part of a store; p are the blocks of the layer. */
    method StoreToken(id: int, layer: nat, pos: nat, k: Vec, v: Vec, ghost p: Blocks) returns (ok: bool)
      requires Sized() && layer < numLayers && id in sequences && p.free == freeList[layer]
      requires TableOk(g, Grow(p, sequences[id].blocks[layer], pos / g.blockSize + 1).1)
      requires forall b :: b in refCounts ==> refCounts[b] == 1
      modifies this`freeList, this`refCounts, this`sequences, this`data
      ensures Sized() && forall b :: b in refCounts ==> refCounts[b] == 1
      ensures var t, (q, grown) := old(sequences)[id], Grow(p, old(sequences)[id].blocks[layer], pos / g.blockSize + 1);
              && (ok <==> |grown| > pos / g.blockSize)
              && freeList == old(freeList)[layer := q.free]
              && sequences == old(sequences)[id := BlockTable(t.blocks[layer := grown],
                                                              if ok then Max(t.seqLen, pos + 1) else t.seqLen)]
              && data == old(data)[layer := if ok then WrittenRows(g, old(data)[layer], grown, pos, k, v)
                                            else old(data)[layer]]
    {
      ghost var q;
      ok, q := EnsureBlocks(id, layer, pos / g.blockSize, p);
      if ok {
        WriteToken(id, layer, pos, k, v);
      }
    }

    /** A store against the logs of its layer. */
    method StoreLogged(id: int, layer: nat, pos: nat, k: Vec, v: Vec, ghost logs: Logs) returns (ok: bool)
      requires Valid() && layer < numLayers && Holds(g, Ensured(view[layer], id), logs) && pos <= |logs[id]|
      modifies this`freeList, this`refCounts, this`sequences, this`data, this`view
      ensures Valid() && id in view[layer].seqs
      ensures Holds(g, Ensured(view[layer], id),
                    if ok then logs[id := Overwrite(logs[id], pos, Zip([k], [v]))] else logs)
    {
      assert Matches(layer);
      StoreStep(g, Ensured(view[layer], id), logs, id, pos, k, v);
      ok := StoreKV(id, layer, pos, k, v);
    }

    method StoreNext(id: int, layer: nat, pos: nat, k: Vec, v: Vec, ghost now: Logs, ghost next: Logs)
      returns (ok: bool)
      requires Valid() && layer < numLayers && Holds(g, Ensured(view[layer], id), now) && pos <= |now[id]|
      requires next == now[id := Overwrite(now[id], pos, Zip([k], [v]))]
      modifies this`freeList, this`refCounts, this`sequences, this`data, this`view
      ensures Valid() && id in view[layer].seqs
      ensures Holds(g, Ensured(view[layer], id), if ok then next else now)
    {
      ok := StoreLogged(id, layer, pos, k, v, now);
    }

    /** The i-th store of a batch. */
    method StoreIth(id: int, layer: nat, startPos: nat, ks: seq<Vec>, vs: seq<Vec>, i: nat, ghost logs: Logs)
      returns (ok: bool)
      requires Valid() && layer < numLayers && i < |ks| == |vs| && id in logs && startPos <= |logs[id]|
      requires Holds(g, Ensured(view[layer], id), Batched(logs, id, startPos, ks, vs, i))
      modifies this`freeList, this`refCounts, this`sequences, this`data, this`view
      ensures Valid() && id in view[layer].seqs
      ensures Holds(g, Ensured(view[layer], id), Batched(logs, id, startPos, ks, vs, if ok then i + 1 else i))
    {
      BatchStep(logs, id, startPos, ks, vs, i);
      ghost var now, next := Batched(logs, id, startPos, ks, vs, i), Batched(logs, id, startPos, ks, vs, i + 1);
      ok := StoreNext(id, layer, startPos + i, ks[i], vs[i], now, next);
    }

    /** Store consecutive tokens of one layer.  The sequence then reads back its old log overwritten by the
        tokens stored, which are all of them unless blocks ran out; other sequences read back what they did. */
    method StoreKVBatch(id: int, layer: nat, startPos: nat, ks: seq<Vec>, vs: seq<Vec>, ghost logs: Logs)
      returns (ok: bool, ghost stored: nat)
      requires Valid() && layer < numLayers && |ks| == |vs|
      requires Holds(g, Ensured(view[layer], id), logs) && startPos <= |logs[id]|
      modifies this`freeList, this`refCounts, this`sequences, this`data, this`view
      ensures Valid() && stored <= |ks| && (ok <==> stored == |ks|) && (ks != [] ==> id in view[layer].seqs)
      ensures Holds(g, Ensured(view[layer], id), Batched(logs, id, startPos, ks, vs, stored))
    {
      ok, stored := true, 0;
      BatchStart(logs, id, startPos, ks, vs);
      var i := 0;
      while i < |ks|
        invariant 0 <= i <= |ks| && Valid() && ok && stored == i && (i > 0 ==> id in view[layer].seqs)
        invariant Holds(g, Ensured(view[layer], id), Batched(logs, id, startPos, ks, vs, i))
      {
        ok := StoreIth(id, layer, startPos, ks, vs, i, logs);
        if !ok {
          return;
        }
        i := i + 1;
        stored := i;
      }
    }

    /** One position of a table, zero if it has no block. */
    method ReadCell(layer: nat, table: seq<int>, pos: nat) returns (k: Vec, v: Vec)
      requires Valid() && layer < numLayers && TableOk(g, table)
      ensures MemOk(g, view[layer].mem)
      ensures Covered(g, table, pos) ==> (k, v) == CellAt(g, view[layer].mem, table, pos)
    {
      assert Matches(layer) && Owned(g, view[layer]);
      k := seq(kvSize, i => 0.0);
      v := k;
      if pos / g.blockSize < |table| {
        ReadBlock(g, data[layer], table, pos);
        var cells, offset := data[layer][table[pos / g.blockSize]], pos % g.blockSize;
        k, v := cells[offset], cells[g.blockSize + offset];
      }
    }

    /** Keys and values of positions startPos..endPos: that part of the log, if the sequence has stored it. */
    method GetKVSlice(id: int, layer: nat, startPos: nat, endPos: int) returns (k: seq<Vec>, v: seq<Vec>)
      requires Valid() && layer < numLayers
      ensures id !in sequences || endPos < startPos ==> k == v == []
      ensures id in sequences && startPos <= endPos ==> |k| == |v| == endPos - startPos + 1
      ensures id in sequences && startPos <= endPos ==>
        forall log :: HoldsFor(g, view[layer], log, id) && endPos < |log| ==> Zip(k, v) == log[startPos..endPos + 1]
    {
      if id !in sequences {
        return [], [];
      }
      var numTokens := endPos - startPos + 1;
      if numTokens <= 0 {
        return [], [];
      }
      var table := sequences[id].blocks[layer];
      assert Matches(layer);
      OwnedTable(g, view[layer], id);
      k, v := [], [];
      while |k| < numTokens
        invariant |k| == |v| <= numTokens
        invariant forall i :: 0 <= i < |k| && Covered(g, table, startPos + i) ==>
                    (k[i], v[i]) == CellAt(g, view[layer].mem, table, startPos + i)
      {
        var k1, v1 := ReadCell(layer, table, startPos + |k|);
        k, v := k + [k1], v + [v1];
      }
      forall log | HoldsFor(g, view[layer], log, id) && endPos < |log| ensures Zip(k, v) == log[startPos..endPos + 1] {
        forall i | 0 <= i < numTokens ensures Zip(k, v)[i] == log[startPos + i] {
          assert Covered(g, table, startPos + i);
        }
      }
    }

    /** Copy a key and a value vector into the block of their position. */
    method WriteToken(id: int, layer: nat, pos: nat, k: Vec, v: Vec)
      requires Sized() && layer < numLayers && id in sequences && TableOk(g, sequences[id].blocks[layer])
      requires Covered(g, sequences[id].blocks[layer], pos)
      modifies this`data, this`sequences
      ensures Sized()
      ensures data == old(data)[layer :=
                WrittenRows(g, old(data)[layer], old(sequences)[id].blocks[layer], pos, k, v)]
      ensures var t := old(sequences)[id];
              sequences == old(sequences)[id := BlockTable(t.blocks, Max(t.seqLen, pos + 1))]
    {
      var table := sequences[id];
      var block, offset := table.blocks[layer][pos / g.blockSize], pos % g.blockSize;
      var cells := data[layer][block][offset := k][g.blockSize + offset := v];
      data := data[layer := data[layer][block := cells]];
      if pos + 1 > table.seqLen {
        table := table.(seqLen := pos + 1);
      }
      sequences := sequences[id := table];
    }
  }

  ghost predicate RowsOk(g: Shape, rows: seq<seq<Vec>>) {
    |rows| == g.maxBlocks && Uniform(rows, 2 * g.blockSize)
  }

  /** One key and one value vector written to the block of their position. */
  function WrittenRows(g: Shape, rows: seq<seq<Vec>>, table: seq<int>, pos: nat, k: Vec, v: Vec): (r: seq<seq<Vec>>)
    requires RowsOk(g, rows) && TableOk(g, table) && Covered(g, table, pos)
    ensures RowsOk(g, r)
  {
    var b, off := table[pos / g.blockSize], pos % g.blockSize;
    rows[b := rows[b][off := k][g.blockSize + off := v]]
  }

  lemma {:induction false} WriteBlock(g: Shape, rows: seq<seq<Vec>>, table: seq<int>, pos: nat, k: Vec, v: Vec)
    requires RowsOk(g, rows) && TableOk(g, table) && Covered(g, table, pos)
    ensures MemOk(g, Flatten(rows))
    ensures Flatten(WrittenRows(g, rows, table, pos, k, v)) == ScatterToken(g, Flatten(rows), table, pos, k, v)
  {
    var i, off := Locate(g, table, pos, false);
    var _, _ := Locate(g, table, pos, true);
    var b := table[i];
    FlatLength(rows, 2 * g.blockSize);
    FlatUpdate(rows, 2 * g.blockSize, b, off, k);
    var rows1 := rows[b := rows[b][off := k]];
    FlatUpdate(rows1, 2 * g.blockSize, b, g.blockSize + off, v);
    assert rows1[b := rows1[b][g.blockSize + off := v]] == WrittenRows(g, rows, table, pos, k, v);
  }

  /** A one-token store in detail. */
  lemma {:induction false} StoreOne(g: Shape, l: Layer, id: int, pos: nat, k: Vec, v: Vec)
    requires g.blockSize > 0 && Owned(g, l) && id in l.seqs
    ensures var (q, table) := Grow(l.blocks, l.seqs[id].table, pos / g.blockSize + 1);
            var after := Do(g, l, Store(id, pos, [k], [v]));
            && TableOk(g, table) && after.blocks == q && after.seqs.Keys == l.seqs.Keys && after.seqs[id].table == table
            && (forall id' :: id' in l.seqs && id' != id ==> after.seqs[id'] == l.seqs[id'])
            && (Fits(g, l, id, pos + 1) <==> |table| > pos / g.blockSize)
            && if |table| > pos / g.blockSize then
                 && after.mem == ScatterToken(g, l.mem, table, pos, k, v)
                 && after.seqs[id].len == Max(l.seqs[id].len, pos + 1)
               else after.mem == l.mem && after.seqs[id].len == l.seqs[id].len
  {
    DoStore(g, l, id, pos, [k], [v]);
    ReserveOwned(g, l, id, pos + 1);
    var table := Reserved(g, l, id, pos + 1).seqs[id].table;
    if Fits(g, l, id, pos + 1) {
      AllCovered(g, table, pos, pos + 1);
      assert Scatter(g, l.mem, table, pos, [k], [v], 1) == ScatterToken(g, l.mem, table, pos, k, v);
    }
  }

  lemma {:induction false} ReadBlock(g: Shape, rows: seq<seq<Vec>>, table: seq<int>, pos: nat)
    requires |rows| == g.maxBlocks && Uniform(rows, 2 * g.blockSize) && TableOk(g, table) && Covered(g, table, pos)
    ensures var b, off := table[pos / g.blockSize], pos % g.blockSize;
            && MemOk(g, Flatten(rows))
            && CellAt(g, Flatten(rows), table, pos) == (rows[b][off], rows[b][g.blockSize + off])
  {
    var i, off := Locate(g, table, pos, false);
    var _, _ := Locate(g, table, pos, true);
    FlatAt(rows, 2 * g.blockSize, table[i], off);
    FlatAt(rows, 2 * g.blockSize, table[i], g.blockSize + off);
  }

  /** A log with the first n tokens of a batch written over it. */
  function Batched(logs: Logs, id: int, start: nat, ks: seq<Vec>, vs: seq<Vec>, n: nat): Logs
    requires id in logs && start <= |logs[id]| && n <= |ks| == |vs|
  {
    logs[id := Overwrite(logs[id], start, Zip(ks[..n], vs[..n]))]
  }

  lemma {:induction false} BatchStart(logs: Logs, id: int, start: nat, ks: seq<Vec>, vs: seq<Vec>)
    requires id in logs && start <= |logs[id]| && |ks| == |vs|
    ensures Batched(logs, id, start, ks, vs, 0) == logs
  {
    assert Overwrite(logs[id], start, Zip(ks[..0], vs[..0])) == logs[id];
  }

  /** One more token of a batch. */
  lemma {:induction false} BatchStep(logs: Logs, id: int, start: nat, ks: seq<Vec>, vs: seq<Vec>, n: nat)
    requires id in logs && start <= |logs[id]| && n < |ks| == |vs|
    ensures var now := Batched(logs, id, start, ks, vs, n);
            && start + n <= |now[id]|
            && now[id := Overwrite(now[id], start + n, Zip([ks[n]], [vs[n]]))] ==
               Batched(logs, id, start, ks, vs, n + 1)
  {
    assert Zip(ks[..n + 1], vs[..n + 1]) == Zip(ks[..n], vs[..n]) + Zip([ks[n]], [vs[n]]);
    OverwriteTwice(logs[id], start, Zip(ks[..n], vs[..n]), Zip([ks[n]], [vs[n]]));
  }

  lemma {:induction false} OverwriteTwice<T>(log: seq<T>, start: nat, a: seq<T>, b: seq<T>)
    requires start <= |log|
    ensures start + |a| <= |Overwrite(log, start, a)|
    ensures Overwrite(Overwrite(log, start, a), start + |a|, b) == Overwrite(log, start, a + b)
  {
    var now := Overwrite(log, start, a);
    assert now[..start + |a|] == log[..start] + a;
    assert log[..start] + a + b == log[..start] + (a + b);
    if start + |a + b| <= |log| {
      assert now[start + |a| + |b|..] == log[start + |a + b|..];
    }
  }

  lemma {:induction false} StoreStep(g: Shape, l: Layer, now: Logs, id: int, pos: nat, k: Vec, v: Vec)
    requires g.blockSize > 0 && Holds(g, l, now) && Single(l) && id in now && pos <= |now[id]|
    ensures Holds(g, Do(g, l, Store(id, pos, [k], [v])),
                  if Fits(g, l, id, pos + 1) then now[id := Overwrite(now[id], pos, Zip([k], [v]))] else now)
  {
    NeverShared(g, l, id, pos, 1);
    StoreLog(g, l, now, id, pos, k, v);
    StoreHolds(g, l, now, id, pos, [k], [v]);
  }

  lemma {:induction false} StoreLog(g: Shape, l: Layer, now: Logs, id: int, pos: nat, k: Vec, v: Vec)
    requires g.blockSize > 0 && now.Keys == l.seqs.Keys && id in now && pos <= |now[id]|
    requires Unshared(g, l, id, pos, 1)
    ensures Faithful(g, l, now, Store(id, pos, [k], [v]))
    ensures LogDo(g, l, now, Store(id, pos, [k], [v])) ==
            if Fits(g, l, id, pos + 1) then now[id := Overwrite(now[id], pos, Zip([k], [v]))] else now
  {
  }
}
