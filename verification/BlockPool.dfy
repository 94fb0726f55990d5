/** One layer of the GPU block pool (inference/runtime/gpu_block_pool.go) as a value, every operation on it, and
    what every run of operations keeps: ownership of blocks, the contents of each sequence, and the
    coherence of the block tables copied to the device. */
module BlockPool {
  import opened Arithmetic
  import opened Collections
  import opened BlockOwnership

  /** One token's key or value vector, for all heads. */
  type Vec = seq<real>

  datatype Shape = Shape(blockSize: nat, maxBlocks: nat)

  datatype Layer = Layer(blocks: Blocks, seqs: Seqs, mem: seq<Vec>)

  // ---------------------------------------------------------------- the layout of a block

  /** A physical block holds blockSize key vectors and then blockSize value vectors. */
  function Slot(bs: nat, block: nat, isValue: bool, off: nat): (i: nat)
    requires off < bs
    ensures block * (2 * bs) <= i < block * (2 * bs) + 2 * bs
  {
    block * (2 * bs) + (if isValue then bs else 0) + off
  }

  lemma {:induction false} SlotsApart(bs: nat, a: nat, b: nat)
    requires a < b
    ensures a * (2 * bs) + 2 * bs <= b * (2 * bs)
  {
    MulSucc(a, 2 * bs);
    MulMono(a + 1, b, 2 * bs);
  }

  lemma {:induction false} SlotInjective(bs: nat, a: nat, isValueA: bool, offA: nat, b: nat, isValueB: bool, offB: nat)
    requires offA < bs && offB < bs && Slot(bs, a, isValueA, offA) == Slot(bs, b, isValueB, offB)
    ensures (a, isValueA, offA) == (b, isValueB, offB)
  {
    if a < b { SlotsApart(bs, a, b); }
    if b < a { SlotsApart(bs, b, a); }
  }

  ghost predicate TableOk(g: Shape, table: seq<int>) {
    forall i :: 0 <= i < |table| ==> 0 <= table[i] < g.maxBlocks
  }

  /** Position pos of a sequence lives in logical block pos / blockSize. */
  ghost predicate Covered(g: Shape, table: seq<int>, pos: nat) {
    g.blockSize > 0 && pos / g.blockSize < |table|
  }

  ghost predicate MemOk(g: Shape, mem: seq<Vec>) {
    |mem| == g.maxBlocks * (2 * g.blockSize)
  }

  function Where(g: Shape, table: seq<int>, pos: nat, isValue: bool): (i: nat)
    requires TableOk(g, table) && Covered(g, table, pos)
    ensures i < g.maxBlocks * (2 * g.blockSize)
  {
    var block := table[pos / g.blockSize];
    SlotsApart(g.blockSize, block, g.maxBlocks);
    Slot(g.blockSize, block, isValue, pos % g.blockSize)
  }

  function CellAt(g: Shape, mem: seq<Vec>, table: seq<int>, pos: nat): (Vec, Vec)
    requires MemOk(g, mem) && TableOk(g, table) && Covered(g, table, pos)
  {
    (mem[Where(g, table, pos, false)], mem[Where(g, table, pos, true)])
  }

  /** The first n of the given tokens, scattered one by one. */
  function Scatter(g: Shape, mem: seq<Vec>, table: seq<int>, start: nat, ks: seq<Vec>, vs: seq<Vec>,
                   n: nat): (r: seq<Vec>)
    requires MemOk(g, mem) && TableOk(g, table) && n <= |ks| == |vs|
    requires forall j :: start <= j < start + n ==> Covered(g, table, j)
    ensures |r| == |mem|
    decreases n
  {
    if n == 0 then mem
    else
      var before := Scatter(g, mem, table, start, ks, vs, n - 1);
      ScatterToken(g, before, table, start + n - 1, ks[n - 1], vs[n - 1])
  }

  function ScatterToken(g: Shape, mem: seq<Vec>, table: seq<int>, pos: nat, k: Vec, v: Vec): (r: seq<Vec>)
    requires MemOk(g, mem) && TableOk(g, table) && Covered(g, table, pos)
    ensures |r| == |mem|
  {
    mem[Where(g, table, pos, false) := k][Where(g, table, pos, true) := v]
  }

  // ---------------------------------------------------------------- operations on one layer

  function Created(l: Layer, id: int): Layer {
    l.(seqs := l.seqs[id := Seq([], 0, false, None)])
  }

  function Deleted(l: Layer, id: int): Layer {
    if id in l.seqs then Layer(ReleaseAll(l.blocks, l.seqs[id].table), l.seqs - {id}, l.mem) else l
  }

  function BlocksFor(g: Shape, n: int): (k: nat)
    requires g.blockSize > 0
  {
    if n > 0 then (n - 1) / g.blockSize + 1 else 0
  }

  function Truncated(g: Shape, l: Layer, id: int, n: int): Layer
    requires g.blockSize > 0
  {
    if id !in l.seqs || n >= l.seqs[id].len then l
    else
      var s, keep := l.seqs[id], BlocksFor(g, n);
      if keep < |s.table| then
        Layer(ReleaseAll(l.blocks, s.table[keep..]),
              l.seqs[id := s.(table := s.table[..keep], len := n, dirty := true)], l.mem)
      else l.(seqs := l.seqs[id := s.(len := n)])
  }

  /** The first half of a store: blocks for all positions before endPos, as far as there are any. */
  function Reserved(g: Shape, l: Layer, id: int, endPos: int): (r: Layer)
    requires g.blockSize > 0 && id in l.seqs
    ensures r.mem == l.mem && id in r.seqs && l.seqs[id].table <= r.seqs[id].table
  {
    var s := l.seqs[id];
    var (blocks, table) := Grow(l.blocks, s.table, GoDiv(endPos - 1, g.blockSize) + 1);
    Layer(blocks, l.seqs[id := s.(table := table, dirty := s.dirty || |table| > |s.table|)], l.mem)
  }

  predicate Fits(g: Shape, l: Layer, id: int, endPos: int)
    requires g.blockSize > 0 && id in l.seqs
  {
    |Reserved(g, l, id, endPos).seqs[id].table| > GoDiv(endPos - 1, g.blockSize)
  }

  /** Every written position has a block once the reservation has succeeded. */
  lemma {:induction false} FitsCovers(g: Shape, table: seq<int>, endPos: nat, pos: nat)
    requires g.blockSize > 0 && pos < endPos && |table| > GoDiv(endPos - 1, g.blockSize)
    ensures Covered(g, table, pos)
  {
    DivMono(pos, endPos - 1, g.blockSize);
  }

  function Stored(g: Shape, l: Layer, id: int, start: nat, ks: seq<Vec>, vs: seq<Vec>): Layer
    requires g.blockSize > 0 && id in l.seqs && |ks| == |vs|
    requires MemOk(g, l.mem) && TableOk(g, Reserved(g, l, id, start + |ks|).seqs[id].table)
  {
    var endPos := start + |ks|;
    var r := Reserved(g, l, id, endPos);
    if Fits(g, l, id, endPos) then
      var s := r.seqs[id];
      assert forall j :: start <= j < endPos ==> Covered(g, s.table, j) by {
        forall j | start <= j < endPos ensures Covered(g, s.table, j) { FitsCovers(g, s.table, endPos, j); }
      }
      Layer(r.blocks, r.seqs[id := s.(len := Max(s.len, endPos))], Scatter(g, l.mem, s.table, start, ks, vs, |ks|))
    else r
  }

  /** The part of a store in another layer that shows in this one. */
  function Lengthened(l: Layer, id: int, endPos: int): Layer {
    if id in l.seqs then l.(seqs := l.seqs[id := l.seqs[id].(len := Max(l.seqs[id].len, endPos))]) else l
  }

  function SharedBlocks(g: Shape, numTokens: int): nat
    requires g.blockSize > 0
  {
    Max(0, GoDiv(numTokens + g.blockSize - 1, g.blockSize))
  }

  /** The table part of ShareBlocks. */
  function Shared(g: Shape, l: Layer, src: int, dst: int, numTokens: int): Layer
    requires g.blockSize > 0
  {
    var n := SharedBlocks(g, numTokens);
    if src in l.seqs && dst in l.seqs && n <= |l.seqs[src].table| then
      var prefix, d := l.seqs[src].table[..n], l.seqs[dst];
      Layer(RetainAll(l.blocks, prefix), l.seqs[dst := d.(table := d.table + prefix, dirty := true)], l.mem)
    else l
  }

  // ---------------------------------------------------------------- ownership

  ghost predicate Owned(g: Shape, l: Layer) {
    Balanced(l.blocks, Uses(l.seqs), g.maxBlocks) && MemOk(g, l.mem)
  }

  lemma {:induction false} OwnedTable(g: Shape, l: Layer, id: int)
    requires Owned(g, l) && id in l.seqs
    ensures TableOk(g, l.seqs[id].table)
    ensures forall i :: 0 <= i < |l.seqs[id].table| ==> l.seqs[id].table[i] in Uses(l.seqs)
  {
    UsesOf(l.seqs, id);
    forall i | 0 <= i < |l.seqs[id].table|
      ensures l.seqs[id].table[i] in Uses(l.seqs) && 0 <= l.seqs[id].table[i] < g.maxBlocks
    {
      var b := l.seqs[id].table[i];
      assert b in multiset(l.seqs[id].table);
      assert Balance(l.blocks, Uses(l.seqs), g.maxBlocks, b);
    }
  }

  /** Creating a sequence keeps ownership exactly when the id is new or its old table was empty: the blocks of
      an existing table would otherwise be lost. */
  lemma {:induction false} CreateOwnedIff(g: Shape, l: Layer, id: int)
    requires Owned(g, l)
    ensures Owned(g, Created(l, id)) <==> id !in l.seqs || l.seqs[id].table == []
  {
    var blank := Seq([], 0, false, None);
    if id !in l.seqs {
      UsesAdd(l.seqs, id, blank);
      assert Uses(l.seqs) + multiset(blank.table) == Uses(l.seqs);
    } else {
      BlankedUses(l.seqs, id, blank);
      var t := l.seqs[id].table;
      if t != [] {
        assert t[0] in multiset(t);
        assert Balance(l.blocks, Uses(l.seqs), g.maxBlocks, t[0]);
        assert !Balance(l.blocks, Uses(l.seqs[id := blank]), g.maxBlocks, t[0]);
      } else {
        assert Uses(l.seqs[id := blank]) + multiset(t) == Uses(l.seqs[id := blank]);
      }
    }
  }

  lemma {:induction false} BlankedUses(seqs: Seqs, id: int, blank: Seq)
    requires id in seqs && blank.table == []
    ensures Uses(seqs) == Uses(seqs[id := blank]) + multiset(seqs[id].table)
  {
    var t := seqs[id].table;
    assert t == blank.table + t;
    UsesExtend(seqs[id := blank], id, seqs[id], t);
    assert seqs[id := blank][id := seqs[id]] == seqs;
  }

  lemma {:induction false} DeleteOwned(g: Shape, l: Layer, id: int)
    requires Owned(g, l)
    ensures Owned(g, Deleted(l, id))
  {
    if id in l.seqs {
      UsesOf(l.seqs, id);
      var rest, mine := Uses(l.seqs - {id}), multiset(l.seqs[id].table);
      assert mine + rest == rest + mine;
      ReleaseAllBalanced(l.blocks, rest, g.maxBlocks, l.seqs[id].table);
    }
  }

  /** Changing anything but the table of a sequence does not touch ownership. */
  lemma {:induction false} SameTableOwned(g: Shape, l: Layer, id: int, s: Seq)
    requires Owned(g, l) && id in l.seqs && s.table == l.seqs[id].table
    ensures Uses(l.seqs[id := s]) == Uses(l.seqs) && Owned(g, l.(seqs := l.seqs[id := s]))
  {
    assert s.table == l.seqs[id].table + [];
    UsesExtend(l.seqs, id, s, []);
    assert Uses(l.seqs) + multiset([]) == Uses(l.seqs);
  }

  lemma {:induction false} CutUses(seqs: Seqs, id: int, cut: Seq, keep: nat)
    requires id in seqs && keep <= |seqs[id].table| && cut.table == seqs[id].table[..keep]
    ensures Uses(seqs) == Uses(seqs[id := cut]) + multiset(seqs[id].table[keep..])
  {
    var s := seqs[id];
    assert s.table == cut.table + s.table[keep..];
    UsesExtend(seqs[id := cut], id, s, s.table[keep..]);
    assert seqs[id := cut][id := s] == seqs;
  }

  lemma {:induction false} TruncateOwned(g: Shape, l: Layer, id: int, n: int)
    requires g.blockSize > 0 && Owned(g, l)
    ensures Owned(g, Truncated(g, l, id, n))
  {
    if id in l.seqs && n < l.seqs[id].len {
      var s, keep := l.seqs[id], BlocksFor(g, n);
      if keep < |s.table| {
        var cut := s.(table := s.table[..keep], len := n, dirty := true);
        CutUses(l.seqs, id, cut, keep);
        ReleaseAllBalanced(l.blocks, Uses(l.seqs[id := cut]), g.maxBlocks, s.table[keep..]);
      } else {
        SameTableOwned(g, l, id, s.(len := n));
      }
    }
  }

  lemma {:induction false} ReserveUses(g: Shape, l: Layer, id: int, endPos: int)
    requires g.blockSize > 0 && id in l.seqs
    ensures var before, r := l.seqs[id].table, Reserved(g, l, id, endPos);
            && (r.blocks, r.seqs[id].table) == Grow(l.blocks, before, GoDiv(endPos - 1, g.blockSize) + 1)
            && Uses(r.seqs) == Uses(l.seqs) + multiset(r.seqs[id].table[|before|..])
  {
    var s, r := l.seqs[id], Reserved(g, l, id, endPos);
    var t := r.seqs[id];
    assert t.table == s.table + t.table[|s.table|..];
    assert r.seqs == l.seqs[id := t];
    UsesExtend(l.seqs, id, t, t.table[|s.table|..]);
  }

  /** Reservation keeps ownership wherever it stops, and hands out blocks that nobody else uses. */
  lemma {:induction false} ReserveOwned(g: Shape, l: Layer, id: int, endPos: int)
    requires g.blockSize > 0 && Owned(g, l) && id in l.seqs
    ensures var r := Reserved(g, l, id, endPos);
            && Owned(g, r) && TableOk(g, r.seqs[id].table)
            && forall i :: |l.seqs[id].table| <= i < |r.seqs[id].table| ==> Uses(r.seqs)[r.seqs[id].table[i]] == 1
  {
    var n := GoDiv(endPos - 1, g.blockSize) + 1;
    ReserveUses(g, l, id, endPos);
    GrowBalanced(l.blocks, Uses(l.seqs), g.maxBlocks, l.seqs[id].table, n);
    GrownOnce(l.blocks, Uses(l.seqs), g.maxBlocks, l.seqs[id].table, n);
    OwnedTable(g, Reserved(g, l, id, endPos), id);
  }

  lemma {:induction false} StoreOwned(g: Shape, l: Layer, id: int, start: nat, ks: seq<Vec>, vs: seq<Vec>)
    requires g.blockSize > 0 && Owned(g, l) && id in l.seqs && |ks| == |vs|
    ensures TableOk(g, Reserved(g, l, id, start + |ks|).seqs[id].table)
    ensures Owned(g, Stored(g, l, id, start, ks, vs))
  {
    var r := Reserved(g, l, id, start + |ks|);
    ReserveOwned(g, l, id, start + |ks|);
    SameTableOwned(g, r, id, r.seqs[id].(len := Max(r.seqs[id].len, start + |ks|)));
  }

  lemma {:induction false} ShareOwned(g: Shape, l: Layer, src: int, dst: int, numTokens: int)
    requires g.blockSize > 0 && Owned(g, l)
    ensures Owned(g, Shared(g, l, src, dst, numTokens))
  {
    var n := SharedBlocks(g, numTokens);
    if src in l.seqs && dst in l.seqs && n <= |l.seqs[src].table| {
      var prefix, d := l.seqs[src].table[..n], l.seqs[dst];
      OwnedTable(g, l, src);
      forall b | b in prefix ensures b in Uses(l.seqs) { }
      RetainAllBalanced(l.blocks, Uses(l.seqs), g.maxBlocks, prefix);
      var d' := d.(table := d.table + prefix, dirty := true);
      UsesExtend(l.seqs, dst, d', prefix);
    }
  }

  // ---------------------------------------------------------------- no block too many

  /** The last of k blocks holds one of the first n positions. */
  ghost predicate Tight(g: Shape, k: int, n: int) {
    k == 0 || (k - 1) * g.blockSize < n
  }

  lemma {:induction false} LastBlockIsTight(g: Shape, n: int)
    requires g.blockSize > 0 && n > 0
    ensures Tight(g, (n - 1) / g.blockSize + 1, n)
  {
    DivBounds(n - 1, g.blockSize);
  }

  lemma {:induction false} FewerIsTight(g: Shape, j: nat, k: nat, n: int)
    requires j <= k && Tight(g, k, n)
    ensures Tight(g, j, n)
  {
    if 0 < j { MulMono(j - 1, k - 1, g.blockSize); }
  }

  /** A truncation that does anything leaves no block without a live position. */
  lemma {:induction false} TruncateIsTight(g: Shape, l: Layer, id: int, n: int)
    requires g.blockSize > 0 && id in l.seqs && n < l.seqs[id].len
    ensures var t := Truncated(g, l, id, n).seqs[id];
            t.len == n && Tight(g, |t.table|, n) && t.table <= l.seqs[id].table
  {
    if n > 0 { LastBlockIsTight(g, n); }
    FewerIsTight(g, |Truncated(g, l, id, n).seqs[id].table|, BlocksFor(g, n), n);
  }

  /** A store takes new blocks only as far as it writes. */
  lemma {:induction false} ReserveIsTight(g: Shape, l: Layer, id: int, endPos: int)
    requires g.blockSize > 0 && id in l.seqs && endPos > 0
    ensures var t := Reserved(g, l, id, endPos).seqs[id].table;
            t == l.seqs[id].table || Tight(g, |t|, endPos)
  {
    var t := Reserved(g, l, id, endPos).seqs[id].table;
    LastBlockIsTight(g, endPos);
    if t != l.seqs[id].table { FewerIsTight(g, |t|, (endPos - 1) / g.blockSize + 1, endPos); }
  }

  /** Except that storing no token at position 0 takes a block, since division truncates toward zero. */
  lemma {:induction false} EmptyStoreTakesBlock(g: Shape, l: Layer, id: int)
    requires g.blockSize > 0 && id in l.seqs && l.seqs[id].table == [] && l.blocks.free != []
    ensures |Reserved(g, l, id, 0).seqs[id].table| == if g.blockSize > 1 then 1 else 0
  {
    assert GoDiv(-1, g.blockSize) == if g.blockSize > 1 then 0 else -1 by {
      if g.blockSize > 1 { DivIs(1, 0, g.blockSize); }
    }
  }
}
