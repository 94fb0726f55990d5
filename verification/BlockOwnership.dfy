/** Reference-counted blocks of one layer of the GPU pool (inference/runtime/gpu_block_pool.go): a free list,
    the counts of the blocks in use, and one block table per sequence.

    Ownership: every physical block is either free, exactly once and with no count, or in use with a count
    equal to the number of its occurrences in all block tables. */
module BlockOwnership {
  import opened Collections
  import opened Arithmetic

  /** A layer's free list and reference counts. */
  datatype Blocks = Blocks(free: seq<int>, counts: map<int, int>)

  /** One sequence in one layer: its table, its length, and the table's copy on the device. */
  datatype Seq = Seq(table: seq<int>, len: int, dirty: bool, device: Option<seq<int>>)

  type Seqs = map<int, Seq>

  // ---------------------------------------------------------------- operations

  /** allocBlock on a nonempty free list: its last block, with count 1. */
  function Alloc(p: Blocks): (r: (int, Blocks))
    requires p.free != []
  {
    var block := p.free[|p.free| - 1];
    (block, Blocks(p.free[..|p.free| - 1], p.counts[block := 1]))
  }

  function CountOf(p: Blocks, block: int): int {
    if block in p.counts then p.counts[block] else 0
  }

  function Release(p: Blocks, block: int): Blocks {
    var rc := CountOf(p, block);
    if rc <= 1 then Blocks(p.free + [block], p.counts - {block})
    else Blocks(p.free, p.counts[block := rc - 1])
  }

  function ReleaseAll(p: Blocks, blocks: seq<int>): Blocks {
    if blocks == [] then p
    else Release(ReleaseAll(p, blocks[..|blocks| - 1]), blocks[|blocks| - 1])
  }

  function Retain(p: Blocks, block: int): Blocks {
    Blocks(p.free, p.counts[block := CountOf(p, block) + 1])
  }

  function RetainAll(p: Blocks, blocks: seq<int>): Blocks {
    if blocks == [] then p
    else Retain(RetainAll(p, blocks[..|blocks| - 1]), blocks[|blocks| - 1])
  }

  /** Extend a table to n blocks, or as far as the free list goes. */
  function Grow(p: Blocks, table: seq<int>, n: int): (r: (Blocks, seq<int>))
    ensures table <= r.1
    ensures |r.1| < n ==> r.0.free == []
    ensures n <= |table| ==> r == (p, table)
    ensures |table| <= n ==> |r.1| <= n
    decreases |p.free|
  {
    if n <= |table| || p.free == [] then (p, table)
    else
      var (block, q) := Alloc(p);
      Grow(q, table + [block], n)
  }

  // ---------------------------------------------------------------- balance against a multiset of uses

  ghost predicate Balance(p: Blocks, uses: multiset<int>, max: nat, b: int) {
    if b in p.counts then
      0 <= b < max && multiset(p.free)[b] == 0 && p.counts[b] == uses[b] && uses[b] > 0
    else
      uses[b] == 0 && multiset(p.free)[b] == (if 0 <= b < max then 1 else 0)
  }

  ghost predicate Balanced(p: Blocks, uses: multiset<int>, max: nat) {
    forall b: int {:trigger Balance(p, uses, max, b)} :: Balance(p, uses, max, b)
  }

  lemma {:induction false} AllocBalanced(p: Blocks, uses: multiset<int>, max: nat)
    requires Balanced(p, uses, max) && p.free != []
    ensures Balanced(Alloc(p).1, uses + multiset{Alloc(p).0}, max)
    ensures uses[Alloc(p).0] == 0 && 0 <= Alloc(p).0 < max
  {
    var (block, q) := Alloc(p);
    assert p.free == q.free + [block];
    assert Balance(p, uses, max, block);
    forall b: int ensures Balance(q, uses + multiset{block}, max, b) {
      assert Balance(p, uses, max, b);
    }
  }

  lemma {:induction false} ReleaseBalanced(p: Blocks, uses: multiset<int>, max: nat, block: int)
    requires Balanced(p, uses + multiset{block}, max)
    ensures Balanced(Release(p, block), uses, max)
  {
    var q := Release(p, block);
    assert Balance(p, uses + multiset{block}, max, block);
    forall b: int ensures Balance(q, uses, max, b) {
      assert Balance(p, uses + multiset{block}, max, b);
    }
  }

  lemma {:induction false} ReleaseAllBalanced(p: Blocks, uses: multiset<int>, max: nat, blocks: seq<int>)
    requires Balanced(p, uses + multiset(blocks), max)
    ensures Balanced(ReleaseAll(p, blocks), uses, max)
    decreases |blocks|
  {
    if blocks == [] {
      assert uses + multiset(blocks) == uses;
    } else {
      var front, last := blocks[..|blocks| - 1], blocks[|blocks| - 1];
      assert blocks == front + [last];
      assert uses + multiset(blocks) == (uses + multiset{last}) + multiset(front);
      ReleaseAllBalanced(p, uses + multiset{last}, max, front);
      ReleaseBalanced(ReleaseAll(p, front), uses, max, last);
    }
  }

  lemma {:induction false} RetainBalanced(p: Blocks, uses: multiset<int>, max: nat, block: int)
    requires Balanced(p, uses, max) && block in uses
    ensures Balanced(Retain(p, block), uses + multiset{block}, max)
  {
    var q := Retain(p, block);
    assert Balance(p, uses, max, block);
    forall b: int ensures Balance(q, uses + multiset{block}, max, b) {
      assert Balance(p, uses, max, b);
    }
  }

  lemma {:induction false} RetainAllBalanced(p: Blocks, uses: multiset<int>, max: nat, blocks: seq<int>)
    requires Balanced(p, uses, max) && forall b :: b in blocks ==> b in uses
    ensures Balanced(RetainAll(p, blocks), uses + multiset(blocks), max)
  {
    if blocks == [] {
      assert uses + multiset(blocks) == uses;
    } else {
      var front, last := blocks[..|blocks| - 1], blocks[|blocks| - 1];
      assert blocks == front + [last];
      assert uses + multiset(blocks) == (uses + multiset(front)) + multiset{last};
      RetainAllBalanced(p, uses, max, front);
      assert last in uses;
      RetainBalanced(RetainAll(p, front), uses + multiset(front), max, last);
    }
  }

  /** Growing stays balanced even when the free list runs out, and new blocks were in no table. */
  lemma {:induction false} GrowBalanced(p: Blocks, uses: multiset<int>, max: nat, table: seq<int>, n: int)
    requires Balanced(p, uses, max)
    ensures var (q, grown) := Grow(p, table, n);
            && Balanced(q, uses + multiset(grown[|table|..]), max)
            && (forall i, j :: |table| <= i < |grown| && |table| <= j < |grown| && i != j ==> grown[i] != grown[j])
            && (forall i :: |table| <= i < |grown| ==> uses[grown[i]] == 0 && 0 <= grown[i] < max)
    decreases |p.free|
  {
    var (q, grown) := Grow(p, table, n);
    if n <= |table| || p.free == [] {
      assert grown[|table|..] == [];
      assert uses + multiset(grown[|table|..]) == uses;
    } else {
      var (block, p') := Alloc(p);
      AllocBalanced(p, uses, max);
      GrowBalanced(p', uses + multiset{block}, max, table + [block], n);
      assert grown[|table|] == (table + [block])[|table|] == block;
      assert grown[|table|..] == [block] + grown[|table| + 1..];
      assert uses + multiset(grown[|table|..]) == uses + multiset{block} + multiset(grown[|table| + 1..]);
      forall i | |table| < i < |grown| ensures grown[i] != block {
        assert (uses + multiset{block})[grown[i]] == 0;
      }
    }
  }

  lemma {:induction false} GrownOnce(p: Blocks, uses: multiset<int>, max: nat, table: seq<int>, n: int)
    requires Balanced(p, uses, max)
    ensures var grown := Grow(p, table, n).1;
            forall i :: |table| <= i < |grown| ==> (uses + multiset(grown[|table|..]))[grown[i]] == 1
  {
    GrowBalanced(p, uses, max, table, n);
    var grown := Grow(p, table, n).1;
    forall i | |table| <= i < |grown| ensures (uses + multiset(grown[|table|..]))[grown[i]] == 1 {
      OnceInTail(grown, |table|, i);
    }
  }

  lemma {:induction false} TailAvoids(uses: multiset<int>, t: seq<int>, from: nat, b: int)
    requires from <= |t| && b in uses && forall i :: from <= i < |t| ==> uses[t[i]] == 0
    ensures multiset(t[from..])[b] == 0
  {
    assert b !in t[from..];
  }

  lemma {:induction false} OnceInTail(t: seq<int>, from: nat, i: nat)
    requires from <= i < |t| && forall j, k :: from <= j < |t| && from <= k < |t| && j != k ==> t[j] != t[k]
    ensures multiset(t[from..])[t[i]] == 1
  {
    var tail := t[from..];
    var k := i - from;
    assert tail == tail[..k] + [tail[k]] + tail[k + 1..];
    assert t[i] !in tail[..k] && t[i] !in tail[k + 1..];
  }

  // ---------------------------------------------------------------- all uses in all tables

  ghost function Uses(seqs: Seqs): multiset<int>
    decreases |seqs|
  {
    if seqs.Keys == {} then multiset{}
    else multiset(seqs[AnyKey(seqs)].table) + Uses(seqs - {AnyKey(seqs)})
  }

  ghost function AnyKey(seqs: Seqs): (id: int)
    requires seqs.Keys != {}
    ensures id in seqs
  {
    var keys := seqs.Keys;
    EmptyOrNot(keys);
    var id :| id in keys;
    id
  }

  /** Any sequence can be taken out first. */
  lemma {:induction false} UsesOf(seqs: Seqs, id: int)
    requires id in seqs
    ensures Uses(seqs) == multiset(seqs[id].table) + Uses(seqs - {id})
    decreases |seqs|
  {
    var first := AnyKey(seqs);
    if first != id {
      var without := seqs - {first};
      UsesOf(without, id);
      assert without - {id} == (seqs - {id}) - {first};
      UsesOf(seqs - {id}, first);
    }
  }

  lemma {:induction false} Regroup(a: multiset<int>, b: multiset<int>, c: multiset<int>)
    ensures (a + b) + c == (a + c) + b
  {
  }

  /** What the uses become when a table is extended, or read backwards, cut. */
  lemma {:induction false} UsesExtend(seqs: Seqs, id: int, s: Seq, added: seq<int>)
    requires id in seqs && s.table == seqs[id].table + added
    ensures Uses(seqs[id := s]) == Uses(seqs) + multiset(added)
  {
    UsesOf(seqs, id);
    UsesOf(seqs[id := s], id);
    assert seqs[id := s] - {id} == seqs - {id};
    Regroup(multiset(seqs[id].table), multiset(added), Uses(seqs - {id}));
  }

  lemma {:induction false} UsesAdd(seqs: Seqs, id: int, s: Seq)
    requires id !in seqs
    ensures Uses(seqs[id := s]) == Uses(seqs) + multiset(s.table)
  {
    UsesOf(seqs[id := s], id);
    assert seqs[id := s] - {id} == seqs;
  }

  /** A block used once is in one table, at one place. */
  lemma {:induction false} UsedOnce(seqs: Seqs, id: int, i: nat, id': int, i': nat)
    requires id in seqs && i < |seqs[id].table| && id' in seqs && i' < |seqs[id'].table|
    requires seqs[id].table[i] == seqs[id'].table[i'] && (id, i) != (id', i')
    ensures Uses(seqs)[seqs[id].table[i]] > 1
  {
    UsesOf(seqs, id);
    if id == id' {
      TwiceInTable(seqs[id].table, if i < i' then i else i', if i < i' then i' else i);
    } else {
      UsesOf(seqs - {id}, id');
      assert seqs[id].table[i] in seqs[id'].table;
    }
  }

  lemma {:induction false} TwiceInTable(t: seq<int>, i: nat, j: nat)
    requires i < j < |t| && t[i] == t[j]
    ensures multiset(t)[t[i]] > 1
  {
    assert t == t[..j] + t[j..];
    assert t[i] in t[..j] && t[j] in t[j..];
  }
}
