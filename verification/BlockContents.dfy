/** What the sequences of a layer of the GPU block pool contain: over every run, each sequence reads back exactly
    what a plain token log would, as long as the blocks written to are not shared. */
module BlockContents {
  import opened Arithmetic
  import opened Collections
  import opened BlockOwnership
  import opened BlockPool

  // ---------------------------------------------------------------- no two positions share a cell

  /** The block of this position is in one table, at one place. */
  ghost predicate Alone(g: Shape, seqs: Seqs, id: int, p: nat) {
    id in seqs && Covered(g, seqs[id].table, p) && Uses(seqs)[seqs[id].table[p / g.blockSize]] == 1
  }

  lemma {:induction false} Apart(g: Shape, seqs: Seqs, id: int, p: nat, x: bool, id': int, p': nat, y: bool)
    requires Alone(g, seqs, id, p) && id' in seqs && (id, p) != (id', p')
    requires Covered(g, seqs[id'].table, p') && TableOk(g, seqs[id].table) && TableOk(g, seqs[id'].table)
    ensures Where(g, seqs[id].table, p, x) != Where(g, seqs[id'].table, p', y)
  {
    var i, off := Locate(g, seqs[id].table, p, x);
    var i', off' := Locate(g, seqs[id'].table, p', y);
    SamePosition(p, p', g.blockSize);
    SlotsDiffer(g.blockSize, seqs, id, i, off, x, id', i', off', y);
  }

  lemma {:induction false} Locate(g: Shape, table: seq<int>, p: nat, x: bool) returns (i: nat, off: nat)
    requires TableOk(g, table) && Covered(g, table, p)
    ensures i == p / g.blockSize < |table| && off == p % g.blockSize < g.blockSize && table[i] >= 0
    ensures Where(g, table, p, x) == Slot(g.blockSize, table[i], x, off)
  {
    i, off := p / g.blockSize, p % g.blockSize;
  }

  lemma {:induction false} SamePosition(p: nat, q: nat, bs: nat)
    requires bs > 0
    ensures p / bs == q / bs && p % bs == q % bs ==> p == q
    ensures p % bs < bs && q % bs < bs
  {
    DivBounds(p, bs);
    DivBounds(q, bs);
  }

  lemma {:induction false} SlotsDiffer(bs: nat, seqs: Seqs, id: int, i: nat, off: nat, x: bool,
                                       id': int, i': nat, off': nat, y: bool)
    requires id in seqs && i < |seqs[id].table| && id' in seqs && i' < |seqs[id'].table| && off < bs && off' < bs
    requires seqs[id].table[i] >= 0 && seqs[id'].table[i'] >= 0
    requires Uses(seqs)[seqs[id].table[i]] == 1 && (id, i, off) != (id', i', off')
    ensures Slot(bs, seqs[id].table[i], x, off) != Slot(bs, seqs[id'].table[i'], y, off')
  {
    if Slot(bs, seqs[id].table[i], x, off) == Slot(bs, seqs[id'].table[i'], y, off') {
      SlotInjective(bs, seqs[id].table[i], x, off, seqs[id'].table[i'], y, off');
      OnlyPlace(seqs, id, i, id', i');
      assert false;
    }
  }

  lemma {:induction false} OnlyPlace(seqs: Seqs, id: int, i: nat, id': int, i': nat)
    requires id in seqs && i < |seqs[id].table| && id' in seqs && i' < |seqs[id'].table|
    requires seqs[id].table[i] == seqs[id'].table[i'] && Uses(seqs)[seqs[id].table[i]] == 1
    ensures (id, i) == (id', i')
  {
    if (id, i) != (id', i') {
      UsedOnce(seqs, id, i, id', i');
      assert false;
    }
  }

  lemma {:induction false} KeyAndValueApart(g: Shape, table: seq<int>, p: nat)
    requires TableOk(g, table) && Covered(g, table, p)
    ensures Where(g, table, p, false) != Where(g, table, p, true)
  {
  }

  /** A cell that is no destination keeps its contents. */
  lemma {:induction false} ScatterMisses(g: Shape, mem: seq<Vec>, table: seq<int>, start: nat, ks: seq<Vec>,
                                         vs: seq<Vec>, n: nat, i: nat)
    requires MemOk(g, mem) && TableOk(g, table) && n <= |ks| == |vs| && i < |mem|
    requires forall j :: start <= j < start + n ==> Covered(g, table, j)
    requires forall j, x :: start <= j < start + n ==> i != Where(g, table, j, x)
    ensures Scatter(g, mem, table, start, ks, vs, n)[i] == mem[i]
    decreases n
  {
    if n > 0 {
      ScatterMisses(g, mem, table, start, ks, vs, n - 1, i);
      assert i != Where(g, table, start + n - 1, false) && i != Where(g, table, start + n - 1, true);
    }
  }

  /** A destination that no later token is scattered to holds its token. */
  lemma {:induction false} ScatterHits(g: Shape, mem: seq<Vec>, table: seq<int>, start: nat, ks: seq<Vec>, vs: seq<Vec>,
                                       n: nat, p: nat)
    requires MemOk(g, mem) && TableOk(g, table) && n <= |ks| == |vs| && start <= p < start + n
    requires forall j :: start <= j < start + n ==> Covered(g, table, j)
    requires forall j, x, y :: p < j < start + n ==> Where(g, table, p, x) != Where(g, table, j, y)
    ensures CellAt(g, Scatter(g, mem, table, start, ks, vs, n), table, p) == (ks[p - start], vs[p - start])
    decreases n
  {
    KeyAndValueApart(g, table, p);
    if p < start + n - 1 {
      ScatterHits(g, mem, table, start, ks, vs, n - 1, p);
      var last := start + n - 1;
      assert Where(g, table, p, false) != Where(g, table, last, false);
      assert Where(g, table, p, false) != Where(g, table, last, true);
      assert Where(g, table, p, true) != Where(g, table, last, false);
      assert Where(g, table, p, true) != Where(g, table, last, true);
    }
  }

  // ---------------------------------------------------------------- one store

  /** The blocks a store overwrites have reference count 1; the pool has no copy-on-write. */
  ghost predicate Unshared(g: Shape, l: Layer, id: int, start: nat, n: nat)
    requires id in l.seqs && g.blockSize > 0
  {
    forall p :: start <= p < start + n && Covered(g, l.seqs[id].table, p) ==>
      CountOf(l.blocks, l.seqs[id].table[p / g.blockSize]) == 1
  }

  lemma {:induction false} WrittenAlone(g: Shape, l: Layer, id: int, start: nat, n: nat, p: nat)
    requires g.blockSize > 0 && Owned(g, l) && id in l.seqs && Unshared(g, l, id, start, n)
    requires start <= p < start + n && Fits(g, l, id, start + n)
    ensures Alone(g, Reserved(g, l, id, start + n).seqs, id, p)
  {
    var r := Reserved(g, l, id, start + n);
    var before, table := l.seqs[id].table, r.seqs[id].table;
    var i := p / g.blockSize;
    FitsCovers(g, table, start + n, p);
    if i < |before| {
      assert Covered(g, before, p) && table[i] == before[i];
      OldBlockUses(g, l, id, start + n, i);
    } else {
      ReserveOwned(g, l, id, start + n);
    }
  }

  /** A reservation does not change how often an old block is used. */
  lemma {:induction false} OldBlockUses(g: Shape, l: Layer, id: int, endPos: int, i: nat)
    requires g.blockSize > 0 && Owned(g, l) && id in l.seqs && i < |l.seqs[id].table|
    ensures var b := l.seqs[id].table[i];
            Uses(Reserved(g, l, id, endPos).seqs)[b] == Uses(l.seqs)[b] == CountOf(l.blocks, b)
  {
    var before := l.seqs[id].table;
    var b := before[i];
    ReserveUses(g, l, id, endPos);
    GrowBalanced(l.blocks, Uses(l.seqs), g.maxBlocks, before, GoDiv(endPos - 1, g.blockSize) + 1);
    OwnedTable(g, l, id);
    var table := Reserved(g, l, id, endPos).seqs[id].table;
    TailAvoids(Uses(l.seqs), table, |before|, b);
    assert Balance(l.blocks, Uses(l.seqs), g.maxBlocks, b);
  }

  /** What every cell of every sequence holds after a successful unshared store. */
  lemma {:induction false} StoreCells(g: Shape, l: Layer, id: int, start: nat, ks: seq<Vec>, vs: seq<Vec>, id': int,
                                      p: nat)
    requires g.blockSize > 0 && Owned(g, l) && id in l.seqs && |ks| == |vs| && Unshared(g, l, id, start, |ks|)
    requires Fits(g, l, id, start + |ks|) && id' in l.seqs
    requires Covered(g, Reserved(g, l, id, start + |ks|).seqs[id'].table, p)
    ensures var r := Reserved(g, l, id, start + |ks|);
            && TableOk(g, r.seqs[id].table) && TableOk(g, r.seqs[id'].table)
            && var after := Stored(g, l, id, start, ks, vs);
            && after.seqs[id'].table == r.seqs[id'].table && MemOk(g, after.mem)
            && CellAt(g, after.mem, r.seqs[id'].table, p) ==
               if id' == id && start <= p < start + |ks| then (ks[p - start], vs[p - start])
               else CellAt(g, l.mem, r.seqs[id'].table, p)
  {
    var n := |ks|;
    var r := Reserved(g, l, id, start + n);
    StoreOwned(g, l, id, start, ks, vs);
    ReserveOwned(g, l, id, start + n);
    OwnedTable(g, r, id');
    var table, table' := r.seqs[id].table, r.seqs[id'].table;
    forall j | start <= j < start + n ensures Covered(g, table, j) && Alone(g, r.seqs, id, j) {
      WrittenAlone(g, l, id, start, n, j);
    }
    if id' == id && start <= p < start + n {
      forall j, x, y | p < j < start + n ensures Where(g, table, p, x) != Where(g, table, j, y) {
        Apart(g, r.seqs, id, p, x, id, j, y);
      }
      ScatterHits(g, l.mem, table, start, ks, vs, n, p);
    } else {
      forall j, x, y | start <= j < start + n ensures Where(g, table', p, y) != Where(g, table, j, x) {
        Apart(g, r.seqs, id, j, x, id', p, y);
      }
      ScatterMisses(g, l.mem, table, start, ks, vs, n, Where(g, table', p, false));
      ScatterMisses(g, l.mem, table, start, ks, vs, n, Where(g, table', p, true));
    }
  }

  // ---------------------------------------------------------------- exactly when a store shows elsewhere

  /** One of n positions from start has, by the table, the very cells of position p of another table. */
  ghost predicate Hits(g: Shape, table: seq<int>, start: nat, n: nat, table': seq<int>, p: nat)
    requires Covered(g, table', p)
  {
    exists j :: start <= j < start + n && Covered(g, table, j) && SameCell(g, table, j, table', p)
  }

  ghost predicate SameCell(g: Shape, table: seq<int>, j: nat, table': seq<int>, p: nat)
    requires Covered(g, table, j) && Covered(g, table', p)
  {
    table[j / g.blockSize] == table'[p / g.blockSize] && j % g.blockSize == p % g.blockSize
  }

  lemma {:induction false} SameCellIff(g: Shape, table: seq<int>, j: nat, x: bool, table': seq<int>, p: nat, y: bool)
    requires TableOk(g, table) && TableOk(g, table') && Covered(g, table, j) && Covered(g, table', p)
    ensures Where(g, table, j, x) == Where(g, table', p, y) <==> SameCell(g, table, j, table', p) && x == y
  {
    var i, off := Locate(g, table, j, x);
    var i', off' := Locate(g, table', p, y);
    if Where(g, table, j, x) == Where(g, table', p, y) {
      SlotInjective(g.blockSize, table[i], x, off, table'[i'], y, off');
    }
  }

  ghost predicate StoreBeside(g: Shape, l: Layer, id: int, endPos: nat, id': int) {
    g.blockSize > 0 && Owned(g, l) && id in l.seqs && id' in l.seqs && id' != id && Fits(g, l, id, endPos)
  }

  /** What another sequence reads at position p is the same after the store as before. */
  ghost predicate Survives(g: Shape, l: Layer, id: int, start: nat, ks: seq<Vec>, vs: seq<Vec>, id': int, p: nat)
    requires |ks| == |vs| && StoreBeside(g, l, id, start + |ks|, id') && Covered(g, l.seqs[id'].table, p)
  {
    StoreOwned(g, l, id, start, ks, vs);
    OwnedTable(g, l, id');
    CellAt(g, Stored(g, l, id, start, ks, vs).mem, l.seqs[id'].table, p) == CellAt(g, l.mem, l.seqs[id'].table, p)
  }

  /** Blocks the store takes are not in the other table. */
  lemma {:induction false} WritesElsewhere(g: Shape, l: Layer, id: int, start: nat, n: nat, id': int, p: nat, j: nat,
                                           x: bool, y: bool)
    requires StoreBeside(g, l, id, start + n, id') && Covered(g, l.seqs[id'].table, p) && start <= j < start + n
    requires !Hits(g, l.seqs[id].table, start, n, l.seqs[id'].table, p)
    ensures var table := Reserved(g, l, id, start + n).seqs[id].table;
            && TableOk(g, table) && TableOk(g, l.seqs[id'].table) && Covered(g, table, j)
            && Where(g, table, j, x) != Where(g, l.seqs[id'].table, p, y)
  {
    var r := Reserved(g, l, id, start + n);
    var before, table, table' := l.seqs[id].table, r.seqs[id].table, l.seqs[id'].table;
    ReserveOwned(g, l, id, start + n);
    OwnedTable(g, l, id');
    FitsCovers(g, table, start + n, j);
    if Covered(g, before, j) {
      SameCellIff(g, table, j, x, table', p, y);
      assert !SameCell(g, before, j, table', p);
    } else {
      assert r.seqs[id'] == l.seqs[id'];
      Apart(g, r.seqs, id, j, x, id', p, y);
    }
  }

  /** If all tokens are the same, every destination holds it. */
  lemma {:induction false} ScatterSame(g: Shape, mem: seq<Vec>, table: seq<int>, start: nat, ks: seq<Vec>, n: nat,
                                       x: Vec, j: nat)
    requires MemOk(g, mem) && TableOk(g, table) && n <= |ks| && start <= j < start + n
    requires forall i :: start <= i < start + n ==> Covered(g, table, i)
    requires forall i :: 0 <= i < |ks| ==> ks[i] == x
    ensures Scatter(g, mem, table, start, ks, ks, n)[Where(g, table, j, false)] == x
    decreases n
  {
    if j < start + n - 1 { ScatterSame(g, mem, table, start, ks, n - 1, x, j); }
  }

  lemma {:induction false} SurvivesIs(g: Shape, l: Layer, id: int, start: nat, ks: seq<Vec>, vs: seq<Vec>, id': int,
                                      p: nat)
    requires |ks| == |vs| && StoreBeside(g, l, id, start + |ks|, id') && Covered(g, l.seqs[id'].table, p)
    ensures var table, table' := Reserved(g, l, id, start + |ks|).seqs[id].table, l.seqs[id'].table;
            && MemOk(g, l.mem) && TableOk(g, table) && TableOk(g, table')
            && (forall j :: start <= j < start + |ks| ==> Covered(g, table, j))
            && (Survives(g, l, id, start, ks, vs, id', p) <==>
                CellAt(g, Scatter(g, l.mem, table, start, ks, vs, |ks|), table', p) == CellAt(g, l.mem, table', p))
  {
    StoreOwned(g, l, id, start, ks, vs);
    OwnedTable(g, l, id');
    AllCovered(g, Reserved(g, l, id, start + |ks|).seqs[id].table, start, start + |ks|);
  }

  /** A store that changes the cell of a position that is hit. */
  lemma {:induction false} ScatterChanges(g: Shape, mem: seq<Vec>, table: seq<int>, start: nat, n: nat,
                                          table': seq<int>, p: nat, j: nat) returns (ks: seq<Vec>)
    requires MemOk(g, mem) && TableOk(g, table) && TableOk(g, table') && Covered(g, table', p)
    requires forall i :: start <= i < start + n ==> Covered(g, table, i)
    requires start <= j < start + n && Where(g, table, j, false) == Where(g, table', p, false)
    ensures |ks| == n && CellAt(g, Scatter(g, mem, table, start, ks, ks, n), table', p) != CellAt(g, mem, table', p)
  {
    var x := mem[Where(g, table', p, false)] + [0.0];
    ks := seq(n, i => x);
    ScatterSame(g, mem, table, start, ks, n, x, j);
    assert |x| != |mem[Where(g, table', p, false)]|;
  }

  lemma {:induction false} HitShows(g: Shape, l: Layer, id: int, start: nat, n: nat, id': int, p: nat)
    returns (ks: seq<Vec>)
    requires StoreBeside(g, l, id, start + n, id') && Covered(g, l.seqs[id'].table, p)
    requires Hits(g, l.seqs[id].table, start, n, l.seqs[id'].table, p)
    ensures |ks| == n && !Survives(g, l, id, start, ks, ks, id', p)
  {
    var none: seq<Vec> := seq(n, i => []);
    SurvivesIs(g, l, id, start, none, none, id', p);
    var before, table, table' := l.seqs[id].table, Reserved(g, l, id, start + n).seqs[id].table, l.seqs[id'].table;
    var j := HitPlace(g, before, table, start, n, table', p);
    ks := ScatterChanges(g, l.mem, table, start, n, table', p, j);
    SurvivesIs(g, l, id, start, ks, ks, id', p);
  }

  lemma {:induction false} HitPlace(g: Shape, before: seq<int>, table: seq<int>, start: nat, n: nat,
                                    table': seq<int>, p: nat) returns (j: nat)
    requires TableOk(g, table) && TableOk(g, table') && before <= table && Covered(g, table', p)
    requires Hits(g, before, start, n, table', p)
    ensures start <= j < start + n && Covered(g, table, j)
    ensures Where(g, table, j, false) == Where(g, table', p, false)
  {
    j :| start <= j < start + n && Covered(g, before, j) && SameCell(g, before, j, table', p);
    BeforeExtension(g, before, table, j);
    SameCellIff(g, table, j, false, table', p, false);
  }

  /** A longer table has the same block for a position the shorter one covers. */
  lemma {:induction false} BeforeExtension(g: Shape, before: seq<int>, table: seq<int>, p: nat)
    requires before <= table && Covered(g, before, p)
    ensures Covered(g, table, p) && table[p / g.blockSize] == before[p / g.blockSize]
  {
  }

  lemma {:induction false} ScatterKeeps(g: Shape, mem: seq<Vec>, table: seq<int>, start: nat, ks: seq<Vec>,
                                        vs: seq<Vec>, table': seq<int>, p: nat)
    requires MemOk(g, mem) && TableOk(g, table) && TableOk(g, table') && Covered(g, table', p) && |ks| == |vs|
    requires forall j :: start <= j < start + |ks| ==> Covered(g, table, j)
    requires forall j, x, y :: start <= j < start + |ks| ==> Where(g, table, j, x) != Where(g, table', p, y)
    ensures CellAt(g, Scatter(g, mem, table, start, ks, vs, |ks|), table', p) == CellAt(g, mem, table', p)
  {
    ScatterMisses(g, mem, table, start, ks, vs, |ks|, Where(g, table', p, false));
    ScatterMisses(g, mem, table, start, ks, vs, |ks|, Where(g, table', p, true));
  }

  lemma {:induction false} MissSurvives(g: Shape, l: Layer, id: int, start: nat, ks: seq<Vec>, vs: seq<Vec>, id': int,
                                        p: nat)
    requires |ks| == |vs| && StoreBeside(g, l, id, start + |ks|, id') && Covered(g, l.seqs[id'].table, p)
    requires !Hits(g, l.seqs[id].table, start, |ks|, l.seqs[id'].table, p)
    ensures Survives(g, l, id, start, ks, vs, id', p)
  {
    SurvivesIs(g, l, id, start, ks, vs, id', p);
    var table, table' := Reserved(g, l, id, start + |ks|).seqs[id].table, l.seqs[id'].table;
    forall j, x, y | start <= j < start + |ks| ensures Where(g, table, j, x) != Where(g, table', p, y) {
      WritesElsewhere(g, l, id, start, |ks|, id', p, j, x, y);
    }
    ScatterKeeps(g, l.mem, table, start, ks, vs, table', p);
  }

  /** A position of another sequence is safe from every store of n tokens exactly when none of the positions
      written, as far as the table covers them already, has its block and its place in the block. */
  lemma {:induction false} SurvivesIff(g: Shape, l: Layer, id: int, start: nat, n: nat, id': int, p: nat)
    requires StoreBeside(g, l, id, start + n, id') && Covered(g, l.seqs[id'].table, p)
    ensures (forall ks, vs :: |ks| == n && |vs| == n ==> Survives(g, l, id, start, ks, vs, id', p)) <==>
            !Hits(g, l.seqs[id].table, start, n, l.seqs[id'].table, p)
  {
    if Hits(g, l.seqs[id].table, start, n, l.seqs[id'].table, p) {
      var ks := HitShows(g, l, id, start, n, id', p);
    } else {
      forall ks, vs | |ks| == n && |vs| == n ensures Survives(g, l, id, start, ks, vs, id', p) {
        MissSurvives(g, l, id, start, ks, vs, id', p);
      }
    }
  }

  // ---------------------------------------------------------------- every operation against a token log

  type Logs = map<int, seq<(Vec, Vec)>>

  /** What can happen to a layer.  Stores of the same pass in other layers show here only in the length, and a
      share that fails in a later layer has still extended the table here. */
  datatype Op =
    | Create(id: int)
    | Delete(id: int)
    | Truncate(id: int, n: int)
    | Store(id: int, start: nat, ks: seq<Vec>, vs: seq<Vec>)
    | StoreElsewhere(id: int, endPos: int)
    | Share(src: int, dst: int, numTokens: int, complete: bool)

  ghost predicate Allowed(g: Shape, l: Layer, op: Op) {
    match op
    case Create(id) => id !in l.seqs
    case Store(id, _, ks, vs) => id in l.seqs && |ks| == |vs|
    case _ => true
  }

  ghost function Do(g: Shape, l: Layer, op: Op): (r: Layer)
    requires g.blockSize > 0 && Owned(g, l) && Allowed(g, l, op)
    ensures Owned(g, r)
  {
    match op
    case Create(id) => CreateOwnedIff(g, l, id); Created(l, id)
    case Delete(id) => DeleteOwned(g, l, id); Deleted(l, id)
    case Truncate(id, n) => TruncateOwned(g, l, id, n); Truncated(g, l, id, n)
    case Store(id, start, ks, vs) => StoreOwned(g, l, id, start, ks, vs); Stored(g, l, id, start, ks, vs)
    case StoreElsewhere(id, endPos) => LengthenedOwned(g, l, id, endPos); Lengthened(l, id, endPos)
    case Share(src, dst, numTokens, complete) =>
      ShareOwned(g, l, src, dst, numTokens);
      var r := Shared(g, l, src, dst, numTokens);
      LengthenedOwned(g, r, dst, numTokens);
      if complete && src in l.seqs then Lengthened(r, dst, numTokens) else r
  }

  lemma {:induction false} LengthenedOwned(g: Shape, l: Layer, id: int, endPos: int)
    requires Owned(g, l)
    ensures Owned(g, Lengthened(l, id, endPos))
  {
    if id in l.seqs {
      SameTableOwned(g, l, id, l.seqs[id].(len := Max(l.seqs[id].len, endPos)));
    }
  }

  /** A store as reservation and then writing. */
  ghost function WrittenLayer(g: Shape, l: Layer, id: int, start: nat, ks: seq<Vec>, vs: seq<Vec>): Layer
    requires g.blockSize > 0 && Owned(g, l) && id in l.seqs && |ks| == |vs|
  {
    var endPos := start + |ks|;
    var r := Reserved(g, l, id, endPos);
    ReserveOwned(g, l, id, endPos);
    if Fits(g, l, id, endPos) then
      AllCovered(g, r.seqs[id].table, start, endPos);
      Lengthened(r, id, endPos).(mem := Scatter(g, l.mem, r.seqs[id].table, start, ks, vs, |ks|))
    else r
  }

  lemma {:induction false} DoStore(g: Shape, l: Layer, id: int, start: nat, ks: seq<Vec>, vs: seq<Vec>)
    requires g.blockSize > 0 && Owned(g, l) && id in l.seqs && |ks| == |vs|
    ensures Do(g, l, Store(id, start, ks, vs)) == WrittenLayer(g, l, id, start, ks, vs)
  {
  }

  lemma {:induction false} AllCovered(g: Shape, table: seq<int>, start: nat, endPos: nat)
    requires g.blockSize > 0 && |table| > GoDiv(endPos - 1, g.blockSize)
    ensures forall j :: start <= j < endPos ==> Covered(g, table, j)
  {
    forall j | start <= j < endPos ensures Covered(g, table, j) { FitsCovers(g, table, endPos, j); }
  }

  function Zip(ks: seq<Vec>, vs: seq<Vec>): (r: seq<(Vec, Vec)>)
    requires |ks| == |vs|
    ensures |r| == |ks| && forall i :: 0 <= i < |r| ==> r[i] == (ks[i], vs[i])
  {
    seq(|ks|, i requires 0 <= i < |ks| => (ks[i], vs[i]))
  }

  function Overwrite<T>(log: seq<T>, start: nat, tokens: seq<T>): seq<T>
    requires start <= |log|
  {
    log[..start] + tokens + if start + |tokens| <= |log| then log[start + |tokens|..] else []
  }

  function Clamp(n: int, len: nat): (r: nat)
    ensures r <= len
  {
    if n < 0 then 0 else if n > len then len else n
  }

  /** The conditions under which the pool behaves like a log: stores leave no gap and write to unshared
      blocks, and a prefix is shared with an empty sequence from tokens that are there. */
  ghost predicate Faithful(g: Shape, l: Layer, logs: Logs, op: Op)
    requires g.blockSize > 0
  {
    && logs.Keys == l.seqs.Keys
    && Allowed(g, l, op)
    && match op
       case Store(id, start, ks, _) => start <= |logs[id]| && Unshared(g, l, id, start, |ks|)
       case Share(src, dst, numTokens, complete) =>
         src in logs && dst in logs && complete ==> l.seqs[dst].table == [] && numTokens <= |logs[src]|
       case _ => true
  }

  function CutLog(logs: Logs, id: int, n: int): Logs {
    if id in logs then logs[id := logs[id][..Clamp(n, |logs[id]|)]] else logs
  }

  /** The log specification: no blocks, no counts, no memory. */
  ghost function LogDo(g: Shape, l: Layer, logs: Logs, op: Op): Logs
    requires g.blockSize > 0 && Faithful(g, l, logs, op)
  {
    match op
    case Create(id) => logs[id := []]
    case Delete(id) => logs - {id}
    case Truncate(id, n) => CutLog(logs, id, n)
    case Store(id, start, ks, vs) =>
      if Fits(g, l, id, start + |ks|) then logs[id := Overwrite(logs[id], start, Zip(ks, vs))] else logs
    case StoreElsewhere(_, _) => logs
    case Share(src, dst, numTokens, complete) =>
      if src in logs && dst in logs && complete then logs[dst := logs[src][..Clamp(numTokens, |logs[src]|)]] else logs
  }

  /** Reading a sequence position by position gives its log. */
  ghost predicate Reads(g: Shape, mem: seq<Vec>, table: seq<int>, log: seq<(Vec, Vec)>)
    requires MemOk(g, mem) && TableOk(g, table)
  {
    forall p :: 0 <= p < |log| ==> Covered(g, table, p) && CellAt(g, mem, table, p) == log[p]
  }

  ghost predicate Holds(g: Shape, l: Layer, logs: Logs) {
    && Owned(g, l) && logs.Keys == l.seqs.Keys
    && forall id :: id in logs ==> HoldsFor(g, l, logs[id], id)
  }

  ghost predicate HoldsFor(g: Shape, l: Layer, log: seq<(Vec, Vec)>, id: int) {
    && id in l.seqs && MemOk(g, l.mem) && TableOk(g, l.seqs[id].table)
    && |log| <= Max(0, l.seqs[id].len) && Reads(g, l.mem, l.seqs[id].table, log)
  }

  ghost predicate StoreFits(g: Shape, l: Layer, id: int, start: nat, ks: seq<Vec>, vs: seq<Vec>) {
    && g.blockSize > 0 && Owned(g, l) && id in l.seqs && |ks| == |vs|
    && Unshared(g, l, id, start, |ks|) && Fits(g, l, id, start + |ks|)
  }

  lemma {:induction false} OverwriteAt<T>(log: seq<T>, start: nat, tokens: seq<T>, p: nat)
    requires start <= |log| && p < |Overwrite(log, start, tokens)|
    ensures if start <= p < start + |tokens| then Overwrite(log, start, tokens)[p] == tokens[p - start]
            else p < |log| && Overwrite(log, start, tokens)[p] == log[p]
  {
  }

  lemma {:induction false} WrittenCell(g: Shape, l: Layer, id: int, start: nat, ks: seq<Vec>, vs: seq<Vec>, p: nat)
    requires StoreFits(g, l, id, start, ks, vs) && start <= p < start + |ks|
    ensures var table := Reserved(g, l, id, start + |ks|).seqs[id].table;
            && TableOk(g, table) && MemOk(g, Stored(g, l, id, start, ks, vs).mem) && Covered(g, table, p)
            && CellAt(g, Stored(g, l, id, start, ks, vs).mem, table, p) == (ks[p - start], vs[p - start])
  {
    FitsCovers(g, Reserved(g, l, id, start + |ks|).seqs[id].table, start + |ks|, p);
    StoreCells(g, l, id, start, ks, vs, id, p);
  }

  lemma {:induction false} KeptCell(g: Shape, l: Layer, id: int, start: nat, ks: seq<Vec>, vs: seq<Vec>,
                                    id': int, log: seq<(Vec, Vec)>, p: nat)
    requires StoreFits(g, l, id, start, ks, vs) && HoldsFor(g, l, log, id') && p < |log|
    requires id' != id || p < start || start + |ks| <= p
    ensures var r := Reserved(g, l, id, start + |ks|);
            && TableOk(g, r.seqs[id].table) && TableOk(g, r.seqs[id'].table)
            && MemOk(g, Stored(g, l, id, start, ks, vs).mem) && Covered(g, r.seqs[id'].table, p)
            && CellAt(g, Stored(g, l, id, start, ks, vs).mem, r.seqs[id'].table, p) == log[p]
  {
    assert Covered(g, l.seqs[id'].table, p);
    StoreCells(g, l, id, start, ks, vs, id', p);
  }

  lemma {:induction false} StoreReadsBack(g: Shape, l: Layer, id: int, start: nat, ks: seq<Vec>, vs: seq<Vec>,
                                          log: seq<(Vec, Vec)>)
    requires StoreFits(g, l, id, start, ks, vs) && HoldsFor(g, l, log, id) && start <= |log|
    ensures TableOk(g, Reserved(g, l, id, start + |ks|).seqs[id].table)
    ensures HoldsFor(g, Stored(g, l, id, start, ks, vs), Overwrite(log, start, Zip(ks, vs)), id)
  {
    StoreOwned(g, l, id, start, ks, vs);
    var after, log' := Stored(g, l, id, start, ks, vs), Overwrite(log, start, Zip(ks, vs));
    var table := after.seqs[id].table;
    forall p | 0 <= p < |log'| ensures Covered(g, table, p) && CellAt(g, after.mem, table, p) == log'[p] {
      OverwriteAt(log, start, Zip(ks, vs), p);
      if start <= p < start + |ks| {
        WrittenCell(g, l, id, start, ks, vs, p);
      } else {
        KeptCell(g, l, id, start, ks, vs, id, log, p);
      }
    }
  }

  lemma {:induction false} StoreLeavesOthers(g: Shape, l: Layer, id: int, start: nat, ks: seq<Vec>, vs: seq<Vec>,
                                             id': int, log: seq<(Vec, Vec)>)
    requires StoreFits(g, l, id, start, ks, vs) && id' != id && HoldsFor(g, l, log, id')
    ensures TableOk(g, Reserved(g, l, id, start + |ks|).seqs[id].table)
    ensures HoldsFor(g, Stored(g, l, id, start, ks, vs), log, id')
  {
    StoreOwned(g, l, id, start, ks, vs);
    var after := Stored(g, l, id, start, ks, vs);
    forall p | 0 <= p < |log|
      ensures Covered(g, after.seqs[id'].table, p) && CellAt(g, after.mem, after.seqs[id'].table, p) == log[p]
    {
      KeptCell(g, l, id, start, ks, vs, id', log, p);
    }
  }

  ghost predicate LogSurvives(g: Shape, l: Layer, id: int, start: nat, n: nat, id': int, log: seq<(Vec, Vec)>)
    requires StoreBeside(g, l, id, start + n, id')
  {
    forall ks, vs :: |ks| == n && |vs| == n ==>
      (StoreOwned(g, l, id, start, ks, vs); HoldsFor(g, Stored(g, l, id, start, ks, vs), log, id'))
  }

  lemma {:induction false} HoldsAfterIff(g: Shape, l: Layer, id: int, start: nat, ks: seq<Vec>, vs: seq<Vec>,
                                         id': int, log: seq<(Vec, Vec)>)
    requires |ks| == |vs| && StoreBeside(g, l, id, start + |ks|, id') && HoldsFor(g, l, log, id')
    ensures TableOk(g, Reserved(g, l, id, start + |ks|).seqs[id].table)
    ensures HoldsFor(g, Stored(g, l, id, start, ks, vs), log, id') <==>
            forall p :: 0 <= p < |log| ==>
              Covered(g, l.seqs[id'].table, p) && Survives(g, l, id, start, ks, vs, id', p)
  {
    StoreOwned(g, l, id, start, ks, vs);
    var after := Stored(g, l, id, start, ks, vs);
    assert after.seqs[id'] == l.seqs[id'];
    forall p | 0 <= p < |log|
      ensures Covered(g, l.seqs[id'].table, p)
      ensures CellAt(g, after.mem, l.seqs[id'].table, p) == log[p] <==> Survives(g, l, id, start, ks, vs, id', p)
    {
      assert Covered(g, l.seqs[id'].table, p) && CellAt(g, l.mem, l.seqs[id'].table, p) == log[p];
    }
  }

  /** The log of another sequence is safe from every store of n tokens exactly when no position of it is hit:
      the store has no copy-on-write, and this is all that stands in for it. */
  lemma {:induction false} LogSurvivesIff(g: Shape, l: Layer, id: int, start: nat, n: nat, id': int,
                                          log: seq<(Vec, Vec)>)
    requires StoreBeside(g, l, id, start + n, id') && HoldsFor(g, l, log, id')
    ensures LogSurvives(g, l, id, start, n, id', log) <==>
            forall p :: 0 <= p < |log| ==>
              Covered(g, l.seqs[id'].table, p) && !Hits(g, l.seqs[id].table, start, n, l.seqs[id'].table, p)
  {
    var table, table' := l.seqs[id].table, l.seqs[id'].table;
    assert forall p :: 0 <= p < |log| ==> Covered(g, table', p);
    if p :| 0 <= p < |log| && Hits(g, table, start, n, table', p) {
      var ks := HitShows(g, l, id, start, n, id', p);
      HoldsAfterIff(g, l, id, start, ks, ks, id', log);
    } else {
      forall ks, vs | |ks| == n && |vs| == n
        ensures TableOk(g, Reserved(g, l, id, start + n).seqs[id].table)
        ensures HoldsFor(g, Stored(g, l, id, start, ks, vs), log, id')
      {
        HoldsAfterIff(g, l, id, start, ks, vs, id', log);
        forall p | 0 <= p < |log| ensures Survives(g, l, id, start, ks, vs, id', p) {
          MissSurvives(g, l, id, start, ks, vs, id', p);
        }
      }
    }
  }

  lemma {:induction false} SameBlockSameCell(g: Shape, mem: seq<Vec>, table: seq<int>, table': seq<int>, p: nat)
    requires MemOk(g, mem) && TableOk(g, table) && TableOk(g, table') && Covered(g, table, p) && Covered(g, table', p)
    requires table'[p / g.blockSize] == table[p / g.blockSize]
    ensures CellAt(g, mem, table', p) == CellAt(g, mem, table, p)
  {
  }

  /** A longer table reads the same where the shorter one did. */
  lemma {:induction false} ReadsExtended(g: Shape, mem: seq<Vec>, table: seq<int>, table': seq<int>,
                                         log: seq<(Vec, Vec)>)
    requires MemOk(g, mem) && TableOk(g, table) && TableOk(g, table') && table <= table'
    requires Reads(g, mem, table, log)
    ensures Reads(g, mem, table', log)
  {
    forall p | 0 <= p < |log| ensures Covered(g, table', p) && CellAt(g, mem, table', p) == log[p] {
      assert Covered(g, table, p) && CellAt(g, mem, table, p) == log[p];
      BeforeExtension(g, table, table', p);
      SameBlockSameCell(g, mem, table, table', p);
    }
  }

  lemma {:induction false} StoreHolds(g: Shape, l: Layer, logs: Logs, id: int, start: nat, ks: seq<Vec>, vs: seq<Vec>)
    requires g.blockSize > 0 && Holds(g, l, logs) && Faithful(g, l, logs, Store(id, start, ks, vs))
    ensures Holds(g, Do(g, l, Store(id, start, ks, vs)), LogDo(g, l, logs, Store(id, start, ks, vs)))
  {
    StoreOwned(g, l, id, start, ks, vs);
    var after, logs' := Stored(g, l, id, start, ks, vs), LogDo(g, l, logs, Store(id, start, ks, vs));
    forall id' | id' in logs' ensures HoldsFor(g, after, logs'[id'], id') {
      assert HoldsFor(g, l, logs[id'], id');
      if !Fits(g, l, id, start + |ks|) {
        StillHolds(g, l, after, logs[id'], id');
      } else {
        FittingStoreHolds(g, l, id, start, ks, vs, id', logs[id']);
      }
    }
  }

  lemma {:induction false} FittingStoreHolds(g: Shape, l: Layer, id: int, start: nat, ks: seq<Vec>, vs: seq<Vec>,
                                             id': int, log: seq<(Vec, Vec)>)
    requires StoreFits(g, l, id, start, ks, vs) && HoldsFor(g, l, log, id') && (id' == id ==> start <= |log|)
    ensures TableOk(g, Reserved(g, l, id, start + |ks|).seqs[id].table)
    ensures HoldsFor(g, Stored(g, l, id, start, ks, vs),
                     if id' == id then Overwrite(log, start, Zip(ks, vs)) else log, id')
  {
    if id' == id {
      StoreReadsBack(g, l, id, start, ks, vs, log);
    } else {
      StoreLeavesOthers(g, l, id, start, ks, vs, id', log);
    }
  }

  /** A sequence whose table and length only grew, over the same memory, still reads its log. */
  lemma {:induction false} StillHolds(g: Shape, l: Layer, after: Layer, log: seq<(Vec, Vec)>, id: int)
    requires HoldsFor(g, l, log, id) && Owned(g, after) && after.mem == l.mem && id in after.seqs
    requires l.seqs[id].table <= after.seqs[id].table && l.seqs[id].len <= after.seqs[id].len
    ensures HoldsFor(g, after, log, id)
  {
    OwnedTable(g, after, id);
    ReadsExtended(g, l.mem, l.seqs[id].table, after.seqs[id].table, log);
  }

  lemma {:induction false} PrefixCell(g: Shape, mem: seq<Vec>, table: seq<int>, k: nat, p: nat)
    requires MemOk(g, mem) && TableOk(g, table) && k <= |table| && g.blockSize > 0 && p / g.blockSize < k
    ensures TableOk(g, table[..k]) && Covered(g, table[..k], p) && Covered(g, table, p)
    ensures CellAt(g, mem, table[..k], p) == CellAt(g, mem, table, p)
  {
    assert table[..k][p / g.blockSize] == table[p / g.blockSize];
  }

  /** A table cut to k blocks reads the same up to the tokens those blocks hold. */
  lemma {:induction false} ReadsPrefix(g: Shape, mem: seq<Vec>, table: seq<int>, log: seq<(Vec, Vec)>, k: nat, n: nat)
    requires MemOk(g, mem) && TableOk(g, table) && Reads(g, mem, table, log)
    requires g.blockSize > 0 && k <= |table| && n <= |log| && (n > 0 ==> (n - 1) / g.blockSize < k)
    ensures TableOk(g, table[..k]) && Reads(g, mem, table[..k], log[..n])
  {
    forall p | 0 <= p < n ensures Covered(g, table[..k], p) && CellAt(g, mem, table[..k], p) == log[p] {
      DivMono(p, n - 1, g.blockSize);
      PrefixCell(g, mem, table, k, p);
    }
  }

  /** Truncation within the length keeps the blocks of the remaining tokens. */
  lemma {:induction false} CutHolds(g: Shape, l: Layer, log: seq<(Vec, Vec)>, id: int, n: int)
    requires g.blockSize > 0 && Owned(g, l) && HoldsFor(g, l, log, id) && n < l.seqs[id].len
    ensures HoldsFor(g, Truncated(g, l, id, n), log[..Clamp(n, |log|)], id)
  {
    var table, keep, m := l.seqs[id].table, BlocksFor(g, n), Clamp(n, |log|);
    if m > 0 {
      DivMono(m - 1, n - 1, g.blockSize);
      assert Covered(g, table, m - 1);
    }
    ReadsPrefix(g, l.mem, table, log, if keep < |table| then keep else |table|, m);
    assert table[..|table|] == table;
  }

  lemma {:induction false} TruncateHolds(g: Shape, l: Layer, logs: Logs, id: int, n: int)
    requires g.blockSize > 0 && Holds(g, l, logs)
    ensures Holds(g, Truncated(g, l, id, n), CutLog(logs, id, n))
  {
    TruncateOwned(g, l, id, n);
    var after, logs' := Truncated(g, l, id, n), CutLog(logs, id, n);
    forall id' | id' in logs' ensures HoldsFor(g, after, logs'[id'], id') {
      assert HoldsFor(g, l, logs[id'], id');
      if id' == id && n < l.seqs[id].len {
        CutHolds(g, l, logs[id], id, n);
      } else {
        assert logs'[id'] == logs[id'];
      }
    }
  }

  lemma {:induction false} Ceil(n: nat, bs: nat)
    requires bs > 0 && n > 0
    ensures GoDiv(n + bs - 1, bs) == (n - 1) / bs + 1
  {
    DivBounds(n - 1, bs);
    MulSucc((n - 1) / bs, bs);
    MulSucc((n - 1) / bs + 1, bs);
    DivIs(n + bs - 1, (n - 1) / bs + 1, bs);
  }

  /** A block is shared for every token and none for no token. */
  lemma {:induction false} SharedCount(g: Shape, numTokens: int)
    requires g.blockSize > 0
    ensures SharedBlocks(g, numTokens) == if numTokens > 0 then (numTokens - 1) / g.blockSize + 1 else 0
  {
    if numTokens > 0 {
      Ceil(numTokens, g.blockSize);
    } else if numTokens + g.blockSize - 1 >= 0 {
      DivIs(numTokens + g.blockSize - 1, 0, g.blockSize);
    }
  }

  /** The shared blocks exist and cover the shared tokens. */
  lemma {:induction false} SharedPrefix(g: Shape, l: Layer, log: seq<(Vec, Vec)>, src: int, numTokens: int)
    requires g.blockSize > 0 && HoldsFor(g, l, log, src) && numTokens <= |log|
    ensures var n := SharedBlocks(g, numTokens);
            && n <= |l.seqs[src].table|
            && TableOk(g, l.seqs[src].table[..n])
            && Reads(g, l.mem, l.seqs[src].table[..n], log[..Clamp(numTokens, |log|)])
  {
    SharedCount(g, numTokens);
    if numTokens > 0 { assert Covered(g, l.seqs[src].table, numTokens - 1); }
    ReadsPrefix(g, l.mem, l.seqs[src].table, log, SharedBlocks(g, numTokens), Clamp(numTokens, |log|));
  }

  /** The destination of a complete share reads the shared tokens. */
  lemma {:induction false} SharedHolds(g: Shape, l: Layer, log: seq<(Vec, Vec)>, src: int, dst: int, numTokens: int)
    requires g.blockSize > 0 && Owned(g, l) && HoldsFor(g, l, log, src) && numTokens <= |log|
    requires dst in l.seqs && l.seqs[dst].table == []
    ensures HoldsFor(g, Lengthened(Shared(g, l, src, dst, numTokens), dst, numTokens),
                     log[..Clamp(numTokens, |log|)], dst)
  {
    SharedPrefix(g, l, log, src, numTokens);
    var prefix := l.seqs[src].table[..SharedBlocks(g, numTokens)];
    assert Shared(g, l, src, dst, numTokens).seqs[dst].table == [] + prefix == prefix;
  }

  lemma {:induction false} ShareHolds(g: Shape, l: Layer, logs: Logs, src: int, dst: int, numTokens: int,
                                      complete: bool)
    requires g.blockSize > 0 && Holds(g, l, logs) && Faithful(g, l, logs, Share(src, dst, numTokens, complete))
    ensures var op := Share(src, dst, numTokens, complete); Holds(g, Do(g, l, op), LogDo(g, l, logs, op))
  {
    var op := Share(src, dst, numTokens, complete);
    var after, logs' := Do(g, l, op), LogDo(g, l, logs, op);
    forall id' | id' in logs' ensures HoldsFor(g, after, logs'[id'], id') {
      assert HoldsFor(g, l, logs[id'], id');
      if id' == dst && src in logs && complete {
        assert HoldsFor(g, l, logs[src], src);
        SharedHolds(g, l, logs[src], src, dst, numTokens);
      } else {
        StillHolds(g, l, after, logs[id'], id');
      }
    }
  }

  /** One faithful operation. */
  lemma {:induction false} DoHolds(g: Shape, l: Layer, logs: Logs, op: Op)
    requires g.blockSize > 0 && Holds(g, l, logs) && Faithful(g, l, logs, op)
    ensures Holds(g, Do(g, l, op), LogDo(g, l, logs, op))
  {
    match op
    case Truncate(id, n) => TruncateHolds(g, l, logs, id, n);
    case Store(id, start, ks, vs) => StoreHolds(g, l, logs, id, start, ks, vs);
    case Share(src, dst, numTokens, complete) => ShareHolds(g, l, logs, src, dst, numTokens, complete);
    case _ =>
      var after, logs' := Do(g, l, op), LogDo(g, l, logs, op);
      forall id' | id' in logs' ensures HoldsFor(g, after, logs'[id'], id') {
        if id' in logs {
          assert HoldsFor(g, l, logs[id'], id');
          StillHolds(g, l, after, logs[id'], id');
        }
      }
  }

  // ---------------------------------------------------------------- whole runs

  function Range(n: nat): (r: seq<int>)
    ensures |r| == n && forall i :: 0 <= i < n ==> r[i] == i
  {
    seq(n, i requires 0 <= i < n => i)
  }

  /** NewGPUBlockPool: all blocks free; device memory is not initialized. */
  function NewLayer(g: Shape, mem: seq<Vec>): Layer {
    Layer(Blocks(Range(g.maxBlocks), map[]), map[], mem)
  }

  lemma {:induction false} NewOwned(g: Shape, mem: seq<Vec>)
    requires MemOk(g, mem)
    ensures Owned(g, NewLayer(g, mem))
  {
    forall b | 0 <= b < g.maxBlocks ensures b in Range(g.maxBlocks) { assert Range(g.maxBlocks)[b] == b; }
    AllFreeOwned(g, Range(g.maxBlocks), mem);
  }

  /** A layer without sequences whose free list names every block once, in any order. */
  lemma {:induction false} AllFreeOwned(g: Shape, free: seq<int>, mem: seq<Vec>)
    requires MemOk(g, mem) && forall i, j :: 0 <= i < |free| && 0 <= j < |free| && i != j ==> free[i] != free[j]
    requires forall b :: b in free <==> 0 <= b < g.maxBlocks
    ensures Owned(g, Layer(Blocks(free, map[]), map[], mem))
  {
    var l := Layer(Blocks(free, map[]), map[], mem);
    forall b: int ensures Balance(l.blocks, Uses(l.seqs), g.maxBlocks, b) {
      assert b in free <==> 0 <= b < g.maxBlocks;
      if b in free {
        var i :| 0 <= i < |free| && free[i] == b;
        OnceInTail(free, 0, i);
        assert free[0..] == free;
      }
    }
  }

  ghost predicate AllowedRun(g: Shape, l: Layer, ops: seq<Op>)
    requires g.blockSize > 0 && Owned(g, l)
    decreases |ops|
  {
    ops == [] || (Allowed(g, l, ops[0]) && AllowedRun(g, Do(g, l, ops[0]), ops[1..]))
  }

  ghost function Run(g: Shape, l: Layer, ops: seq<Op>): (r: Layer)
    requires g.blockSize > 0 && Owned(g, l) && AllowedRun(g, l, ops)
    ensures Owned(g, r)
    decreases |ops|
  {
    if ops == [] then l else Run(g, Do(g, l, ops[0]), ops[1..])
  }

  /** In every state reached by any run that creates sequences under new ids, stores that run out of blocks and
      failed shares included: each physical block is in the free list exactly once and has no count, or is
      not free and its count is the number of its occurrences in all tables. */
  lemma {:induction false} EveryBlockOwned(g: Shape, mem: seq<Vec>, ops: seq<Op>, b: int)
    requires g.blockSize > 0 && MemOk(g, mem) && 0 <= b < g.maxBlocks
    requires NewOwnedRun(g, mem, ops)
    ensures var l := RunNew(g, mem, ops);
            || (multiset(l.blocks.free)[b] == 1 && b !in l.blocks.counts && Uses(l.seqs)[b] == 0)
            || (b !in l.blocks.free && b in l.blocks.counts && l.blocks.counts[b] == Uses(l.seqs)[b] > 0)
  {
    NewOwned(g, mem);
    var l := RunNew(g, mem, ops);
    assert Balance(l.blocks, Uses(l.seqs), g.maxBlocks, b);
  }

  ghost predicate NewOwnedRun(g: Shape, mem: seq<Vec>, ops: seq<Op>)
    requires g.blockSize > 0 && MemOk(g, mem)
  {
    NewOwned(g, mem);
    AllowedRun(g, NewLayer(g, mem), ops)
  }

  ghost function RunNew(g: Shape, mem: seq<Vec>, ops: seq<Op>): (r: Layer)
    requires g.blockSize > 0 && MemOk(g, mem) && NewOwnedRun(g, mem, ops)
    ensures Owned(g, r)
  {
    NewOwned(g, mem);
    Run(g, NewLayer(g, mem), ops)
  }

  ghost predicate FaithfulRun(g: Shape, l: Layer, logs: Logs, ops: seq<Op>)
    requires g.blockSize > 0 && Owned(g, l)
    decreases |ops|
  {
    ops == [] ||
    (Faithful(g, l, logs, ops[0]) && FaithfulRun(g, Do(g, l, ops[0]), LogDo(g, l, logs, ops[0]), ops[1..]))
  }

  /** The logs after a run, by the log specification alone. */
  ghost function LogRun(g: Shape, l: Layer, logs: Logs, ops: seq<Op>): Logs
    requires g.blockSize > 0 && Owned(g, l) && FaithfulRun(g, l, logs, ops)
    decreases |ops|
  {
    if ops == [] then logs else LogRun(g, Do(g, l, ops[0]), LogDo(g, l, logs, ops[0]), ops[1..])
  }

  /** The pool refines the log: after any faithful run, every sequence reads back its log. */
  lemma {:induction false} RunHolds(g: Shape, l: Layer, logs: Logs, ops: seq<Op>)
    requires g.blockSize > 0 && Holds(g, l, logs) && FaithfulRun(g, l, logs, ops)
    ensures AllowedRun(g, l, ops) && Holds(g, Run(g, l, ops), LogRun(g, l, logs, ops))
    decreases |ops|
  {
    if ops != [] {
      DoHolds(g, l, logs, ops[0]);
      RunHolds(g, Do(g, l, ops[0]), LogDo(g, l, logs, ops[0]), ops[1..]);
    }
  }

  lemma {:induction false} NewHolds(g: Shape, mem: seq<Vec>)
    requires MemOk(g, mem)
    ensures Holds(g, NewLayer(g, mem), map[])
  {
    NewOwned(g, mem);
  }

  // ---------------------------------------------------------------- consequences

  /** Storing drafted tokens and truncating to the accepted ones leaves what storing only those would. */
  lemma {:induction false} RejectedTokensVanish(g: Shape, l: Layer, logs: Logs, id: int, ks: seq<Vec>, vs: seq<Vec>,
                                                keep: nat)
    requires g.blockSize > 0 && Holds(g, l, logs) && id in logs && |ks| == |vs| && keep <= |ks|
    requires Unshared(g, l, id, |logs[id]|, |ks|) && Fits(g, l, id, |logs[id]| + |ks|)
    ensures var store := Store(id, |logs[id]|, ks, vs);
            Holds(g, Truncated(g, Do(g, l, store), id, |logs[id]| + keep),
                  logs[id := logs[id] + Zip(ks[..keep], vs[..keep])])
  {
    AppendHolds(g, l, logs, id, ks, vs);
    CutBackHolds(g, Do(g, l, Store(id, |logs[id]|, ks, vs)), logs, id, ks, vs, keep);
  }

  lemma {:induction false} CutBackHolds(g: Shape, l: Layer, logs: Logs, id: int, ks: seq<Vec>, vs: seq<Vec>, keep: nat)
    requires g.blockSize > 0 && id in logs && |ks| == |vs| && keep <= |ks|
    requires Holds(g, l, logs[id := logs[id] + Zip(ks, vs)])
    ensures Holds(g, Truncated(g, l, id, |logs[id]| + keep), logs[id := logs[id] + Zip(ks[..keep], vs[..keep])])
  {
    TruncateHolds(g, l, logs[id := logs[id] + Zip(ks, vs)], id, |logs[id]| + keep);
    CutAppended(logs, id, ks, vs, keep);
  }

  lemma {:induction false} CutAppended(logs: Logs, id: int, ks: seq<Vec>, vs: seq<Vec>, keep: nat)
    requires id in logs && |ks| == |vs| && keep <= |ks|
    ensures CutLog(logs[id := logs[id] + Zip(ks, vs)], id, |logs[id]| + keep) ==
            logs[id := logs[id] + Zip(ks[..keep], vs[..keep])]
  {
    assert (logs[id] + Zip(ks, vs))[..|logs[id]| + keep] == logs[id] + Zip(ks[..keep], vs[..keep]);
  }

  lemma {:induction false} AppendHolds(g: Shape, l: Layer, logs: Logs, id: int, ks: seq<Vec>, vs: seq<Vec>)
    requires g.blockSize > 0 && Holds(g, l, logs) && id in logs && |ks| == |vs|
    requires Unshared(g, l, id, |logs[id]|, |ks|) && Fits(g, l, id, |logs[id]| + |ks|)
    ensures Holds(g, Do(g, l, Store(id, |logs[id]|, ks, vs)), logs[id := logs[id] + Zip(ks, vs)])
  {
    StoreHolds(g, l, logs, id, |logs[id]|, ks, vs);
    OverwriteEnd(logs[id], Zip(ks, vs));
  }

  lemma {:induction false} OverwriteEnd<T>(log: seq<T>, tokens: seq<T>)
    ensures Overwrite(log, |log|, tokens) == log + tokens
  {
  }

  /** A shared prefix reads the same in both sequences, and either can be deleted without harm to the other. */
  lemma {:induction false} SharedPrefixSurvives(g: Shape, l: Layer, logs: Logs, src: int, dst: int, n: nat)
    requires g.blockSize > 0 && Holds(g, l, logs) && src in logs && dst in logs && src != dst
    requires l.seqs[dst].table == [] && n <= |logs[src]|
    ensures var s := Do(g, l, Share(src, dst, n, true));
            && HoldsFor(g, s, logs[src], src) && HoldsFor(g, s, logs[src][..n], dst)
            && HoldsFor(g, Deleted(s, src), logs[src][..n], dst)
            && HoldsFor(g, Deleted(s, dst), logs[src], src)
  {
    var op := Share(src, dst, n, true);
    ShareHolds(g, l, logs, src, dst, n, true);
    var s, logs' := Do(g, l, op), LogDo(g, l, logs, op);
    assert HoldsFor(g, s, logs'[src], src) && HoldsFor(g, s, logs'[dst], dst);
    DoHolds(g, s, logs', Delete(src));
    DoHolds(g, s, logs', Delete(dst));
    assert HoldsFor(g, Deleted(s, src), LogDo(g, s, logs', Delete(src))[dst], dst);
    assert HoldsFor(g, Deleted(s, dst), LogDo(g, s, logs', Delete(dst))[src], src);
  }

  /** Deleting both, in either order, returns every block that no third sequence uses exactly once. */
  lemma {:induction false} BothDeleted(g: Shape, l: Layer, a: int, b: int, block: int)
    requires Owned(g, l) && 0 <= block < g.maxBlocks && block !in Uses(l.seqs - {a, b})
    ensures var r := Deleted(Deleted(l, a), b); multiset(r.blocks.free)[block] == 1 && block !in r.blocks.counts
  {
    DeleteOwned(g, l, a);
    DeleteOwned(g, Deleted(l, a), b);
    var r := Deleted(Deleted(l, a), b);
    assert r.seqs == l.seqs - {a, b};
    assert Balance(r.blocks, Uses(r.seqs), g.maxBlocks, block);
  }
}
