/** Block tables on the device (inference/runtime/gpu_block_pool.go): attention uploads a sequence's table when it
    is dirty or was never uploaded, and passes the kernel how many blocks and tokens to read. */
module BlockTables {
  import opened Arithmetic
  import opened Collections
  import opened BlockOwnership
  import opened BlockPool
  import opened BlockContents

  function EffectiveLen(s: Seq, kvLen: int): int {
    if kvLen > 0 then kvLen else s.len
  }

  function NumBlocks(g: Shape, s: Seq, kvLen: int): (n: int)
    requires g.blockSize > 0
    ensures n <= |s.table|
  {
    var effective := GoDiv(EffectiveLen(s, kvLen) + g.blockSize - 1, g.blockSize);
    if effective < |s.table| then effective else |s.table|
  }

  function TokensInLastBlock(g: Shape, s: Seq, kvLen: int): int
    requires g.blockSize > 0
  {
    EffectiveLen(s, kvLen) - (NumBlocks(g, s, kvLen) - 1) * g.blockSize
  }

  /** A table is sent to the device if it has changed or was never sent. */
  predicate Uploads(s: Seq) {
    s.dirty || s.device.None?
  }

  /** The whole table is sent, to a buffer with room for NumBlocks entries: a longer one is written past the end. */
  predicate Overruns(g: Shape, s: Seq, kvLen: int)
    requires g.blockSize > 0
  {
    Uploads(s) && |s.table| > Clamp(NumBlocks(g, s, kvLen), |s.table|)
  }

  /** `device` is what the buffer has room for. */
  function Uploaded(g: Shape, s: Seq, kvLen: int): Seq
    requires g.blockSize > 0
  {
    if Uploads(s) then
      s.(device := Some(s.table[..Clamp(NumBlocks(g, s, kvLen), |s.table|)]), dirty := false)
    else s
  }

  /** The kernel is told to read more entries than the buffer has. */
  predicate ReadsPast(g: Shape, s: Seq, kvLen: int)
    requires g.blockSize > 0
  {
    var device := Uploaded(g, s, kvLen).device;
    device.Some? && NumBlocks(g, s, kvLen) > |device.value|
  }

  /** Attention of several queries, or of several sequences, sends the table to a buffer of its own length. */
  function FullyUploaded(s: Seq): Seq {
    if Uploads(s) then s.(device := Some(s.table), dirty := false) else s
  }

  /** What the kernel is told: positions 0..len-1 and a last block neither empty nor overfull, exactly when the
      length is positive and the table covers it. */
  lemma {:induction false} KernelArgumentsIff(g: Shape, s: Seq, kvLen: int)
    requires g.blockSize > 0
    ensures var n, last, len := NumBlocks(g, s, kvLen), TokensInLastBlock(g, s, kvLen), EffectiveLen(s, kvLen);
            && (n - 1) * g.blockSize + last == len
            && (1 <= n && 1 <= last <= g.blockSize <==> 1 <= len <= |s.table| * g.blockSize)
  {
    var bs, len, t := g.blockSize, EffectiveLen(s, kvLen), |s.table|;
    var n := NumBlocks(g, s, kvLen);
    if len <= 0 {
      NoBlocks(len, bs);
    } else {
      Ceil(len, bs);
      var q := (len - 1) / bs;
      DivBounds(len - 1, bs);
      MulSucc(q, bs);
      MulSucc(t - 1, bs);
      if q + 1 <= t {
        MulMono(q + 1, t, bs);
      } else {
        MulMono(t, q, bs);
      }
    }
  }

  lemma {:induction false} NoBlocks(len: int, bs: nat)
    requires bs > 0 && len <= 0
    ensures GoDiv(len + bs - 1, bs) <= 0
  {
    if len + bs - 1 >= 0 { DivIs(len + bs - 1, 0, bs); }
  }

  /** After a store that reaches the end of the sequence, the length is covered. */
  lemma {:induction false} StoredLengthCovered(g: Shape, l: Layer, id: int, start: nat, ks: seq<Vec>, vs: seq<Vec>)
    requires g.blockSize > 0 && Owned(g, l) && id in l.seqs && |ks| == |vs| > 0
    requires Fits(g, l, id, start + |ks|) && l.seqs[id].len <= start + |ks|
    ensures TableOk(g, Reserved(g, l, id, start + |ks|).seqs[id].table)
    ensures var s := Stored(g, l, id, start, ks, vs).seqs[id];
            s.len == start + |ks| && 1 <= s.len <= |s.table| * g.blockSize
  {
    StoreOwned(g, l, id, start, ks, vs);
    var s := Stored(g, l, id, start, ks, vs).seqs[id];
    DivBounds(s.len - 1, g.blockSize);
    MulMono((s.len - 1) / g.blockSize + 1, |s.table|, g.blockSize);
  }

  // ---------------------------------------------------------------- coherence

  /** A copy that is not marked dirty is the table. */
  predicate Clean(s: Seq) {
    !s.dirty && s.device.Some? ==> s.device.value == s.table
  }

  /** The buffer then holds the table itself exactly when nothing was written past its end, and nothing is read
      past it. */
  lemma {:induction false} UploadCoherentIff(g: Shape, s: Seq, kvLen: int)
    requires g.blockSize > 0 && Clean(s) && s.table != []
    ensures Uploaded(g, s, kvLen).device == Some(s.table) <==> !Overruns(g, s, kvLen)
    ensures Overruns(g, s, kvLen) <==> Uploads(s) && NumBlocks(g, s, kvLen) < |s.table|
    ensures !ReadsPast(g, s, kvLen)
  {
    assert s.table[..|s.table|] == s.table;
    assert |s.table[..Clamp(NumBlocks(g, s, kvLen), |s.table|)]| == Clamp(NumBlocks(g, s, kvLen), |s.table|);
  }

  /** A first attention over a shorter length than the table writes past the end of the buffer and marks the copy
      clean; the next attention over the whole sequence sends nothing and reads past the end: what it finds there
      is the rest of the table only if nothing has been written over it. */
  lemma {:induction false} ShortCopySticks(g: Shape, a: int, b: int, len: int)
    requires g.blockSize > 0 && g.blockSize < len <= 2 * g.blockSize
    ensures var s := Seq([a, b], len, true, None);
            var after := Uploaded(g, s, 1);
            && Overruns(g, s, 1) && after.device == Some([a]) && !Uploads(after)
            && NumBlocks(g, after, 0) == 2 && ReadsPast(g, after, 0)
  {
    var s := Seq([a, b], len, true, None);
    MulSucc(1, g.blockSize);
    DivIs(g.blockSize, 1, g.blockSize);
    DivIs(len - 1, 1, g.blockSize);
    Ceil(len, g.blockSize);
    assert NumBlocks(g, s, 1) == 1;
    assert s.table[..1] == [a];
  }

  /** Attention changes nothing but the device copy. */
  function Attended(g: Shape, l: Layer, id: int, kvLen: int): (r: Layer)
    requires g.blockSize > 0
    ensures Owned(g, l) ==> Owned(g, r)
  {
    if id in l.seqs && l.seqs[id].table != [] then WithCopy(g, l, id, Uploaded(g, l.seqs[id], kvLen)) else l
  }

  function FullyAttended(g: Shape, l: Layer, id: int): (r: Layer)
    requires g.blockSize > 0
    ensures Owned(g, l) ==> Owned(g, r)
  {
    if id in l.seqs && l.seqs[id].table != [] then WithCopy(g, l, id, FullyUploaded(l.seqs[id])) else l
  }

  function WithCopy(g: Shape, l: Layer, id: int, s: Seq): (r: Layer)
    requires g.blockSize > 0 && id in l.seqs && s.table == l.seqs[id].table && s.len == l.seqs[id].len
    ensures Owned(g, l) ==> Owned(g, r)
    ensures r == l.(seqs := l.seqs[id := s])
  {
    assert Owned(g, l) ==> Owned(g, l.(seqs := l.seqs[id := s])) by {
      if Owned(g, l) { SameTableOwned(g, l, id, s); }
    }
    l.(seqs := l.seqs[id := s])
  }

  // ---------------------------------------------------------------- plain attention over whole runs

  /** The program attends to whole sequences only, after the stores of the same pass: from one query, or from
      several. */
  datatype Event = Pool(op: Op) | Attend(id: int) | AttendMany(id: int)

  ghost function Next(g: Shape, l: Layer, e: Event): (r: Layer)
    requires g.blockSize > 0 && Owned(g, l) && (e.Pool? ==> Allowed(g, l, e.op))
    ensures Owned(g, r)
  {
    match e
    case Pool(op) => Do(g, l, op)
    case Attend(id) => Attended(g, l, id, 0)
    case AttendMany(id) => FullyAttended(g, l, id)
  }

  ghost predicate TightSeq(g: Shape, s: Seq) {
    Tight(g, |s.table|, s.len)
  }

  /** The last block of every sequence holds a position of it, and clean copies are the tables. */
  ghost predicate Coherent(g: Shape, l: Layer) {
    forall id :: id in l.seqs ==> TightSeq(g, l.seqs[id]) && Clean(l.seqs[id])
  }

  /** What a caller has to see to: a store of at least one position finds its blocks, and blocks are shared only
      with an empty sequence, in a share that completes. */
  ghost predicate Orderly(g: Shape, l: Layer, op: Op)
    requires g.blockSize > 0
  {
    && Allowed(g, l, op)
    && match op
       case Store(id, start, ks, _) => 0 < start + |ks| && Fits(g, l, id, start + |ks|)
       case Share(src, dst, n, complete) =>
         src in l.seqs && dst in l.seqs && 0 < SharedBlocks(g, n) <= |l.seqs[src].table| ==>
           complete && l.seqs[dst].table == []
       case _ => true
  }

  ghost predicate OrderlyRun(g: Shape, l: Layer, es: seq<Event>)
    requires g.blockSize > 0 && Owned(g, l)
    decreases |es|
  {
    es == [] || ((es[0].Pool? ==> Orderly(g, l, es[0].op)) && OrderlyRun(g, Next(g, l, es[0]), es[1..]))
  }

  ghost function After(g: Shape, l: Layer, es: seq<Event>): (r: Layer)
    requires g.blockSize > 0 && Owned(g, l) && OrderlyRun(g, l, es)
    ensures Owned(g, r)
    decreases |es|
  {
    if es == [] then l else After(g, Next(g, l, es[0]), es[1..])
  }

  /** Plain attention spans all blocks of a table exactly when the last of them holds a position. */
  lemma {:induction false} PlainIsFullIff(g: Shape, s: Seq)
    requires g.blockSize > 0 && s.table != []
    ensures NumBlocks(g, s, 0) == |s.table| <==> TightSeq(g, s)
  {
    var bs, t := g.blockSize, |s.table|;
    MulSucc(t - 1, bs);
    if s.len <= 0 {
      NoBlocks(s.len, bs);
      MulMono(0, t - 1, bs);
    } else {
      Ceil(s.len, bs);
      DivBounds(s.len - 1, bs);
      CoversIff(s.len - 1, t - 1, bs);
    }
  }

  lemma {:induction false} CoversIff(a: nat, q: nat, d: nat)
    requires d > 0
    ensures q <= a / d <==> q * d <= a
  {
    DivBounds(a, d);
    if q <= a / d { MulMono(q, a / d, d); } else { MulMono(a / d + 1, q, d); }
  }

  /** A longer sequence needs no fewer blocks. */
  lemma {:induction false} LongerIsTight(g: Shape, k: nat, n: int, n': int)
    requires Tight(g, k, n) && n <= n'
    ensures Tight(g, k, n')
  {
  }

  lemma {:induction false} StoreKeepsTight(g: Shape, l: Layer, id: int, endPos: int)
    requires g.blockSize > 0 && id in l.seqs && endPos > 0 && TightSeq(g, l.seqs[id])
    ensures var t := Reserved(g, l, id, endPos).seqs[id].table; Tight(g, |t|, Max(l.seqs[id].len, endPos))
  {
    var s, t := l.seqs[id], Reserved(g, l, id, endPos).seqs[id].table;
    ReserveIsTight(g, l, id, endPos);
    if t == s.table {
      LongerIsTight(g, |t|, s.len, Max(s.len, endPos));
    } else {
      LongerIsTight(g, |t|, endPos, Max(s.len, endPos));
    }
  }

  lemma {:induction false} ShareIsTight(g: Shape, numTokens: int)
    requires g.blockSize > 0
    ensures Tight(g, SharedBlocks(g, numTokens), numTokens)
  {
    SharedCount(g, numTokens);
    if numTokens > 0 { LastBlockIsTight(g, numTokens); }
  }

  lemma {:induction false} DoTight(g: Shape, l: Layer, op: Op, id: int)
    requires g.blockSize > 0 && Owned(g, l) && Coherent(g, l) && Orderly(g, l, op) && id in Do(g, l, op).seqs
    ensures TightSeq(g, Do(g, l, op).seqs[id])
  {
    assert id in l.seqs ==> TightSeq(g, l.seqs[id]);
    match op
    case Truncate(id0, n) =>
      if id0 == id && n < l.seqs[id].len { TruncateIsTight(g, l, id, n); }
    case Store(id0, start, ks, vs) =>
      if id0 == id { StoreKeepsTight(g, l, id, start + |ks|); }
    case StoreElsewhere(id0, endPos) =>
      if id0 == id { LongerIsTight(g, |l.seqs[id].table|, l.seqs[id].len, Max(l.seqs[id].len, endPos)); }
    case Share(src, dst, numTokens, complete) =>
      if id == dst { ShareKeepsTight(g, l, src, dst, numTokens, complete); }
    case _ =>
  }

  lemma {:induction false} ShareKeepsTight(g: Shape, l: Layer, src: int, dst: int, numTokens: int, complete: bool)
    requires g.blockSize > 0 && Owned(g, l) && dst in l.seqs && TightSeq(g, l.seqs[dst])
    requires Orderly(g, l, Share(src, dst, numTokens, complete))
    ensures TightSeq(g, Do(g, l, Share(src, dst, numTokens, complete)).seqs[dst])
  {
    var n, d := SharedBlocks(g, numTokens), l.seqs[dst];
    ShareIsTight(g, numTokens);
    if src in l.seqs && 0 < n <= |l.seqs[src].table| {
      LongerIsTight(g, n, numTokens, Max(d.len, numTokens));
    } else {
      LongerIsTight(g, |d.table|, d.len, Max(d.len, numTokens));
    }
  }

  /** Whatever changes a table marks it dirty. */
  lemma {:induction false} DoClean(g: Shape, l: Layer, op: Op, id: int)
    requires g.blockSize > 0 && Owned(g, l) && Allowed(g, l, op) && id in Do(g, l, op).seqs
    requires id in l.seqs ==> Clean(l.seqs[id])
    ensures Clean(Do(g, l, op).seqs[id])
  {
  }

  /** One orderly operation or one attention. */
  lemma {:induction false} NextCoherent(g: Shape, l: Layer, e: Event)
    requires g.blockSize > 0 && Owned(g, l) && Coherent(g, l) && (e.Pool? ==> Orderly(g, l, e.op))
    ensures Coherent(g, Next(g, l, e))
  {
    forall id | id in Next(g, l, e).seqs ensures TightSeq(g, Next(g, l, e).seqs[id]) && Clean(Next(g, l, e).seqs[id]) {
      if e.Pool? {
        DoTight(g, l, e.op, id);
        DoClean(g, l, e.op, id);
      } else {
        assert TightSeq(g, l.seqs[id]) && Clean(l.seqs[id]);
        if e.Attend? && id == e.id && l.seqs[id].table != [] {
          PlainIsFullIff(g, l.seqs[id]);
          UploadCoherentIff(g, l.seqs[id], 0);
        }
      }
    }
  }

  /** Over every interleaving of attention to whole sequences with creations, deletions, truncations, stores that find
      their blocks and shares with empty sequences: an attention writes and reads nothing past the end of the
      buffer, the copy it uses is the host table, and the kernel is told to read all of it. */
  lemma {:induction false} AttentionReadsTable(g: Shape, l: Layer, es: seq<Event>, id: int)
    requires g.blockSize > 0 && Owned(g, l) && Coherent(g, l) && OrderlyRun(g, l, es)
    requires id in After(g, l, es).seqs && After(g, l, es).seqs[id].table != []
    ensures var s := After(g, l, es).seqs[id];
            && Uploaded(g, s, 0).device == Some(s.table) && NumBlocks(g, s, 0) == |s.table|
            && !Overruns(g, s, 0) && !ReadsPast(g, s, 0) && FullyUploaded(s).device == Some(s.table)
    decreases |es|
  {
    if es == [] {
      PlainIsFullIff(g, l.seqs[id]);
      UploadCoherentIff(g, l.seqs[id], 0);
    } else {
      NextCoherent(g, l, es[0]);
      AttentionReadsTable(g, Next(g, l, es[0]), es[1..], id);
    }
  }

  lemma {:induction false} NewCoherent(g: Shape, mem: seq<Vec>)
    ensures Coherent(g, NewLayer(g, mem))
  {
  }

  // ---------------------------------------------------------------- a store that runs out of blocks

  /** Such a store takes all free blocks and does not lengthen the sequence: unless it took none, a sequence
      that filled its blocks is left with an empty last one. */
  lemma {:induction false} ShortageLoosens(g: Shape, l: Layer, id: int, start: nat, ks: seq<Vec>, vs: seq<Vec>)
    requires g.blockSize > 0 && Owned(g, l) && id in l.seqs && |ks| == |vs| && !Fits(g, l, id, start + |ks|)
    requires l.seqs[id].len == |l.seqs[id].table| * g.blockSize
    ensures var s := Do(g, l, Store(id, start, ks, vs)).seqs[id];
            && s.len == l.seqs[id].len && (TightSeq(g, s) <==> s.table == l.seqs[id].table)
            && (s.dirty <==> l.seqs[id].dirty || s.table != l.seqs[id].table)
  {
    var before, after := l.seqs[id], Reserved(g, l, id, start + |ks|).seqs[id];
    if after.table != before.table {
      MulMono(|before.table|, |after.table| - 1, g.blockSize);
    } else if before.table != [] {
      MulSucc(|before.table| - 1, g.blockSize);
    }
  }

  /** From then on attention goes wrong: it writes past the end of the buffer and marks the copy clean, a store into
      the blocks already there does not mark it dirty, and the next attention reads past the end. */
  lemma {:induction false} ShortageGoesStale(g: Shape, l: Layer, id: int, start: nat, ks: seq<Vec>, vs: seq<Vec>)
    requires g.blockSize > 0 && Owned(g, l) && id in l.seqs && |ks| == |vs|
    requires var s := l.seqs[id]; s.table != [] && s.dirty && !TightSeq(g, s)
    requires (|l.seqs[id].table| - 1) * g.blockSize < start + |ks| <= |l.seqs[id].table| * g.blockSize
    ensures var attended := Next(g, l, Attend(id));
            var s := Next(g, attended, Pool(Store(id, start, ks, vs))).seqs[id];
            && Overruns(g, l.seqs[id], 0)
            && s.table == l.seqs[id].table && s.len >= start + |ks|
            && NumBlocks(g, s, 0) == |s.table| && !Uploads(s) && ReadsPast(g, s, 0)
  {
    var attended, endPos := Next(g, l, Attend(id)), start + |ks|;
    PlainIsFullIff(g, l.seqs[id]);
    EnoughBlocks(g, attended, id, endPos);
    var s := Next(g, attended, Pool(Store(id, start, ks, vs))).seqs[id];
    assert s.len == Max(l.seqs[id].len, endPos);
    PlainIsFullIff(g, s);
  }

  /** A reservation within the blocks of a table changes nothing and succeeds. */
  lemma {:induction false} EnoughBlocks(g: Shape, l: Layer, id: int, endPos: int)
    requires g.blockSize > 0 && id in l.seqs && 0 < endPos <= |l.seqs[id].table| * g.blockSize
    ensures Reserved(g, l, id, endPos) == l && Fits(g, l, id, endPos)
  {
    DivBounds(endPos - 1, g.blockSize);
    MulLess((endPos - 1) / g.blockSize + 1, |l.seqs[id].table|, g.blockSize);
    CoversIff(endPos - 1, |l.seqs[id].table|, g.blockSize);
    assert l.seqs[id := l.seqs[id]] == l.seqs;
  }

  /** All of it from a sequence in good order that fills its blocks: one store too long, one attention that writes
      past the end of its buffer, one store that succeeds, and an attention that reads past it. */
  lemma {:induction false} ShortageBreaksAttention(g: Shape, l: Layer, id: int, long: Op, fits: Op)
    requires g.blockSize > 0 && Owned(g, l) && id in l.seqs && l.blocks.free != []
    requires l.seqs[id].len == |l.seqs[id].table| * g.blockSize > 0
    requires long.Store? && long.id == id && Allowed(g, l, long) && !Fits(g, l, id, long.start + |long.ks|)
    requires var n := |Do(g, l, long).seqs[id].table|;
             && fits.Store? && fits.id == id && |fits.ks| == |fits.vs|
             && (n - 1) * g.blockSize < fits.start + |fits.ks| <= n * g.blockSize
    ensures var loose := Next(g, l, Pool(long));
            var s := Next(g, Next(g, loose, Attend(id)), Pool(fits)).seqs[id];
            && Overruns(g, loose.seqs[id], 0)
            && NumBlocks(g, s, 0) == |s.table| && !Uploads(s) && ReadsPast(g, s, 0)
  {
    ShortageLoosens(g, l, id, long.start, long.ks, long.vs);
    ShortageTakesBlock(g, l, id, long.start + |long.ks|);
    ShortageGoesStale(g, Do(g, l, long), id, fits.start, fits.ks, fits.vs);
  }

  lemma {:induction false} ShortageTakesBlock(g: Shape, l: Layer, id: int, endPos: int)
    requires g.blockSize > 0 && id in l.seqs && l.blocks.free != [] && !Fits(g, l, id, endPos)
    ensures |Reserved(g, l, id, endPos).seqs[id].table| > |l.seqs[id].table|
  {
    var table, n := l.seqs[id].table, GoDiv(endPos - 1, g.blockSize) + 1;
    var (block, q) := Alloc(l.blocks);
    assert Grow(l.blocks, table, n) == Grow(q, table + [block], n);
  }
}
