/** The contiguous KV cache (inference/runtime/gpu_kv_cache.go): one flat buffer per layer for keys and one for
    values, laid out [head, maxSeqLen, headDim], fed with tokens laid out [token, head, headDim]. */
module ContiguousCache {
  import opened Arithmetic
  import opened Flattening

  datatype Layout = Layout(numKVHeads: nat, headDim: nat, maxSeqLen: nat) {
    /** Elements of one token. */
    function Width(): nat {
      numKVHeads * headDim
    }

    function Cells(): nat {
      numKVHeads * maxSeqLen
    }
  }

  /** The headDim elements of one head of one token. */
  type Chunk = seq<real>

  /** One chunk per head. */
  type Token = seq<Chunk>

  function CellIndex(y: Layout, h: nat, p: nat): nat {
    h * y.maxSeqLen + p
  }

  /** Within the capacity, no two pairs of head and position share a cell. */
  lemma {:induction false} CellsApart(y: Layout, h: nat, p: nat, h': nat, p': nat)
    requires h < y.numKVHeads && p < y.maxSeqLen && h' < y.numKVHeads && p' < y.maxSeqLen
    ensures CellIndex(y, h, p) < y.Cells()
    ensures CellIndex(y, h, p) == CellIndex(y, h', p') <==> (h, p) == (h', p')
  {
    MulMono(h + 1, y.numKVHeads, y.maxSeqLen);
    MulSucc(h, y.maxSeqLen);
    MulSucc(h', y.maxSeqLen);
    if h < h' { MulMono(h + 1, h', y.maxSeqLen); }
    if h' < h { MulMono(h' + 1, h, y.maxSeqLen); }
  }

  /** The cells of all heads and all positions below n are inside the buffer and no two coincide, exactly when
      the positions are within the capacity; the code does not check. */
  lemma {:induction false} CellsFitIff(y: Layout, n: nat)
    requires y.numKVHeads > 0
    ensures n <= y.maxSeqLen <==>
      && (forall h, p :: 0 <= h < y.numKVHeads && 0 <= p < n ==> CellIndex(y, h, p) < y.Cells())
      && (forall h, p, h', p' ::
            0 <= h < y.numKVHeads && 0 <= p < n && 0 <= h' < y.numKVHeads && 0 <= p' < n ==>
              (CellIndex(y, h, p) == CellIndex(y, h', p') <==> (h, p) == (h', p')))
  {
    if n <= y.maxSeqLen {
      forall h, p, h', p' | 0 <= h < y.numKVHeads && 0 <= p < n && 0 <= h' < y.numKVHeads && 0 <= p' < n
        ensures CellIndex(y, h, p) < y.Cells()
        ensures CellIndex(y, h, p) == CellIndex(y, h', p') <==> (h, p) == (h', p')
      {
        CellsApart(y, h, p, h', p');
      }
    } else {
      LastHeadEnds(y);
    }
  }

  lemma {:induction false} LastHeadEnds(y: Layout)
    requires y.numKVHeads > 0
    ensures CellIndex(y, y.numKVHeads - 1, y.maxSeqLen) == y.Cells()
  {
    MulSucc(y.numKVHeads - 1, y.maxSeqLen);
  }

  // ---------------------------------------------------------------- what an append writes

  ghost predicate TokensOk(y: Layout, tokens: seq<Token>) {
    Uniform(tokens, y.numKVHeads)
  }

  /** The buffer holds a token log: position p of every head holds that head of token p. */
  ghost predicate HoldsLog(y: Layout, cells: seq<Chunk>, log: seq<Token>) {
    && |cells| == y.Cells() && TokensOk(y, log)
    && forall h, p :: 0 <= h < y.numKVHeads && 0 <= p < |log| ==>
         CellIndex(y, h, p) < |cells| && cells[CellIndex(y, h, p)] == log[p][h]
  }

  /** Copy one head of one token to position p.  What lies outside the buffer is not part of the cache. */
  function PutHead(y: Layout, cells: seq<Chunk>, h: nat, p: nat, chunk: Chunk): (r: seq<Chunk>)
    ensures |r| == |cells|
  {
    Put(cells, CellIndex(y, h, p), chunk)
  }

  function Put(cells: seq<Chunk>, c: nat, chunk: Chunk): (r: seq<Chunk>)
    ensures |r| == |cells|
  {
    if c < |cells| then cells[c := chunk] else cells
  }

  /** The first n heads of a token. */
  function PutToken(y: Layout, cells: seq<Chunk>, p: nat, token: Token, n: nat): (r: seq<Chunk>)
    requires n <= |token|
    ensures |r| == |cells|
  {
    if n == 0 then cells else PutHead(y, PutToken(y, cells, p, token, n - 1), n - 1, p, token[n - 1])
  }

  /** All tokens, from position `at` on, however far that is. */
  function Appended(y: Layout, cells: seq<Chunk>, at: nat, tokens: seq<Token>): (r: seq<Chunk>)
    requires TokensOk(y, tokens)
    ensures |r| == |cells|
  {
    if tokens == [] then cells
    else
      var last := |tokens| - 1;
      PutToken(y, Appended(y, cells, at, tokens[..last]), at + last, tokens[last], y.numKVHeads)
  }

  function At(y: Layout, cells: seq<Chunk>, h: nat, p: nat): Chunk
    requires |cells| == y.Cells() && h < y.numKVHeads && p < y.maxSeqLen
  {
    CellsApart(y, h, p, h, p);
    cells[CellIndex(y, h, p)]
  }

  /** Position wraps*maxSeqLen + r is position r of a head that many places later. */
  lemma {:induction false} WrappedIndex(y: Layout, h: nat, wraps: nat, r: nat)
    requires r < y.maxSeqLen
    ensures CellIndex(y, h, wraps * y.maxSeqLen + r) == CellIndex(y, h + wraps, r)
    ensures CellIndex(y, h + wraps, r) < y.Cells() <==> h + wraps < y.numKVHeads
  {
    if h + wraps < y.numKVHeads {
      CellsApart(y, h + wraps, r, h + wraps, r);
    } else {
      MulMono(y.numKVHeads, h + wraps, y.maxSeqLen);
    }
  }

  lemma {:induction false} SameCellIff(y: Layout, h: nat, wraps: nat, r: nat, i: nat, q: nat)
    requires r < y.maxSeqLen && i < y.numKVHeads && q < y.maxSeqLen
    ensures var c := CellIndex(y, h, wraps * y.maxSeqLen + r);
            CellIndex(y, i, q) < y.Cells() && (c == CellIndex(y, i, q) <==> (h + wraps, r) == (i, q))
  {
    WrappedIndex(y, h, wraps, r);
    CellsApart(y, i, q, i, q);
    if h + wraps < y.numKVHeads { CellsApart(y, h + wraps, r, i, q); }
  }

  /** What every cell holds after the first n heads of one token are written at any position. */
  lemma {:induction false} HeadsCell(y: Layout, cells: seq<Chunk>, p: nat, token: Token, n: nat, wraps: nat, r: nat,
                                     i: nat, q: nat)
    requires |cells| == y.Cells() && n <= |token| == y.numKVHeads && i < y.numKVHeads && q < y.maxSeqLen
    requires p == wraps * y.maxSeqLen + r && r < y.maxSeqLen
    ensures At(y, PutToken(y, cells, p, token, n), i, q) ==
            if r == q && wraps <= i < wraps + n then token[i - wraps] else At(y, cells, i, q)
    decreases n
  {
    if n > 0 {
      HeadsCell(y, cells, p, token, n - 1, wraps, r, i, q);
      SameCellIff(y, n - 1, wraps, r, i, q);
    }
  }

  /** What every cell holds after a token is written at any position: its own head of the token within the
      capacity, and the head p/maxSeqLen places earlier past it. */
  lemma {:induction false} TokenCell(y: Layout, cells: seq<Chunk>, p: nat, token: Token, i: nat, q: nat)
    requires |cells| == y.Cells() && |token| == y.numKVHeads && i < y.numKVHeads && q < y.maxSeqLen
    ensures var wraps := p / y.maxSeqLen;
            At(y, PutToken(y, cells, p, token, y.numKVHeads), i, q) ==
            if p % y.maxSeqLen == q && wraps <= i then token[i - wraps] else At(y, cells, i, q)
  {
    var wraps, r := Split(p, y.maxSeqLen);
    HeadsCell(y, cells, p, token, y.numKVHeads, wraps, r, i, q);
  }

  lemma {:induction false} Split(p: nat, m: nat) returns (wraps: nat, r: nat)
    requires m > 0
    ensures wraps == p / m && r == p % m < m && p == wraps * m + r
  {
    wraps, r := p / m, p % m;
    DivBounds(p, m);
  }

  lemma {:induction false} AppendedSnoc(y: Layout, cells: seq<Chunk>, at: nat, tokens: seq<Token>)
    requires TokensOk(y, tokens) && tokens != []
    ensures var front, last := tokens[..|tokens| - 1], tokens[|tokens| - 1];
            && front + [last] == tokens && TokensOk(y, front)
            && Appended(y, cells, at, tokens) ==
               PutToken(y, Appended(y, cells, at, front), at + |front|, last, y.numKVHeads)
  {
  }

  lemma {:induction false} AppendedNext(y: Layout, cells: seq<Chunk>, at: nat, tokens: seq<Token>, t: nat)
    requires TokensOk(y, tokens) && t < |tokens|
    ensures Appended(y, cells, at, tokens[..t + 1]) ==
            PutToken(y, Appended(y, cells, at, tokens[..t]), at + t, tokens[t], y.numKVHeads)
  {
    assert tokens[..t + 1][..t] == tokens[..t];
  }

  /** Within the capacity, every cell holds the head of its own position. */
  lemma {:induction false} AppendedCell(y: Layout, cells: seq<Chunk>, at: nat, tokens: seq<Token>, h: nat, p: nat)
    requires |cells| == y.Cells() && TokensOk(y, tokens) && at + |tokens| <= y.maxSeqLen
    requires h < y.numKVHeads && p < at + |tokens| && p < y.maxSeqLen
    ensures At(y, Appended(y, cells, at, tokens), h, p) ==
            if p < at then At(y, cells, h, p) else tokens[p - at][h]
    decreases |tokens|
  {
    if tokens != [] {
      var front, last := tokens[..|tokens| - 1], tokens[|tokens| - 1];
      AppendedSnoc(y, cells, at, tokens);
      HeadsCell(y, Appended(y, cells, at, front), at + |front|, last, y.numKVHeads, 0, at + |front|, h, p);
      if p < at + |front| { AppendedCell(y, cells, at, front, h, p); }
    }
  }

  /** Within the capacity, an append extends the log. */
  lemma {:induction false} AppendHolds(y: Layout, cells: seq<Chunk>, log: seq<Token>, tokens: seq<Token>)
    requires HoldsLog(y, cells, log) && TokensOk(y, tokens) && |log| + |tokens| <= y.maxSeqLen
    ensures HoldsLog(y, Appended(y, cells, |log|, tokens), log + tokens)
  {
    var after := Appended(y, cells, |log|, tokens);
    forall h, p | 0 <= h < y.numKVHeads && 0 <= p < |log + tokens|
      ensures CellIndex(y, h, p) < |after| && after[CellIndex(y, h, p)] == (log + tokens)[p][h]
    {
      CellsApart(y, h, p, h, p);
      AppendedCell(y, cells, |log|, tokens, h, p);
    }
  }

  /** Truncation changes no cell: the buffer still holds the first tokens. */
  lemma {:induction false} CutHolds(y: Layout, cells: seq<Chunk>, log: seq<Token>, n: nat)
    requires HoldsLog(y, cells, log) && n <= |log|
    ensures HoldsLog(y, cells, log[..n])
  {
    forall h, p | 0 <= h < y.numKVHeads && 0 <= p < n
      ensures CellIndex(y, h, p) < |cells| && cells[CellIndex(y, h, p)] == log[..n][p][h]
    {
      assert log[..n][p] == log[p];
    }
  }

  /** Whatever was held and is appended, the buffer then holds it all. */
  ghost predicate AppendSafe(y: Layout, at: nat, n: nat) {
    forall cells, log, tokens ::
      HoldsLog(y, cells, log) && TokensOk(y, tokens) && |log| == at && |tokens| == n ==>
        HoldsLog(y, Appended(y, cells, at, tokens), log + tokens)
  }

  /** The cache is a log of tokens exactly as long as it is not asked to hold more than its capacity. */
  lemma {:induction false} AppendSafeIff(y: Layout, at: nat, n: nat)
    requires y.numKVHeads > 0 && at <= y.maxSeqLen
    ensures AppendSafe(y, at, n) <==> at + n <= y.maxSeqLen
  {
    if at + n <= y.maxSeqLen {
      forall cells, log, tokens | HoldsLog(y, cells, log) && TokensOk(y, tokens) && |log| == at && |tokens| == n
        ensures HoldsLog(y, Appended(y, cells, at, tokens), log + tokens)
      {
        AppendHolds(y, cells, log, tokens);
      }
    } else {
      var cells, log, tokens := Same([], y.Cells()), Copies(y, [], at), Copies(y, [], n);
      SameHolds(y, [], at);
      LastHeadEnds(y);
      assert y.maxSeqLen < |log + tokens|;
      assert !HoldsLog(y, Appended(y, cells, at, tokens), log + tokens);
    }
  }

  function Same(x: Chunk, n: nat): (r: seq<Chunk>)
    ensures |r| == n && forall i :: 0 <= i < n ==> r[i] == x
  {
    seq(n, i => x)
  }

  function Copies(y: Layout, x: Chunk, n: nat): (r: seq<Token>)
    ensures |r| == n && TokensOk(y, r) && forall i :: 0 <= i < n ==> r[i] == Same(x, y.numKVHeads)
  {
    seq(n, i => Same(x, y.numKVHeads))
  }

  lemma {:induction false} SameHolds(y: Layout, x: Chunk, at: nat)
    requires at <= y.maxSeqLen
    ensures HoldsLog(y, Same(x, y.Cells()), Copies(y, x, at))
  {
    forall h, p | 0 <= h < y.numKVHeads && 0 <= p < at ensures CellIndex(y, h, p) < y.Cells() {
      CellsApart(y, h, p, h, p);
    }
  }

  /** An append across the capacity overwrites a live cell: position 0 of the next head then holds the previous
      head of the first token too many. */
  lemma {:induction false} OverflowOverwrites(y: Layout, cells: seq<Chunk>, at: nat, tokens: seq<Token>, h: nat)
    requires |cells| == y.Cells() && TokensOk(y, tokens) && y.maxSeqLen > 0 && h + 1 < y.numKVHeads
    requires at <= y.maxSeqLen < at + |tokens| && (h == 0 || at + |tokens| <= 2 * y.maxSeqLen)
    ensures At(y, Appended(y, cells, at, tokens), h + 1, 0) == tokens[y.maxSeqLen - at][h]
    decreases |tokens|
  {
    var front, last := tokens[..|tokens| - 1], tokens[|tokens| - 1];
    var before := Appended(y, cells, at, front);
    AppendedSnoc(y, cells, at, tokens);
    if at + |front| == y.maxSeqLen {
      HeadsCell(y, before, at + |front|, last, y.numKVHeads, 1, 0, h + 1, 0);
    } else {
      OverflowOverwrites(y, cells, at, front, h);
      LaterToken(y, before, at + |front|, last, h);
    }
  }

  lemma {:induction false} LaterToken(y: Layout, cells: seq<Chunk>, p: nat, token: Token, h: nat)
    requires |cells| == y.Cells() && |token| == y.numKVHeads && h + 1 < y.numKVHeads
    requires 0 < y.maxSeqLen < p && (h == 0 || p < 2 * y.maxSeqLen)
    ensures At(y, PutToken(y, cells, p, token, y.numKVHeads), h + 1, 0) == At(y, cells, h + 1, 0)
  {
    NotOneWrap(p, y.maxSeqLen, h);
    TokenCell(y, cells, p, token, h + 1, 0);
  }

  lemma {:induction false} NotOneWrap(p: nat, m: nat, h: nat)
    requires m > 0 && m < p && (h == 0 || p < 2 * m)
    ensures p % m == 0 ==> p / m > h + 1
  {
    DivBounds(p, m);
    if p < 2 * m {
      DivIs(p, 1, m);
    } else {
      MulLess(2, p / m, m);
      assert h == 0;
    }
  }

  /** Cells of live positions that an append leaves alone, whatever it writes. */
  ghost predicate LiveKept(y: Layout, at: nat, n: nat)
    requires at <= y.maxSeqLen
  {
    forall cells, tokens, h, p :: LiveCell(y, cells, at, tokens, n, h, p) ==>
      At(y, Appended(y, cells, at, tokens), h, p) == At(y, cells, h, p)
  }

  ghost predicate LiveCell(y: Layout, cells: seq<Chunk>, at: nat, tokens: seq<Token>, n: nat, h: int, p: int) {
    |cells| == y.Cells() && TokensOk(y, tokens) && |tokens| == n && 0 <= h < y.numKVHeads && 0 <= p < at
  }

  /** No live cell is ever overwritten exactly when the tokens fit or there is no next head to overwrite. */
  lemma {:induction false} LiveKeptIff(y: Layout, at: nat, n: nat)
    requires 0 < at <= y.maxSeqLen
    ensures LiveKept(y, at, n) <==> at + n <= y.maxSeqLen || y.numKVHeads <= 1
  {
    if at + n <= y.maxSeqLen || y.numKVHeads <= 1 {
      forall cells, tokens, h, p | LiveCell(y, cells, at, tokens, n, h, p)
        ensures At(y, Appended(y, cells, at, tokens), h, p) == At(y, cells, h, p)
      {
        LiveCellKept(y, cells, at, tokens, h, p);
      }
    } else {
      LiveCellLost(y, at, n);
    }
  }

  lemma {:induction false} LiveCellLost(y: Layout, at: nat, n: nat)
    requires 0 < at <= y.maxSeqLen < at + n && y.numKVHeads > 1
    ensures !LiveKept(y, at, n)
  {
    var cells, tokens := Same([0.0], y.Cells()), Copies(y, [1.0], n);
    CellsApart(y, 1, 0, 1, 0);
    assert At(y, cells, 1, 0) == [0.0] != tokens[y.maxSeqLen - at][0];
    CellLost(y, at, n, cells, tokens);
  }

  lemma {:induction false} CellLost(y: Layout, at: nat, n: nat, cells: seq<Chunk>, tokens: seq<Token>)
    requires 0 < at <= y.maxSeqLen < at + n && y.numKVHeads > 1
    requires |cells| == y.Cells() && TokensOk(y, tokens) && |tokens| == n
    requires At(y, cells, 1, 0) != tokens[y.maxSeqLen - at][0]
    ensures !LiveKept(y, at, n)
  {
    OverflowOverwrites(y, cells, at, tokens, 0);
    assert LiveCell(y, cells, at, tokens, n, 1, 0);
  }

  lemma {:induction false} LiveCellKept(y: Layout, cells: seq<Chunk>, at: nat, tokens: seq<Token>, h: nat, p: nat)
    requires |cells| == y.Cells() && TokensOk(y, tokens) && h < y.numKVHeads && p < at <= y.maxSeqLen
    requires at + |tokens| <= y.maxSeqLen || y.numKVHeads <= 1
    ensures At(y, Appended(y, cells, at, tokens), h, p) == At(y, cells, h, p)
    decreases |tokens|
  {
    if at + |tokens| <= y.maxSeqLen {
      AppendedCell(y, cells, at, tokens, h, p);
    } else {
      var front, last := tokens[..|tokens| - 1], tokens[|tokens| - 1];
      AppendedSnoc(y, cells, at, tokens);
      LiveCellKept(y, cells, at, front, h, p);
      OutsideOrLater(at + |front|, y.maxSeqLen, p);
      TokenCell(y, Appended(y, cells, at, front), at + |front|, last, h, p);
    }
  }

  lemma {:induction false} OutsideOrLater(at: nat, m: nat, p: nat)
    requires p < m && p < at
    ensures at % m == p ==> at / m > 0
  {
    if at < m { DivIs(at, 0, m); } else { DivBounds(at, m); }
  }

  // ---------------------------------------------------------------- the flat buffers

  ghost predicate BufferOk(y: Layout, buf: seq<real>) {
    |buf| == y.Cells() * y.headDim
  }

  function CellsOf(y: Layout, buf: seq<real>): (cells: seq<Chunk>)
    requires BufferOk(y, buf)
    ensures |cells| == y.Cells()
  {
    Unflatten(buf, y.headDim, y.Cells())
  }

  /** The tokens of a flat source, head by head. */
  function TokensOf(y: Layout, flat: seq<real>, n: nat): (tokens: seq<Token>)
    requires |flat| == n * y.Width()
    ensures |tokens| == n && TokensOk(y, tokens)
  {
    MulAssoc(n, y.numKVHeads, y.headDim);
    Unflatten(Unflatten(flat, y.headDim, n * y.numKVHeads), y.numKVHeads, n)
  }

  /** Where the copy loop reads: head h of token t. */
  lemma {:induction false} Source(y: Layout, flat: seq<real>, n: nat, t: nat, h: nat)
    requires |flat| == n * y.Width() && t < n && h < y.numKVHeads
    ensures var src := SourceOffset(y, t, h);
            && src + y.headDim <= |flat|
            && flat[src..src + y.headDim] == TokensOf(y, flat, n)[t][h]
  {
    var m, src := n * y.numKVHeads, SourceOffset(y, t, h);
    MulAssoc(n, y.numKVHeads, y.headDim);
    OffsetOf(y, t, h);
    HeadOfToken(y, flat, n, m, t, h, src);
  }

  lemma {:induction false} HeadOfToken(y: Layout, flat: seq<real>, n: nat, m: nat, t: nat, h: nat, src: nat)
    requires |flat| == n * y.Width() && m == n * y.numKVHeads && |flat| == m * y.headDim
    requires t < n && h < y.numKVHeads && src == (t * y.numKVHeads + h) * y.headDim
    ensures src + y.headDim <= |flat| && flat[src..src + y.headDim] == TokensOf(y, flat, n)[t][h]
  {
    HeadAt(flat, y.headDim, y.numKVHeads, n, m, t, h, src);
  }

  lemma {:induction false} HeadAt(flat: seq<real>, width: nat, heads: nat, n: nat, m: nat, t: nat, h: nat, src: nat)
    requires m == n * heads && |flat| == m * width && t < n && h < heads && src == (t * heads + h) * width
    ensures src + width <= |flat|
    ensures flat[src..src + width] == Unflatten(Unflatten(flat, width, m), heads, n)[t][h]
  {
    ChunkOf(Unflatten(flat, width, m), heads, n, t, h);
    ChunkAt(flat, width, m, t * heads + h, src);
  }

  lemma {:induction false} ChunkAt(flat: seq<real>, width: nat, n: nat, c: nat, src: nat)
    requires |flat| == n * width && c < n && src == c * width
    ensures src + width <= |flat| && flat[src..src + width] == Unflatten(flat, width, n)[c]
  {
    MulSucc(c, width);
    MulMono(c + 1, n, width);
  }

  lemma {:induction false} OffsetOf(y: Layout, t: nat, h: nat)
    ensures SourceOffset(y, t, h) == (t * y.numKVHeads + h) * y.headDim
  {
    MulAssoc(t, y.numKVHeads, y.headDim);
    MulAdd(t * y.numKVHeads, h, y.headDim);
  }

  lemma {:induction false} ChunkOf<T>(chunks: seq<T>, heads: nat, n: nat, t: nat, h: nat)
    requires |chunks| == n * heads && t < n && h < heads
    ensures t * heads + h < |chunks| && Unflatten(chunks, heads, n)[t][h] == chunks[t * heads + h]
  {
    MulSucc(t, heads);
    MulMono(t + 1, n, heads);
  }

  function SourceOffset(y: Layout, t: nat, h: nat): nat {
    t * (y.numKVHeads * y.headDim) + h * y.headDim
  }

  function TargetOffset(y: Layout, h: nat, p: nat): nat {
    h * (y.maxSeqLen * y.headDim) + p * y.headDim
  }

  /** Where it writes: the cell of head h at position p, if that is inside the buffer. */
  lemma {:induction false} Destination(y: Layout, buf: seq<real>, h: nat, p: nat, chunk: Chunk)
    requires BufferOk(y, buf) && |chunk| == y.headDim
    ensures var dst := TargetOffset(y, h, p);
            CellsOf(y, if dst + y.headDim <= |buf| then Blit(buf, dst, chunk) else buf) ==
            PutHead(y, CellsOf(y, buf), h, p, chunk)
  {
    var c, cells := CellIndex(y, h, p), y.Cells();
    MulAssoc(h, y.maxSeqLen, y.headDim);
    MulAdd(h * y.maxSeqLen, p, y.headDim);
    MulSucc(c, y.headDim);
    if c < cells {
      MulMono(c + 1, cells, y.headDim);
      UnflattenBlit(buf, y.headDim, cells, c, chunk);
    } else {
      MulMono(cells, c, y.headDim);
      if y.headDim == 0 { assert buf == []; }
    }
  }

  lemma {:induction false} MulAssoc(a: int, b: int, c: int)
    ensures a * (b * c) == (a * b) * c
  {
  }

  lemma {:induction false} MulAdd(a: int, b: int, c: int)
    ensures (a + b) * c == a * c + b * c
  {
  }

  // ---------------------------------------------------------------- the cache

  class GPUKVCache {
    const y: Layout
    const numLayers: nat
    var kBuffers: seq<seq<real>>
    var vBuffers: seq<seq<real>>
    var seqLen: nat

    ghost predicate Valid()
      reads this
    {
      && |kBuffers| == |vBuffers| == numLayers
      && forall l :: 0 <= l < numLayers ==> BufferOk(y, kBuffers[l]) && BufferOk(y, vBuffers[l])
    }

    constructor (y: Layout, numLayers: nat, kMem: seq<seq<real>>, vMem: seq<seq<real>>)
      requires |kMem| == |vMem| == numLayers
      requires forall l :: 0 <= l < numLayers ==> BufferOk(y, kMem[l]) && BufferOk(y, vMem[l])
      ensures Valid() && this.y == y && this.numLayers == numLayers
      ensures seqLen == 0 && kBuffers == kMem && vBuffers == vMem
    {
      this.y, this.numLayers := y, numLayers;
      kBuffers, vBuffers, seqLen := kMem, vMem, 0;
    }

    /** Append tokens to one layer, without a look at the capacity; the length moves only with the last layer. */
    method AppendKV(layerIdx: nat, k: seq<real>, v: seq<real>, newTokens: nat) returns (fullSeqLen: nat)
      requires Valid() && layerIdx < numLayers && |k| == |v| == newTokens * y.Width()
      modifies this
      ensures Valid() && fullSeqLen == old(seqLen) + newTokens
      ensures seqLen == if layerIdx == numLayers - 1 then old(seqLen) + newTokens else old(seqLen)
      ensures kBuffers == old(kBuffers)[layerIdx := kBuffers[layerIdx]]
      ensures vBuffers == old(vBuffers)[layerIdx := vBuffers[layerIdx]]
      ensures CellsOf(y, kBuffers[layerIdx]) ==
              Appended(y, CellsOf(y, old(kBuffers)[layerIdx]), old(seqLen), TokensOf(y, k, newTokens))
      ensures CellsOf(y, vBuffers[layerIdx]) ==
              Appended(y, CellsOf(y, old(vBuffers)[layerIdx]), old(seqLen), TokensOf(y, v, newTokens))
    {
      var kBuf := CopyHeads(kBuffers[layerIdx], k, newTokens);
      var vBuf := CopyHeads(vBuffers[layerIdx], v, newTokens);
      kBuffers, vBuffers := kBuffers[layerIdx := kBuf], vBuffers[layerIdx := vBuf];
      fullSeqLen := seqLen + newTokens;
      if layerIdx == numLayers - 1 {
        seqLen := seqLen + newTokens;
      }
    }

    /** The copy loop: from [token, head] to [head, position]. */
    method CopyHeads(buf: seq<real>, src: seq<real>, newTokens: nat) returns (out: seq<real>)
      requires BufferOk(y, buf) && |src| == newTokens * y.Width()
      ensures BufferOk(y, out)
      ensures CellsOf(y, out) == Appended(y, CellsOf(y, buf), seqLen, TokensOf(y, src, newTokens))
    {
      out := buf;
      ghost var tokens, cells := TokensOf(y, src, newTokens), CellsOf(y, buf);
      var t := 0;
      while t < newTokens
        invariant 0 <= t <= newTokens && BufferOk(y, out)
        invariant CellsOf(y, out) == Appended(y, cells, seqLen, tokens[..t])
      {
        out := CopyToken(out, src, newTokens, t);
        AppendedNext(y, cells, seqLen, tokens, t);
        t := t + 1;
      }
      assert tokens[..newTokens] == tokens;
    }

    /** Its inner loop. */
    method CopyToken(buf: seq<real>, src: seq<real>, newTokens: nat, t: nat) returns (out: seq<real>)
      requires BufferOk(y, buf) && |src| == newTokens * y.Width() && t < newTokens
      ensures BufferOk(y, out)
      ensures CellsOf(y, out) ==
              PutToken(y, CellsOf(y, buf), seqLen + t, TokensOf(y, src, newTokens)[t], y.numKVHeads)
    {
      out := buf;
      ghost var token, cells := TokensOf(y, src, newTokens)[t], CellsOf(y, buf);
      var h := 0;
      while h < y.numKVHeads
        invariant 0 <= h <= y.numKVHeads == |token| && |out| == |buf|
        invariant CellsOf(y, out) == PutToken(y, cells, seqLen + t, token, h)
      {
        var srcOffset, dstOffset := SourceOffset(y, t, h), TargetOffset(y, h, seqLen + t);
        Source(y, src, newTokens, t, h);
        Destination(y, out, h, seqLen + t, src[srcOffset..srcOffset + y.headDim]);
        if dstOffset + y.headDim <= |out| {
          out := Blit(out, dstOffset, src[srcOffset..srcOffset + y.headDim]);
        }
        h := h + 1;
      }
    }

    /** The position where the caller is to write, and the length after that. */
    method ReserveKV(layerIdx: nat, newTokens: nat) returns (seqPos: nat, fullSeqLen: nat)
      requires Valid() && layerIdx < numLayers
      modifies this`seqLen
      ensures Valid() && seqPos == old(seqLen) && fullSeqLen == old(seqLen) + newTokens
      ensures seqLen == if layerIdx == numLayers - 1 then fullSeqLen else seqPos
    {
      seqPos, fullSeqLen := seqLen, seqLen + newTokens;
      if layerIdx == numLayers - 1 {
        seqLen := seqLen + newTokens;
      }
    }

    method Reset()
      requires Valid()
      modifies this`seqLen
      ensures Valid() && seqLen == 0
    {
      seqLen := 0;
    }

    method Truncate(newSeqLen: int)
      requires Valid()
      modifies this`seqLen
      ensures Valid()
      ensures seqLen == if newSeqLen < 0 then 0 else if newSeqLen > old(seqLen) then old(seqLen) else newSeqLen
    {
      var n := newSeqLen;
      if n < 0 { n := 0; }
      if n > seqLen { n := seqLen; }
      seqLen := n;
    }

    /** A pass over all layers: each is appended to from the same position, and the length moves once. */
    method ForwardPass(ks: seq<seq<real>>, vs: seq<seq<real>>, newTokens: nat) returns (lens: seq<nat>)
      requires Valid() && |ks| == |vs| == numLayers > 0
      requires forall l :: 0 <= l < numLayers ==> |ks[l]| == |vs[l]| == newTokens * y.Width()
      modifies this
      ensures Valid() && seqLen == old(seqLen) + newTokens && |lens| == numLayers
      ensures forall l :: 0 <= l < numLayers ==> lens[l] == old(seqLen) + newTokens
      ensures forall l :: 0 <= l < numLayers ==>
        CellsOf(y, kBuffers[l]) == Appended(y, CellsOf(y, old(kBuffers[l])), old(seqLen), TokensOf(y, ks[l], newTokens))
      ensures forall l :: 0 <= l < numLayers ==>
        CellsOf(y, vBuffers[l]) == Appended(y, CellsOf(y, old(vBuffers[l])), old(seqLen), TokensOf(y, vs[l], newTokens))
    {
      lens := [];
      var l := 0;
      while l < numLayers
        invariant 0 <= l <= numLayers && |lens| == l && Valid()
        invariant seqLen == if l == numLayers then old(seqLen) + newTokens else old(seqLen)
        invariant forall i :: 0 <= i < l ==> lens[i] == old(seqLen) + newTokens
        invariant forall i :: 0 <= i < l ==>
          CellsOf(y, kBuffers[i]) == Appended(y, CellsOf(y, old(kBuffers[i])), old(seqLen),
                                               TokensOf(y, ks[i], newTokens))
        invariant forall i :: 0 <= i < l ==>
          CellsOf(y, vBuffers[i]) == Appended(y, CellsOf(y, old(vBuffers[i])), old(seqLen),
                                               TokensOf(y, vs[i], newTokens))
        invariant forall i :: l <= i < numLayers ==> kBuffers[i] == old(kBuffers[i]) && vBuffers[i] == old(vBuffers[i])
      {
        var full := AppendKV(l, ks[l], vs[l], newTokens);
        lens := lens + [full];
        l := l + 1;
      }
    }
  }
}
