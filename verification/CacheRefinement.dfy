/** The schedulers' cache is a log of tokens at positions (`Speculation.Log`); the caches store key and value
    vectors.  Here the two meet: a forward pass computes the vectors of an entry from what its token attends to, and
    storing and truncating vectors follows feeding and cutting entries. */
module CacheRefinement {
  import opened Arithmetic
  import opened Speculation
  import opened Transparency
  import Sampling
  import Sequences
  import BlockPool
  import BlockContents
  import ContiguousCache

  /** What one layer keeps for an entry, computed from what the entry attends to, itself at the end. */
  type Encoder<T> = seq<Entry> -> T

  /** The vectors of all entries. */
  function Image<T>(enc: Encoder<T>, live: seq<Entry>): (r: seq<T>)
    ensures |r| == |live| && forall i :: 0 <= i < |r| ==> r[i] == enc(Window(live, i))
  {
    seq(|live|, i requires 0 <= i < |live| => enc(Window(live, i)))
  }

  /** The vectors a pass over `tokens` stores: each computed from what it attends to. */
  function Fed<T>(enc: Encoder<T>, c: Log, tokens: seq<int>, pos: nat): (r: seq<T>)
    ensures |r| == |tokens| && forall i :: 0 <= i < |r| ==> r[i] == enc(c.Context(tokens, pos, i))
  {
    seq(|tokens|, i requires 0 <= i < |tokens| => enc(c.Context(tokens, pos, i)))
  }

  /** A pass over several tokens leaves vectors in the contiguous cache that do not depend on the text in it. */
  lemma {:induction false} OwnVectors<T>(enc: Encoder<T>, c: Log, tokens: seq<int>, pos: nat, i: nat)
    requires c.kind == Contiguous && |tokens| > 1 && i < |tokens|
    ensures Fed(enc, c, tokens, pos)[i] == enc(Entries(tokens[..i + 1], pos, 0))
  {
    OwnContext(c, tokens, pos, i);
  }

  /** A pass that shows each token the text leaves the vectors of the text. */
  lemma {:induction false} TextVectors<T>(enc: Encoder<T>, c: Conf, ts: seq<int>, i: nat)
    requires Sound(c) && c.view.state == Sequences.Decoding && SeesText(c.cache.kind, ts) && i <= |ts|
    ensures Fed(enc, c.cache, [c.view.Input().0] + ts, c.view.position)[i] == enc(Stamp(c.view.All() + ts[..i]))
  {
    ContextIsText(c, ts, i);
  }

  lemma {:induction false} ImageFront<T>(enc: Encoder<T>, front: seq<Entry>, rest: seq<Entry>)
    ensures Image(enc, front + rest)[..|front|] == Image(enc, front)
  {
    forall i | 0 <= i < |front| ensures Image(enc, front + rest)[i] == Image(enc, front)[i] {
      WindowOfFront(front, rest, i);
    }
  }

  lemma {:induction false} ImageTake<T>(enc: Encoder<T>, live: seq<Entry>, n: nat)
    requires n <= |live|
    ensures Image(enc, live[..n]) == Image(enc, live)[..n]
  {
    ImageFront(enc, live[..n], live[n..]);
    assert live[..n] + live[n..] == live;
  }

  /** A pass that reaches the end of the log replaces everything from where it starts. */
  lemma {:induction false} ImageFeed<T>(enc: Encoder<T>, c: Log, tokens: seq<int>, pos: nat)
    requires |c.live| <= c.At(pos) + |tokens|
    ensures Image(enc, c.Feed(tokens, pos).live) == Image(enc, c.live)[..c.At(pos)] + Fed(enc, c, tokens, pos)
  {
    var at, made := c.At(pos), c.Made(tokens, pos);
    var live := c.live[..at] + made;
    assert c.Feed(tokens, pos).live == live;
    ImageFront(enc, c.live[..at], made);
    ImageTake(enc, c.live, at);
    var image := Image(enc, live);
    assert image == image[..at] + image[at..];
    forall i | 0 <= i < |tokens| ensures image[at..][i] == Fed(enc, c, tokens, pos)[i] {
      assert image[at..][i] == image[at + i] == enc(Window(live, at + i));
    }
    assert image[at..] == Fed(enc, c, tokens, pos);
  }

  // ---------------------------------------------------------------- the block pools

  type Vectors = Encoder<(BlockPool.Vec, BlockPool.Vec)>

  function Keys(pairs: seq<(BlockPool.Vec, BlockPool.Vec)>): (ks: seq<BlockPool.Vec>)
    ensures |ks| == |pairs|
  {
    seq(|pairs|, i requires 0 <= i < |pairs| => pairs[i].0)
  }

  function Values(pairs: seq<(BlockPool.Vec, BlockPool.Vec)>): (vs: seq<BlockPool.Vec>)
    ensures |vs| == |pairs|
  {
    seq(|pairs|, i requires 0 <= i < |pairs| => pairs[i].1)
  }

  /** What a pass stores in a layer. */
  function StoreOf(enc: Vectors, id: int, c: Log, tokens: seq<int>, pos: nat): BlockContents.Op {
    var fed := Fed(enc, c, tokens, pos);
    BlockContents.Store(id, c.At(pos), Keys(fed), Values(fed))
  }

  /** A layer of the pool holds, for one sequence, the vectors of a scheduler's log. */
  ghost predicate PoolHolds(g: BlockPool.Shape, l: BlockPool.Layer, logs: BlockContents.Logs, id: int, enc: Vectors,
                            c: Log)
  {
    BlockContents.Holds(g, l, logs) && id in logs && logs[id] == Image(enc, c.live)
  }

  /** Feeding the log is storing in the pool, if the blocks written are not shared and there are enough. */
  lemma {:induction false} FeedIsStore(g: BlockPool.Shape, l: BlockPool.Layer, logs: BlockContents.Logs, id: int,
                                       enc: Vectors, c: Log, tokens: seq<int>, pos: nat)
    requires g.blockSize > 0 && PoolHolds(g, l, logs, id, enc, c) && |c.live| <= c.At(pos) + |tokens|
    requires BlockContents.Unshared(g, l, id, c.At(pos), |tokens|)
    requires BlockPool.Fits(g, l, id, c.At(pos) + |tokens|)
    ensures var fed := logs[id := Image(enc, c.Feed(tokens, pos).live)];
            PoolHolds(g, BlockContents.Do(g, l, StoreOf(enc, id, c, tokens, pos)), fed, id, enc, c.Feed(tokens, pos))
  {
    var fed := Fed(enc, c, tokens, pos);
    StoreOverwrites(g, l, logs, id, c.At(pos), Keys(fed), Values(fed));
    FeedOverwrites(enc, c, tokens, pos);
  }

  lemma {:induction false} FeedOverwrites(enc: Vectors, c: Log, tokens: seq<int>, pos: nat)
    requires |c.live| <= c.At(pos) + |tokens|
    ensures var fed := Fed(enc, c, tokens, pos);
            BlockContents.Overwrite(Image(enc, c.live), c.At(pos), BlockContents.Zip(Keys(fed), Values(fed))) ==
            Image(enc, c.Feed(tokens, pos).live)
  {
    var fed := Fed(enc, c, tokens, pos);
    ImageFeed(enc, c, tokens, pos);
    assert BlockContents.Zip(Keys(fed), Values(fed)) == fed;
  }

  lemma {:induction false} StoreOverwrites(g: BlockPool.Shape, l: BlockPool.Layer, logs: BlockContents.Logs, id: int,
                                           start: nat, ks: seq<BlockPool.Vec>, vs: seq<BlockPool.Vec>)
    requires g.blockSize > 0 && BlockContents.Holds(g, l, logs) && id in logs && |ks| == |vs| && start <= |logs[id]|
    requires BlockContents.Unshared(g, l, id, start, |ks|) && BlockPool.Fits(g, l, id, start + |ks|)
    ensures BlockContents.Holds(g, BlockContents.Do(g, l, BlockContents.Store(id, start, ks, vs)),
                                logs[id := BlockContents.Overwrite(logs[id], start, BlockContents.Zip(ks, vs))])
  {
    BlockContents.StoreHolds(g, l, logs, id, start, ks, vs);
  }

  /** Cutting the log is truncating the sequence. */
  lemma {:induction false} CutIsTruncate(g: BlockPool.Shape, l: BlockPool.Layer, logs: BlockContents.Logs, id: int,
                                         enc: Vectors, c: Log, n: int)
    requires g.blockSize > 0 && PoolHolds(g, l, logs, id, enc, c)
    ensures PoolHolds(g, BlockPool.Truncated(g, l, id, n), BlockContents.CutLog(logs, id, n), id, enc, c.Cut(n))
  {
    BlockContents.TruncateHolds(g, l, logs, id, n);
    ImageTake(enc, c.live, BlockContents.Clamp(n, |c.live|));
  }

  /** Storing a pass and truncating it again, as a verification does. */
  ghost function StoredAndCut(g: BlockPool.Shape, l: BlockPool.Layer, id: int, enc: Vectors, c: Log, tokens: seq<int>,
                              pos: nat, n: int): BlockPool.Layer
    requires g.blockSize > 0 && BlockPool.Owned(g, l) && id in l.seqs
  {
    BlockPool.Truncated(g, BlockContents.Do(g, l, StoreOf(enc, id, c, tokens, pos)), id, n)
  }

  /** The layer then holds the vectors of the fed and cut log, and every other sequence reads back what it did. */
  lemma {:induction false} FeedThenCut(g: BlockPool.Shape, l: BlockPool.Layer, logs: BlockContents.Logs, id: int,
                                       enc: Vectors, c: Log, tokens: seq<int>, pos: nat, n: int)
    returns (logs': BlockContents.Logs)
    requires g.blockSize > 0 && PoolHolds(g, l, logs, id, enc, c) && |c.live| <= c.At(pos) + |tokens|
    requires BlockContents.Unshared(g, l, id, c.At(pos), |tokens|)
    requires BlockPool.Fits(g, l, id, c.At(pos) + |tokens|)
    ensures PoolHolds(g, StoredAndCut(g, l, id, enc, c, tokens, pos, n), logs', id, enc, c.Feed(tokens, pos).Cut(n))
    ensures forall other :: other in logs && other != id ==> other in logs' && logs'[other] == logs[other]
  {
    FeedIsStore(g, l, logs, id, enc, c, tokens, pos);
    var stored := BlockContents.Do(g, l, StoreOf(enc, id, c, tokens, pos));
    var fed := logs[id := Image(enc, c.Feed(tokens, pos).live)];
    CutIsTruncate(g, stored, fed, id, enc, c.Feed(tokens, pos), n);
    logs' := BlockContents.CutLog(fed, id, n);
  }

  /** What the protocol says is cached after a verification is what feeding input and proposals at the position and
      cutting behind the taken ones leaves: the tokens of the text and those proposals, each at its own place, and
      as the text itself would be cached exactly if the cache was sound and the pass shows each token the text. */
  lemma {:induction false} JudgedIsCut(lim: Sequences.Limits, c: Conf, d: Draft, rows: seq<Sampling.Row>)
    requires Coupled(c) && c.view.state == Sequences.Decoding && |d.tokens| < |rows|
    ensures c.cache.At(c.view.position) == c.view.position == |c.cache.live|
    ensures var fed, pos, taken := [c.view.Input().0] + d.tokens, c.view.position, Taken(d, rows, 0);
            var kept := c.cache.Feed(fed, pos).Cut(pos + 1 + taken);
            && Judged(lim, c, d, pos, rows).cache == kept
            && Placed(kept.live, c.view.All() + d.tokens[..taken])
            && (kept.live == Stamp(c.view.All() + d.tokens[..taken]) <==>
                Sound(c) && SeesText(c.cache.kind, d.tokens))
  {
    PassExtends(c, d.tokens);
    KeptIsText(lim, c, d, rows);
    KeptIsFront(lim, c, d, rows);
    var text := c.view.All() + d.tokens[..Taken(d, rows, 0)];
    if Sound(c) && SeesText(c.cache.kind, d.tokens) {
      KeptIsSound(lim, c, d, rows);
    } else if Judged(lim, c, d, c.view.position, rows).cache.live == Stamp(text) {
      assert Textual(Stamp(text));
      JudgedNotSound(lim, c, d, rows);
    }
  }

  // ---------------------------------------------------------------- the contiguous cache

  /** Feeding a contiguous log is appending to the cells of a layer, up to the capacity. */
  lemma {:induction false} FeedIsAppend(y: ContiguousCache.Layout, cells: seq<ContiguousCache.Chunk>,
                                        enc: Encoder<ContiguousCache.Token>, c: Log, tokens: seq<int>, pos: nat)
    requires forall live :: |enc(live)| == y.numKVHeads
    requires c.kind == Contiguous && |c.live| + |tokens| <= y.maxSeqLen
    requires ContiguousCache.HoldsLog(y, cells, Image(enc, c.live))
    ensures ContiguousCache.TokensOk(y, Fed(enc, c, tokens, pos))
    ensures ContiguousCache.HoldsLog(y, ContiguousCache.Appended(y, cells, |c.live|, Fed(enc, c, tokens, pos)),
                                     Image(enc, c.Feed(tokens, pos).live))
  {
    ImageFeed(enc, c, tokens, pos);
    assert Image(enc, c.live)[..|c.live|] == Image(enc, c.live);
    ContiguousCache.AppendHolds(y, cells, Image(enc, c.live), Fed(enc, c, tokens, pos));
  }

  /** Cutting it only moves the length. */
  lemma {:induction false} CutIsShorter(y: ContiguousCache.Layout, cells: seq<ContiguousCache.Chunk>,
                                        enc: Encoder<ContiguousCache.Token>, c: Log, n: int)
    requires ContiguousCache.HoldsLog(y, cells, Image(enc, c.live))
    ensures ContiguousCache.HoldsLog(y, cells, Image(enc, c.Cut(n).live))
  {
    var keep := if n < 0 then 0 else if n > |c.live| then |c.live| else n;
    ImageTake(enc, c.live, keep);
    ContiguousCache.CutHolds(y, cells, Image(enc, c.live), keep);
  }
}
