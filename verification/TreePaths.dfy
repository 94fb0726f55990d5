/** Root-to-leaf paths of a candidate tree (inference/medusa/tree.go, `Paths`). */
module TreePaths {
  import opened Arithmetic
  import opened Sampling
  import opened CandidateTrees
  import opened TreeTraversal

  function Tokens(trail: seq<Cand>): seq<int> {
    if trail == [] then [] else Tokens(trail[..|trail| - 1]) + [trail[|trail| - 1].token]
  }

  function Confidence(trail: seq<Cand>): real {
    if trail == [] then 0.0 else Confidence(trail[..|trail| - 1]) + trail[|trail| - 1].conf
  }

  /** The tokens are those of the trail, one after the other. */
  lemma {:induction false} TokensAre(trail: seq<Cand>)
    ensures |Tokens(trail)| == |trail| && forall k :: 0 <= k < |trail| ==> Tokens(trail)[k] == trail[k].token
  {
    if trail != [] { TokensAre(trail[..|trail| - 1]); }
  }

  /** The confidence is the sum of the logits, 0 for no candidate. */
  lemma {:induction false} ConfidenceAdds(a: seq<Cand>, b: seq<Cand>)
    ensures Confidence(a + b) == Confidence(a) + Confidence(b)
    ensures Confidence([]) == 0.0 && forall c :: Confidence([c]) == c.conf
  {
    if b == [] {
      assert a + b == a;
    } else {
      assert (a + b)[..|a + b| - 1] == a + b[..|b| - 1];
      ConfidenceAdds(a, b[..|b| - 1]);
    }
  }

  /** The path that ends in node i. */
  function PathTo(nodes: seq<Node>, i: nat): CandidatePath
    requires ParentsEarlier(nodes) && i < |nodes|
  {
    CandidatePath(Tokens(Trail(nodes, i)), Confidence(Trail(nodes, i)))
  }

  /** The leaves below node i in depth-first order. */
  function Walk(nodes: seq<Node>, i: nat): seq<nat>
    requires TreeShape(nodes) && i < |nodes|
    decreases |nodes| - i, 1, 0
  {
    if nodes[i].children == [] then [i] else WalkFrom(nodes, i, 0)
  }

  function WalkFrom(nodes: seq<Node>, i: nat, x: nat): seq<nat>
    requires TreeShape(nodes) && i < |nodes| && x <= |nodes[i].children|
    decreases |nodes| - i, 0, |nodes[i].children| - x
  {
    if x == |nodes[i].children| then []
    else
      ChildrenAre(nodes, i);
      Walk(nodes, nodes[i].children[x]) + WalkFrom(nodes, i, x + 1)
  }

  function PathsTo(nodes: seq<Node>, ids: seq<nat>): (ps: seq<CandidatePath>)
    requires ParentsEarlier(nodes) && forall x :: 0 <= x < |ids| ==> ids[x] < |nodes|
    ensures |ps| == |ids| && forall x :: 0 <= x < |ps| ==> ps[x] == PathTo(nodes, ids[x])
  {
    seq(|ids|, x requires 0 <= x < |ids| => PathTo(nodes, ids[x]))
  }

  lemma {:induction false} WalkInRange(nodes: seq<Node>, i: nat)
    requires TreeShape(nodes) && i < |nodes|
    ensures forall y :: 0 <= y < |Walk(nodes, i)| ==> Walk(nodes, i)[y] < |nodes|
    decreases |nodes| - i, 1, 0
  {
    WalkFromInRange(nodes, i, 0);
  }

  lemma {:induction false} WalkFromInRange(nodes: seq<Node>, i: nat, x: nat)
    requires TreeShape(nodes) && i < |nodes| && x <= |nodes[i].children|
    ensures forall y :: 0 <= y < |WalkFrom(nodes, i, x)| ==> WalkFrom(nodes, i, x)[y] < |nodes|
    decreases |nodes| - i, 0, |nodes[i].children| - x
  {
    if x < |nodes[i].children| {
      ChildrenAre(nodes, i);
      WalkInRange(nodes, nodes[i].children[x]);
      WalkFromInRange(nodes, i, x + 1);
    }
  }

  function LeafPaths(nodes: seq<Node>, i: nat): seq<CandidatePath>
    requires TreeShape(nodes) && i < |nodes|
  {
    WalkInRange(nodes, i);
    PathsTo(nodes, Walk(nodes, i))
  }

  lemma {:induction false} LeafPathsThen(nodes: seq<Node>, done: seq<nat>, c: nat)
    requires TreeShape(nodes) && c < |nodes| && forall y :: 0 <= y < |done| ==> done[y] < |nodes|
    ensures forall y :: 0 <= y < |done + Walk(nodes, c)| ==> (done + Walk(nodes, c))[y] < |nodes|
    ensures PathsTo(nodes, done + Walk(nodes, c)) == PathsTo(nodes, done) + LeafPaths(nodes, c)
  {
    WalkInRange(nodes, c);
  }

  lemma {:induction false} NextChild(nodes: seq<Node>, i: nat, x: nat, done: seq<nat>)
    requires TreeShape(nodes) && i < |nodes| && x < |nodes[i].children|
    ensures var c := nodes[i].children[x];
            && i < c < |nodes|
            && done + WalkFrom(nodes, i, x) == done + Walk(nodes, c) + WalkFrom(nodes, i, x + 1)
            && PathTo(nodes, c).tokens == PathTo(nodes, i).tokens + [nodes[c].cand.token]
            && PathTo(nodes, c).confidence == PathTo(nodes, i).confidence + nodes[c].cand.conf
  {
    ChildrenAre(nodes, i);
    TrailSnoc(nodes, nodes[i].children[x]);
  }

  /** The depth-first closure: one path per leaf, in depth-first order. */
  method Dfs(nodes: seq<Node>, i: nat, tokens: seq<int>, conf: real, paths: seq<CandidatePath>)
    returns (after: seq<CandidatePath>)
    requires TreeShape(nodes) && i < |nodes|
    requires CandidatePath(tokens, conf) == PathTo(nodes, i)
    ensures after == paths + LeafPaths(nodes, i)
    decreases |nodes| - i
  {
    WalkInRange(nodes, i);
    if |nodes[i].children| == 0 {
      return paths + [CandidatePath(tokens, conf)];
    }
    after := paths;
    ghost var done: seq<nat> := [];
    var x := 0;
    while x < |nodes[i].children|
      invariant 0 <= x <= |nodes[i].children|
      invariant done + WalkFrom(nodes, i, x) == Walk(nodes, i)
      invariant forall y :: 0 <= y < |done| ==> done[y] < |nodes|
      invariant after == paths + PathsTo(nodes, done)
    {
      var child := nodes[i].children[x];
      NextChild(nodes, i, x, done);
      after := Dfs(nodes, child, tokens + [nodes[child].cand.token], conf + nodes[child].cand.conf, after);
      LeafPathsThen(nodes, done, child);
      done := done + Walk(nodes, child);
      x := x + 1;
    }
    assert done == Walk(nodes, i);
  }

  lemma {:induction false} TrailSnoc(nodes: seq<Node>, c: nat)
    requires ParentsEarlier(nodes) && 0 < c < |nodes|
    ensures PathTo(nodes, c).tokens == PathTo(nodes, nodes[c].parent).tokens + [nodes[c].cand.token]
    ensures PathTo(nodes, c).confidence == PathTo(nodes, nodes[c].parent).confidence + nodes[c].cand.conf
  {
    var t := Trail(nodes, nodes[c].parent);
    assert Trail(nodes, c) == t + [nodes[c].cand];
    assert Trail(nodes, c)[..|t|] == t;
  }

  // ---------------------------------------------------------------- the walk visits each leaf once

  ghost predicate Leaf(nodes: seq<Node>, l: nat) {
    l < |nodes| && nodes[l].children == []
  }

  lemma {:induction false} AncestorBelow(nodes: seq<Node>, a: nat, b: nat)
    requires ParentsEarlier(nodes) && b < |nodes| && Ancestor(nodes, a, b)
    ensures a <= b
    decreases b
  {
    if a != b { AncestorBelow(nodes, a, nodes[b].parent); }
  }

  /** Two siblings have no common descendant. */
  lemma {:induction false} SiblingsApart(nodes: seq<Node>, a: nat, a': nat, b: nat)
    requires ParentsEarlier(nodes) && b < |nodes| && 0 < a < |nodes| && 0 < a' < |nodes|
    requires nodes[a].parent == nodes[a'].parent
    requires Ancestor(nodes, a, b) && Ancestor(nodes, a', b)
    ensures a == a'
    decreases b
  {
    if a == b {
      if a' != b { AncestorBelow(nodes, a', nodes[b].parent); }
    } else if a' == b {
      AncestorBelow(nodes, a, nodes[b].parent);
    } else {
      SiblingsApart(nodes, a, a', nodes[b].parent);
    }
  }

  /** A descendant is the node itself or a descendant of one of its children. */
  lemma {:induction false} ThroughChild(nodes: seq<Node>, i: nat, b: nat) returns (x: nat)
    requires TreeShape(nodes) && i < |nodes| && b < |nodes| && Ancestor(nodes, i, b) && i != b
    ensures x < |nodes[i].children| && nodes[i].children[x] < |nodes| && Ancestor(nodes, nodes[i].children[x], b)
    decreases b
  {
    ChildrenAre(nodes, i);
    if nodes[b].parent == i {
      assert b in nodes[i].children;
      x :| 0 <= x < |nodes[i].children| && nodes[i].children[x] == b;
    } else {
      x := ThroughChild(nodes, i, nodes[b].parent);
    }
  }

  ghost predicate UnderSome(nodes: seq<Node>, i: nat, x: nat, l: nat)
    requires TreeShape(nodes) && i < |nodes| && l < |nodes|
  {
    exists y :: x <= y < |nodes[i].children| && Ancestor(nodes, nodes[i].children[y], l)
  }

  lemma {:induction false} WalkCounts(nodes: seq<Node>, i: nat, l: nat)
    requires TreeShape(nodes) && i < |nodes| && l < |nodes|
    ensures multiset(Walk(nodes, i))[l] == if Leaf(nodes, l) && Ancestor(nodes, i, l) then 1 else 0
    decreases |nodes| - i, 1, 0
  {
    if nodes[i].children == [] {
      if Ancestor(nodes, i, l) && i != l { var x := ThroughChild(nodes, i, l); }
    } else {
      WalkFromCounts(nodes, i, 0, l);
      if Ancestor(nodes, i, l) && Leaf(nodes, l) {
        var x := ThroughChild(nodes, i, l);
        assert UnderSome(nodes, i, 0, l);
      }
      if UnderSome(nodes, i, 0, l) {
        var y :| 0 <= y < |nodes[i].children| && Ancestor(nodes, nodes[i].children[y], l);
        ChildrenAre(nodes, i);
        AncestorUp(nodes, nodes[i].children[y], l);
      }
    }
  }

  lemma {:induction false} AncestorUp(nodes: seq<Node>, a: nat, b: nat)
    requires ParentsEarlier(nodes) && 0 < a < |nodes| && b < |nodes| && Ancestor(nodes, a, b)
    ensures Ancestor(nodes, nodes[a].parent, b)
    decreases b
  {
    if a != b {
      AncestorUp(nodes, a, nodes[b].parent);
    } else {
      assert Ancestor(nodes, nodes[a].parent, nodes[b].parent);
    }
  }

  lemma {:induction false} WalkFromCounts(nodes: seq<Node>, i: nat, x: nat, l: nat)
    requires TreeShape(nodes) && i < |nodes| && l < |nodes| && x <= |nodes[i].children|
    ensures multiset(WalkFrom(nodes, i, x))[l] == if Leaf(nodes, l) && UnderSome(nodes, i, x, l) then 1 else 0
    decreases |nodes| - i, 0, |nodes[i].children| - x
  {
    if x < |nodes[i].children| {
      ChildrenAre(nodes, i);
      var c := nodes[i].children[x];
      WalkCounts(nodes, c, l);
      WalkFromCounts(nodes, i, x + 1, l);
      if Ancestor(nodes, c, l) && UnderSome(nodes, i, x + 1, l) {
        var y :| x + 1 <= y < |nodes[i].children| && Ancestor(nodes, nodes[i].children[y], l);
        SiblingsApart(nodes, c, nodes[i].children[y], l);
        assert false;
      }
      assert UnderSome(nodes, i, x, l) <==> Ancestor(nodes, c, l) || UnderSome(nodes, i, x + 1, l);
    }
  }

  lemma {:induction false} RootIsAncestor(nodes: seq<Node>, l: nat)
    requires ParentsEarlier(nodes) && l < |nodes|
    ensures Ancestor(nodes, 0, l)
  {
    if l > 0 { RootIsAncestor(nodes, nodes[l].parent); }
  }

  /** ids are the leaves of the tree, each once. */
  ghost predicate LeavesOnce(nodes: seq<Node>, ids: seq<nat>) {
    && (forall x :: 0 <= x < |ids| ==> Leaf(nodes, ids[x]))
    && (forall l: nat :: Leaf(nodes, l) ==> multiset(ids)[l] == 1)
  }

  lemma {:induction false} WalkIsLeaves(nodes: seq<Node>)
    requires TreeShape(nodes)
    ensures LeavesOnce(nodes, Walk(nodes, 0))
  {
    WalkInRange(nodes, 0);
    forall x | 0 <= x < |Walk(nodes, 0)| ensures Leaf(nodes, Walk(nodes, 0)[x]) {
      WalkCounts(nodes, 0, Walk(nodes, 0)[x]);
      assert Walk(nodes, 0)[x] in multiset(Walk(nodes, 0));
    }
    forall l: nat | Leaf(nodes, l) ensures multiset(Walk(nodes, 0))[l] == 1 {
      WalkCounts(nodes, 0, l);
      RootIsAncestor(nodes, l);
    }
  }

  // ---------------------------------------------------------------- sorted paths

  ghost predicate SortedByConfidence(ps: seq<CandidatePath>) {
    forall a, b :: 0 <= a < b < |ps| ==> ps[a].confidence >= ps[b].confidence
  }

  function InsertPath(ps: seq<CandidatePath>, p: CandidatePath): seq<CandidatePath> {
    if ps == [] || ps[0].confidence < p.confidence then [p] + ps else [ps[0]] + InsertPath(ps[1..], p)
  }

  lemma {:induction false} InsertPathPermutes(ps: seq<CandidatePath>, p: CandidatePath)
    ensures multiset(InsertPath(ps, p)) == multiset(ps) + multiset{p}
  {
    if ps != [] && ps[0].confidence >= p.confidence {
      InsertPathPermutes(ps[1..], p);
      assert ps == [ps[0]] + ps[1..];
    }
  }

  lemma {:induction false} ConsSorted(p: CandidatePath, ps: seq<CandidatePath>)
    requires SortedByConfidence(ps) && forall b :: 0 <= b < |ps| ==> p.confidence >= ps[b].confidence
    ensures SortedByConfidence([p] + ps)
  {
    forall a, b | 0 <= a < b < |[p] + ps| ensures ([p] + ps)[a].confidence >= ([p] + ps)[b].confidence {
      if a > 0 { assert ps[a - 1].confidence >= ps[b - 1].confidence; }
    }
  }

  lemma {:induction false} InsertPathSorts(ps: seq<CandidatePath>, p: CandidatePath)
    requires SortedByConfidence(ps)
    ensures SortedByConfidence(InsertPath(ps, p))
  {
    if ps == [] || ps[0].confidence < p.confidence {
      ConsSorted(p, ps);
    } else {
      var rest := InsertPath(ps[1..], p);
      InsertPathSorts(ps[1..], p);
      InsertPathPermutes(ps[1..], p);
      forall b | 0 <= b < |rest| ensures ps[0].confidence >= rest[b].confidence {
        assert rest[b] in multiset(rest);
      }
      ConsSorted(ps[0], rest);
    }
  }

  /** The library sort, modelled by insertion. */
  method SortPaths(found: seq<CandidatePath>) returns (paths: seq<CandidatePath>)
    ensures multiset(paths) == multiset(found) && SortedByConfidence(paths)
  {
    paths := [];
    var i := 0;
    while i < |found|
      invariant 0 <= i <= |found|
      invariant multiset(paths) == multiset(found[..i]) && SortedByConfidence(paths)
    {
      InsertPathSorts(paths, found[i]);
      InsertPathPermutes(paths, found[i]);
      paths := InsertPath(paths, found[i]);
      assert found[..i + 1] == found[..i] + [found[i]];
      i := i + 1;
    }
    assert found[..i] == found;
  }

  /** Exactly one path for every leaf of the tree, most confident first: the tokens on the way from the root to the
      leaf, and the sum of their logits. */
  method Paths(tree: CandidateTree) returns (paths: seq<CandidatePath>, ghost leaves: seq<nat>)
    requires TreeShape(tree.nodes)
    ensures LeavesOnce(tree.nodes, leaves)
    ensures forall x :: 0 <= x < |leaves| ==> leaves[x] < |tree.nodes|
    ensures multiset(paths) == multiset(PathsTo(tree.nodes, leaves)) && SortedByConfidence(paths)
    ensures forall p :: p in paths ==> exists l: nat :: Leaf(tree.nodes, l) && Spells(p, Trail(tree.nodes, l))
  {
    leaves := Walk(tree.nodes, 0);
    WalkIsLeaves(tree.nodes);
    var found := Dfs(tree.nodes, 0, [], 0.0, []);
    paths := SortPaths(found);
    forall p | p in paths ensures exists l: nat :: Leaf(tree.nodes, l) && Spells(p, Trail(tree.nodes, l)) {
      assert p in multiset(paths) && p in multiset(found);
      var x :| 0 <= x < |leaves| && p == PathTo(tree.nodes, leaves[x]);
      TokensAre(Trail(tree.nodes, leaves[x]));
      assert Leaf(tree.nodes, leaves[x]);
    }
  }

  /** A path's tokens are those of the trail, in order, and its confidence the sum of its logits. */
  ghost predicate Spells(p: CandidatePath, trail: seq<Cand>) {
    && |p.tokens| == |trail| && (forall k :: 0 <= k < |trail| ==> p.tokens[k] == trail[k].token)
    && p.confidence == Confidence(trail)
  }

  // ---------------------------------------------------------------- the whole product, when the budget allows

  ghost predicate NoRepeats<T>(xs: seq<T>) {
    forall a, b :: 0 <= a < b < |xs| ==> xs[a] != xs[b]
  }

  lemma {:induction false} ExtendAllNoRepeats(ps: seq<seq<Cand>>, cs: seq<Cand>)
    requires NoRepeats(ps) && NoRepeats(cs)
    ensures NoRepeats(ExtendAll(ps, cs))
  {
    if ps != [] {
      var rest, last := ps[..|ps| - 1], ps[|ps| - 1];
      ExtendAllNoRepeats(rest, cs);
      var qs := ExtendOne(last, cs);
      forall a, b | 0 <= a < b < |qs| ensures qs[a] != qs[b] {
        assert qs[a][|last|] == cs[a] && qs[b][|last|] == cs[b];
      }
      forall b | 0 <= b < |qs| ensures qs[b] !in ExtendAll(rest, cs) {
        ExtendAllMembers(rest, cs, qs[b]);
        assert qs[b][..|qs[b]| - 1] == last;
      }
    }
  }

  lemma {:induction false} CompleteFacts(heads: seq<seq<Cand>>, d: nat)
    requires d <= |heads| && forall i :: 0 <= i < |heads| ==> NoRepeats(heads[i])
    ensures NoRepeats(Complete(heads, d)) && NoRepeats(Level(heads, d))
    ensures forall p :: p in Complete(heads, d) ==> 0 < |p| <= d
  {
    if d > 0 {
      CompleteFacts(heads, d - 1);
      ExtendAllNoRepeats(Level(heads, d - 1), heads[d - 1]);
      var before, level := Complete(heads, d - 1), Level(heads, d);
      forall x | 0 <= x < |level| ensures |level[x]| == d {
        assert level[x] in level;
        LevelIsProduct(heads, d, level[x]);
      }
    }
  }

  lemma {:induction false} TopKNoRepeats(row: Row, k: nat, cs: seq<Cand>)
    requires IsTopK(row, k, cs)
    ensures NoRepeats(cs)
  {
    var rest :| multiset(cs + rest) == multiset(Items(row)) && |cs| == if k < |row| then k else |row|;
    ItemsOnce(row, Items(row));
    forall a, b | 0 <= a < b < |cs| ensures cs[a] != cs[b] {
      if cs[a] == cs[b] {
        TwiceCounts(cs + rest, a, b);
        assert false;
      }
    }
  }

  lemma {:induction false} TwiceCounts<T>(xs: seq<T>, a: nat, b: nat)
    requires a < b < |xs| && xs[a] == xs[b]
    ensures multiset(xs)[xs[a]] >= 2
  {
    assert xs == xs[..b] + xs[b..];
    assert xs[..b][a] == xs[a] && xs[b..][0] == xs[a];
    assert xs[a] in multiset(xs[..b]) && xs[a] in multiset(xs[b..]);
  }

  lemma {:induction false} ItemsOnce(row: Row, items: seq<Cand>)
    requires |items| <= |row| && forall i :: 0 <= i < |items| ==> items[i].token == i
    ensures forall c :: multiset(items)[c] <= 1
  {
    if items != [] {
      var rest, last := items[..|items| - 1], items[|items| - 1];
      assert items == rest + [last];
      ItemsOnce(row, rest);
      assert last !in multiset(rest);
    }
  }

  /** If the budget was not hit, every choice of one candidate per head is the trail of exactly one leaf,
      and the trail of every leaf is such a choice. */
  lemma {:induction false} LeavesAreProduct(nodes: seq<Node>, heads: seq<seq<Cand>>, maxNodes: int)
    requires Built(nodes, heads, maxNodes) && |Complete(heads, |heads|)| <= maxNodes
    requires forall i :: 0 <= i < |heads| ==> heads[i] != [] && NoRepeats(heads[i])
    ensures forall l: nat :: l < |nodes| ==> (Leaf(nodes, l) <==> Picks(heads, |heads|, Trail(nodes, l)))
    ensures forall p :: Picks(heads, |heads|, p) ==> exists l: nat :: l < |nodes| && Trail(nodes, l) == p
    ensures forall l: nat, l': nat :: l < l' < |nodes| ==> Trail(nodes, l) != Trail(nodes, l')
  {
    var n := |heads|;
    assert Complete(heads, n)[..|Complete(heads, n)|] == Complete(heads, n);
    CompleteFacts(heads, n);
    forall l: nat, l': nat | l < l' < |nodes| ensures Trail(nodes, l) != Trail(nodes, l') {
      TrailKnown(nodes, heads, l');
      assert l > 0 ==> Trails(nodes)[l - 1] == Trail(nodes, l);
    }
    forall l: nat | l < |nodes| ensures Leaf(nodes, l) <==> Picks(heads, n, Trail(nodes, l)) {
      LeafIffDeep(nodes, heads, l);
    }
    forall p | Picks(heads, n, p) ensures exists l: nat :: l < |nodes| && Trail(nodes, l) == p {
      var l := NodeFor(nodes, heads, n, p);
    }
  }

  /** The paths of a list of trails. */
  function PathsOf(trails: seq<seq<Cand>>): (ps: seq<CandidatePath>)
    ensures |ps| == |trails|
    ensures forall x :: 0 <= x < |ps| ==> ps[x] == CandidatePath(Tokens(trails[x]), Confidence(trails[x]))
  {
    seq(|trails|, x requires 0 <= x < |trails| => CandidatePath(Tokens(trails[x]), Confidence(trails[x])))
  }

  function TrailsOf(nodes: seq<Node>, ids: seq<nat>): (ts: seq<seq<Cand>>)
    requires ParentsEarlier(nodes) && forall x :: 0 <= x < |ids| ==> ids[x] < |nodes|
    ensures |ts| == |ids| && forall x :: 0 <= x < |ts| ==> ts[x] == Trail(nodes, ids[x])
  {
    seq(|ids|, x requires 0 <= x < |ids| => Trail(nodes, ids[x]))
  }

  lemma {:induction false} OnceNoRepeats(nodes: seq<Node>, ids: seq<nat>)
    requires LeavesOnce(nodes, ids)
    ensures NoRepeats(ids)
  {
    forall a, b | 0 <= a < b < |ids| ensures ids[a] != ids[b] {
      assert Leaf(nodes, ids[a]);
      assert multiset(ids)[ids[a]] == 1;
      if ids[a] == ids[b] { TwiceCounts(ids, a, b); }
    }
  }

  /** Two lists without repetitions and with the same members are rearrangements of each other. */
  lemma {:induction false} SameMembers<T>(a: seq<T>, b: seq<T>)
    requires NoRepeats(a) && NoRepeats(b) && forall x :: x in a <==> x in b
    ensures multiset(a) == multiset(b)
  {
    forall x ensures multiset(a)[x] == multiset(b)[x] {
      CountsOnce(a, x);
      CountsOnce(b, x);
    }
  }

  lemma {:induction false} CountsOnce<T>(a: seq<T>, x: T)
    requires NoRepeats(a)
    ensures multiset(a)[x] == if x in a then 1 else 0
  {
    if a != [] {
      var front, last := a[..|a| - 1], a[|a| - 1];
      assert a == front + [last];
      CountsOnce(front, x);
      assert forall k :: 0 <= k < |front| ==> front[k] == a[k] != last;
    }
  }

  lemma {:induction false} PathsOfPermutes(a: seq<seq<Cand>>, b: seq<seq<Cand>>)
    requires multiset(a) == multiset(b)
    ensures multiset(PathsOf(a)) == multiset(PathsOf(b))
  {
    if a == [] {
      assert |b| == |multiset(b)| == 0;
    } else {
      var front, last := a[..|a| - 1], a[|a| - 1];
      assert a == front + [last] && last in multiset(b);
      var k :| 0 <= k < |b| && b[k] == last;
      assert b == b[..k] + [last] + b[k + 1..];
      RemoveOne(front, last, b[..k], b[k + 1..]);
      PathsOfPermutes(front, b[..k] + b[k + 1..]);
      PathsOfConcat(front, [last]);
      PathsOfConcat(b[..k], [last]);
      PathsOfConcat(b[..k] + [last], b[k + 1..]);
      PathsOfConcat(b[..k], b[k + 1..]);
    }
  }

  lemma {:induction false} RemoveOne<T>(a: seq<T>, x: T, b: seq<T>, c: seq<T>)
    requires multiset(a + [x]) == multiset(b + [x] + c)
    ensures multiset(a) == multiset(b + c)
  {
    assert multiset(a + [x]) == multiset(a) + multiset{x};
    assert multiset(b + [x] + c) == multiset(b + c) + multiset{x};
    assert multiset(a) == multiset(a) + multiset{x} - multiset{x};
  }

  lemma {:induction false} PathsOfConcat(a: seq<seq<Cand>>, b: seq<seq<Cand>>)
    ensures PathsOf(a + b) == PathsOf(a) + PathsOf(b)
  {
  }

  /** On a tree within its budget: the paths of its leaves are those of the whole product of the lists, one each. */
  lemma {:induction false} PathsAreProduct(nodes: seq<Node>, heads: seq<seq<Cand>>, maxNodes: int, leaves: seq<nat>)
    requires Built(nodes, heads, maxNodes) && |Complete(heads, |heads|)| <= maxNodes
    requires forall i :: 0 <= i < |heads| ==> heads[i] != [] && NoRepeats(heads[i])
    requires LeavesOnce(nodes, leaves) && forall x :: 0 <= x < |leaves| ==> leaves[x] < |nodes|
    ensures multiset(PathsTo(nodes, leaves)) == multiset(PathsOf(Level(heads, |heads|)))
  {
    var trails, level := TrailsOf(nodes, leaves), Level(heads, |heads|);
    LeavesAreProduct(nodes, heads, maxNodes);
    CompleteFacts(heads, |heads|);
    OnceNoRepeats(nodes, leaves);
    TrailsNoRepeats(nodes, leaves);
    forall t ensures t in trails <==> t in level { LeafTrails(nodes, heads, leaves, t); }
    SameMembers(trails, level);
    PathsOfPermutes(trails, level);
    assert PathsTo(nodes, leaves) == PathsOf(trails);
  }

  lemma {:induction false} TrailsNoRepeats(nodes: seq<Node>, ids: seq<nat>)
    requires ParentsEarlier(nodes) && NoRepeats(ids) && forall x :: 0 <= x < |ids| ==> ids[x] < |nodes|
    requires forall l: nat, l': nat :: l < l' < |nodes| ==> Trail(nodes, l) != Trail(nodes, l')
    ensures NoRepeats(TrailsOf(nodes, ids))
  {
    var ts := TrailsOf(nodes, ids);
    forall a, b | 0 <= a < b < |ts| ensures ts[a] != ts[b] {
      assert ids[a] != ids[b];
      if ids[a] < ids[b] {
        assert Trail(nodes, ids[a]) != Trail(nodes, ids[b]);
      } else {
        assert Trail(nodes, ids[b]) != Trail(nodes, ids[a]);
      }
    }
  }

  lemma {:induction false} LeafTrails(nodes: seq<Node>, heads: seq<seq<Cand>>, leaves: seq<nat>, t: seq<Cand>)
    requires ParentsEarlier(nodes) && LeavesOnce(nodes, leaves)
    requires forall x :: 0 <= x < |leaves| ==> leaves[x] < |nodes|
    requires forall l: nat :: l < |nodes| ==> (Leaf(nodes, l) <==> Picks(heads, |heads|, Trail(nodes, l)))
    requires forall p :: Picks(heads, |heads|, p) ==> exists l: nat :: l < |nodes| && Trail(nodes, l) == p
    ensures t in TrailsOf(nodes, leaves) <==> t in Level(heads, |heads|)
  {
    var ts := TrailsOf(nodes, leaves);
    LevelIsProduct(heads, |heads|, t);
    if t in ts {
      var x :| 0 <= x < |ts| && ts[x] == t;
      assert Leaf(nodes, leaves[x]);
    }
    if Picks(heads, |heads|, t) {
      var l: nat :| l < |nodes| && Trail(nodes, l) == t;
      assert Leaf(nodes, l) && l in multiset(leaves);
      var x :| 0 <= x < |leaves| && leaves[x] == l;
      assert ts[x] == t;
    }
  }

  lemma {:induction false} ExtendAllSize(ps: seq<seq<Cand>>, cs: seq<Cand>)
    ensures |ExtendAll(ps, cs)| == |ps| * |cs|
  {
    if ps != [] {
      ExtendAllSize(ps[..|ps| - 1], cs);
      MulSucc(|ps| - 1, |cs|);
    }
  }

  function Product(heads: seq<seq<Cand>>, d: nat): nat
    requires d <= |heads|
  {
    if d == 0 then 1 else Product(heads, d - 1) * |heads[d - 1]|
  }

  /** So there are as many as the product of the lengths of the lists. */
  lemma {:induction false} LevelSize(heads: seq<seq<Cand>>, d: nat)
    requires d <= |heads|
    ensures |Level(heads, d)| == Product(heads, d)
  {
    if d > 0 {
      var before := Level(heads, d - 1);
      LevelSize(heads, d - 1);
      ExtendAllSize(before, heads[d - 1]);
      assert |Level(heads, d)| == |before| * |heads[d - 1]|;
    }
  }

  lemma {:induction false} TrailKnown(nodes: seq<Node>, heads: seq<seq<Cand>>, l: nat)
    requires TreeShape(nodes) && Trails(nodes) == Complete(heads, |heads|) && 0 < l < |nodes|
    ensures Trail(nodes, l) == Trails(nodes)[l - 1] && Trail(nodes, l) in Complete(heads, |heads|)
    ensures |Trail(nodes, l)| > 0
  {
    assert Trails(nodes)[l - 1] in Trails(nodes);
  }

  /** Every partial choice has a node. */
  lemma {:induction false} NodeFor(nodes: seq<Node>, heads: seq<seq<Cand>>, d: nat, p: seq<Cand>) returns (l: nat)
    requires TreeShape(nodes) && Trails(nodes) == Complete(heads, |heads|) && d <= |heads| && Picks(heads, d, p)
    ensures l < |nodes| && Trail(nodes, l) == p
  {
    if d == 0 { return 0; }
    PickIsListed(heads, d, p);
    var x :| 0 <= x < |Trails(nodes)| && Trails(nodes)[x] == p;
    l := x + 1;
  }

  lemma {:induction false} PickIsListed(heads: seq<seq<Cand>>, d: nat, p: seq<Cand>)
    requires 0 < d <= |heads| && Picks(heads, d, p)
    ensures p in Complete(heads, |heads|)
  {
    LevelIsProduct(heads, d, p);
    assert p in Complete(heads, d - 1) + Level(heads, d);
    CompletePrefix(heads, d);
  }

  /** Trails pick one candidate per head. */
  lemma {:induction false} TrailPicks(nodes: seq<Node>, heads: seq<seq<Cand>>, d: nat, p: seq<Cand>)
    requires d <= |heads| && p in Complete(heads, d)
    ensures |p| <= |heads| && Picks(heads, |p|, p)
  {
    if p in Complete(heads, d - 1) {
      TrailPicks(nodes, heads, d - 1, p);
    } else {
      LevelIsProduct(heads, d, p);
    }
  }

  lemma {:induction false} DeepIsLeaf(nodes: seq<Node>, heads: seq<seq<Cand>>, l: nat)
    requires TreeShape(nodes) && Trails(nodes) == Complete(heads, |heads|) && l < |nodes|
    requires forall p :: p in Complete(heads, |heads|) ==> |p| <= |heads|
    requires |Trail(nodes, l)| == |heads|
    ensures Leaf(nodes, l)
  {
    ChildrenAre(nodes, l);
    if nodes[l].children != [] {
      var c := nodes[l].children[0];
      TrailKnown(nodes, heads, c);
      assert false;
    }
  }

  lemma {:induction false} ShallowHasChild(nodes: seq<Node>, heads: seq<seq<Cand>>, l: nat)
    requires TreeShape(nodes) && Trails(nodes) == Complete(heads, |heads|) && l < |nodes|
    requires NoRepeats(Trails(nodes)) && forall i :: 0 <= i < |heads| ==> heads[i] != []
    requires var t := Trail(nodes, l); |t| < |heads| && Picks(heads, |t|, t)
    ensures !Leaf(nodes, l)
  {
    var t := Trail(nodes, l);
    var c := heads[|t|][0];
    var j := NodeFor(nodes, heads, |t| + 1, t + [c]);
    assert Trail(nodes, j) == Trail(nodes, nodes[j].parent) + [nodes[j].cand];
    assert Trail(nodes, nodes[j].parent) == t;
    SameTrail(nodes, l, nodes[j].parent);
    ChildrenAre(nodes, l);
    assert j in nodes[l].children;
  }

  lemma {:induction false} LeafIffDeep(nodes: seq<Node>, heads: seq<seq<Cand>>, l: nat)
    requires TreeShape(nodes) && Trails(nodes) == Complete(heads, |heads|) && l < |nodes|
    requires NoRepeats(Complete(heads, |heads|)) && forall p :: p in Complete(heads, |heads|) ==> 0 < |p| <= |heads|
    requires forall i :: 0 <= i < |heads| ==> heads[i] != []
    ensures Leaf(nodes, l) <==> Picks(heads, |heads|, Trail(nodes, l))
  {
    var t := Trail(nodes, l);
    if l > 0 {
      TrailKnown(nodes, heads, l);
      TrailPicks(nodes, heads, |heads|, t);
    }
    if |t| == |heads| { DeepIsLeaf(nodes, heads, l); } else { ShallowHasChild(nodes, heads, l); }
  }

  lemma {:induction false} SameTrail(nodes: seq<Node>, a: nat, b: nat)
    requires TreeShape(nodes) && NoRepeats(Trails(nodes)) && a < |nodes| && b < |nodes|
    requires Trail(nodes, a) == Trail(nodes, b)
    ensures a == b
  {
    if a > 0 && b > 0 {
      assert Trails(nodes)[a - 1] == Trails(nodes)[b - 1];
    }
  }
}
