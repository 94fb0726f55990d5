/** Reading a candidate tree (inference/medusa/tree.go): linearization, attention mask, and paths. */
module TreeTraversal {
  import opened Collections
  import opened Sampling
  import opened CandidateTrees

  // ---------------------------------------------------------------- linearization

  /** The queue holds the children of the root and of the first `head` entries, each once. */
  ghost predicate QueueOk(nodes: seq<Node>, ids: seq<nat>, head: nat)
    requires TreeShape(nodes)
  {
    && head <= |ids| && Distinct(ids)
    && (forall x :: 0 <= x < |ids| ==> 0 < ids[x] < |nodes|)
    && (forall c :: 0 < c < |nodes| ==> (c in ids <==> nodes[c].parent == 0 || nodes[c].parent in ids[..head]))
  }

  lemma {:induction false} ChildrenAre(nodes: seq<Node>, i: nat)
    requires TreeShape(nodes) && i < |nodes|
    ensures forall c :: c in nodes[i].children <==> 0 <= c < |nodes| && nodes[c].parent == i
    ensures forall x :: 0 <= x < |nodes[i].children| ==>
              i < nodes[i].children[x] < |nodes| && nodes[nodes[i].children[x]].parent == i
    ensures forall x, y :: 0 <= x < y < |nodes[i].children| ==> nodes[i].children[x] < nodes[i].children[y]
  {
    assert KidsMatch(nodes, i);
    KidsAre(nodes, |nodes|, i);
    forall x | 0 <= x < |nodes[i].children|
      ensures i < nodes[i].children[x] < |nodes| && nodes[nodes[i].children[x]].parent == i
    {
      assert nodes[i].children[x] in nodes[i].children;
    }
  }

  lemma {:induction false} QueueStarts(nodes: seq<Node>)
    requires TreeShape(nodes)
    ensures QueueOk(nodes, nodes[0].children, 0)
  {
    ChildrenAre(nodes, 0);
  }

  lemma {:induction false} QueueStep(nodes: seq<Node>, ids: seq<nat>, head: nat)
    requires TreeShape(nodes) && QueueOk(nodes, ids, head) && head < |ids|
    ensures QueueOk(nodes, ids + nodes[ids[head]].children, head + 1)
  {
    var kids := nodes[ids[head]].children;
    var after := ids + kids;
    ChildrenAre(nodes, ids[head]);
    assert after[..head + 1] == ids[..head] + [ids[head]];
    forall x | 0 <= x < |kids| ensures kids[x] !in ids {
      assert kids[x] in kids;
      assert nodes[kids[x]].parent == ids[head] && ids[head] !in ids[..head];
    }
  }

  lemma {:induction false} QueueComplete(nodes: seq<Node>, ids: seq<nat>, c: nat)
    requires TreeShape(nodes) && QueueOk(nodes, ids, |ids|) && 0 < c < |nodes|
    ensures c in ids
  {
    assert ids[..|ids|] == ids;
    if nodes[c].parent != 0 { QueueComplete(nodes, ids, nodes[c].parent); }
  }

  lemma {:induction false} DistinctBound(ids: seq<nat>, n: nat)
    requires Distinct(ids) && forall x :: 0 <= x < |ids| ==> 0 < ids[x] <= n
    ensures |ids| <= n
    ensures (forall c :: 0 < c <= n ==> c in ids) ==> |ids| == n
    decreases n
  {
    if ids != [] {
      assert 0 < ids[0] <= n;
      if n in ids {
        var x :| 0 <= x < |ids| && ids[x] == n;
        var rest := ids[..x] + ids[x + 1..];
        forall c | 0 < c <= n - 1 && c in ids ensures c in rest {
          var y :| 0 <= y < |ids| && ids[y] == c;
          assert rest[if y < x then y else y - 1] == c;
        }
        DistinctBound(rest, n - 1);
      } else {
        DistinctBound(ids, n - 1);
      }
    } else {
      assert n > 0 ==> n !in ids;
    }
  }

  /** Numbered in BFS order, the next children are the next numbers. */
  lemma {:induction false} KidsRun(nodes: seq<Node>, v: nat, m: nat, x: nat)
    requires TreeShape(nodes) && BfsNumbered(nodes) && 0 < v < |nodes| && x < |nodes[v].children|
    requires forall c :: 0 < c < |nodes| ==> (c <= m <==> nodes[c].parent < v)
    ensures nodes[v].children[x] == m + 1 + x
  {
    var kids := nodes[v].children;
    ChildrenAre(nodes, v);
    assert kids[x] in kids && kids[x] > m;
    if x > 0 { KidsRun(nodes, v, m, x - 1); }
    var c := m + 1 + x;
    assert c <= kids[x];
    assert nodes[c].parent <= v by { if c < kids[x] { assert nodes[c].parent <= nodes[kids[x]].parent; } }
    var y :| 0 <= y < |kids| && kids[y] == c;
  }

  lemma {:induction false} QueueStepBfs(nodes: seq<Node>, ids: seq<nat>, head: nat)
    requires TreeShape(nodes) && BfsNumbered(nodes) && QueueOk(nodes, ids, head) && head < |ids|
    requires forall x :: 0 <= x < |ids| ==> ids[x] == x + 1
    ensures var kids := nodes[ids[head]].children; forall x :: 0 <= x < |kids| ==> kids[x] == |ids| + 1 + x
  {
    var kids := nodes[ids[head]].children;
    forall c | 0 < c < |nodes| ensures c <= |ids| <==> nodes[c].parent < head + 1 {
      assert c <= |ids| ==> ids[c - 1] == c;
      assert 0 < nodes[c].parent <= head ==> ids[..head][nodes[c].parent - 1] == nodes[c].parent;
    }
    forall x | 0 <= x < |kids| ensures kids[x] == |ids| + 1 + x {
      KidsRun(nodes, head + 1, |ids|, x);
    }
  }

  /** What a linearization promises: every node but the root once, and where its parent stands. */
  ghost predicate Linearized(nodes: seq<Node>, order: seq<nat>, tokens: seq<int>, parentIdx: seq<int>) {
    && |order| == |tokens| == |parentIdx| == |nodes| - 1
    && Distinct(order)
    && (forall i :: 0 <= i < |order| ==>
          && 0 < order[i] < |nodes| && tokens[i] == nodes[order[i]].cand.token
          && ParentAt(nodes, order, parentIdx[i], i))
  }

  /** p is the index of order[i]'s parent in the list, before i, or -1 for a child of the root. */
  ghost predicate ParentAt(nodes: seq<Node>, order: seq<nat>, p: int, i: nat)
    requires i < |order| && order[i] < |nodes|
  {
    || (p == -1 && nodes[order[i]].parent == 0)
    || (0 <= p < i && order[p] == nodes[order[i]].parent)
  }

  datatype Entry = Entry(node: nat, parentPos: int)

  ghost function Ids(queue: seq<Entry>): (ids: seq<nat>)
    ensures |ids| == |queue| && forall x :: 0 <= x < |ids| ==> ids[x] == queue[x].node
  {
    seq(|queue|, x requires 0 <= x < |queue| => queue[x].node)
  }

  function Entries(kids: seq<nat>, pos: int): (es: seq<Entry>)
    ensures |es| == |kids| && forall x :: 0 <= x < |es| ==> es[x] == Entry(kids[x], pos)
  {
    seq(|kids|, x requires 0 <= x < |kids| => Entry(kids[x], pos))
  }

  ghost predicate EntriesOk(nodes: seq<Node>, queue: seq<Entry>)
  {
    forall i :: 0 <= i < |queue| ==>
      queue[i].node < |nodes| && ParentAt(nodes, Ids(queue), queue[i].parentPos, i)
  }

  lemma {:induction false} EntriesStep(nodes: seq<Node>, queue: seq<Entry>, head: nat)
    requires TreeShape(nodes) && EntriesOk(nodes, queue) && head < |queue|
    ensures EntriesOk(nodes, queue + Entries(nodes[queue[head].node].children, head))
    ensures Ids(queue + Entries(nodes[queue[head].node].children, head)) ==
            Ids(queue) + nodes[queue[head].node].children
  {
    ChildrenAre(nodes, queue[head].node);
    var after := queue + Entries(nodes[queue[head].node].children, head);
    forall i | 0 <= i < |after| ensures after[i].node < |nodes| && ParentAt(nodes, Ids(after), after[i].parentPos, i) {
      if i < |queue| { assert ParentAt(nodes, Ids(queue), queue[i].parentPos, i); }
    }
  }

  lemma {:induction false} QueueBound(nodes: seq<Node>, ids: seq<nat>, head: nat)
    requires TreeShape(nodes) && QueueOk(nodes, ids, head)
    ensures |ids| <= |nodes| - 1
    ensures head == |ids| ==> |ids| == |nodes| - 1
  {
    DistinctBound(ids, |nodes| - 1);
    if head == |ids| {
      forall c | 0 < c <= |nodes| - 1 ensures c in ids { QueueComplete(nodes, ids, c); }
    }
  }

  /** The state of the traversal after `head` entries. */
  ghost predicate Walking(nodes: seq<Node>, queue: seq<Entry>, head: nat) {
    && TreeShape(nodes) && QueueOk(nodes, Ids(queue), head) && EntriesOk(nodes, queue)
    && |queue| <= |nodes| - 1
    && (BfsNumbered(nodes) ==> forall i :: 0 <= i < |queue| ==> queue[i].node == i + 1)
  }

  lemma {:induction false} WalkStarts(nodes: seq<Node>)
    requires TreeShape(nodes)
    ensures Walking(nodes, Entries(nodes[0].children, -1), 0)
  {
    var queue := Entries(nodes[0].children, -1);
    QueueStarts(nodes);
    ChildrenAre(nodes, 0);
    assert Ids(queue) == nodes[0].children;
    QueueBound(nodes, Ids(queue), 0);
    if BfsNumbered(nodes) { RootKids(nodes); }
  }

  lemma {:induction false} WalkStep(nodes: seq<Node>, queue: seq<Entry>, head: nat)
    requires Walking(nodes, queue, head) && head < |queue|
    ensures queue[head].node < |nodes|
    ensures Walking(nodes, queue + Entries(nodes[queue[head].node].children, head), head + 1)
  {
    QueueStep(nodes, Ids(queue), head);
    EntriesStep(nodes, queue, head);
    QueueBound(nodes, Ids(queue + Entries(nodes[queue[head].node].children, head)), head + 1);
    if BfsNumbered(nodes) { QueueStepBfs(nodes, Ids(queue), head); }
  }

  /** The first `head` entries have been written out. */
  ghost predicate Written(nodes: seq<Node>, queue: seq<Entry>, head: nat, tokens: seq<int>, parentIdx: seq<int>) {
    && |tokens| == |parentIdx| == head <= |queue|
    && (forall i :: 0 <= i < head ==> queue[i].node < |nodes| && tokens[i] == nodes[queue[i].node].cand.token
                                      && parentIdx[i] == queue[i].parentPos)
  }

  lemma {:induction false} WriteNext(nodes: seq<Node>, queue: seq<Entry>, head: nat, tokens: seq<int>,
                                     parentIdx: seq<int>,
                                     more: seq<Entry>)
    requires Written(nodes, queue, head, tokens, parentIdx) && head < |queue| && queue[head].node < |nodes|
    ensures Written(nodes, queue + more, head + 1, tokens + [nodes[queue[head].node].cand.token],
                    parentIdx + [queue[head].parentPos])
  {
  }

  lemma {:induction false} WalkEnds(nodes: seq<Node>, queue: seq<Entry>, tokens: seq<int>, parentIdx: seq<int>)
    requires Walking(nodes, queue, |queue|) && Written(nodes, queue, |queue|, tokens, parentIdx)
    ensures Linearized(nodes, Ids(queue), tokens, parentIdx)
  {
    QueueBound(nodes, Ids(queue), |queue|);
    forall i | 0 <= i < |queue| ensures ParentAt(nodes, Ids(queue), parentIdx[i], i) {}
  }

  /** Breadth-first traversal with a queue; on a tree numbered in BFS order it lists nodes as created. */
  method Linearize(tree: CandidateTree) returns (tokens: seq<int>, parentIdx: seq<int>, ghost order: seq<nat>)
    requires TreeShape(tree.nodes)
    ensures Linearized(tree.nodes, order, tokens, parentIdx)
    ensures BfsNumbered(tree.nodes) ==> forall i :: 0 <= i < |order| ==> order[i] == i + 1
    ensures BfsNumbered(tree.nodes) ==> InCreationOrder(tree.nodes, tokens, parentIdx)
  {
    var nodes := tree.nodes;
    var queue := Entries(nodes[0].children, -1);
    WalkStarts(nodes);
    tokens, parentIdx := [], [];
    var head := 0;
    while head < |queue|
      invariant Walking(nodes, queue, head) && Written(nodes, queue, head, tokens, parentIdx)
      decreases |nodes| - head
    {
      var e := queue[head];
      WalkStep(nodes, queue, head);
      WriteNext(nodes, queue, head, tokens, parentIdx, Entries(nodes[e.node].children, head));
      tokens := tokens + [nodes[e.node].cand.token];
      parentIdx := parentIdx + [e.parentPos];
      queue := queue + Entries(nodes[e.node].children, head);
      head := head + 1;
    }
    WalkEnds(nodes, queue, tokens, parentIdx);
    order := Ids(queue);
    if forall i :: 0 <= i < |order| ==> order[i] == i + 1 {
      CreationOrder(nodes, order, tokens, parentIdx);
    }
  }

  /** Every node but the root, as created, with the list index of its parent, which is -1 below the root. */
  ghost predicate InCreationOrder(nodes: seq<Node>, tokens: seq<int>, parentIdx: seq<int>) {
    && |tokens| == |parentIdx| == |nodes| - 1
    && forall i :: 0 <= i < |tokens| ==>
         tokens[i] == nodes[i + 1].cand.token && parentIdx[i] == nodes[i + 1].parent - 1
  }

  lemma {:induction false} CreationOrder(nodes: seq<Node>, order: seq<nat>, tokens: seq<int>, parentIdx: seq<int>)
    requires Linearized(nodes, order, tokens, parentIdx) && forall i :: 0 <= i < |order| ==> order[i] == i + 1
    ensures InCreationOrder(nodes, tokens, parentIdx)
  {
    forall i | 0 <= i < |tokens|
      ensures tokens[i] == nodes[i + 1].cand.token && parentIdx[i] == nodes[i + 1].parent - 1
    {
      assert ParentAt(nodes, order, parentIdx[i], i);
    }
  }

  lemma {:induction false} RootKids(nodes: seq<Node>)
    requires TreeShape(nodes) && BfsNumbered(nodes)
    ensures forall x :: 0 <= x < |nodes[0].children| ==> nodes[0].children[x] == x + 1
  {
    forall x | 0 <= x < |nodes[0].children| ensures nodes[0].children[x] == x + 1 {
      RootKid(nodes, x);
    }
  }

  lemma {:induction false} RootKid(nodes: seq<Node>, x: nat)
    requires TreeShape(nodes) && BfsNumbered(nodes) && x < |nodes[0].children|
    ensures nodes[0].children[x] == x + 1
  {
    var kids := nodes[0].children;
    ChildrenAre(nodes, 0);
    if x > 0 { RootKid(nodes, x - 1); }
    var c := x + 1;
    assert nodes[c].parent == 0 by { if c < kids[x] { assert nodes[c].parent <= nodes[kids[x]].parent; } }
    var y :| 0 <= y < |kids| && kids[y] == c;
  }

  // ---------------------------------------------------------------- attention mask

  /** j is i or an ancestor of i, following parent indices. */
  predicate Attends(parentIdx: seq<int>, i: nat, j: nat)
    requires i < |parentIdx| && forall k :: 0 <= k < |parentIdx| ==> parentIdx[k] < k
    decreases i
  {
    i == j || (parentIdx[i] >= 0 && Attends(parentIdx, parentIdx[i], j))
  }

  /** a is b or an ancestor of b, in the tree. */
  predicate Ancestor(nodes: seq<Node>, a: nat, b: nat)
    requires ParentsEarlier(nodes) && b < |nodes|
  {
    a == b || (b > 0 && Ancestor(nodes, a, nodes[b].parent))
  }

  lemma {:induction false} CellBounds(n: nat, i: nat, j: nat)
    requires i < n && j < n
    ensures 0 <= i * n + j < n * n
  {
    assert (i + 1) * n <= n * n;
  }

  lemma {:induction false} CellsDiffer(n: nat, i: nat, j: nat, i': nat, j': nat)
    requires i < n && j < n && i' < n && j' < n && (i != i' || j != j')
    ensures i * n + j != i' * n + j'
  {
    if i < i' { assert (i + 1) * n <= i' * n; }
    if i' < i { assert (i' + 1) * n <= i * n; }
  }

  function Cell(n: nat, i: nat, j: nat): int {
    i * n + j
  }

  ghost predicate Chained(parentIdx: seq<int>) {
    forall k :: 0 <= k < |parentIdx| ==> parentIdx[k] < k
  }

  /** Which cells are set when the walk up from row i is about to visit j: all rows before i are done, and
      row i has its ancestors above j. */
  ghost predicate MaskState(mask: seq<bool>, n: nat, parentIdx: seq<int>, i: nat, j: int)
    requires |mask| == n * n && n <= |parentIdx| && Chained(parentIdx)
  {
    forall a: nat, b: nat {:trigger Cell(n, a, b)} :: a < n && b < n ==>
      0 <= Cell(n, a, b) < |mask|
      && (mask[Cell(n, a, b)] <==> Attends(parentIdx, a, b) && (a < i || (a == i && b > j)))
  }

  lemma {:induction false} AttendsBelow(parentIdx: seq<int>, i: nat, j: nat)
    requires i < |parentIdx| && Chained(parentIdx) && Attends(parentIdx, i, j)
    ensures j <= i
    decreases i
  {
    if i != j { AttendsBelow(parentIdx, parentIdx[i], j); }
  }

  /** Ancestors form a chain. */
  lemma {:induction false} AttendsChain(parentIdx: seq<int>, i: nat, j: nat, k: nat)
    requires i < |parentIdx| && Chained(parentIdx) && k < j < |parentIdx|
    requires Attends(parentIdx, i, j) && Attends(parentIdx, i, k)
    ensures k <= parentIdx[j] && Attends(parentIdx, i, parentIdx[j])
    decreases i
  {
    if i == j {
      AttendsBelow(parentIdx, parentIdx[i], k);
      assert Attends(parentIdx, parentIdx[i], parentIdx[i]);
    } else {
      AttendsBelow(parentIdx, i, j);
      AttendsChain(parentIdx, parentIdx[i], j, k);
    }
  }

  lemma {:induction false} AttendsParent(parentIdx: seq<int>, i: nat, j: nat)
    requires i < |parentIdx| && Chained(parentIdx) && j < |parentIdx| && Attends(parentIdx, i, j) && parentIdx[j] >= 0
    ensures Attends(parentIdx, i, parentIdx[j])
    decreases i
  {
    if i == j {
      assert Attends(parentIdx, parentIdx[i], parentIdx[i]);
    } else {
      AttendsParent(parentIdx, parentIdx[i], j);
    }
  }

  /** Setting cell (i, j) moves the walk on to j's parent. */
  lemma {:induction false} SetCell(mask: seq<bool>, n: nat, parentIdx: seq<int>, i: nat, j: nat)
    requires |mask| == n * n && n <= |parentIdx| && Chained(parentIdx) && i < n && j <= i
    requires MaskState(mask, n, parentIdx, i, j) && Attends(parentIdx, i, j)
    ensures 0 <= Cell(n, i, j) < |mask|
    ensures MaskState(mask[Cell(n, i, j) := true], n, parentIdx, i, parentIdx[j])
  {
    CellBounds(n, i, j);
    var after := mask[Cell(n, i, j) := true];
    forall a: nat, b: nat | a < n && b < n
      ensures 0 <= Cell(n, a, b) < |after|
      ensures after[Cell(n, a, b)] <==> Attends(parentIdx, a, b) && (a < i || (a == i && b > parentIdx[j]))
    {
      CellBounds(n, a, b);
      if a != i || b != j { CellsDiffer(n, a, b, i, j); }
      if a == i && b < j && Attends(parentIdx, i, b) { AttendsChain(parentIdx, i, j, b); }
    }
  }

  lemma {:induction false} NextRow(mask: seq<bool>, n: nat, parentIdx: seq<int>, i: nat, j: int)
    requires |mask| == n * n && n <= |parentIdx| && Chained(parentIdx) && i < n && j < 0
    requires MaskState(mask, n, parentIdx, i, j)
    ensures MaskState(mask, n, parentIdx, i + 1, i + 1)
  {
    forall a: nat, b: nat | a < n && b < n
      ensures mask[Cell(n, a, b)] <==> Attends(parentIdx, a, b) && (a < i + 1 || (a == i + 1 && b > i + 1))
    {
      if a == i + 1 && Attends(parentIdx, a, b) { AttendsBelow(parentIdx, a, b); }
    }
  }

  /** Cell (i, j) of the finished mask is set exactly when j is i or an ancestor of i. */
  ghost predicate IsAncestryMask(mask: seq<bool>, n: nat, parentIdx: seq<int>)
    requires n <= |parentIdx| && Chained(parentIdx)
  {
    && |mask| == n * n
    && forall i: nat, j: nat {:trigger Cell(n, i, j)} :: i < n && j < n ==>
         0 <= Cell(n, i, j) < |mask| && (mask[Cell(n, i, j)] <==> Attends(parentIdx, i, j))
  }

  method BuildTreeAttentionMask(n: nat, parentIdx: seq<int>) returns (mask: array<bool>)
    requires n <= |parentIdx| && Chained(parentIdx)
    ensures fresh(mask) && IsAncestryMask(mask[..], n, parentIdx)
  {
    mask := new bool[n * n](_ => false);
    NothingSet(mask[..], n, parentIdx);
    var i := 0;
    while i < n
      invariant 0 <= i <= n && mask.Length == n * n
      invariant MaskState(mask[..], n, parentIdx, i, i)
    {
      assert Attends(parentIdx, i, i);
      SetCell(mask[..], n, parentIdx, i, i);
      mask[i * n + i] := true;
      var j := parentIdx[i];
      if j >= 0 { AttendsParent(parentIdx, i, i); }
      while j >= 0
        invariant j < i && (j >= 0 ==> Attends(parentIdx, i, j))
        invariant MaskState(mask[..], n, parentIdx, i, j)
        decreases j + 1
      {
        SetCell(mask[..], n, parentIdx, i, j);
        mask[i * n + j] := true;
        if parentIdx[j] >= 0 { AttendsParent(parentIdx, i, j); }
        j := parentIdx[j];
      }
      NextRow(mask[..], n, parentIdx, i, j);
      i := i + 1;
    }
  }

  lemma {:induction false} NothingSet(mask: seq<bool>, n: nat, parentIdx: seq<int>)
    requires |mask| == n * n && n <= |parentIdx| && Chained(parentIdx) && forall c :: 0 <= c < |mask| ==> !mask[c]
    ensures MaskState(mask, n, parentIdx, 0, 0)
  {
    forall a: nat, b: nat | a < n && b < n
      ensures 0 <= Cell(n, a, b) < |mask| && (mask[Cell(n, a, b)] <==> Attends(parentIdx, a, b) && (a == 0 && b > 0))
    {
      CellBounds(n, a, b);
      if a == 0 && b > 0 && Attends(parentIdx, a, b) { AttendsBelow(parentIdx, a, b); }
    }
  }

  /** In a linearized tree, following parent indices is following parents in the tree: together with the
      mask this says cell (i, j) is set exactly for ancestors in the tree. */
  lemma {:induction false} AttendsIsAncestor(nodes: seq<Node>, order: seq<nat>, tokens: seq<int>,
                                             parentIdx: seq<int>, i: nat, j: nat)
    requires TreeShape(nodes) && Linearized(nodes, order, tokens, parentIdx) && i < |order| && j < |order|
    ensures Chained(parentIdx)
    ensures Attends(parentIdx, i, j) <==> Ancestor(nodes, order[j], order[i])
    decreases i
  {
    forall k | 0 <= k < |parentIdx| ensures parentIdx[k] < k {
      assert ParentAt(nodes, order, parentIdx[k], k);
    }
    assert ParentAt(nodes, order, parentIdx[i], i);
    if parentIdx[i] >= 0 {
      AttendsIsAncestor(nodes, order, tokens, parentIdx, parentIdx[i], j);
    } else {
      assert nodes[order[i]].parent == 0 && order[j] != 0;
      assert Ancestor(nodes, order[j], order[i]) <==> order[j] == order[i];
      assert order[j] == order[i] ==> i == j;
    }
  }
}
