/** The candidate tree of inference/medusa/tree.go.

    Nodes live in a store in creation order and refer to each other by index; index 0 is the virtual root.
    A store index stands for the pointer the program keeps. */
module CandidateTrees {
  import opened Sampling

  /** A proposed token with its logit. */
  datatype Cand = Cand(token: int, conf: real)

  datatype Node = Node(cand: Cand, headIdx: int, depth: int, parent: int, children: seq<nat>)

  datatype CandidatePath = CandidatePath(tokens: seq<int>, confidence: real)

  // ---------------------------------------------------------------- top-k selection

  ghost predicate Descending(cs: seq<Cand>) {
    forall a, b :: 0 <= a < b < |cs| ==> cs[a].conf >= cs[b].conf
  }

  /** Every entry of the row with its index. */
  function Items(row: Row): seq<Cand> {
    seq(|row|, i requires 0 <= i < |row| => Cand(i, row[i]))
  }

  /** cs are the k best entries of the row: the front of some descending rearrangement of all of them. */
  ghost predicate IsTopK(row: Row, k: nat, cs: seq<Cand>) {
    exists rest :: multiset(cs + rest) == multiset(Items(row)) && Descending(cs + rest)
                   && |cs| == if k < |row| then k else |row|
  }

  function Insert(cs: seq<Cand>, c: Cand): seq<Cand> {
    if cs == [] || cs[0].conf < c.conf then [c] + cs else [cs[0]] + Insert(cs[1..], c)
  }

  lemma {:induction false} InsertPermutes(cs: seq<Cand>, c: Cand)
    ensures multiset(Insert(cs, c)) == multiset(cs) + multiset{c}
  {
    if cs != [] && cs[0].conf >= c.conf {
      InsertPermutes(cs[1..], c);
      assert cs == [cs[0]] + cs[1..];
    }
  }

  lemma {:induction false} ConsDescends(c: Cand, cs: seq<Cand>)
    requires Descending(cs) && forall b :: 0 <= b < |cs| ==> c.conf >= cs[b].conf
    ensures Descending([c] + cs)
  {
    forall a, b | 0 <= a < b < |[c] + cs| ensures ([c] + cs)[a].conf >= ([c] + cs)[b].conf {
      if a > 0 { assert cs[a - 1].conf >= cs[b - 1].conf; }
    }
  }

  lemma {:induction false} InsertSorts(cs: seq<Cand>, c: Cand)
    requires Descending(cs)
    ensures Descending(Insert(cs, c))
  {
    if cs == [] || cs[0].conf < c.conf {
      ConsDescends(c, cs);
    } else {
      var rest := Insert(cs[1..], c);
      InsertSorts(cs[1..], c);
      InsertPermutes(cs[1..], c);
      forall b | 0 <= b < |rest| ensures cs[0].conf >= rest[b].conf {
        assert rest[b] in multiset(rest);
      }
      ConsDescends(cs[0], rest);
    }
  }

  /** The library sort is modelled by insertion, so ties keep one of their possible orders. */
  method TopKWithValues(values: Row, k: nat) returns (cs: seq<Cand>)
    ensures IsTopK(values, k, cs)
  {
    var entries: seq<Cand> := [];
    var i := 0;
    while i < |values|
      invariant 0 <= i <= |values|
      invariant multiset(entries) == multiset(Items(values)[..i]) && Descending(entries)
    {
      InsertSorts(entries, Cand(i, values[i]));
      InsertPermutes(entries, Cand(i, values[i]));
      entries := Insert(entries, Cand(i, values[i]));
      assert Items(values)[..i + 1] == Items(values)[..i] + [Cand(i, values[i])];
      i := i + 1;
    }
    assert Items(values)[..i] == Items(values);
    assert |entries| == |multiset(entries)| == |values|;
    var n := if k > |values| then |values| else k;
    cs := entries[..n];
    assert cs + entries[n..] == entries;
  }

  // ---------------------------------------------------------------- the store

  /** The nodes below n whose parent is i, in creation order. */
  function Kids(nodes: seq<Node>, n: nat, i: nat): (ks: seq<nat>)
    requires n <= |nodes|
  {
    if n == 0 then [] else Kids(nodes, n - 1, i) + if nodes[n - 1].parent == i then [n - 1] else []
  }

  lemma {:induction false} KidsAre(nodes: seq<Node>, n: nat, i: nat)
    requires n <= |nodes|
    ensures forall c :: c in Kids(nodes, n, i) <==> 0 <= c < n && nodes[c].parent == i
    ensures forall x :: 0 <= x < |Kids(nodes, n, i)| ==> Kids(nodes, n, i)[x] < n
    ensures forall x, y :: 0 <= x < y < |Kids(nodes, n, i)| ==> Kids(nodes, n, i)[x] < Kids(nodes, n, i)[y]
  {
    if n > 0 { KidsAre(nodes, n - 1, i); }
  }

  ghost predicate ParentsEarlier(nodes: seq<Node>) {
    && nodes != [] && nodes[0].parent == -1
    && (forall i :: 0 < i < |nodes| ==> 0 <= nodes[i].parent < i)
  }

  /** Any tree made by appending fresh nodes to existing ones: parents come first, and each child list
      holds exactly the nodes that name this parent, in creation order. */
  ghost predicate TreeShape(nodes: seq<Node>) {
    ParentsEarlier(nodes) && forall i: nat {:trigger KidsMatch(nodes, i)} :: i < |nodes| ==> KidsMatch(nodes, i)
  }

  ghost predicate KidsMatch(nodes: seq<Node>, i: nat)
    requires i < |nodes|
  {
    nodes[i].children == Kids(nodes, |nodes|, i)
  }

  function AddChild(nodes: seq<Node>, p: nat, c: Cand, head: int): (after: seq<Node>)
    requires p < |nodes|
    ensures |after| == |nodes| + 1 && after[|nodes|] == Node(c, head, head, p, [])
    ensures forall i :: 0 <= i < |nodes| ==> after[i] == nodes[i].(children := after[i].children)
    ensures forall i :: 0 <= i < |nodes| ==> after[i].children == nodes[i].children + if i == p then [|nodes|] else []
  {
    nodes[p := nodes[p].(children := nodes[p].children + [|nodes|])] + [Node(c, head, head, p, [])]
  }

  lemma {:induction false} KidsStable(nodes: seq<Node>, nodes': seq<Node>, n: nat, i: nat)
    requires n <= |nodes| && n <= |nodes'|
    requires forall c :: 0 <= c < n ==> nodes[c].parent == nodes'[c].parent
    ensures Kids(nodes, n, i) == Kids(nodes', n, i)
  {
    if n > 0 { KidsStable(nodes, nodes', n - 1, i); }
  }

  lemma {:induction false} KidsAfterAdd(nodes: seq<Node>, p: nat, c: Cand, head: int, i: nat)
    requires p < |nodes|
    ensures Kids(AddChild(nodes, p, c, head), |nodes| + 1, i) ==
            Kids(nodes, |nodes|, i) + if p == i then [|nodes|] else []
  {
    KidsStable(nodes, AddChild(nodes, p, c, head), |nodes|, i);
  }

  lemma {:induction false} KidsNone(nodes: seq<Node>, n: nat, i: nat)
    requires n <= |nodes| && forall c :: 0 <= c < n ==> nodes[c].parent != i
    ensures Kids(nodes, n, i) == []
  {
    if n > 0 { KidsNone(nodes, n - 1, i); }
  }

  lemma {:induction false} AddChildKeepsParents(nodes: seq<Node>, p: nat, c: Cand, head: int)
    requires ParentsEarlier(nodes) && p < |nodes|
    ensures ParentsEarlier(AddChild(nodes, p, c, head))
  {
  }

  lemma {:induction false} AddChildMatches(nodes: seq<Node>, p: nat, c: Cand, head: int, i: nat)
    requires ParentsEarlier(nodes) && p < |nodes| && i <= |nodes| && (i < |nodes| ==> KidsMatch(nodes, i))
    ensures KidsMatch(AddChild(nodes, p, c, head), i)
  {
    KidsAfterAdd(nodes, p, c, head, i);
    if i == |nodes| { KidsNone(nodes, |nodes|, |nodes|); }
  }

  lemma {:induction false} AddChildKeepsShape(nodes: seq<Node>, p: nat, c: Cand, head: int)
    requires TreeShape(nodes) && p < |nodes|
    ensures TreeShape(AddChild(nodes, p, c, head))
  {
    var after := AddChild(nodes, p, c, head);
    AddChildKeepsParents(nodes, p, c, head);
    forall i: nat | i < |after| ensures KidsMatch(after, i) {
      if i < |nodes| { assert KidsMatch(nodes, i); }
      AddChildMatches(nodes, p, c, head, i);
    }
  }

  /** The candidates on the way from the root to node i. */
  function Trail(nodes: seq<Node>, i: nat): seq<Cand>
    requires ParentsEarlier(nodes) && i < |nodes|
  {
    if i == 0 then [] else Trail(nodes, nodes[i].parent) + [nodes[i].cand]
  }

  lemma {:induction false} TrailStable(nodes: seq<Node>, nodes': seq<Node>, i: nat)
    requires ParentsEarlier(nodes) && ParentsEarlier(nodes') && i < |nodes| <= |nodes'|
    requires forall c :: 0 <= c < |nodes| ==> nodes[c].parent == nodes'[c].parent && nodes[c].cand == nodes'[c].cand
    ensures Trail(nodes', i) == Trail(nodes, i)
  {
    if i > 0 { TrailStable(nodes, nodes', nodes[i].parent); }
  }

  /** The trails of all nodes but the root, in creation order. */
  ghost function Trails(nodes: seq<Node>): (ts: seq<seq<Cand>>)
    requires ParentsEarlier(nodes)
    ensures |ts| == |nodes| - 1 && forall i :: 0 <= i < |ts| ==> ts[i] == Trail(nodes, i + 1)
  {
    seq(|nodes| - 1, i requires 0 <= i < |nodes| - 1 => Trail(nodes, i + 1))
  }

  lemma {:induction false} TrailsGrow(nodes: seq<Node>, p: nat, c: Cand, head: int)
    requires ParentsEarlier(nodes) && p < |nodes|
    ensures ParentsEarlier(AddChild(nodes, p, c, head))
    ensures forall i :: 0 <= i < |nodes| ==> Trail(AddChild(nodes, p, c, head), i) == Trail(nodes, i)
    ensures Trail(AddChild(nodes, p, c, head), |nodes|) == Trail(nodes, p) + [c]
    ensures Trails(AddChild(nodes, p, c, head)) == Trails(nodes) + [Trail(nodes, p) + [c]]
  {
    var after := AddChild(nodes, p, c, head);
    forall i | 0 <= i < |nodes| ensures Trail(after, i) == Trail(nodes, i) {
      TrailStable(nodes, after, i);
    }
    assert Trail(after, |nodes|) == Trail(after, p) + [c];
  }

  // ---------------------------------------------------------------- reference: the complete tree in BFS order

  ghost function ExtendOne(p: seq<Cand>, cs: seq<Cand>): (ps: seq<seq<Cand>>)
    ensures |ps| == |cs|
  {
    seq(|cs|, j requires 0 <= j < |cs| => p + [cs[j]])
  }

  ghost function ExtendAll(ps: seq<seq<Cand>>, cs: seq<Cand>): (qs: seq<seq<Cand>>)
  {
    if ps == [] then [] else ExtendAll(ps[..|ps| - 1], cs) + ExtendOne(ps[|ps| - 1], cs)
  }

  /** Level d of the complete tree: every way to pick one candidate from each of the first d heads. */
  ghost function Level(heads: seq<seq<Cand>>, d: nat): seq<seq<Cand>>
    requires d <= |heads|
  {
    if d == 0 then [[]] else ExtendAll(Level(heads, d - 1), heads[d - 1])
  }

  /** Levels 1 to d, one after the other. */
  ghost function Complete(heads: seq<seq<Cand>>, d: nat): seq<seq<Cand>>
    requires d <= |heads|
  {
    if d == 0 then [] else Complete(heads, d - 1) + Level(heads, d)
  }

  /** p picks one candidate from each of the first d heads. */
  ghost predicate Picks(heads: seq<seq<Cand>>, d: nat, p: seq<Cand>)
    requires d <= |heads|
  {
    |p| == d && forall i :: 0 <= i < d ==> p[i] in heads[i]
  }

  lemma {:induction false} ExtendAllMembers(ps: seq<seq<Cand>>, cs: seq<Cand>, q: seq<Cand>)
    ensures q in ExtendAll(ps, cs) <==> |q| > 0 && q[..|q| - 1] in ps && q[|q| - 1] in cs
  {
    if ps != [] {
      var rest, last := ps[..|ps| - 1], ps[|ps| - 1];
      ExtendAllMembers(rest, cs, q);
      assert ps == rest + [last];
      if |q| > 0 && q[..|q| - 1] == last && q[|q| - 1] in cs {
        var j :| 0 <= j < |cs| && cs[j] == q[|q| - 1];
        assert ExtendOne(last, cs)[j] == q;
      }
      if q in ExtendOne(last, cs) {
        var j :| 0 <= j < |cs| && ExtendOne(last, cs)[j] == q;
        assert q[..|q| - 1] == last;
      }
    }
  }

  lemma {:induction false} PicksSnoc(heads: seq<seq<Cand>>, d: nat, p: seq<Cand>)
    requires 0 < d <= |heads| && |p| > 0
    ensures Picks(heads, d, p) <==> Picks(heads, d - 1, p[..|p| - 1]) && p[|p| - 1] in heads[d - 1]
  {
    if Picks(heads, d - 1, p[..|p| - 1]) && p[|p| - 1] in heads[d - 1] {
      forall i | 0 <= i < d ensures p[i] in heads[i] {
        if i < d - 1 { assert p[i] == p[..|p| - 1][i]; }
      }
    }
  }

  /** Level d is the product of the first d candidate lists. */
  lemma {:induction false} LevelIsProduct(heads: seq<seq<Cand>>, d: nat, p: seq<Cand>)
    requires d <= |heads|
    ensures p in Level(heads, d) <==> Picks(heads, d, p)
  {
    if d > 0 {
      ExtendAllMembers(Level(heads, d - 1), heads[d - 1], p);
      if |p| > 0 {
        LevelIsProduct(heads, d - 1, p[..|p| - 1]);
        PicksSnoc(heads, d, p);
      }
    }
  }

  lemma {:induction false} LevelLengths(heads: seq<seq<Cand>>, d: nat)
    requires d <= |heads|
    ensures forall x :: 0 <= x < |Level(heads, d)| ==> |Level(heads, d)[x]| == d
  {
    forall x | 0 <= x < |Level(heads, d)| ensures |Level(heads, d)[x]| == d {
      LevelIsProduct(heads, d, Level(heads, d)[x]);
    }
  }

  /** The complete tree up to level h, then the children of the first pi nodes of that level, then j more. */
  ghost function Partial(heads: seq<seq<Cand>>, h: nat, pi: nat, j: nat): seq<seq<Cand>>
    requires h < |heads| && pi < |Level(heads, h)| && j <= |heads[h]|
  {
    Complete(heads, h) + ExtendAll(Level(heads, h)[..pi], heads[h]) + ExtendOne(Level(heads, h)[pi], heads[h])[..j]
  }

  lemma {:induction false} ExtendAllTake(ps: seq<seq<Cand>>, cs: seq<Cand>, n: nat)
    requires n < |ps|
    ensures ExtendAll(ps[..n + 1], cs) == ExtendAll(ps[..n], cs) + ExtendOne(ps[n], cs)
  {
    assert ps[..n + 1][..n] == ps[..n];
  }

  lemma {:induction false} ExtendAllPrefix(ps: seq<seq<Cand>>, cs: seq<Cand>, n: nat)
    requires n <= |ps|
    ensures ExtendAll(ps[..n], cs) <= ExtendAll(ps, cs)
    decreases |ps| - n
  {
    if n < |ps| {
      ExtendAllTake(ps, cs, n);
      ExtendAllPrefix(ps, cs, n + 1);
    } else {
      assert ps[..n] == ps;
    }
  }

  lemma {:induction false} CompletePrefix(heads: seq<seq<Cand>>, d: nat)
    requires d <= |heads|
    ensures Complete(heads, d) <= Complete(heads, |heads|)
    decreases |heads| - d
  {
    if d < |heads| { CompletePrefix(heads, d + 1); }
  }

  lemma {:induction false} PartialIsPrefix(heads: seq<seq<Cand>>, h: nat, pi: nat, j: nat)
    requires h < |heads| && pi < |Level(heads, h)| && j <= |heads[h]|
    ensures Partial(heads, h, pi, j) <= Complete(heads, |heads|)
  {
    var ps := Level(heads, h);
    ExtendAllTake(ps, heads[h], pi);
    ExtendAllPrefix(ps, heads[h], pi + 1);
    CompletePrefix(heads, h + 1);
    TakeOfPrefix(Complete(heads, h), ExtendAll(ps[..pi], heads[h]), ExtendOne(ps[pi], heads[h]), j,
                 ExtendAll(ps, heads[h]), Complete(heads, |heads|));
  }

  lemma {:induction false} TakeOfPrefix<T>(a: seq<T>, b: seq<T>, c: seq<T>, j: nat, bc: seq<T>, abc: seq<T>)
    requires b + c <= bc && a + bc <= abc && j <= |c|
    ensures a + b + c[..j] <= abc
  {
    assert a + (b + c) <= a + bc;
    assert a + b + c[..j] == (a + (b + c))[..|a| + |b| + j];
  }

  // ---------------------------------------------------------------- building the tree

  /** Creation order is BFS order: parents never go back. */
  ghost predicate BfsNumbered(nodes: seq<Node>) {
    forall i, j :: 0 < i < j < |nodes| ==> nodes[i].parent <= nodes[j].parent
  }

  ghost predicate LevelNodes(nodes: seq<Node>, ids: seq<nat>, trails: seq<seq<Cand>>)
    requires ParentsEarlier(nodes)
  {
    && |ids| == |trails|
    && (forall x :: 0 <= x < |ids| ==> ids[x] < |nodes| && Trail(nodes, ids[x]) == trails[x])
    && (forall x, y :: 0 <= x < y < |ids| ==> ids[x] < ids[y])
  }

  /** Depth and head of a node, both -1 at the root. */
  ghost predicate DepthsOk(nodes: seq<Node>)
    requires ParentsEarlier(nodes)
  {
    forall i :: 0 <= i < |nodes| ==> nodes[i].depth == nodes[i].headIdx == |Trail(nodes, i)| - 1
  }

  lemma {:induction false} AddKeepsDepths(nodes: seq<Node>, p: nat, c: Cand, head: int)
    requires ParentsEarlier(nodes) && p < |nodes| && DepthsOk(nodes) && head == |Trail(nodes, p)|
    requires ParentsEarlier(AddChild(nodes, p, c, head))
    ensures DepthsOk(AddChild(nodes, p, c, head))
  {
    TrailsGrow(nodes, p, c, head);
  }

  ghost predicate ParentsUpTo(nodes: seq<Node>, p: int) {
    forall i :: 0 < i < |nodes| ==> nodes[i].parent <= p
  }

  lemma {:induction false} AddKeepsLevel(nodes: seq<Node>, p: nat, c: Cand, head: int, ids: seq<nat>,
                                         trails: seq<seq<Cand>>)
    requires ParentsEarlier(nodes) && p < |nodes| && ParentsEarlier(AddChild(nodes, p, c, head))
    requires LevelNodes(nodes, ids, trails)
    ensures LevelNodes(AddChild(nodes, p, c, head), ids, trails)
  {
    TrailsGrow(nodes, p, c, head);
  }

  /** What the loops preserve: `current` are the nodes of a level with trails `above`, `next` the children
      made so far, with trails `below`. */
  ghost predicate Growing(nodes: seq<Node>, current: seq<nat>, next: seq<nat>, above: seq<seq<Cand>>,
                          below: seq<seq<Cand>>)
  {
    && TreeShape(nodes) && BfsNumbered(nodes) && DepthsOk(nodes)
    && LevelNodes(nodes, current, above) && LevelNodes(nodes, next, below)
    && (forall x, y :: 0 <= x < |current| && 0 <= y < |next| ==> current[x] < next[y])
  }

  lemma {:induction false} AddKeepsNumbering(nodes: seq<Node>, p: nat, c: Cand, head: int)
    requires BfsNumbered(nodes) && p < |nodes| && ParentsUpTo(nodes, p)
    ensures BfsNumbered(AddChild(nodes, p, c, head)) && ParentsUpTo(AddChild(nodes, p, c, head), p)
  {
  }

  lemma {:induction false} LevelSnoc(nodes: seq<Node>, ids: seq<nat>, trails: seq<seq<Cand>>, id: nat)
    requires ParentsEarlier(nodes) && LevelNodes(nodes, ids, trails) && id < |nodes|
    requires forall x :: 0 <= x < |ids| ==> ids[x] < id
    ensures LevelNodes(nodes, ids + [id], trails + [Trail(nodes, id)])
  {
  }

  lemma {:induction false} AddKeepsGrowing(nodes: seq<Node>, current: seq<nat>, next: seq<nat>, above: seq<seq<Cand>>,
                                           below: seq<seq<Cand>>, pi: nat, c: Cand, head: int)
    requires Growing(nodes, current, next, above, below)
    requires pi < |current| && ParentsUpTo(nodes, current[pi]) && head == |above[pi]|
    ensures Growing(AddChild(nodes, current[pi], c, head), current, next + [|nodes|], above, below + [above[pi] + [c]])
    ensures ParentsUpTo(AddChild(nodes, current[pi], c, head), current[pi])
    ensures Trails(AddChild(nodes, current[pi], c, head)) == Trails(nodes) + [above[pi] + [c]]
  {
    var after := AddChild(nodes, current[pi], c, head);
    AddChildKeepsShape(nodes, current[pi], c, head);
    AddKeepsNumbering(nodes, current[pi], c, head);
    AddKeepsLevel(nodes, current[pi], c, head, current, above);
    AddKeepsLevel(nodes, current[pi], c, head, next, below);
    TrailsGrow(nodes, current[pi], c, head);
    AddKeepsDepths(nodes, current[pi], c, head);
    LevelSnoc(after, next, below, |nodes|);
  }

  class CandidateTree {
    var nodes: seq<Node>

    constructor (nodes: seq<Node>)
      ensures this.nodes == nodes
    {
      this.nodes := nodes;
    }
  }

  function Root(): Node {
    Node(Cand(-1, 0.0), -1, -1, -1, [])
  }

  /** The number of nodes the budget allows, out of `full`. */
  function Budget(maxNodes: int, full: nat): nat {
    if maxNodes < 0 then 0 else if maxNodes < full then maxNodes else full
  }

  /** The nodes of the tree are the first ones of the complete tree, in BFS order, as many as the budget allows, and
      each knows its depth and the head that proposed it. */
  ghost predicate Built(nodes: seq<Node>, heads: seq<seq<Cand>>, maxNodes: int) {
    && TreeShape(nodes) && BfsNumbered(nodes) && DepthsOk(nodes)
    && Trails(nodes) == Complete(heads, |heads|)[..Budget(maxNodes, |Complete(heads, |heads|)|)]
  }

  lemma {:induction false} PrefixOfComplete(nodes: seq<Node>, heads: seq<seq<Cand>>, maxNodes: int)
    requires TreeShape(nodes) && BfsNumbered(nodes) && DepthsOk(nodes) && Trails(nodes) <= Complete(heads, |heads|)
    requires |nodes| - 1 <= Cap(maxNodes)
    requires |nodes| - 1 >= maxNodes || Trails(nodes) == Complete(heads, |heads|)
    ensures Built(nodes, heads, maxNodes)
  {
  }

  lemma {:induction false} RootIsTree()
    ensures TreeShape([Root()]) && BfsNumbered([Root()]) && DepthsOk([Root()]) && Trails([Root()]) == []
    ensures LevelNodes([Root()], [0], [[]])
  {
    assert Kids([Root()], 1, 0) == [];
  }

  method TopKOfHeads(headLogits: seq<Row>, topK: nat) returns (heads: seq<seq<Cand>>, ok: bool)
    ensures ok <==> forall i :: 0 <= i < |headLogits| ==> headLogits[i] != []
    ensures ok ==> |heads| == |headLogits| && forall i :: 0 <= i < |heads| ==> IsTopK(headLogits[i], topK, heads[i])
  {
    heads := [];
    var i := 0;
    while i < |headLogits|
      invariant 0 <= i <= |headLogits| && |heads| == i
      invariant forall k :: 0 <= k < i ==> headLogits[k] != [] && IsTopK(headLogits[k], topK, heads[k])
    {
      if headLogits[i] == [] {
        return heads, false;
      }
      var top := TopKWithValues(headLogits[i], topK);
      heads := heads + [top];
      i := i + 1;
    }
    ok := true;
  }

  /** The inner loop: the node current[pi] gets one child per candidate, until the budget is used up. */
  method AddChildren(before: seq<Node>, ghost current: seq<nat>, next0: seq<nat>, ghost above: seq<seq<Cand>>,
                     ghost below: seq<seq<Cand>>, ghost pi: nat, parent: nat, cands: seq<Cand>, h: nat, maxNodes: int)
    returns (nodes: seq<Node>, next: seq<nat>, full: bool)
    requires Growing(before, current, next0, above, below)
    requires pi < |current| && parent == current[pi] && ParentsUpTo(before, parent) && h == |above[pi]|
    requires |before| - 1 <= Cap(maxNodes)
    ensures |before| <= |nodes| <= |before| + |cands|
    ensures var made := ExtendOne(above[pi], cands)[..|nodes| - |before|];
            && Growing(nodes, current, next, above, below + made) && Trails(nodes) == Trails(before) + made
    ensures ParentsUpTo(nodes, parent) && |nodes| - 1 <= Cap(maxNodes)
    ensures if full then |nodes| - 1 >= maxNodes else |nodes| == |before| + |cands|
  {
    ghost var row := ExtendOne(above[pi], cands);
    nodes, next := before, next0;
    var j := 0;
    while j < |cands|
      invariant 0 <= j <= |cands| == |row| && |nodes| == |before| + j
      invariant Growing(nodes, current, next, above, below + row[..j]) && Trails(nodes) == Trails(before) + row[..j]
      invariant ParentsUpTo(nodes, parent) && |nodes| - 1 <= Cap(maxNodes)
    {
      if |nodes| - 1 >= maxNodes {
        return nodes, next, true;
      }
      AddKeepsGrowing(nodes, current, next, above, below + row[..j], pi, cands[j], h);
      next := next + [|nodes|];
      nodes := AddChild(nodes, parent, cands[j], h);
      assert row[..j + 1] == row[..j] + [row[j]];
      assert below + row[..j + 1] == below + row[..j] + [row[j]];
      j := j + 1;
    }
    full := false;
  }

  function Cap(maxNodes: int): nat {
    if maxNodes < 0 then 0 else maxNodes
  }

  /** The first pi nodes of a level with trails `above` have all their children; `base` was there before. */
  ghost predicate LevelState(nodes: seq<Node>, current: seq<nat>, next: seq<nat>, above: seq<seq<Cand>>,
                             cands: seq<Cand>, base: seq<seq<Cand>>, pi: nat)
  {
    && pi <= |current| == |above|
    && Growing(nodes, current, next, above, ExtendAll(above[..pi], cands))
    && Trails(nodes) == base + ExtendAll(above[..pi], cands)
    && (pi < |current| ==> ParentsUpTo(nodes, current[pi]))
    && (next != [] ==> ParentsUpTo(nodes, next[0]))
  }

  lemma {:induction false} ParentsMoveOn(nodes: seq<Node>, current: seq<nat>, next: seq<nat>, above: seq<seq<Cand>>,
                                         below: seq<seq<Cand>>, pi: nat)
    requires Growing(nodes, current, next, above, below) && pi < |current| && ParentsUpTo(nodes, current[pi])
    ensures pi + 1 < |current| ==> ParentsUpTo(nodes, current[pi + 1])
    ensures next != [] ==> ParentsUpTo(nodes, next[0])
  {
  }

  lemma {:induction false} NodeDone(nodes: seq<Node>, nodes': seq<Node>, current: seq<nat>, next': seq<nat>,
                                    above: seq<seq<Cand>>, cands: seq<Cand>, base: seq<seq<Cand>>, pi: nat)
    requires pi < |current| == |above| && ParentsEarlier(nodes) && ParentsEarlier(nodes')
    requires Trails(nodes) == base + ExtendAll(above[..pi], cands)
    requires Trails(nodes') == Trails(nodes) + ExtendOne(above[pi], cands)
    requires Growing(nodes', current, next', above, ExtendAll(above[..pi], cands) + ExtendOne(above[pi], cands))
    requires ParentsUpTo(nodes', current[pi])
    ensures LevelState(nodes', current, next', above, cands, base, pi + 1)
  {
    var below, row := ExtendAll(above[..pi], cands), ExtendOne(above[pi], cands);
    ExtendAllTake(above, cands, pi);
    assert base + below + row == base + (below + row);
    ParentsMoveOn(nodes', current, next', above, below + row, pi);
  }

  /** The middle loop: one level of the tree. */
  method GrowLevel(before: seq<Node>, current: seq<nat>, cands: seq<Cand>, h: nat, maxNodes: int,
                   ghost above: seq<seq<Cand>>, ghost base: seq<seq<Cand>>)
    returns (nodes: seq<Node>, next: seq<nat>, full: bool, ghost at: nat, ghost extra: nat)
    requires Growing(before, current, [], above, []) && Trails(before) == base
    requires (current != [] ==> ParentsUpTo(before, current[0])) && |before| - 1 <= Cap(maxNodes)
    requires forall x :: 0 <= x < |above| ==> |above[x]| == h
    ensures TreeShape(nodes) && BfsNumbered(nodes) && DepthsOk(nodes) && |nodes| - 1 <= Cap(maxNodes)
    ensures full ==> |nodes| - 1 >= maxNodes && at < |above| && extra <= |cands|
                     && Trails(nodes) == base + ExtendAll(above[..at], cands) + ExtendOne(above[at], cands)[..extra]
    ensures !full ==> LevelState(nodes, current, next, above, cands, base, |current|)
  {
    nodes, next, at, extra := before, [], 0, 0;
    var pi := 0;
    while pi < |current|
      invariant LevelState(nodes, current, next, above, cands, base, pi)
      invariant |nodes| - 1 <= Cap(maxNodes)
    {
      ghost var below, before' := ExtendAll(above[..pi], cands), nodes;
      nodes, next, full := AddChildren(nodes, current, next, above, below, pi, current[pi], cands, h, maxNodes);
      if full {
        at, extra := pi, |nodes| - |before'|;
        return;
      }
      assert ExtendOne(above[pi], cands)[..|cands|] == ExtendOne(above[pi], cands);
      NodeDone(before', nodes, current, next, above, cands, base, pi);
      pi := pi + 1;
    }
    full := false;
  }

  lemma {:induction false} LevelDone(nodes: seq<Node>, current: seq<nat>, next: seq<nat>, heads: seq<seq<Cand>>, h: nat)
    requires h < |heads| && LevelState(nodes, current, next, Level(heads, h), heads[h], Complete(heads, h), |current|)
    ensures Growing(nodes, next, [], Level(heads, h + 1), []) && Trails(nodes) == Complete(heads, h + 1)
  {
    assert Level(heads, h)[..|current|] == Level(heads, h);
  }

  /** All levels up to h are complete, and `current` is level h. */
  ghost predicate Grown(nodes: seq<Node>, current: seq<nat>, heads: seq<seq<Cand>>, h: nat, maxNodes: int) {
    && h <= |heads| && Growing(nodes, current, [], Level(heads, h), []) && Trails(nodes) == Complete(heads, h)
    && (current != [] ==> ParentsUpTo(nodes, current[0])) && |nodes| - 1 <= Cap(maxNodes)
  }

  lemma {:induction false} RootGrown(heads: seq<seq<Cand>>, maxNodes: int)
    ensures Grown([Root()], [0], heads, 0, maxNodes)
  {
    RootIsTree();
  }

  lemma {:induction false} GrownIsBuilt(nodes: seq<Node>, current: seq<nat>, heads: seq<seq<Cand>>, maxNodes: int)
    requires Grown(nodes, current, heads, |heads|, maxNodes)
    ensures Built(nodes, heads, maxNodes)
  {
    PrefixOfComplete(nodes, heads, maxNodes);
  }

  /** One turn of the outer loop. */
  method GrowNext(before: seq<Node>, current: seq<nat>, ghost heads: seq<seq<Cand>>, cands: seq<Cand>, h: nat,
                  maxNodes: int)
    returns (nodes: seq<Node>, next: seq<nat>, full: bool)
    requires h < |heads| && cands == heads[h] && Grown(before, current, heads, h, maxNodes)
    ensures if full then Built(nodes, heads, maxNodes) else Grown(nodes, next, heads, h + 1, maxNodes)
  {
    ghost var at, extra;
    LevelLengths(heads, h);
    nodes, next, full, at, extra :=
      GrowLevel(before, current, cands, h, maxNodes, Level(heads, h), Complete(heads, h));
    if full {
      PartialIsPrefix(heads, h, at, extra);
      PrefixOfComplete(nodes, heads, maxNodes);
    } else {
      LevelDone(nodes, current, next, heads, h);
    }
  }

  /** Level by level, until the heads or the budget are used up. */
  method GrowTree(heads: seq<seq<Cand>>, maxNodes: int) returns (nodes: seq<Node>)
    ensures Built(nodes, heads, maxNodes)
  {
    nodes := [Root()];
    RootGrown(heads, maxNodes);
    var currentLevel: seq<nat> := [0];
    var h := 0;
    while h < |heads|
      invariant 0 <= h <= |heads| && Grown(nodes, currentLevel, heads, h, maxNodes)
    {
      var nextLevel, full;
      nodes, nextLevel, full := GrowNext(nodes, currentLevel, heads, heads[h], h, maxNodes);
      if full {
        return;
      }
      currentLevel := nextLevel;
      h := h + 1;
    }
    GrownIsBuilt(nodes, currentLevel, heads, maxNodes);
  }

  /** No tree for an empty list of heads, or if some head has no logits. */
  method BuildCandidateTree(headLogits: seq<Row>, topK: nat, maxNodes: int)
    returns (tree: CandidateTree?, ghost heads: seq<seq<Cand>>)
    ensures tree == null <==> headLogits == [] || exists i :: 0 <= i < |headLogits| && headLogits[i] == []
    ensures tree != null ==>
      && fresh(tree) && |heads| == |headLogits|
      && (forall i :: 0 <= i < |heads| ==> IsTopK(headLogits[i], topK, heads[i]))
      && Built(tree.nodes, heads, maxNodes)
  {
    heads := [];
    if headLogits == [] {
      return null, heads;
    }
    var tops, ok := TopKOfHeads(headLogits, topK);
    heads := tops;
    if !ok {
      return null, heads;
    }
    var nodes := GrowTree(tops, maxNodes);
    tree := new CandidateTree(nodes);
  }
}
