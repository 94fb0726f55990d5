/** The compute graph of inference/ir and its fusion pass.

    `FusionPass.Run` replaces a Matmul and a later SiLU that reads it by one MatmulSiLU node, placed
    where the Matmul stood.  The nodes need not be adjacent and the pass looks at no other reader of the
    Matmul's output, so whether it preserves meaning depends on the graph; `MeaningKeptIffSafe` gives the exact
    condition. */
module Fusion {
  type TensorID = int

  datatype OpKind = Matmul | Add | SiLU | RoPE | RMSNorm | MatmulSiLU

  datatype OpNode = OpNode(kind: OpKind, inputs: seq<TensorID>, outputs: seq<TensorID>)

  class BlockIR {
    var inputs: seq<TensorID>
    var outputs: seq<TensorID>
    var nodes: seq<OpNode>

    constructor ()
      ensures inputs == [] && outputs == [] && nodes == []
    {
      inputs, outputs, nodes := [], [], [];
    }

    method AddInput(id: TensorID)
      modifies this`inputs
      ensures inputs == old(inputs) + [id]
    {
      inputs := inputs + [id];
    }

    method AddOutput(id: TensorID)
      modifies this`outputs
      ensures outputs == old(outputs) + [id]
    {
      outputs := outputs + [id];
    }

    method AddNode(node: OpNode)
      modifies this`nodes
      ensures nodes == old(nodes) + [node]
    {
      nodes := nodes + [node];
    }
  }

  // ---------------------------------------------------------------- the pass, as a function

  /** The pass reads `Outputs()[0]` of every Matmul it visits. */
  predicate MatmulsHaveOutput(nodes: seq<OpNode>) {
    forall i :: 0 <= i < |nodes| && nodes[i].kind == Matmul ==> |nodes[i].outputs| > 0
  }

  predicate ReadsOnly(node: OpNode, t: TensorID) {
    node.kind == SiLU && |node.inputs| == 1 && node.inputs[0] == t
  }

  /** The first SiLU at or after `from` that is still free and reads exactly `t`; |nodes| if none. */
  function FindSiLU(nodes: seq<OpNode>, t: TensorID, from: nat, consumed: set<nat>): (j: nat)
    requires from <= |nodes|
    ensures from <= j <= |nodes|
    ensures j < |nodes| ==> j !in consumed && ReadsOnly(nodes[j], t)
    ensures forall k :: from <= k < j ==> k in consumed || !ReadsOnly(nodes[k], t)
    decreases |nodes| - from
  {
    if from == |nodes| || (from !in consumed && ReadsOnly(nodes[from], t)) then from
    else FindSiLU(nodes, t, from + 1, consumed)
  }

  /** One entry of the result: the node at `at` kept as it is, or merged with the SiLU at `silu`. */
  datatype Emit = Keep(at: nat) | Merge(at: nat, silu: nat)

  predicate InRange(nodes: seq<OpNode>, e: Emit) {
    e.at < |nodes| && (e.Merge? ==> e.silu < |nodes|)
  }

  function NodeOf(nodes: seq<OpNode>, e: Emit): OpNode
    requires InRange(nodes, e)
  {
    match e
    case Keep(i) => nodes[i]
    case Merge(i, j) => OpNode(MatmulSiLU, nodes[i].inputs, nodes[j].outputs)
  }

  /** What the outer loop has decided when it is about to visit a node. */
  datatype Plan = Plan(emits: seq<Emit>, consumed: set<nat>)

  function Visit(nodes: seq<OpNode>, i: nat, p: Plan): Plan
    requires i < |nodes| && MatmulsHaveOutput(nodes)
  {
    if i in p.consumed then p
    else if nodes[i].kind == Matmul then
      var j := FindSiLU(nodes, nodes[i].outputs[0], i + 1, p.consumed);
      if j < |nodes| then Plan(p.emits + [Merge(i, j)], p.consumed + {j})
      else p.(emits := p.emits + [Keep(i)])
    else p.(emits := p.emits + [Keep(i)])
  }

  function After(nodes: seq<OpNode>, i: nat): (p: Plan)
    requires i <= |nodes| && MatmulsHaveOutput(nodes)
    ensures forall r :: 0 <= r < |p.emits| ==> InRange(nodes, p.emits[r])
  {
    if i == 0 then Plan([], {}) else Visit(nodes, i - 1, After(nodes, i - 1))
  }

  function Realize(nodes: seq<OpNode>, emits: seq<Emit>): (result: seq<OpNode>)
    requires forall r :: 0 <= r < |emits| ==> InRange(nodes, emits[r])
  {
    seq(|emits|, r requires 0 <= r < |emits| => NodeOf(nodes, emits[r]))
  }

  function RunNodes(nodes: seq<OpNode>): (result: seq<OpNode>)
    requires MatmulsHaveOutput(nodes)
  {
    Realize(nodes, After(nodes, |nodes|).emits)
  }

  /** FusionPass.Run: the argument graph is left as it was. */
  method Run(graph: BlockIR) returns (newGraph: BlockIR)
    requires MatmulsHaveOutput(graph.nodes)
    ensures fresh(newGraph)
    ensures newGraph.nodes == RunNodes(graph.nodes)
    ensures newGraph.inputs == graph.inputs && newGraph.outputs == graph.outputs
  {
    var nodes := graph.nodes;
    var fusedNodes: seq<OpNode> := [];
    var consumed: set<nat> := {};
    ghost var plan := After(nodes, 0);
    var i := 0;
    while i < |nodes|
      invariant 0 <= i <= |nodes|
      invariant plan == After(nodes, i) && plan.consumed == consumed
      invariant |fusedNodes| == |plan.emits|
      invariant forall r :: 0 <= r < |fusedNodes| ==> fusedNodes[r] == NodeOf(nodes, plan.emits[r])
    {
      plan := Visit(nodes, i, plan);
      assert plan == After(nodes, i + 1);
      if i !in consumed {
        var node := nodes[i];
        if node.kind == Matmul {
          var foundFusion := false;
          var matmulOut := node.outputs[0];
          ghost var before := consumed;
          ghost var kept := fusedNodes;
          ghost var target := FindSiLU(nodes, matmulOut, i + 1, before);
          var j := i + 1;
          while j < |nodes| && !foundFusion
            invariant i + 1 <= j <= |nodes|
            invariant !foundFusion ==> consumed == before && fusedNodes == kept
            invariant !foundFusion ==> FindSiLU(nodes, matmulOut, j, before) == target
            invariant foundFusion ==>
              target < |nodes| && consumed == before + {target} &&
              fusedNodes == kept + [NodeOf(nodes, Merge(i, target))]
            decreases |nodes| - j, !foundFusion
          {
            if j !in consumed {
              var candidate := nodes[j];
              if candidate.kind == SiLU && |candidate.inputs| == 1 && candidate.inputs[0] == matmulOut {
                fusedNodes := fusedNodes + [OpNode(MatmulSiLU, node.inputs, candidate.outputs)];
                consumed := consumed + {j};
                foundFusion := true;
              }
            }
            if !foundFusion { j := j + 1; }
          }
          if !foundFusion {
            fusedNodes := fusedNodes + [node];
          }
        } else {
          fusedNodes := fusedNodes + [node];
        }
      }
      i := i + 1;
    }
    newGraph := new BlockIR();
    newGraph.inputs := graph.inputs;
    newGraph.outputs := graph.outputs;
    var k := 0;
    while k < |fusedNodes|
      invariant 0 <= k <= |fusedNodes|
      invariant newGraph.nodes == fusedNodes[..k]
      invariant newGraph.inputs == graph.inputs && newGraph.outputs == graph.outputs
      modifies newGraph
    {
      newGraph.AddNode(fusedNodes[k]);
      k := k + 1;
    }
  }

  // ---------------------------------------------------------------- what the plan looks like

  ghost predicate Sorted(p: Plan, i: nat) {
    && (forall r :: 0 <= r < |p.emits| ==> p.emits[r].at < i)
    && (forall r, r' :: 0 <= r < r' < |p.emits| ==> p.emits[r].at < p.emits[r'].at)
  }

  /** A merge takes a later SiLU that reads the Matmul's output. */
  ghost predicate MergeOk(nodes: seq<OpNode>, e: Emit, consumed: set<nat>)
    requires MatmulsHaveOutput(nodes)
  {
    && InRange(nodes, e)
    && (e.Merge? ==>
          e.at < e.silu && e.silu in consumed && nodes[e.at].kind == Matmul
          && ReadsOnly(nodes[e.silu], nodes[e.at].outputs[0]))
  }

  /** A kept node is never consumed, and a kept Matmul has no free SiLU left to merge with. */
  ghost predicate KeepOk(nodes: seq<OpNode>, e: Emit, consumed: set<nat>)
    requires MatmulsHaveOutput(nodes) && InRange(nodes, e)
  {
    e.Keep? ==>
      && e.at !in consumed
      && (nodes[e.at].kind == Matmul ==>
            forall o: nat :: e.at < o < |nodes| && ReadsOnly(nodes[o], nodes[e.at].outputs[0]) ==> o in consumed)
  }

  ghost predicate EmitsOk(nodes: seq<OpNode>, p: Plan)
    requires MatmulsHaveOutput(nodes)
  {
    forall r :: 0 <= r < |p.emits| ==> MergeOk(nodes, p.emits[r], p.consumed) && KeepOk(nodes, p.emits[r], p.consumed)
  }

  ghost predicate Takes(e: Emit, j: nat) {
    e.Merge? && e.silu == j
  }

  /** Every consumed node was taken by exactly one merge. */
  ghost predicate TakenOnce(p: Plan) {
    && (forall r, r' :: 0 <= r < r' < |p.emits| && p.emits[r].Merge? ==> !Takes(p.emits[r'], p.emits[r].silu))
    && (forall j :: j in p.consumed ==> exists r :: 0 <= r < |p.emits| && Takes(p.emits[r], j))
    && (forall r :: 0 <= r < |p.emits| && p.emits[r].Merge? ==> p.emits[r].silu in p.consumed)
  }

  lemma {:induction false} PlanSorted(nodes: seq<OpNode>, i: nat)
    requires i <= |nodes| && MatmulsHaveOutput(nodes)
    ensures Sorted(After(nodes, i), i)
  {
    if i > 0 { PlanSorted(nodes, i - 1); }
  }

  lemma {:induction false} PlanTakenOnce(nodes: seq<OpNode>, i: nat)
    requires i <= |nodes| && MatmulsHaveOutput(nodes)
    ensures TakenOnce(After(nodes, i))
  {
    if i > 0 {
      PlanTakenOnce(nodes, i - 1);
      var p, q := After(nodes, i - 1), After(nodes, i);
      if q.consumed != p.consumed {
        var j := q.emits[|p.emits|].silu;
        assert q.consumed == p.consumed + {j} && j !in p.consumed;
        forall k | k in q.consumed
          ensures exists r :: 0 <= r < |q.emits| && Takes(q.emits[r], k)
        {
          if k == j {
            assert Takes(q.emits[|p.emits|], k);
          } else {
            var r :| 0 <= r < |p.emits| && Takes(p.emits[r], k);
            assert Takes(q.emits[r], k);
          }
        }
      } else {
        assert forall r :: 0 <= r < |p.emits| ==> q.emits[r] == p.emits[r];
      }
    }
  }

  lemma {:induction false} PlanEmitsOk(nodes: seq<OpNode>, i: nat)
    requires i <= |nodes| && MatmulsHaveOutput(nodes)
    ensures EmitsOk(nodes, After(nodes, i))
  {
    if i > 0 {
      PlanEmitsOk(nodes, i - 1);
      PlanSorted(nodes, i - 1);
      var p, q := After(nodes, i - 1), After(nodes, i);
      forall r | 0 <= r < |q.emits|
        ensures MergeOk(nodes, q.emits[r], q.consumed) && KeepOk(nodes, q.emits[r], q.consumed)
      {
        if r < |p.emits| {
          assert q.emits[r] == p.emits[r];
          assert MergeOk(nodes, p.emits[r], p.consumed) && KeepOk(nodes, p.emits[r], p.consumed);
        }
      }
    }
  }

  ghost predicate Decided(p: Plan, k: nat) {
    k in p.consumed || exists r :: 0 <= r < |p.emits| && p.emits[r].at == k
  }

  lemma {:induction false} EveryNodeDecided(nodes: seq<OpNode>, i: nat, k: nat)
    requires k < i <= |nodes| && MatmulsHaveOutput(nodes)
    ensures Decided(After(nodes, i), k)
  {
    var p, q := After(nodes, i - 1), After(nodes, i);
    if k < i - 1 {
      EveryNodeDecided(nodes, i - 1, k);
      if k !in p.consumed {
        var r :| 0 <= r < |p.emits| && p.emits[r].at == k;
        assert q.emits[r].at == k;
      }
    } else if k !in p.consumed {
      assert q.emits[|p.emits|].at == k;
    }
  }

  // ---------------------------------------------------------------- shape of the result

  /** Running the pass a second time changes nothing, whatever the graph. */
  lemma {:induction false} RunIsIdempotent(nodes: seq<OpNode>)
    requires MatmulsHaveOutput(nodes)
    ensures MatmulsHaveOutput(RunNodes(nodes))
    ensures RunNodes(RunNodes(nodes)) == RunNodes(nodes)
  {
    var result, p := RunNodes(nodes), After(nodes, |nodes|);
    PlanSorted(nodes, |nodes|);
    PlanEmitsOk(nodes, |nodes|);
    forall r, r' | 0 <= r < r' < |result| && result[r].kind == Matmul
      ensures !ReadsOnly(result[r'], result[r].outputs[0])
    {
      assert MergeOk(nodes, p.emits[r], p.consumed) && KeepOk(nodes, p.emits[r], p.consumed);
      assert MergeOk(nodes, p.emits[r'], p.consumed) && KeepOk(nodes, p.emits[r'], p.consumed);
    }
    NothingToFuse(result, |result|);
  }

  lemma {:induction false} NothingToFuse(nodes: seq<OpNode>, i: nat)
    requires i <= |nodes| && MatmulsHaveOutput(nodes)
    requires forall r, r' :: 0 <= r < r' < |nodes| && nodes[r].kind == Matmul
                             ==> !ReadsOnly(nodes[r'], nodes[r].outputs[0])
    ensures var p := After(nodes, i);
            p.consumed == {} && |p.emits| == i && forall r :: 0 <= r < i ==> p.emits[r] == Keep(r)
  {
    if i > 0 { NothingToFuse(nodes, i - 1); }
  }

  ghost function Merges(p: Plan): set<nat> {
    set r: nat | r < |p.emits| && p.emits[r].Merge? :: p.emits[r].silu
  }

  /** The result has one node fewer for every pair that was merged. */
  lemma {:induction false} OneNodeFewerPerMerge(nodes: seq<OpNode>)
    requires MatmulsHaveOutput(nodes)
    ensures var p := After(nodes, |nodes|);
            |RunNodes(nodes)| == |nodes| - |Merges(p)| && TakenOnce(p)
  {
    var p := After(nodes, |nodes|);
    PlanTakenOnce(nodes, |nodes|);
    PlanEmitsOk(nodes, |nodes|);
    CountEmits(nodes, |nodes|);
    forall j | j in p.consumed ensures j in Merges(p) && j < |nodes| {
      var r :| 0 <= r < |p.emits| && Takes(p.emits[r], j);
      assert MergeOk(nodes, p.emits[r], p.consumed);
    }
    assert Merges(p) == p.consumed == ConsumedBelow(p, |nodes|);
  }

  ghost function ConsumedBelow(p: Plan, bound: nat): set<nat> {
    set j | j in p.consumed && j < bound
  }

  lemma {:induction false} CountEmits(nodes: seq<OpNode>, i: nat)
    requires i <= |nodes| && MatmulsHaveOutput(nodes)
    ensures |After(nodes, i).emits| + |ConsumedBelow(After(nodes, i), i)| == i
  {
    if i > 0 {
      CountEmits(nodes, i - 1);
      var p, q := After(nodes, i - 1), After(nodes, i);
      assert ConsumedBelow(q, i) == ConsumedBelow(p, i - 1) + if i - 1 in p.consumed then {i - 1} else {};
    }
  }

  // ---------------------------------------------------------------- well-formed graphs

  /** No tensor is written twice. */
  ghost predicate SingleAssignment(nodes: seq<OpNode>) {
    && (forall i, a, b :: 0 <= i < |nodes| && 0 <= a < b < |nodes[i].outputs| ==>
          nodes[i].outputs[a] != nodes[i].outputs[b])
    && (forall i, j, t :: 0 <= i < j < |nodes| && t in nodes[i].outputs ==> t !in nodes[j].outputs)
  }

  /** No node reads what it or a later node writes. */
  ghost predicate Topological(nodes: seq<OpNode>) {
    forall i, j, t :: 0 <= i <= j < |nodes| && t in nodes[i].inputs ==> t !in nodes[j].outputs
  }

  ghost predicate WellFormed(nodes: seq<OpNode>) {
    && SingleAssignment(nodes)
    && Topological(nodes)
    && (forall i :: 0 <= i < |nodes| ==> |nodes[i].outputs| > 0)
    && (forall i :: 0 <= i < |nodes| && nodes[i].kind == Matmul ==> |nodes[i].outputs| == 1)
  }

  /** The source node whose outputs the entry writes. */
  ghost function Writer(e: Emit): nat {
    if e.Merge? then e.silu else e.at
  }

  lemma {:induction false} WritersDiffer(nodes: seq<OpNode>, r: nat, r': nat)
    requires MatmulsHaveOutput(nodes) && r < r' < |After(nodes, |nodes|).emits|
    ensures var p := After(nodes, |nodes|); Writer(p.emits[r]) != Writer(p.emits[r'])
  {
    var p := After(nodes, |nodes|);
    PlanSorted(nodes, |nodes|);
    PlanTakenOnce(nodes, |nodes|);
    PlanEmitsOk(nodes, |nodes|);
    assert MergeOk(nodes, p.emits[r], p.consumed) && KeepOk(nodes, p.emits[r], p.consumed);
    assert MergeOk(nodes, p.emits[r'], p.consumed) && KeepOk(nodes, p.emits[r'], p.consumed);
    assert p.emits[r'].Merge? && p.emits[r].Merge? ==> !Takes(p.emits[r'], p.emits[r].silu);
  }

  /** The result is again single-assignment and topologically ordered. */
  lemma {:induction false} ResultWellFormed(nodes: seq<OpNode>)
    requires WellFormed(nodes)
    ensures WellFormed(RunNodes(nodes))
  {
    var p, result := After(nodes, |nodes|), RunNodes(nodes);
    PlanSorted(nodes, |nodes|);
    PlanEmitsOk(nodes, |nodes|);
    forall r | 0 <= r < |result|
      ensures p.emits[r].at <= Writer(p.emits[r]) < |nodes|
      ensures result[r].inputs == nodes[p.emits[r].at].inputs && result[r].outputs == nodes[Writer(p.emits[r])].outputs
    {
      assert MergeOk(nodes, p.emits[r], p.consumed);
    }
    forall r, r', t | 0 <= r < r' < |result| && t in result[r].outputs
      ensures t !in result[r'].outputs
    {
      WritersDiffer(nodes, r, r');
    }
    forall i, j, t | 0 <= i <= j < |result| && t in result[i].inputs
      ensures t !in result[j].outputs
    {
      assert p.emits[i].at <= Writer(p.emits[j]);
    }
  }

  // ---------------------------------------------------------------- meaning of a graph

  /** What each kind of node computes: output number k from the input values. */
  datatype Interp<!V> = Interp(op: (OpKind, seq<V>, nat) -> V)

  /** The fused kernel computes SiLU of the product. */
  ghost predicate FusionLaw<V(!new)>(I: Interp<V>) {
    forall args: seq<V>, k: nat :: I.op(MatmulSiLU, args, k) == I.op(SiLU, [I.op(Matmul, args, 0)], k)
  }

  type Env<!V> = TensorID -> V

  function LastIndex(ids: seq<TensorID>, t: TensorID): (k: nat)
    requires t in ids
    ensures k < |ids| && ids[k] == t && t !in ids[k + 1..]
  {
    var last := |ids| - 1;
    if ids[last] == t then last
    else
      assert ids == ids[..last] + [ids[last]];
      LastIndex(ids[..last], t)
  }

  function Read<V>(env: Env<V>, ids: seq<TensorID>): (args: seq<V>)
    ensures |args| == |ids| && forall k :: 0 <= k < |ids| ==> args[k] == env(ids[k])
  {
    seq(|ids|, k requires 0 <= k < |ids| => env(ids[k]))
  }

  function Exec<V>(I: Interp<V>, env: Env<V>, node: OpNode): Env<V> {
    var args := Read(env, node.inputs);
    t => if t in node.outputs then I.op(node.kind, args, LastIndex(node.outputs, t)) else env(t)
  }

  function Eval<V>(I: Interp<V>, env: Env<V>, nodes: seq<OpNode>): Env<V> {
    if nodes == [] then env
    else Exec(I, Eval(I, env, nodes[..|nodes| - 1]), nodes[|nodes| - 1])
  }

  lemma {:induction false} EvalSnoc<V>(I: Interp<V>, env: Env<V>, nodes: seq<OpNode>, node: OpNode)
    ensures Eval(I, env, nodes + [node]) == Exec(I, Eval(I, env, nodes), node)
  {
    assert (nodes + [node])[..|nodes|] == nodes;
  }

  // ---------------------------------------------------------------- when the pass is safe

  /** Matmul m has a later SiLU j that reads exactly its output. */
  ghost predicate Fusible(nodes: seq<OpNode>, m: nat, j: nat)
    requires MatmulsHaveOutput(nodes)
  {
    && m < j < |nodes| && nodes[m].kind == Matmul
    && nodes[j].kind == SiLU && nodes[j].inputs == [nodes[m].outputs[0]]
  }

  /** That SiLU is the only reader of the product, and the product is not a block output. */
  ghost predicate SoleReader(nodes: seq<OpNode>, outputs: seq<TensorID>, m: nat, j: nat)
    requires MatmulsHaveOutput(nodes) && Fusible(nodes, m, j)
  {
    && nodes[m].outputs[0] !in outputs
    && forall k :: 0 <= k < |nodes| && k != j ==> nodes[m].outputs[0] !in nodes[k].inputs
  }

  ghost predicate Safe(nodes: seq<OpNode>, outputs: seq<TensorID>)
    requires MatmulsHaveOutput(nodes)
  {
    forall m: nat, j: nat :: Fusible(nodes, m, j) ==> SoleReader(nodes, outputs, m, j)
  }

  /** t is the Matmul output that the merge e makes disappear. */
  ghost predicate Drops(nodes: seq<OpNode>, e: Emit, t: TensorID) {
    e.Merge? && InRange(nodes, e) && nodes[e.at].outputs == [t]
  }

  ghost predicate Gone(nodes: seq<OpNode>, p: Plan, t: TensorID) {
    exists e :: e in p.emits && Drops(nodes, e, t)
  }

  /** t is written by a consumed SiLU that the original program reaches only later. */
  ghost predicate Early(nodes: seq<OpNode>, p: Plan, i: nat, t: TensorID) {
    exists j :: i <= j < |nodes| && j in p.consumed && t in nodes[j].outputs
  }

  /** E: the original program after its first i nodes.  F: what the pass has emitted for them. */
  ghost predicate Agree<V(!new)>(nodes: seq<OpNode>, p: Plan, i: nat, E: Env<V>, F: Env<V>) {
    forall t: TensorID :: !Gone(nodes, p, t) && !Early(nodes, p, i, t) ==> E(t) == F(t)
  }

  /** The merge e has computed the output t of its SiLU ahead of time, from the product d. */
  ghost predicate Awaits(nodes: seq<OpNode>, e: Emit, i: nat, d: TensorID, t: TensorID) {
    Drops(nodes, e, d) && i <= e.silu && t in nodes[e.silu].outputs
  }

  /** Every such value is the one the original program will compute. */
  ghost predicate Ahead<V(!new)>(I: Interp<V>, nodes: seq<OpNode>, p: Plan, i: nat, E: Env<V>, F: Env<V>) {
    forall e, d, t :: e in p.emits && Awaits(nodes, e, i, d, t) ==>
      F(t) == I.op(SiLU, [E(d)], LastIndex(nodes[e.silu].outputs, t))
  }

  lemma {:induction false} MergeFacts(nodes: seq<OpNode>, i: nat, e: Emit)
    requires WellFormed(nodes) && i <= |nodes| && e in After(nodes, i).emits && e.Merge?
    ensures InRange(nodes, e) && e.at < i && e.at < e.silu && nodes[e.at].kind == Matmul
    ensures Drops(nodes, e, nodes[e.at].outputs[0])
    ensures nodes[e.silu].kind == SiLU && nodes[e.silu].inputs == nodes[e.at].outputs
    ensures e.silu in After(nodes, i).consumed
  {
    PlanEmitsOk(nodes, i);
    PlanSorted(nodes, i);
    assert MergeOk(nodes, e, After(nodes, i).consumed);
  }

  /** A node with outputs[0] as its only output differs from every other node writing it. */
  lemma {:induction false} SoleWriter(nodes: seq<OpNode>, m: nat, k: nat, t: TensorID)
    requires WellFormed(nodes) && m < |nodes| && k < |nodes| && t in nodes[m].outputs && m != k
    ensures t !in nodes[k].outputs
  {
  }

  lemma {:induction false} MergeOf(nodes: seq<OpNode>, i: nat, j: nat) returns (e: Emit)
    requires WellFormed(nodes) && i <= |nodes| && j in After(nodes, i).consumed
    ensures e in After(nodes, i).emits && e.Merge? && e.silu == j
  {
    PlanTakenOnce(nodes, i);
    var p := After(nodes, i);
    var r :| 0 <= r < |p.emits| && Takes(p.emits[r], j);
    e := p.emits[r];
  }

  /** The consumed node i has already been computed by the merge that took it. */
  lemma {:induction false} AgreeConsumed<V(!new)>(I: Interp<V>, nodes: seq<OpNode>, i: nat, E: Env<V>, F: Env<V>)
    requires WellFormed(nodes) && i < |nodes|
    requires var p := After(nodes, i); i in p.consumed && Agree(nodes, p, i, E, F) && Ahead(I, nodes, p, i, E, F)
    ensures Agree(nodes, After(nodes, i), i + 1, Exec(I, E, nodes[i]), F)
  {
    var p := After(nodes, i);
    var e := MergeOf(nodes, i, i);
    MergeFacts(nodes, i, e);
    var d := nodes[e.at].outputs[0];
    assert Read(E, nodes[i].inputs) == [E(d)];
    forall t: TensorID | !Gone(nodes, p, t) && !Early(nodes, p, i + 1, t)
      ensures Exec(I, E, nodes[i])(t) == F(t)
    {
      if t in nodes[i].outputs {
        assert Awaits(nodes, e, i, d, t);
      } else {
        assert !Early(nodes, p, i, t);
      }
    }
  }

  lemma {:induction false} AheadConsumed<V(!new)>(I: Interp<V>, nodes: seq<OpNode>, i: nat, E: Env<V>, F: Env<V>)
    requires WellFormed(nodes) && i < |nodes|
    requires var p := After(nodes, i); i in p.consumed && Ahead(I, nodes, p, i, E, F)
    ensures Ahead(I, nodes, After(nodes, i), i + 1, Exec(I, E, nodes[i]), F)
  {
    var p := After(nodes, i);
    forall e, d, t | e in p.emits && Awaits(nodes, e, i + 1, d, t)
      ensures F(t) == I.op(SiLU, [Exec(I, E, nodes[i])(d)], LastIndex(nodes[e.silu].outputs, t))
    {
      MergeFacts(nodes, i, e);
      SoleWriter(nodes, e.at, i, d);
      assert Awaits(nodes, e, i, d, t);
    }
  }

  lemma {:induction false} GoneIsUnread(nodes: seq<OpNode>, outputs: seq<TensorID>, i: nat, t: TensorID)
    requires WellFormed(nodes) && Safe(nodes, outputs) && i <= |nodes| && Gone(nodes, After(nodes, i), t)
    ensures t !in outputs
    ensures forall k: nat :: k < |nodes| && k !in After(nodes, i).consumed ==> t !in nodes[k].inputs
  {
    var e :| e in After(nodes, i).emits && Drops(nodes, e, t);
    MergeFacts(nodes, i, e);
    assert Fusible(nodes, e.at, e.silu);
  }

  /** A node that is not consumed reads the same values in both programs. */
  lemma {:induction false} SameArguments<V(!new)>(nodes: seq<OpNode>, outputs: seq<TensorID>, i: nat, E: Env<V>,
                                           F: Env<V>)
    requires WellFormed(nodes) && Safe(nodes, outputs) && i < |nodes|
    requires var p := After(nodes, i); i !in p.consumed && Agree(nodes, p, i, E, F)
    ensures Read(E, nodes[i].inputs) == Read(F, nodes[i].inputs)
  {
    var p := After(nodes, i);
    forall k | 0 <= k < |nodes[i].inputs|
      ensures E(nodes[i].inputs[k]) == F(nodes[i].inputs[k])
    {
      var t := nodes[i].inputs[k];
      assert t in nodes[i].inputs;
      if Gone(nodes, p, t) { GoneIsUnread(nodes, outputs, i, t); }
      assert !Early(nodes, p, i, t);
    }
  }

  lemma {:induction false} EmittedLast(nodes: seq<OpNode>, i: nat) returns (e: Emit)
    requires MatmulsHaveOutput(nodes) && i < |nodes| && i !in After(nodes, i).consumed
    ensures After(nodes, i + 1).emits == After(nodes, i).emits + [e]
    ensures After(nodes, i + 1).consumed == After(nodes, i).consumed + if e.Merge? then {e.silu} else {}
    ensures e.at == i && InRange(nodes, e)
  {
    var p, q := After(nodes, i), After(nodes, i + 1);
    e := q.emits[|p.emits|];
  }

  lemma {:induction false} AgreeEmitted<V(!new)>(I: Interp<V>, nodes: seq<OpNode>, outputs: seq<TensorID>, i: nat,
                                          e: Emit, E: Env<V>, F: Env<V>)
    requires WellFormed(nodes) && Safe(nodes, outputs) && i < |nodes| && i !in After(nodes, i).consumed
    requires After(nodes, i + 1).emits == After(nodes, i).emits + [e] && e.at == i && InRange(nodes, e)
    requires After(nodes, i + 1).consumed == After(nodes, i).consumed + if e.Merge? then {e.silu} else {}
    requires Agree(nodes, After(nodes, i), i, E, F)
    ensures Agree(nodes, After(nodes, i + 1), i + 1, Exec(I, E, nodes[i]), Exec(I, F, NodeOf(nodes, e)))
  {
    var p, q := After(nodes, i), After(nodes, i + 1);
    SameArguments(nodes, outputs, i, E, F);
    if e.Merge? { assert e in q.emits; MergeFacts(nodes, i + 1, e); }
    forall t: TensorID | !Gone(nodes, q, t) && !Early(nodes, q, i + 1, t)
      ensures Exec(I, E, nodes[i])(t) == Exec(I, F, NodeOf(nodes, e))(t)
    {
      assert !Gone(nodes, p, t);
      assert !Early(nodes, p, i, t);
      assert e.Merge? ==> !Drops(nodes, e, t);
    }
  }

  lemma {:induction false} AheadEmitted<V(!new)>(I: Interp<V>, nodes: seq<OpNode>, outputs: seq<TensorID>, i: nat,
                                          e: Emit, E: Env<V>, F: Env<V>)
    requires WellFormed(nodes) && Safe(nodes, outputs) && FusionLaw(I) && i < |nodes| && i !in After(nodes, i).consumed
    requires After(nodes, i + 1).emits == After(nodes, i).emits + [e] && e.at == i && InRange(nodes, e)
    requires Agree(nodes, After(nodes, i), i, E, F) && Ahead(I, nodes, After(nodes, i), i, E, F)
    ensures Ahead(I, nodes, After(nodes, i + 1), i + 1, Exec(I, E, nodes[i]), Exec(I, F, NodeOf(nodes, e)))
  {
    var p, q := After(nodes, i), After(nodes, i + 1);
    var E', F' := Exec(I, E, nodes[i]), Exec(I, F, NodeOf(nodes, e));
    SameArguments(nodes, outputs, i, E, F);
    forall f, d, t | f in q.emits && Awaits(nodes, f, i + 1, d, t)
      ensures F'(t) == I.op(SiLU, [E'(d)], LastIndex(nodes[f.silu].outputs, t))
    {
      MergeFacts(nodes, i + 1, f);
      if f == e {
        assert LastIndex([d], d) == 0;
      } else {
        assert f in p.emits && Awaits(nodes, f, i, d, t);
        OtherMergeUntouched(nodes, i, e, f, d, t);
      }
    }
  }

  /** What is emitted for node i writes neither an earlier merged product nor an earlier merge's outputs. */
  lemma {:induction false} OtherMergeUntouched(nodes: seq<OpNode>, i: nat, e: Emit, f: Emit, d: TensorID, t: TensorID)
    requires WellFormed(nodes) && i < |nodes| && InRange(nodes, e)
    requires After(nodes, i + 1).emits == After(nodes, i).emits + [e] && e.at == i
    requires f in After(nodes, i).emits && Awaits(nodes, f, i + 1, d, t)
    ensures d !in nodes[i].outputs && t !in NodeOf(nodes, e).outputs
  {
    var p, q := After(nodes, i), After(nodes, i + 1);
    MergeFacts(nodes, i, f);
    SoleWriter(nodes, f.at, i, d);
    PlanTakenOnce(nodes, i + 1);
    var r :| 0 <= r < |p.emits| && p.emits[r] == f;
    assert q.emits[r] == f && q.emits[|p.emits|] == e;
    assert e.Merge? ==> !Takes(e, f.silu);
    SoleWriter(nodes, f.silu, if e.Merge? then e.silu else i, t);
  }

  ghost predicate Related<V(!new)>(I: Interp<V>, nodes: seq<OpNode>, i: nat, E: Env<V>, F: Env<V>)
    requires i <= |nodes| && MatmulsHaveOutput(nodes)
  {
    Agree(nodes, After(nodes, i), i, E, F) && Ahead(I, nodes, After(nodes, i), i, E, F)
  }

  /** One iteration of the pass, seen from both programs. */
  lemma {:induction false} SimulationStep<V(!new)>(I: Interp<V>, nodes: seq<OpNode>, outputs: seq<TensorID>, i: nat,
                                            E: Env<V>, F: Env<V>)
    returns (F': Env<V>)
    requires WellFormed(nodes) && Safe(nodes, outputs) && FusionLaw(I) && i < |nodes| && Related(I, nodes, i, E, F)
    ensures Related(I, nodes, i + 1, Exec(I, E, nodes[i]), F')
    ensures var p, q := After(nodes, i), After(nodes, i + 1);
            if i in p.consumed then q == p && F' == F
            else exists e :: InRange(nodes, e) && q.emits == p.emits + [e] && F' == Exec(I, F, NodeOf(nodes, e))
  {
    if i in After(nodes, i).consumed {
      AgreeConsumed(I, nodes, i, E, F);
      AheadConsumed(I, nodes, i, E, F);
      F' := F;
    } else {
      var e := EmittedLast(nodes, i);
      AgreeEmitted(I, nodes, outputs, i, e, E, F);
      AheadEmitted(I, nodes, outputs, i, e, E, F);
      F' := Exec(I, F, NodeOf(nodes, e));
    }
  }

  lemma {:induction false} Simulation<V(!new)>(I: Interp<V>, env: Env<V>, nodes: seq<OpNode>, outputs: seq<TensorID>,
                                        i: nat)
    requires WellFormed(nodes) && Safe(nodes, outputs) && FusionLaw(I) && i <= |nodes|
    ensures Related(I, nodes, i, Eval(I, env, nodes[..i]), Eval(I, env, Realize(nodes, After(nodes, i).emits)))
  {
    if i > 0 {
      Simulation(I, env, nodes, outputs, i - 1);
      var p, q := After(nodes, i - 1), After(nodes, i);
      var E, F := Eval(I, env, nodes[..i - 1]), Eval(I, env, Realize(nodes, p.emits));
      var F' := SimulationStep(I, nodes, outputs, i - 1, E, F);
      EvalTake(I, env, nodes, i - 1);
      if i - 1 !in p.consumed {
        var e :| InRange(nodes, e) && q.emits == p.emits + [e] && F' == Exec(I, F, NodeOf(nodes, e));
        EvalRealize(I, env, nodes, p.emits, e);
      }
    }
  }

  lemma {:induction false} EvalTake<V>(I: Interp<V>, env: Env<V>, nodes: seq<OpNode>, i: nat)
    requires i < |nodes|
    ensures Eval(I, env, nodes[..i + 1]) == Exec(I, Eval(I, env, nodes[..i]), nodes[i])
  {
    assert nodes[..i + 1] == nodes[..i] + [nodes[i]];
    EvalSnoc(I, env, nodes[..i], nodes[i]);
  }

  lemma {:induction false} EvalRealize<V>(I: Interp<V>, env: Env<V>, nodes: seq<OpNode>, emits: seq<Emit>, e: Emit)
    requires InRange(nodes, e) && forall r :: 0 <= r < |emits| ==> InRange(nodes, emits[r])
    ensures Eval(I, env, Realize(nodes, emits + [e])) == Exec(I, Eval(I, env, Realize(nodes, emits)), NodeOf(nodes, e))
  {
    assert Realize(nodes, emits + [e]) == Realize(nodes, emits) + [NodeOf(nodes, e)];
    EvalSnoc(I, env, Realize(nodes, emits), NodeOf(nodes, e));
  }

  /** The pass preserves every block output, and every tensor that is not a merged-away product,
      under every meaning of the node kinds for which the fused kernel is SiLU after Matmul. */
  lemma {:induction false} PreservesMeaning<V(!new)>(I: Interp<V>, env: Env<V>, nodes: seq<OpNode>,
                                              outputs: seq<TensorID>)
    requires WellFormed(nodes) && Safe(nodes, outputs) && FusionLaw(I)
    ensures forall t :: t in outputs || !Gone(nodes, After(nodes, |nodes|), t)
                        ==> Eval(I, env, RunNodes(nodes))(t) == Eval(I, env, nodes)(t)
  {
    var p := After(nodes, |nodes|);
    Simulation(I, env, nodes, outputs, |nodes|);
    assert nodes[..|nodes|] == nodes;
    forall t | t in outputs || !Gone(nodes, p, t)
      ensures Eval(I, env, RunNodes(nodes))(t) == Eval(I, env, nodes)(t)
    {
      if Gone(nodes, p, t) { GoneIsUnread(nodes, outputs, |nodes|, t); }
      assert !Early(nodes, p, |nodes|, t);
    }
  }

  // ---------------------------------------------------------------- the condition is exact

  /** Symbolic values: how a tensor was computed. */
  datatype Term = Init(t: TensorID) | App(kind: OpKind, args: seq<Term>, k: nat)

  function Symbolic(): Interp<Term> {
    Interp((kind, args, k) =>
      if kind == MatmulSiLU then App(SiLU, [App(Matmul, args, 0)], k) else App(kind, args, k))
  }

  function Initial(): Env<Term> {
    t => Init(t)
  }

  /** What the pass must not change: block outputs and everything the result still writes. */
  ghost predicate Observable(nodes: seq<OpNode>, outputs: seq<TensorID>, t: TensorID)
    requires MatmulsHaveOutput(nodes)
  {
    t in outputs || exists r :: 0 <= r < |RunNodes(nodes)| && t in RunNodes(nodes)[r].outputs
  }

  ghost predicate MeaningKept(nodes: seq<OpNode>, outputs: seq<TensorID>)
    requires MatmulsHaveOutput(nodes)
  {
    forall t :: Observable(nodes, outputs, t) ==>
      Eval(Symbolic(), Initial(), RunNodes(nodes))(t) == Eval(Symbolic(), Initial(), nodes)(t)
  }

  /** After the whole program a tensor holds what its only writer computed. */
  lemma {:induction false} FinalValue<V>(I: Interp<V>, env: Env<V>, nodes: seq<OpNode>, k: nat, n: nat, t: TensorID)
    requires SingleAssignment(nodes) && k < n <= |nodes| && t in nodes[k].outputs
    ensures Eval(I, env, nodes[..n])(t) ==
            I.op(nodes[k].kind, Read(Eval(I, env, nodes[..k]), nodes[k].inputs), LastIndex(nodes[k].outputs, t))
  {
    EvalTake(I, env, nodes, n - 1);
    if k < n - 1 { FinalValue(I, env, nodes, k, n - 1, t); }
  }

  lemma {:induction false} NeverWritten<V>(I: Interp<V>, env: Env<V>, nodes: seq<OpNode>, n: nat, t: TensorID)
    requires n <= |nodes| && forall k :: 0 <= k < n ==> t !in nodes[k].outputs
    ensures Eval(I, env, nodes[..n])(t) == env(t)
  {
    if n > 0 {
      EvalTake(I, env, nodes, n - 1);
      NeverWritten(I, env, nodes, n - 1, t);
    }
  }

  /** A fusible Matmul is always merged, with some SiLU reading its output. */
  lemma {:induction false} FusibleIsMerged(nodes: seq<OpNode>, m: nat, j: nat) returns (e: Emit)
    requires WellFormed(nodes) && Fusible(nodes, m, j)
    ensures e in After(nodes, |nodes|).emits && e.Merge? && e.at == m
  {
    var n := |nodes|;
    var p := After(nodes, n);
    EveryNodeDecided(nodes, n, m);
    PlanEmitsOk(nodes, n);
    if m in p.consumed {
      e := MergeOf(nodes, n, m);
      MergeFacts(nodes, n, e);
      assert false;
    } else {
      var r :| 0 <= r < |p.emits| && p.emits[r].at == m;
      e := p.emits[r];
      assert MergeOk(nodes, e, p.consumed) && KeepOk(nodes, e, p.consumed);
      if e.Keep? {
        var f := MergeOf(nodes, n, j);
        MergeFacts(nodes, n, f);
        PlanSorted(nodes, n);
        assert f.at != m;
        assert nodes[f.at].outputs[0] in nodes[f.at].outputs;
        SoleWriter(nodes, f.at, m, nodes[m].outputs[0]);
        assert false;
      }
    }
  }

  /** Nothing in the result writes a merged-away product. */
  lemma {:induction false} GoneIsUnwritten(nodes: seq<OpNode>, e: Emit, r: nat)
    requires WellFormed(nodes) && r < |RunNodes(nodes)|
    requires e in After(nodes, |nodes|).emits && e.Merge?
    ensures nodes[e.at].outputs[0] !in RunNodes(nodes)[r].outputs
  {
    var n := |nodes|;
    var p := After(nodes, n);
    var d, f := nodes[e.at].outputs[0], p.emits[r];
    MergeFacts(nodes, n, e);
    if f.Merge? { MergeFacts(nodes, n, f); }
    if e != f {
      PlanSorted(nodes, n);
      assert f.at != e.at;
    }
    SoleWriter(nodes, e.at, Writer(f), d);
  }

  /** Where node k stands in the result, when it reads a product that a merge with another SiLU removed. */
  lemma {:induction false} ReaderSurvives(nodes: seq<OpNode>, e: Emit, k: nat) returns (r: nat)
    requires WellFormed(nodes) && e in After(nodes, |nodes|).emits && e.Merge?
    requires k < |nodes| && k != e.silu && nodes[e.at].outputs[0] in nodes[k].inputs
    ensures r < |After(nodes, |nodes|).emits| && After(nodes, |nodes|).emits[r].at == k
    ensures e.at < k
  {
    var n := |nodes|;
    var p := After(nodes, n);
    var d := nodes[e.at].outputs[0];
    MergeFacts(nodes, n, e);
    EveryNodeDecided(nodes, n, k);
    if k in p.consumed {
      var f := MergeOf(nodes, n, k);
      MergeFacts(nodes, n, f);
      assert nodes[f.at].outputs == [d];
      if f.at != e.at { SoleWriter(nodes, e.at, f.at, d); }
      PlanSorted(nodes, n);
      assert false;
    }
    r :| 0 <= r < |p.emits| && p.emits[r].at == k;
  }

  /** In the original program the product is a Matmul term; in the result it was never computed. */
  lemma {:induction false} ProductDiffers(nodes: seq<OpNode>, e: Emit, i: nat, r: nat)
    requires WellFormed(nodes) && e in After(nodes, |nodes|).emits && e.Merge?
    requires e.at < i <= |nodes| && r <= |RunNodes(nodes)|
    ensures Eval(Symbolic(), Initial(), nodes[..i])(nodes[e.at].outputs[0]).App?
    ensures Eval(Symbolic(), Initial(), RunNodes(nodes)[..r])(nodes[e.at].outputs[0]) == Init(nodes[e.at].outputs[0])
  {
    var d := nodes[e.at].outputs[0];
    MergeFacts(nodes, |nodes|, e);
    FinalValue(Symbolic(), Initial(), nodes, e.at, i, d);
    forall k | 0 <= k < r ensures d !in RunNodes(nodes)[k].outputs {
      GoneIsUnwritten(nodes, e, k);
    }
    NeverWritten(Symbolic(), Initial(), RunNodes(nodes), r, d);
  }

  lemma {:induction false} DifferentArgs(E: Env<Term>, F: Env<Term>, ids: seq<TensorID>, d: TensorID)
    requires d in ids && E(d) != F(d)
    ensures Read(E, ids) != Read(F, ids)
  {
    var x :| 0 <= x < |ids| && ids[x] == d;
    assert Read(E, ids)[x] != Read(F, ids)[x];
  }

  lemma {:induction false} ReaderDiffers(nodes: seq<OpNode>, e: Emit, k: nat) returns (t: TensorID)
    requires WellFormed(nodes) && e in After(nodes, |nodes|).emits && e.Merge?
    requires k < |nodes| && k != e.silu && nodes[e.at].outputs[0] in nodes[k].inputs
    ensures Observable(nodes, [], t)
    ensures Eval(Symbolic(), Initial(), RunNodes(nodes))(t) != Eval(Symbolic(), Initial(), nodes)(t)
  {
    var n, result := |nodes|, RunNodes(nodes);
    var r := ReaderSurvives(nodes, e, k);
    var f := After(nodes, n).emits[r];
    var E, F := Eval(Symbolic(), Initial(), nodes[..k]), Eval(Symbolic(), Initial(), result[..r]);
    ProductDiffers(nodes, e, k, r);
    DifferentArgs(E, F, nodes[k].inputs, nodes[e.at].outputs[0]);
    ResultWellFormed(nodes);
    t := result[r].outputs[0];
    assert t in result[r].outputs;
    assert result[..|result|] == result && nodes[..n] == nodes;
    FinalValue(Symbolic(), Initial(), result, r, |result|, t);
    if f.Merge? {
      MergeFacts(nodes, n, f);
      FinalValue(Symbolic(), Initial(), nodes, f.silu, n, t);
      FinalValue(Symbolic(), Initial(), nodes, k, f.silu, nodes[k].outputs[0]);
    } else {
      FinalValue(Symbolic(), Initial(), nodes, k, n, t);
    }
  }

  /** The pass keeps the symbolic meaning of every observable tensor if and only if every Matmul output
      that some later SiLU reads alone has no other reader and is not a block output. */
  lemma {:induction false} MeaningKeptIffSafe(nodes: seq<OpNode>, outputs: seq<TensorID>)
    requires WellFormed(nodes)
    ensures MeaningKept(nodes, outputs) <==> Safe(nodes, outputs)
  {
    if Safe(nodes, outputs) {
      PreservesMeaning(Symbolic(), Initial(), nodes, outputs);
      forall t | Observable(nodes, outputs, t)
        ensures t in outputs || !Gone(nodes, After(nodes, |nodes|), t)
      {
        if Gone(nodes, After(nodes, |nodes|), t) && t !in outputs {
          var e :| e in After(nodes, |nodes|).emits && Drops(nodes, e, t);
          var r :| 0 <= r < |RunNodes(nodes)| && t in RunNodes(nodes)[r].outputs;
          GoneIsUnwritten(nodes, e, r);
          assert false;
        }
      }
    } else {
      var m: nat, j: nat :| Fusible(nodes, m, j) && !SoleReader(nodes, outputs, m, j);
      var d, result := nodes[m].outputs[0], RunNodes(nodes);
      var e := FusibleIsMerged(nodes, m, j);
      if d in outputs {
        ProductDiffers(nodes, e, |nodes|, |result|);
        assert result[..|result|] == result && nodes[..|nodes|] == nodes;
        assert Observable(nodes, outputs, d);
      } else {
        var k :| 0 <= k < |nodes| && k != j && d in nodes[k].inputs;
        var t := ReaderDiffers(nodes, e, if k != e.silu then k else j);
        assert Observable(nodes, outputs, t);
      }
    }
  }

  /** A well-formed graph the pass changes: the product 3 has a second reader, the Add. */
  lemma {:induction false} SecondReaderBreaksFusion(nodes: seq<OpNode>)
    requires nodes == [OpNode(Matmul, [1, 2], [3]), OpNode(SiLU, [3], [4]), OpNode(Add, [3, 4], [5])]
    ensures WellFormed(nodes) && !MeaningKept(nodes, [5])
  {
    assert |nodes| == 3;
    assert WellFormed(nodes) by {
      forall i, j, t | 0 <= i < j < 3 && t in nodes[i].outputs ensures t !in nodes[j].outputs {}
      forall i, j, t | 0 <= i <= j < 3 && t in nodes[i].inputs ensures t !in nodes[j].outputs {}
    }
    assert !Safe(nodes, [5]) by {
      assert Fusible(nodes, 0, 1);
      assert 3 in nodes[2].inputs;
    }
    MeaningKeptIffSafe(nodes, [5]);
  }
}
