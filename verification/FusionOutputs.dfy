/** When the fusion pass keeps the block outputs, whatever becomes of other tensors: a condition on the graph that is
    given to the pass.

    In a well-formed graph the final value of a tensor is what its writer computes from the final values of its
    inputs, in the original and in the result; so the two can be compared node by node. */
module FusionOutputs {
  import opened Fusion

  /** SiLU j is the first to read the product of Matmul m alone. */
  ghost predicate Absorbs(nodes: seq<OpNode>, m: nat, j: nat)
    requires MatmulsHaveOutput(nodes)
  {
    Fusible(nodes, m, j) && forall k :: m < k < j ==> !Fusible(nodes, m, k)
  }

  ghost predicate Absorbed(nodes: seq<OpNode>, m: nat)
    requires MatmulsHaveOutput(nodes)
  {
    exists j: nat :: Absorbs(nodes, m, j)
  }

  /** The node from whose inputs the result computes what node k writes: the Matmul it absorbs, or itself. */
  ghost function Source(nodes: seq<OpNode>, k: nat): (m: nat)
    requires MatmulsHaveOutput(nodes)
    ensures m <= k && (m < k <==> exists m': nat :: Absorbs(nodes, m', k))
    ensures m < k ==> Absorbs(nodes, m, k)
  {
    if exists m: nat :: Absorbs(nodes, m, k) then
      var m: nat :| Absorbs(nodes, m, k);
      m
    else k
  }

  /** Written by one of the first n nodes, t is a product that is absorbed, or is computed from one. */
  ghost predicate Changed(nodes: seq<OpNode>, n: nat, t: TensorID)
    requires MatmulsHaveOutput(nodes) && n <= |nodes|
  {
    n > 0 &&
    if t !in nodes[n - 1].outputs then Changed(nodes, n - 1, t)
    else
      var source := Source(nodes, n - 1);
      var ids := nodes[source].inputs;
      Absorbed(nodes, n - 1) || exists i :: 0 <= i < |ids| && Changed(nodes, source, ids[i])
  }

  // ---------------------------------------------------------------- what is merged

  /** Every merge of the pass is an absorption, */
  lemma {:induction false} MergeIsAbsorption(nodes: seq<OpNode>, i: nat, e: Emit)
    requires WellFormed(nodes) && i <= |nodes| && e in After(nodes, i).emits && e.Merge?
    ensures Absorbs(nodes, e.at, e.silu)
  {
    var p := After(nodes, i - 1);
    MergeFacts(nodes, i, e);
    if e in p.emits {
      MergeIsAbsorption(nodes, i - 1, e);
    } else {
      var d := nodes[e.at].outputs[0];
      assert e.at == i - 1 && e.silu == FindSiLU(nodes, d, i, p.consumed);
      forall k | e.at < k < e.silu ensures !ReadsOnly(nodes[k], d) {
        if k in p.consumed {
          var f := MergeOf(nodes, i - 1, k);
          MergeFacts(nodes, i - 1, f);
          SoleWriter(nodes, f.at, e.at, nodes[f.at].outputs[0]);
        }
      }
    }
  }

  /** and every absorption a merge. */
  lemma {:induction false} AbsorptionIsMerge(nodes: seq<OpNode>, m: nat, j: nat)
    requires WellFormed(nodes) && Absorbs(nodes, m, j)
    ensures Merge(m, j) in After(nodes, |nodes|).emits
  {
    var e := FusibleIsMerged(nodes, m, j);
    MergeIsAbsorption(nodes, |nodes|, e);
    MergeFacts(nodes, |nodes|, e);
    assert !(e.silu < j) && !(j < e.silu);
  }

  /** The node of the result that writes what node k writes, unless k is absorbed. */
  lemma {:induction false} EntryOf(nodes: seq<OpNode>, k: nat) returns (r: nat)
    requires WellFormed(nodes) && k < |nodes| && !Absorbed(nodes, k)
    ensures r < |RunNodes(nodes)| && RunNodes(nodes)[r].outputs == nodes[k].outputs
    ensures RunNodes(nodes)[r].inputs == nodes[Source(nodes, k)].inputs
  {
    var p, m := After(nodes, |nodes|), Source(nodes, k);
    if m < k {
      AbsorptionIsMerge(nodes, m, k);
      r :| 0 <= r < |p.emits| && p.emits[r] == Merge(m, k);
    } else {
      EveryNodeDecided(nodes, |nodes|, k);
      if k in p.consumed {
        var f := MergeOf(nodes, |nodes|, k);
        MergeIsAbsorption(nodes, |nodes|, f);
        assert false;
      }
      r :| 0 <= r < |p.emits| && p.emits[r].at == k;
      if p.emits[r].Merge? {
        MergeIsAbsorption(nodes, |nodes|, p.emits[r]);
        assert false;
      }
    }
  }

  // ---------------------------------------------------------------- final values

  lemma {:induction false} LaterUntouched<V>(I: Interp<V>, env: Env<V>, nodes: seq<OpNode>, k: nat, n: nat, t: TensorID)
    requires k <= n <= |nodes| && forall j :: k <= j < n ==> t !in nodes[j].outputs
    ensures Eval(I, env, nodes[..n])(t) == Eval(I, env, nodes[..k])(t)
  {
    if k < n {
      EvalTake(I, env, nodes, n - 1);
      LaterUntouched(I, env, nodes, k, n - 1, t);
    }
  }

  /** In the end a tensor is what its writer computes from the final values of its inputs. */
  lemma {:induction false} Fixpoint<V>(I: Interp<V>, env: Env<V>, nodes: seq<OpNode>, k: nat, t: TensorID)
    requires WellFormed(nodes) && k < |nodes| && t in nodes[k].outputs
    ensures var E := Eval(I, env, nodes);
            E(t) == I.op(nodes[k].kind, Read(E, nodes[k].inputs), LastIndex(nodes[k].outputs, t))
  {
    var E, before := Eval(I, env, nodes), Eval(I, env, nodes[..k]);
    assert nodes[..|nodes|] == nodes;
    FinalValue(I, env, nodes, k, |nodes|, t);
    forall i | 0 <= i < |nodes[k].inputs| ensures E(nodes[k].inputs[i]) == before(nodes[k].inputs[i]) {
      LaterUntouched(I, env, nodes, k, |nodes|, nodes[k].inputs[i]);
    }
    assert Read(E, nodes[k].inputs) == Read(before, nodes[k].inputs);
  }

  /** A node of the result would compute the original values from the original values of its inputs. */
  lemma {:induction false} EntryValue<V(!new)>(I: Interp<V>, env: Env<V>, nodes: seq<OpNode>, r: nat, t: TensorID)
    requires WellFormed(nodes) && FusionLaw(I) && r < |RunNodes(nodes)| && t in RunNodes(nodes)[r].outputs
    ensures var E, node := Eval(I, env, nodes), RunNodes(nodes)[r];
            E(t) == I.op(node.kind, Read(E, node.inputs), LastIndex(node.outputs, t))
  {
    var e := After(nodes, |nodes|).emits[r];
    if e.Keep? {
      Fixpoint(I, env, nodes, e.at, t);
    } else {
      MergedValue(I, env, nodes, e, t);
    }
  }

  lemma {:induction false} MergedValue<V(!new)>(I: Interp<V>, env: Env<V>, nodes: seq<OpNode>, e: Emit, t: TensorID)
    requires WellFormed(nodes) && FusionLaw(I) && e in After(nodes, |nodes|).emits && e.Merge?
    requires InRange(nodes, e) && t in nodes[e.silu].outputs
    ensures var E := Eval(I, env, nodes);
            E(t) == I.op(MatmulSiLU, Read(E, nodes[e.at].inputs), LastIndex(nodes[e.silu].outputs, t))
  {
    var E := Eval(I, env, nodes);
    MergeFacts(nodes, |nodes|, e);
    var d := nodes[e.at].outputs[0];
    Fixpoint(I, env, nodes, e.silu, t);
    Fixpoint(I, env, nodes, e.at, d);
    assert Read(E, nodes[e.silu].inputs) == [E(d)];
  }

  /** What no node writes, no node of the result writes. */
  lemma {:induction false} UnwrittenStays<V>(I: Interp<V>, env: Env<V>, nodes: seq<OpNode>, t: TensorID)
    requires WellFormed(nodes) && forall k :: 0 <= k < |nodes| ==> t !in nodes[k].outputs
    ensures Eval(I, env, RunNodes(nodes))(t) == env(t) == Eval(I, env, nodes)(t)
  {
    NeverWritten(I, env, nodes, |nodes|, t);
    NeverWritten(I, env, RunNodes(nodes), |RunNodes(nodes)|, t);
    assert nodes[..|nodes|] == nodes && RunNodes(nodes)[..|RunNodes(nodes)|] == RunNodes(nodes);
  }

  ghost predicate Unwritten(nodes: seq<OpNode>, n: nat, t: TensorID) {
    forall k :: n <= k < |nodes| ==> t !in nodes[k].outputs
  }

  /** Under every meaning of the node kinds for which the fused kernel is SiLU after Matmul, a tensor that is not
      changed keeps its value. */
  lemma {:induction false} UnchangedKept<V(!new)>(I: Interp<V>, env: Env<V>, nodes: seq<OpNode>, n: nat, t: TensorID)
    requires WellFormed(nodes) && FusionLaw(I) && n <= |nodes| && Unwritten(nodes, n, t) && !Changed(nodes, n, t)
    ensures Eval(I, env, RunNodes(nodes))(t) == Eval(I, env, nodes)(t)
    decreases n, 1
  {
    if n == 0 {
      UnwrittenStays(I, env, nodes, t);
    } else if t in nodes[n - 1].outputs {
      UnchangedWritten(I, env, nodes, n, t);
    } else {
      UnchangedKept(I, env, nodes, n - 1, t);
    }
  }

  lemma {:induction false} UnchangedWritten<V(!new)>(I: Interp<V>, env: Env<V>, nodes: seq<OpNode>, n: nat, t: TensorID)
    requires WellFormed(nodes) && FusionLaw(I) && 0 < n <= |nodes| && !Changed(nodes, n, t)
    requires t in nodes[n - 1].outputs
    ensures Eval(I, env, RunNodes(nodes))(t) == Eval(I, env, nodes)(t)
    decreases n, 0
  {
    var source := Source(nodes, n - 1);
    var r := EntryOf(nodes, n - 1);
    var E, F, ids := Eval(I, env, nodes), Eval(I, env, RunNodes(nodes)), nodes[source].inputs;
    ResultWellFormed(nodes);
    Fixpoint(I, env, RunNodes(nodes), r, t);
    EntryValue(I, env, nodes, r, t);
    forall i | 0 <= i < |ids| ensures F(ids[i]) == E(ids[i]) {
      UnchangedKept(I, env, nodes, source, ids[i]);
    }
    assert Read(F, ids) == Read(E, ids);
  }

  lemma {:induction false} OpInjective(kind: OpKind, a: seq<Term>, b: seq<Term>, k: nat)
    ensures Symbolic().op(kind, a, k) == Symbolic().op(kind, b, k) <==> a == b
  {
    if kind == MatmulSiLU {
      assert [App(Matmul, a, 0)][0] == App(Matmul, a, 0) && [App(Matmul, b, 0)][0] == App(Matmul, b, 0);
    }
  }

  lemma {:induction false} SameReads(W: Env<Term>, V: Env<Term>, ids: seq<TensorID>)
    ensures Read(W, ids) == Read(V, ids) <==> forall i :: 0 <= i < |ids| ==> W(ids[i]) == V(ids[i])
  {
    if Read(W, ids) == Read(V, ids) {
      forall i | 0 <= i < |ids| ensures W(ids[i]) == V(ids[i]) { assert Read(W, ids)[i] == Read(V, ids)[i]; }
    }
  }

  /** In the result t has the value it had. */
  ghost predicate AsBefore(nodes: seq<OpNode>, t: TensorID)
    requires MatmulsHaveOutput(nodes)
  {
    Eval(Symbolic(), Initial(), RunNodes(nodes))(t) == Eval(Symbolic(), Initial(), nodes)(t)
  }

  lemma {:induction false} AbsorbedDiffers(nodes: seq<OpNode>, m: nat, t: TensorID)
    requires WellFormed(nodes) && m < |nodes| && Absorbed(nodes, m) && t in nodes[m].outputs
    ensures !AsBefore(nodes, t)
  {
    var j: nat :| Absorbs(nodes, m, j);
    AbsorptionIsMerge(nodes, m, j);
    ProductDiffers(nodes, Merge(m, j), |nodes|, |RunNodes(nodes)|);
    assert nodes[..|nodes|] == nodes && RunNodes(nodes)[..|RunNodes(nodes)|] == RunNodes(nodes);
  }

  /** What a node that is not absorbed writes is as before exactly if all it is computed from is. */
  lemma {:induction false} WrittenAsBefore(nodes: seq<OpNode>, k: nat, t: TensorID)
    requires WellFormed(nodes) && k < |nodes| && !Absorbed(nodes, k) && t in nodes[k].outputs
    ensures var ids := nodes[Source(nodes, k)].inputs;
            AsBefore(nodes, t) <==> forall i :: 0 <= i < |ids| ==> AsBefore(nodes, ids[i])
  {
    var r := EntryOf(nodes, k);
    var node := RunNodes(nodes)[r];
    var E, F := Eval(Symbolic(), Initial(), nodes), Eval(Symbolic(), Initial(), RunNodes(nodes));
    ResultWellFormed(nodes);
    Fixpoint(Symbolic(), Initial(), RunNodes(nodes), r, t);
    EntryValue(Symbolic(), Initial(), nodes, r, t);
    OpInjective(node.kind, Read(F, node.inputs), Read(E, node.inputs), LastIndex(node.outputs, t));
    SameReads(F, E, node.inputs);
  }

  lemma {:induction false} ChangedIff(nodes: seq<OpNode>, n: nat, t: TensorID)
    requires WellFormed(nodes) && n <= |nodes| && Unwritten(nodes, n, t)
    ensures AsBefore(nodes, t) <==> !Changed(nodes, n, t)
  {
    if n == 0 {
      UnwrittenStays(Symbolic(), Initial(), nodes, t);
    } else if t !in nodes[n - 1].outputs {
      ChangedIff(nodes, n - 1, t);
    } else if Absorbed(nodes, n - 1) {
      AbsorbedDiffers(nodes, n - 1, t);
    } else {
      var source := Source(nodes, n - 1);
      var ids := nodes[source].inputs;
      forall i | 0 <= i < |ids| ensures AsBefore(nodes, ids[i]) <==> !Changed(nodes, source, ids[i]) {
        ChangedIff(nodes, source, ids[i]);
      }
      WrittenAsBefore(nodes, n - 1, t);
    }
  }

  /** The block outputs keep their symbolic values if and only if none of them is, or is computed from, a product that
      some later SiLU is the first to read alone, other than through that SiLU.  A second reader of such a product
      does no harm as long as no output needs it. */
  lemma {:induction false} OutputsKeptIff(nodes: seq<OpNode>, outputs: seq<TensorID>)
    requires WellFormed(nodes)
    ensures (forall t :: t in outputs ==>
               Eval(Symbolic(), Initial(), RunNodes(nodes))(t) == Eval(Symbolic(), Initial(), nodes)(t)) <==>
            (forall t :: t in outputs ==> !Changed(nodes, |nodes|, t))
  {
    forall t | t in outputs ensures AsBefore(nodes, t) <==> !Changed(nodes, |nodes|, t) {
      ChangedIff(nodes, |nodes|, t);
    }
  }
}
