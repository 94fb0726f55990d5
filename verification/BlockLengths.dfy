/** How long a sequence of the block pool is, and what attention is told about it.  The length is kept once for all
    layers and stores raise it layer by layer, so in the middle of a pass it is ahead of the logs of the layers that
    come later; between passes it is the length of the log. */
module BlockLengths {
  import opened Arithmetic
  import opened Collections
  import opened BlockOwnership
  import opened BlockPool
  import opened BlockContents
  import opened BlockTables

  /** How far other layers have been stored to. */
  type Owed = map<int, nat>

  function OwedTo(owed: Owed, id: int): nat {
    if id in owed then owed[id] else 0
  }

  /** The length is that of the log, or as far as another layer has been stored to. */
  ghost predicate LengthIs(l: Layer, logs: Logs, owed: Owed, id: int) {
    id in l.seqs && id in logs && Max(0, l.seqs[id].len) == Max(|logs[id]|, OwedTo(owed, id))
  }

  ghost predicate Lengths(l: Layer, logs: Logs, owed: Owed) {
    forall id :: id in logs ==> LengthIs(l, logs, owed, id)
  }

  /** Stores in other layers run ahead, truncation cuts what is ahead, and a sequence that is deleted or created owes
      nothing. */
  function OwedAfter(l: Layer, owed: Owed, op: Op): Owed {
    match op
    case Create(id) => owed - {id}
    case Delete(id) => owed - {id}
    case Truncate(id, n) => if n < OwedTo(owed, id) then owed[id := Max(0, n)] else owed
    case StoreElsewhere(id, endPos) =>
      if id in l.seqs && endPos > OwedTo(owed, id) then owed[id := endPos] else owed
    case _ => owed
  }

  // ---------------------------------------------------------------- every operation

  lemma {:induction false} CreateLengths(l: Layer, logs: Logs, owed: Owed, id: int)
    requires Lengths(l, logs, owed) && id !in l.seqs && logs.Keys == l.seqs.Keys
    ensures Lengths(Created(l, id), logs[id := []], OwedAfter(l, owed, Create(id)))
    ensures Created(l, id).seqs[id].len == 0 && Created(l, id).seqs[id].table == []
  {
    var logs', owed' := logs[id := []], OwedAfter(l, owed, Create(id));
    forall i | i in logs' ensures LengthIs(Created(l, id), logs', owed', i) {
      if i != id { assert LengthIs(l, logs, owed, i); }
    }
  }

  lemma {:induction false} DeleteLengths(l: Layer, logs: Logs, owed: Owed, id: int)
    requires Lengths(l, logs, owed) && logs.Keys == l.seqs.Keys
    ensures Lengths(Deleted(l, id), logs - {id}, OwedAfter(l, owed, Delete(id)))
  {
    var logs', owed' := logs - {id}, OwedAfter(l, owed, Delete(id));
    forall i | i in logs' ensures LengthIs(Deleted(l, id), logs', owed', i) {
      assert LengthIs(l, logs, owed, i);
    }
  }

  lemma {:induction false} TruncateLengths(g: Shape, l: Layer, logs: Logs, owed: Owed, id: int, n: int)
    requires g.blockSize > 0 && Lengths(l, logs, owed) && logs.Keys == l.seqs.Keys
    ensures Lengths(Truncated(g, l, id, n), CutLog(logs, id, n), OwedAfter(l, owed, Truncate(id, n)))
  {
    var logs', owed' := CutLog(logs, id, n), OwedAfter(l, owed, Truncate(id, n));
    forall i | i in logs' ensures LengthIs(Truncated(g, l, id, n), logs', owed', i) {
      assert LengthIs(l, logs, owed, i);
    }
  }

  lemma {:induction false} OverwriteLength<T>(log: seq<T>, start: nat, tokens: seq<T>)
    requires start <= |log|
    ensures |Overwrite(log, start, tokens)| == Max(|log|, start + |tokens|)
  {
  }

  lemma {:induction false} StoreLengths(g: Shape, l: Layer, logs: Logs, owed: Owed, id: int, start: nat, ks: seq<Vec>,
                                        vs: seq<Vec>)
    requires g.blockSize > 0 && Owned(g, l) && Lengths(l, logs, owed) && logs.Keys == l.seqs.Keys
    requires Faithful(g, l, logs, Store(id, start, ks, vs))
    ensures var op := Store(id, start, ks, vs); Lengths(Do(g, l, op), LogDo(g, l, logs, op), owed)
  {
    var op := Store(id, start, ks, vs);
    var after, logs' := Do(g, l, op), LogDo(g, l, logs, op);
    OverwriteLength(logs[id], start, Zip(ks, vs));
    forall i | i in logs' ensures LengthIs(after, logs', owed, i) {
      assert LengthIs(l, logs, owed, i);
    }
  }

  lemma {:induction false} ElsewhereLengths(g: Shape, l: Layer, logs: Logs, owed: Owed, id: int, endPos: int)
    requires g.blockSize > 0 && Lengths(l, logs, owed) && logs.Keys == l.seqs.Keys
    ensures Lengths(Lengthened(l, id, endPos), logs, OwedAfter(l, owed, StoreElsewhere(id, endPos)))
  {
    var owed' := OwedAfter(l, owed, StoreElsewhere(id, endPos));
    forall i | i in logs ensures LengthIs(Lengthened(l, id, endPos), logs, owed', i) {
      assert LengthIs(l, logs, owed, i);
    }
  }

  lemma {:induction false} ShareLengths(g: Shape, l: Layer, logs: Logs, owed: Owed, src: int, dst: int, n: int,
                                        complete: bool)
    requires g.blockSize > 0 && Holds(g, l, logs) && Lengths(l, logs, owed)
    requires Faithful(g, l, logs, Share(src, dst, n, complete))
    ensures var op := Share(src, dst, n, complete); Lengths(Do(g, l, op), LogDo(g, l, logs, op), owed)
  {
    var op := Share(src, dst, n, complete);
    var after, logs' := Do(g, l, op), LogDo(g, l, logs, op);
    forall i | i in logs' ensures LengthIs(after, logs', owed, i) {
      assert LengthIs(l, logs, owed, i);
      if i == dst && src in logs && complete { EmptyTableEmptyLog(g, l, logs, dst); }
    }
  }

  /** Without blocks there is nothing to read. */
  lemma {:induction false} EmptyTableEmptyLog(g: Shape, l: Layer, logs: Logs, id: int)
    requires Holds(g, l, logs) && id in logs && l.seqs[id].table == []
    ensures logs[id] == []
  {
    assert HoldsFor(g, l, logs[id], id);
    assert !Covered(g, l.seqs[id].table, 0);
  }

  /** One faithful operation. */
  lemma {:induction false} DoLengths(g: Shape, l: Layer, logs: Logs, owed: Owed, op: Op)
    requires g.blockSize > 0 && Holds(g, l, logs) && Lengths(l, logs, owed) && Faithful(g, l, logs, op)
    ensures Lengths(Do(g, l, op), LogDo(g, l, logs, op), OwedAfter(l, owed, op))
  {
    match op
    case Create(id) => CreateLengths(l, logs, owed, id);
    case Delete(id) => DeleteLengths(l, logs, owed, id);
    case Truncate(id, n) => TruncateLengths(g, l, logs, owed, id, n);
    case Store(id, start, ks, vs) => StoreLengths(g, l, logs, owed, id, start, ks, vs);
    case StoreElsewhere(id, endPos) => ElsewhereLengths(g, l, logs, owed, id, endPos);
    case Share(src, dst, n, complete) => ShareLengths(g, l, logs, owed, src, dst, n, complete);
  }

  // ---------------------------------------------------------------- runs with attention

  /** Every operation of the run is faithful and orderly. */
  ghost predicate GoodRun(g: Shape, l: Layer, logs: Logs, es: seq<Event>)
    requires g.blockSize > 0 && Owned(g, l)
    decreases |es|
  {
    es == [] ||
    ((es[0].Pool? ==> Faithful(g, l, logs, es[0].op) && Orderly(g, l, es[0].op)) &&
     GoodRun(g, Next(g, l, es[0]), LogNext(g, l, logs, es[0]), es[1..]))
  }

  /** Attention changes no log. */
  ghost function LogNext(g: Shape, l: Layer, logs: Logs, e: Event): Logs
    requires g.blockSize > 0 && (e.Pool? ==> Faithful(g, l, logs, e.op))
  {
    if e.Pool? then LogDo(g, l, logs, e.op) else logs
  }

  function OwedNext(l: Layer, owed: Owed, e: Event): Owed {
    if e.Pool? then OwedAfter(l, owed, e.op) else owed
  }

  /** A layer with its logs and with what is owed to it. */
  datatype State = State(layer: Layer, logs: Logs, owed: Owed)

  ghost function AfterRun(g: Shape, s: State, es: seq<Event>): (r: State)
    requires g.blockSize > 0 && Owned(g, s.layer) && GoodRun(g, s.layer, s.logs, es)
    ensures Owned(g, r.layer)
    decreases |es|
  {
    if es == [] then s
    else AfterRun(g, NextState(g, s, es[0]), es[1..])
  }

  ghost function NextState(g: Shape, s: State, e: Event): State
    requires g.blockSize > 0 && Owned(g, s.layer) && (e.Pool? ==> Faithful(g, s.layer, s.logs, e.op))
  {
    State(Next(g, s.layer, e), LogNext(g, s.layer, s.logs, e), OwedNext(s.layer, s.owed, e))
  }

  /** The tables are tight and their copies clean, every sequence reads back its log, and the lengths are right. */
  ghost predicate Sound(g: Shape, s: State) {
    Coherent(g, s.layer) && Holds(g, s.layer, s.logs) && Lengths(s.layer, s.logs, s.owed)
  }

  lemma {:induction false} AttendHolds(g: Shape, l: Layer, logs: Logs, e: Event)
    requires g.blockSize > 0 && Holds(g, l, logs) && !e.Pool?
    ensures Holds(g, Next(g, l, e), logs)
    ensures forall id :: id in l.seqs ==> id in Next(g, l, e).seqs && Next(g, l, e).seqs[id].len == l.seqs[id].len
  {
    forall id | id in logs ensures HoldsFor(g, Next(g, l, e), logs[id], id) {
      assert HoldsFor(g, l, logs[id], id);
    }
  }

  lemma {:induction false} NextSound(g: Shape, s: State, e: Event)
    requires g.blockSize > 0 && Sound(g, s)
    requires e.Pool? ==> Faithful(g, s.layer, s.logs, e.op) && Orderly(g, s.layer, e.op)
    ensures Sound(g, NextState(g, s, e))
  {
    NextCoherent(g, s.layer, e);
    if e.Pool? {
      DoHolds(g, s.layer, s.logs, e.op);
      DoLengths(g, s.layer, s.logs, s.owed, e.op);
    } else {
      AttendHolds(g, s.layer, s.logs, e);
      forall id | id in s.logs ensures LengthIs(Next(g, s.layer, e), s.logs, s.owed, id) {
        assert LengthIs(s.layer, s.logs, s.owed, id);
      }
    }
  }

  lemma {:induction false} RunSound(g: Shape, s: State, es: seq<Event>)
    requires g.blockSize > 0 && Sound(g, s) && GoodRun(g, s.layer, s.logs, es)
    ensures Sound(g, AfterRun(g, s, es))
    decreases |es|
  {
    if es != [] {
      NextSound(g, s, es[0]);
      RunSound(g, NextState(g, s, es[0]), es[1..]);
    }
  }

  /** What the kernel finds for position p when it goes by the device's copy of the table. */
  ghost function ReadByCopy(g: Shape, mem: seq<Vec>, copy: seq<int>, p: nat): (Vec, Vec)
    requires MemOk(g, mem) && TableOk(g, copy) && Covered(g, copy, p)
  {
    CellAt(g, mem, copy, p)
  }

  /** Over every good run: an attention to a sequence to which nothing is owed is told the length of its log, with a
      last block that is neither empty nor overfull, and what it reads by the device's copy of the table is the log. */
  lemma {:induction false} AttentionReadsLog(g: Shape, s: State, es: seq<Event>, id: int)
    requires g.blockSize > 0 && Sound(g, s) && GoodRun(g, s.layer, s.logs, es)
    requires var r := AfterRun(g, s, es); id in r.logs && r.logs[id] != [] && OwedTo(r.owed, id) <= |r.logs[id]|
    ensures var r := AfterRun(g, s, es);
            && id in r.layer.seqs
            && var t, log := r.layer.seqs[id], r.logs[id];
            && t.len == |log|
            && (NumBlocks(g, t, 0) - 1) * g.blockSize + TokensInLastBlock(g, t, 0) == |log|
            && 1 <= TokensInLastBlock(g, t, 0) <= g.blockSize && NumBlocks(g, t, 0) == |t.table|
            && Uploaded(g, t, 0).device == Some(t.table) && MemOk(g, r.layer.mem) && TableOk(g, t.table)
            && forall p :: 0 <= p < |log| ==>
                 Covered(g, t.table, p) && ReadByCopy(g, r.layer.mem, t.table, p) == log[p]
  {
    RunSound(g, s, es);
    var r := AfterRun(g, s, es);
    var t, log := r.layer.seqs[id], r.logs[id];
    assert HoldsFor(g, r.layer, log, id) && LengthIs(r.layer, r.logs, r.owed, id) && TightSeq(g, t) && Clean(t);
    assert Covered(g, t.table, |log| - 1);
    LengthCovered(g, t, |log|);
    PlainIsFullIff(g, t);
    UploadCoherentIff(g, t, 0);
    KernelArgumentsIff(g, t, 0);
  }

  lemma {:induction false} LengthCovered(g: Shape, s: Seq, n: nat)
    requires g.blockSize > 0 && n > 0 && Covered(g, s.table, n - 1)
    ensures n <= |s.table| * g.blockSize && s.table != []
  {
    DivBounds(n - 1, g.blockSize);
    MulMono((n - 1) / g.blockSize + 1, |s.table|, g.blockSize);
  }

  lemma {:induction false} NewSound(g: Shape, mem: seq<Vec>)
    requires MemOk(g, mem)
    ensures Sound(g, State(NewLayer(g, mem), map[], map[])) && OwesNothing(State(NewLayer(g, mem), map[], map[]))
  {
    NewHolds(g, mem);
  }

  // ---------------------------------------------------------------- whole passes

  /** What the program does: a pass stores in every layer, so that the store in this one stands between those of the
      layers before and behind it; everything else is a single event. */
  datatype Round =
    | One(event: Event)
    | Pass(id: int, start: nat, ks: seq<Vec>, vs: seq<Vec>, before: nat, behind: nat)
  {
    predicate Ok() {
      One? && event.Pool? ==> !event.op.Store? && !event.op.StoreElsewhere?
    }

    function Events(): seq<Event> {
      match this
      case One(e) => [e]
      case Pass(id, start, ks, vs, before, behind) =>
        Elsewhere(id, start + |ks|, before) + [Pool(Store(id, start, ks, vs))] + Elsewhere(id, start + |ks|, behind)
    }
  }

  function Elsewhere(id: int, endPos: int, layers: nat): seq<Event> {
    seq(layers, _ => Pool(StoreElsewhere(id, endPos)))
  }

  function AllEvents(rounds: seq<Round>): seq<Event> {
    if rounds == [] then [] else rounds[0].Events() + AllEvents(rounds[1..])
  }

  /** Nothing is owed beyond the logs, except to one sequence up to some position. */
  ghost predicate OwesUpTo(s: State, id: int, endPos: int) {
    forall i :: i in s.logs ==> OwedTo(s.owed, i) <= Max(|s.logs[i]|, if i == id then endPos else 0)
  }

  ghost predicate OwesNothing(s: State) {
    forall i :: i in s.logs ==> OwedTo(s.owed, i) <= |s.logs[i]|
  }

  lemma {:induction false} RunConcat(g: Shape, s: State, a: seq<Event>, b: seq<Event>)
    requires g.blockSize > 0 && Sound(g, s) && GoodRun(g, s.layer, s.logs, a + b)
    ensures GoodRun(g, s.layer, s.logs, a)
    ensures var r := AfterRun(g, s, a); GoodRun(g, r.layer, r.logs, b) && AfterRun(g, s, a + b) == AfterRun(g, r, b)
    decreases |a|
  {
    if a == [] {
      assert a + b == b;
    } else {
      assert (a + b)[0] == a[0] && (a + b)[1..] == a[1..] + b;
      NextSound(g, s, a[0]);
      RunConcat(g, NextState(g, s, a[0]), a[1..], b);
    }
  }

  lemma {:induction false} OneOwesNothing(g: Shape, s: State, e: Event)
    requires g.blockSize > 0 && Sound(g, s) && OwesNothing(s) && One(e).Ok()
    requires e.Pool? ==> Faithful(g, s.layer, s.logs, e.op) && Orderly(g, s.layer, e.op)
    ensures OwesNothing(NextState(g, s, e))
  {
    if e.Pool? && e.op.Share? {
      ShareOwesNothing(g, s, e.op);
    }
  }

  lemma {:induction false} ShareOwesNothing(g: Shape, s: State, op: Op)
    requires g.blockSize > 0 && Sound(g, s) && OwesNothing(s) && op.Share? && Faithful(g, s.layer, s.logs, op)
    ensures OwesNothing(NextState(g, s, Pool(op)))
  {
    if op.src in s.logs && op.dst in s.logs && op.complete {
      EmptyTableEmptyLog(g, s.layer, s.logs, op.dst);
    }
  }

  lemma {:induction false} ElsewhereOwes(g: Shape, s: State, id: int, endPos: nat, layers: nat)
    requires g.blockSize > 0 && Sound(g, s) && OwesUpTo(s, id, endPos)
    requires GoodRun(g, s.layer, s.logs, Elsewhere(id, endPos, layers))
    ensures var r := AfterRun(g, s, Elsewhere(id, endPos, layers));
            Sound(g, r) && OwesUpTo(r, id, endPos) && r.logs == s.logs
    decreases layers
  {
    if layers > 0 {
      var e := Pool(StoreElsewhere(id, endPos));
      assert Elsewhere(id, endPos, layers)[1..] == Elsewhere(id, endPos, layers - 1);
      NextSound(g, s, e);
      ElsewhereOwes(g, NextState(g, s, e), id, endPos, layers - 1);
    }
  }

  lemma {:induction false} StoreOwesNothing(g: Shape, s: State, id: int, start: nat, ks: seq<Vec>, vs: seq<Vec>,
                                            endPos: nat, e: Event)
    requires g.blockSize > 0 && Owned(g, s.layer) && OwesUpTo(s, id, endPos)
    requires e == Pool(Store(id, start, ks, vs)) && endPos == start + |ks|
    requires Faithful(g, s.layer, s.logs, e.op) && Orderly(g, s.layer, e.op)
    ensures var r := NextState(g, s, e); OwesNothing(r) && id in r.logs && endPos <= |r.logs[id]|
  {
    OverwriteLength(s.logs[id], start, Zip(ks, vs));
  }

  lemma {:induction false} RunCons(g: Shape, s: State, e: Event, es: seq<Event>)
    requires g.blockSize > 0 && Sound(g, s) && GoodRun(g, s.layer, s.logs, [e] + es)
    ensures e.Pool? ==> Faithful(g, s.layer, s.logs, e.op) && Orderly(g, s.layer, e.op)
    ensures var r := NextState(g, s, e);
            Sound(g, r) && GoodRun(g, r.layer, r.logs, es) && AfterRun(g, s, [e] + es) == AfterRun(g, r, es)
  {
    assert ([e] + es)[1..] == es;
    NextSound(g, s, e);
  }

  /** What is stored elsewhere up to a position the log has reached changes nothing. */
  lemma {:induction false} ElsewhereSettles(g: Shape, s: State, id: int, endPos: nat, layers: nat)
    requires g.blockSize > 0 && Sound(g, s) && OwesNothing(s) && id in s.logs && endPos <= |s.logs[id]|
    requires GoodRun(g, s.layer, s.logs, Elsewhere(id, endPos, layers))
    ensures OwesNothing(AfterRun(g, s, Elsewhere(id, endPos, layers)))
  {
    ElsewhereOwes(g, s, id, endPos, layers);
  }

  lemma {:induction false} ThenElsewhere(g: Shape, s: State, e: Event, id: int, endPos: nat, behind: nat)
    requires g.blockSize > 0 && Sound(g, s) && GoodRun(g, s.layer, s.logs, [e] + Elsewhere(id, endPos, behind))
    requires e.Pool? ==> Faithful(g, s.layer, s.logs, e.op)
    requires var r := NextState(g, s, e); OwesNothing(r) && id in r.logs && endPos <= |r.logs[id]|
    ensures OwesNothing(AfterRun(g, s, [e] + Elsewhere(id, endPos, behind)))
  {
    RunCons(g, s, e, Elsewhere(id, endPos, behind));
    ElsewhereSettles(g, NextState(g, s, e), id, endPos, behind);
  }

  lemma {:induction false} StoreThenElsewhere(g: Shape, s: State, id: int, start: nat, ks: seq<Vec>, vs: seq<Vec>,
                                              endPos: nat, behind: nat, e: Event)
    requires g.blockSize > 0 && Sound(g, s) && OwesUpTo(s, id, endPos)
    requires e == Pool(Store(id, start, ks, vs)) && endPos == start + |ks|
    requires GoodRun(g, s.layer, s.logs, [e] + Elsewhere(id, endPos, behind))
    ensures OwesNothing(AfterRun(g, s, [e] + Elsewhere(id, endPos, behind)))
  {
    RunCons(g, s, e, Elsewhere(id, endPos, behind));
    StoreOwesNothing(g, s, id, start, ks, vs, endPos, e);
    ThenElsewhere(g, s, e, id, endPos, behind);
  }

  lemma {:induction false} PartsOweNothing(g: Shape, s: State, id: int, start: nat, ks: seq<Vec>, vs: seq<Vec>,
                                           endPos: nat, before: nat, behind: nat, e: Event)
    requires g.blockSize > 0 && Sound(g, s) && OwesNothing(s)
    requires e == Pool(Store(id, start, ks, vs)) && endPos == start + |ks|
    requires GoodRun(g, s.layer, s.logs, Elsewhere(id, endPos, before) + ([e] + Elsewhere(id, endPos, behind)))
    ensures OwesNothing(AfterRun(g, s, Elsewhere(id, endPos, before) + ([e] + Elsewhere(id, endPos, behind))))
  {
    RunConcat(g, s, Elsewhere(id, endPos, before), [e] + Elsewhere(id, endPos, behind));
    ElsewhereOwes(g, s, id, endPos, before);
    StoreThenElsewhere(g, AfterRun(g, s, Elsewhere(id, endPos, before)), id, start, ks, vs, endPos, behind, e);
  }

  lemma {:induction false} PassOwesNothing(g: Shape, s: State, r: Round)
    requires g.blockSize > 0 && Sound(g, s) && OwesNothing(s) && r.Pass? && GoodRun(g, s.layer, s.logs, r.Events())
    ensures OwesNothing(AfterRun(g, s, r.Events()))
  {
    var Pass(id, start, ks, vs, before, behind) := r;
    var e := Pool(Store(id, start, ks, vs));
    assert r.Events() == Elsewhere(id, start + |ks|, before) + ([e] + Elsewhere(id, start + |ks|, behind));
    PartsOweNothing(g, s, id, start, ks, vs, start + |ks|, before, behind, e);
  }

  /** Over every good run of whole passes, shares, truncations, creations, deletions and attention: in every layer the
      length of every sequence is that of its log, so attention is told what AttentionReadsLog says. */
  lemma {:induction false} RoundsSettle(g: Shape, s: State, rounds: seq<Round>)
    requires g.blockSize > 0 && Sound(g, s) && OwesNothing(s) && forall r :: r in rounds ==> r.Ok()
    requires GoodRun(g, s.layer, s.logs, AllEvents(rounds))
    ensures var r := AfterRun(g, s, AllEvents(rounds));
            && Sound(g, r) && OwesNothing(r)
            && forall id :: id in r.logs ==> id in r.layer.seqs && Max(0, r.layer.seqs[id].len) == |r.logs[id]|
    decreases |rounds|
  {
    if rounds == [] {
      forall id | id in s.logs ensures id in s.layer.seqs && Max(0, s.layer.seqs[id].len) == |s.logs[id]| {
        assert LengthIs(s.layer, s.logs, s.owed, id);
      }
    } else {
      var events, rest := rounds[0].Events(), AllEvents(rounds[1..]);
      RunConcat(g, s, events, rest);
      RunSound(g, s, events);
      if rounds[0].Pass? { PassOwesNothing(g, s, rounds[0]); } else { OneOwesNothing(g, s, rounds[0].event); }
      RoundsSettle(g, AfterRun(g, s, events), rounds[1..]);
    }
  }
}
