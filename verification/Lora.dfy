/** LoRA adapters on disk (inference/lora/writer.go, loader.go): saving in safetensors form and loading back.

    A float32 is its bit pattern.  The names of weights are structured, and the JSON of the header is any codec that
    gives this header back; the framing of the file, the byte order and the offsets are as in the code. */
module Lora {
  import opened Bytes
  import opened Collections

  type Bits = x: int | 0 <= x < 0x1_0000_0000

  // ---------------------------------------------------------------- adapters

  datatype Proj = Q | K | V | O

  datatype Mat = A | B

  datatype Name = Name(layer: nat, proj: Proj, mat: Mat)

  /** A matrix with its shape; absent weights are empty with shape 0 x 0. */
  datatype Matrix = Matrix(data: seq<Bits>, rows: int, cols: int)

  const NO_WEIGHTS := Matrix([], 0, 0)

  datatype LayerAdapter = LayerAdapter(qa: Matrix, qb: Matrix, ka: Matrix, kb: Matrix,
                                       va: Matrix, vb: Matrix, oa: Matrix, ob: Matrix)
  {
    function Get(p: Proj, m: Mat): Matrix {
      match (p, m)
      case (Q, A) => qa
      case (Q, B) => qb
      case (K, A) => ka
      case (K, B) => kb
      case (V, A) => va
      case (V, B) => vb
      case (O, A) => oa
      case (O, B) => ob
    }

    function Put(p: Proj, m: Mat, x: Matrix): LayerAdapter {
      match (p, m)
      case (Q, A) => this.(qa := x)
      case (Q, B) => this.(qb := x)
      case (K, A) => this.(ka := x)
      case (K, B) => this.(kb := x)
      case (V, A) => this.(va := x)
      case (V, B) => this.(vb := x)
      case (O, A) => this.(oa := x)
      case (O, B) => this.(ob := x)
    }

    /** HasQ, HasK, HasV, HasO. */
    predicate Has(p: Proj) {
      |Get(p, A).data| > 0 && |Get(p, B).data| > 0
    }

    predicate HasAny() {
      Has(Q) || Has(K) || Has(V) || Has(O)
    }

    /** One of the projections there are. */
    function AnyProj(): (p: Proj)
      requires HasAny()
      ensures Has(p)
    {
      if Has(Q) then Q else if Has(K) then K else if Has(V) then V else O
    }
  }

  const BLANK := LayerAdapter(NO_WEIGHTS, NO_WEIGHTS, NO_WEIGHTS, NO_WEIGHTS,
                              NO_WEIGHTS, NO_WEIGHTS, NO_WEIGHTS, NO_WEIGHTS)

  lemma {:induction false} SameAdapter(a: LayerAdapter, b: LayerAdapter)
    requires forall p, m :: a.Get(p, m) == b.Get(p, m)
    ensures a == b
  {
    assert a.Get(Q, A) == b.Get(Q, A) && a.Get(Q, B) == b.Get(Q, B);
    assert a.Get(K, A) == b.Get(K, A) && a.Get(K, B) == b.Get(K, B);
    assert a.Get(V, A) == b.Get(V, A) && a.Get(V, B) == b.Get(V, B);
    assert a.Get(O, A) == b.Get(O, A) && a.Get(O, B) == b.Get(O, B);
  }

  lemma {:induction false} PutGet(a: LayerAdapter, p: Proj, m: Mat, x: Matrix, p': Proj, m': Mat)
    ensures a.Put(p, m, x).Get(p', m') == if (p', m') == (p, m) then x else a.Get(p', m')
  {
  }

  // ---------------------------------------------------------------- the file

  datatype Tensor = Tensor(name: Name, matrix: Matrix)

  /** What a header may name: the weight of a projection, the metadata entry, or anything else. */
  datatype Key = Weight(name: Name) | Metadata | Other(text: string)

  datatype Entry = Entry(dtype: string, shape: seq<int>, start: int, end: int) | Malformed

  type Header = map<Key, Entry>

  /** JSON as a codec for headers, and the conversion of data that is not F32. */
  datatype Json = Json(marshal: Header -> seq<Byte>, unmarshal: seq<Byte> -> Option<Header>,
                       convert: (seq<Byte>, string, int) -> Option<seq<Bits>>)

  /** The codec gives this header back, from fewer bytes than 64 bits can count. */
  predicate Faithful(j: Json, h: Header) {
    |j.marshal(h)| < Pow256(8) && j.unmarshal(j.marshal(h)) == Some(h)
  }

  function IndexOf(hs: seq<Header>, h: Header): (i: nat)
    ensures h in hs ==> i < |hs| && hs[i] == h
  {
    if hs == [] || hs[0] == h then 0 else 1 + IndexOf(hs[1..], h)
  }

  /** One codec can be faithful to any list of headers: let it write the place in the list. */
  lemma {:induction false} FaithfulCodec(hs: seq<Header>) returns (j: Json)
    requires |hs| <= Pow256(8)
    ensures forall h :: h in hs ==> Faithful(j, h)
  {
    j := Json(h => if h in hs then ToBytes(IndexOf(hs, h), 8) else [],
              bytes => if FromBytes(bytes) < |hs| then Some(hs[FromBytes(bytes)]) else None,
              (data, dtype, n) => None);
    forall h | h in hs ensures Faithful(j, h) {
      BytesRoundTrip(IndexOf(hs, h), 8);
      Widths();
    }
  }

  function F32Bytes(vals: seq<Bits>): (r: seq<Byte>)
    ensures |r| == 4 * |vals|
  {
    if vals == [] then [] else F32Bytes(vals[..|vals| - 1]) + ToBytes(vals[|vals| - 1], 4)
  }

  /** The four bytes of element i are its digits, the least significant first. */
  lemma {:induction false} F32BytesAre(vals: seq<Bits>, i: nat, k: nat)
    requires i < |vals| && k < 4
    ensures Pow256(k) > 0 && F32Bytes(vals)[4 * i + k] == vals[i] / Pow256(k) % 256
  {
    if i < |vals| - 1 {
      F32BytesAre(vals[..|vals| - 1], i, k);
    } else {
      BytesAre(vals[i], 4, k);
    }
  }

  function Blob(ts: seq<Tensor>): seq<Byte> {
    if ts == [] then [] else Blob(ts[..|ts| - 1]) + F32Bytes(ts[|ts| - 1].matrix.data)
  }

  function EntryFor(t: Tensor, offset: nat): Entry {
    Entry("F32", [t.matrix.rows, t.matrix.cols], offset, offset + 4 * |t.matrix.data|)
  }

  function HeaderOf(ts: seq<Tensor>): Header {
    if ts == [] then map[]
    else
      var t := ts[|ts| - 1];
      HeaderOf(ts[..|ts| - 1])[Weight(t.name) := EntryFor(t, |Blob(ts[..|ts| - 1])|)]
  }

  function ProjTensors(i: nat, la: LayerAdapter, p: Proj): seq<Tensor> {
    if la.Has(p) then [Tensor(Name(i, p, A), la.Get(p, A)), Tensor(Name(i, p, B), la.Get(p, B))] else []
  }

  function LayerTensors(i: nat, la: LayerAdapter): seq<Tensor> {
    ProjTensors(i, la, Q) + ProjTensors(i, la, K) + ProjTensors(i, la, V) + ProjTensors(i, la, O)
  }

  function Tensors(layers: seq<LayerAdapter>): seq<Tensor> {
    if layers == [] then [] else Tensors(layers[..|layers| - 1]) + LayerTensors(|layers| - 1, layers[|layers| - 1])
  }

  method SaveF32(vals: seq<Bits>) returns (out: seq<Byte>)
    ensures out == F32Bytes(vals)
  {
    out := [];
    var i := 0;
    while i < |vals|
      invariant 0 <= i <= |vals| && out == F32Bytes(vals[..i])
    {
      assert vals[..i + 1][..i] == vals[..i];
      out := out + ToBytes(vals[i], 4);
      i := i + 1;
    }
    assert vals[..i] == vals;
  }

  method CollectTensors(layers: seq<LayerAdapter>) returns (tensors: seq<Tensor>)
    ensures tensors == Tensors(layers)
  {
    tensors := [];
    var i := 0;
    while i < |layers|
      invariant 0 <= i <= |layers| && tensors == Tensors(layers[..i])
    {
      var la := layers[i];
      assert layers[..i + 1][..i] == layers[..i];
      tensors := tensors + LayerTensors(i, la);
      i := i + 1;
    }
    assert layers[..i] == layers;
  }

  /** saveAdapterWeights: length of the header, header, data. */
  method Save(j: Json, layers: seq<LayerAdapter>) returns (raw: seq<Byte>)
    ensures var header := j.marshal(HeaderOf(Tensors(layers)));
            raw == ToBytes(|header|, 8) + header + Blob(Tensors(layers))
  {
    var tensors := CollectTensors(layers);
    var header, dataBlob := BuildHeader(tensors);
    var headerJSON := j.marshal(header);
    raw := ToBytes(|headerJSON|, 8) + headerJSON + dataBlob;
  }

  /** Header and data together, with a running offset. */
  method BuildHeader(tensors: seq<Tensor>) returns (header: Header, dataBlob: seq<Byte>)
    ensures header == HeaderOf(tensors) && dataBlob == Blob(tensors)
  {
    header, dataBlob := map[], [];
    var offset := 0;
    var i := 0;
    while i < |tensors|
      invariant 0 <= i <= |tensors| && offset == |dataBlob|
      invariant header == HeaderOf(tensors[..i]) && dataBlob == Blob(tensors[..i])
    {
      var t := tensors[i];
      assert tensors[..i + 1][..i] == tensors[..i];
      var byteLen := 4 * |t.matrix.data|;
      header := header[Weight(t.name) := Entry("F32", [t.matrix.rows, t.matrix.cols], offset, offset + byteLen)];
      var bytes := SaveF32(t.matrix.data);
      dataBlob := dataBlob + bytes;
      offset := offset + byteLen;
      i := i + 1;
    }
    assert tensors[..i] == tensors;
  }

  // ---------------------------------------------------------------- offsets

  lemma {:induction false} HeaderEntry(ts: seq<Tensor>, i: nat)
    requires i < |ts| && NamesDistinct(ts)
    ensures Weight(ts[i].name) in HeaderOf(ts)
    ensures HeaderOf(ts)[Weight(ts[i].name)] == EntryFor(ts[i], |Blob(ts[..i])|)
  {
    var last := |ts| - 1;
    if i < last {
      HeaderEntry(ts[..last], i);
      assert ts[..last][..i] == ts[..i];
      assert ts[i].name != ts[last].name;
    }
  }

  lemma {:induction false} BlobPrefix(ts: seq<Tensor>, i: nat)
    requires i <= |ts|
    ensures Blob(ts[..i]) <= Blob(ts)
  {
    if i < |ts| {
      BlobPrefix(ts[..|ts| - 1], i);
      assert ts[..|ts| - 1][..i] == ts[..i];
    } else {
      assert ts[..i] == ts;
    }
  }

  /** Entry i is the slice of the blob that holds tensor i, and the slices tile the blob in order. */
  lemma {:induction false} OffsetsTile(ts: seq<Tensor>, i: nat)
    requires i < |ts| && NamesDistinct(ts)
    ensures Weight(ts[i].name) in HeaderOf(ts)
    ensures HeaderOf(ts)[Weight(ts[i].name)] == EntryFor(ts[i], |Blob(ts[..i])|)
    ensures var e := HeaderOf(ts)[Weight(ts[i].name)];
            && e.Entry? && e.dtype == "F32" && |e.shape| == 2
            && e.shape[0] == ts[i].matrix.rows && e.shape[1] == ts[i].matrix.cols
            && e.start <= e.end == |Blob(ts[..i + 1])| <= |Blob(ts)|
            && Blob(ts)[e.start..e.end] == F32Bytes(ts[i].matrix.data)
  {
    HeaderEntry(ts, i);
    BlobSlice(ts, i);
  }

  lemma {:induction false} BlobSlice(ts: seq<Tensor>, i: nat)
    requires i < |ts|
    ensures var start, end, bytes := |Blob(ts[..i])|, |Blob(ts[..i + 1])|, F32Bytes(ts[i].matrix.data);
            start <= end == start + |bytes| <= |Blob(ts)| && Blob(ts)[start..end] == bytes
  {
    assert ts[..i + 1][..i] == ts[..i];
    BlobPrefix(ts, i + 1);
    var upTo, before := Blob(ts[..i + 1]), Blob(ts[..i]);
    assert upTo == before + F32Bytes(ts[i].matrix.data);
    assert Blob(ts)[|before|..|upTo|] == upTo[|before|..];
  }

  ghost predicate NamesDistinct(ts: seq<Tensor>) {
    forall i, j :: 0 <= i < j < |ts| ==> ts[i].name != ts[j].name
  }

  lemma {:induction false} HeaderKeys(ts: seq<Tensor>, k: Key)
    requires k in HeaderOf(ts)
    ensures k.Weight?
  {
    if k != Weight(ts[|ts| - 1].name) { HeaderKeys(ts[..|ts| - 1], k); }
  }

  lemma {:induction false} HeaderNames(ts: seq<Tensor>, n: Name)
    ensures Weight(n) in HeaderOf(ts) <==> exists i :: 0 <= i < |ts| && ts[i].name == n
  {
    if ts != [] {
      var front, last := ts[..|ts| - 1], ts[|ts| - 1];
      HeaderNames(front, n);
      NamesSnoc(front, last, n);
      assert front + [last] == ts;
    }
  }

  lemma {:induction false} NamesSnoc(front: seq<Tensor>, last: Tensor, n: Name)
    ensures (exists i :: 0 <= i < |front + [last]| && (front + [last])[i].name == n) <==>
            last.name == n || exists i :: 0 <= i < |front| && front[i].name == n
  {
    var ts := front + [last];
    assert ts[|front|] == last && forall i :: 0 <= i < |front| ==> ts[i] == front[i];
  }

  /** Which tensors are written. */
  ghost predicate Written(layers: seq<LayerAdapter>, n: Name) {
    n.layer < |layers| && layers[n.layer].Has(n.proj)
  }

  function TensorAt(layers: seq<LayerAdapter>, n: Name): Tensor
    requires n.layer < |layers|
  {
    Tensor(n, layers[n.layer].Get(n.proj, n.mat))
  }

  lemma {:induction false} TensorsAre(layers: seq<LayerAdapter>)
    ensures NamesDistinct(Tensors(layers))
    ensures forall t :: t in Tensors(layers) ==> Written(layers, t.name) && t == TensorAt(layers, t.name)
    ensures forall n :: Written(layers, n) ==> TensorAt(layers, n) in Tensors(layers)
  {
    if layers != [] {
      var last := |layers| - 1;
      TensorsAre(layers[..last]);
      LayerTensorsAre(last, layers[last]);
      TensorsSnoc(layers, Tensors(layers[..last]), LayerTensors(last, layers[last]));
    }
  }

  lemma {:induction false} TensorsSnoc(layers: seq<LayerAdapter>, ts: seq<Tensor>, more: seq<Tensor>)
    requires layers != [] && NamesDistinct(ts) && NamesDistinct(more)
    requires var last := |layers| - 1;
             var front, la := layers[..last], layers[last];
             && (forall t :: t in ts ==> Written(front, t.name) && t == TensorAt(front, t.name))
             && (forall n :: Written(front, n) ==> TensorAt(front, n) in ts)
             && (forall t :: t in more ==>
                   t.name.layer == last && la.Has(t.name.proj) && t.matrix == la.Get(t.name.proj, t.name.mat))
             && (forall p, m :: la.Has(p) ==> Tensor(Name(last, p, m), la.Get(p, m)) in more)
    ensures NamesDistinct(ts + more)
    ensures forall t :: t in ts + more ==> Written(layers, t.name) && t == TensorAt(layers, t.name)
    ensures forall n :: Written(layers, n) ==> TensorAt(layers, n) in ts + more
  {
    var last := |layers| - 1;
    var front := layers[..last];
    DistinctConcat(ts, more);
    forall t: Tensor | t in ts + more ensures Written(layers, t.name) && t == TensorAt(layers, t.name) {
      if t in ts { assert Written(front, t.name); }
    }
    forall n | Written(layers, n) ensures TensorAt(layers, n) in ts + more {
      if n.layer < last {
        assert Written(front, n);
      } else {
        assert layers[last].Has(n.proj) && Tensor(Name(last, n.proj, n.mat), layers[last].Get(n.proj, n.mat)) in more;
      }
    }
  }

  lemma {:induction false} ProjTensorsAre(i: nat, la: LayerAdapter, p: Proj)
    ensures forall t :: t in ProjTensors(i, la, p) ==>
              t.name.layer == i && t.name.proj == p && la.Has(p) && t.matrix == la.Get(p, t.name.mat)
    ensures NamesDistinct(ProjTensors(i, la, p))
    ensures forall m :: la.Has(p) ==> Tensor(Name(i, p, m), la.Get(p, m)) in ProjTensors(i, la, p)
  {
    forall m | la.Has(p) ensures Tensor(Name(i, p, m), la.Get(p, m)) in ProjTensors(i, la, p) {
      assert ProjTensors(i, la, p)[if m == A then 0 else 1] == Tensor(Name(i, p, m), la.Get(p, m));
    }
  }

  lemma {:induction false} DistinctConcat(a: seq<Tensor>, b: seq<Tensor>)
    requires NamesDistinct(a) && NamesDistinct(b) && forall s, t :: s in a && t in b ==> s.name != t.name
    ensures NamesDistinct(a + b)
  {
  }

  lemma {:induction false} LayerTensorsAre(i: nat, la: LayerAdapter)
    ensures NamesDistinct(LayerTensors(i, la))
    ensures forall t :: t in LayerTensors(i, la) ==>
              t.name.layer == i && la.Has(t.name.proj) && t.matrix == la.Get(t.name.proj, t.name.mat)
    ensures forall p, m :: la.Has(p) ==> Tensor(Name(i, p, m), la.Get(p, m)) in LayerTensors(i, la)
  {
    var q, k, v, o := ProjTensors(i, la, Q), ProjTensors(i, la, K), ProjTensors(i, la, V), ProjTensors(i, la, O);
    ProjTensorsAre(i, la, Q);
    ProjTensorsAre(i, la, K);
    ProjTensorsAre(i, la, V);
    ProjTensorsAre(i, la, O);
    DistinctConcat(q, k);
    DistinctConcat(q + k, v);
    DistinctConcat(q + k + v, o);
    forall p, m | la.Has(p) ensures Tensor(Name(i, p, m), la.Get(p, m)) in LayerTensors(i, la) {
      InLayer(i, la, p, Tensor(Name(i, p, m), la.Get(p, m)));
    }
  }

  lemma {:induction false} InLayer(i: nat, la: LayerAdapter, p: Proj, t: Tensor)
    requires t in ProjTensors(i, la, p)
    ensures t in LayerTensors(i, la)
  {
    assert p == Q || p == K || p == V || p == O;
  }

  // ---------------------------------------------------------------- loading

  datatype Outcome<T> = Ok(value: T) | Failed | Panicked

  function DecodeF32(bytes: seq<Byte>): (vals: seq<Bits>)
    requires |bytes| % 4 == 0
    ensures 4 * |vals| == |bytes|
  {
    if bytes == [] then []
    else
      var front := |bytes| - 4;
      Widths();
      DecodeF32(bytes[..front]) + [FromBytes(bytes[front..])]
  }

  lemma {:induction false} F32RoundTrip(vals: seq<Bits>)
    ensures DecodeF32(F32Bytes(vals)) == vals
  {
    if vals != [] {
      var front, last := vals[..|vals| - 1], vals[|vals| - 1];
      F32RoundTrip(front);
      SnocRoundTrip(front, last);
      assert front + [last] == vals;
    }
  }

  lemma {:induction false} SnocRoundTrip(front: seq<Bits>, last: Bits)
    requires DecodeF32(F32Bytes(front)) == front
    ensures DecodeF32(F32Bytes(front + [last])) == front + [last]
  {
    var before := F32Bytes(front);
    assert F32Bytes(front + [last]) == before + ToBytes(last, 4) by { assert (front + [last])[..|front|] == front; }
    DecodeSnoc(before, |front|, last);
  }

  lemma {:induction false} DecodeSnoc(bytes: seq<Byte>, n: nat, last: Bits)
    requires |bytes| == 4 * n
    ensures DecodeF32(bytes + ToBytes(last, 4)) == DecodeF32(bytes) + [last]
  {
    var all, quad := bytes + ToBytes(last, 4), ToBytes(last, 4);
    DecodeLast(all, n);
    QuadRoundTrip(last);
    assert all[..4 * n] == bytes && all[4 * n..] == quad;
  }

  lemma {:induction false} DecodeLast(bytes: seq<Byte>, n: nat)
    requires |bytes| == 4 * n + 4
    ensures FromBytes(bytes[4 * n..]) < 0x1_0000_0000
    ensures DecodeF32(bytes) == DecodeF32(bytes[..4 * n]) + [FromBytes(bytes[4 * n..])]
  {
    Widths();
  }

  lemma {:induction false} QuadRoundTrip(x: Bits)
    ensures FromBytes(ToBytes(x, 4)) == x
  {
    Widths();
    BytesRoundTrip(x, 4);
  }

  /** convertToF32 on data of a given type, n being the product of the shape. */
  function Convert(j: Json, data: seq<Byte>, dtype: string, n: int): Option<seq<Bits>> {
    if dtype == "F32" then
      if |data| != n * 4 then None else Some(DecodeF32(data))
    else j.convert(data, dtype, n)
  }

  /** What becomes of one header entry; slicing at a negative start panics. */
  datatype Parsed = Skipped | Loaded(matrix: Matrix) | Rejected | Crashed

  function ParseEntry(j: Json, e: Entry, blob: seq<Byte>): Parsed {
    if e.Malformed? then Rejected
    else if |e.shape| != 2 then Skipped
    else if e.end > |blob| || e.start > e.end then Rejected
    else if e.start < 0 then Crashed
    else
      var data := Convert(j, blob[e.start..e.end], e.dtype, e.shape[0] * e.shape[1]);
      if data.Some? then Loaded(Matrix(data.value, e.shape[0], e.shape[1])) else Rejected
  }

  /** The header and the data of a file.  The bound is computed in 64 bits and may wrap around. */
  function Frame(j: Json, raw: seq<Byte>): Outcome<(Header, seq<Byte>)> {
    if |raw| < 8 then Failed
    else
      var headerLen := FromBytes(raw[..8]);
      if |raw| < (8 + headerLen) % 0x1_0000_0000_0000_0000 then Failed
      else if |raw| < 8 + headerLen then Panicked
      else
        var header := j.unmarshal(raw[8..8 + headerLen]);
        if header.None? then Failed else Ok((header.value, raw[8 + headerLen..]))
  }

  /** What becomes of an entry under its key; the metadata is not looked at. */
  function ParseAt(j: Json, header: Header, k: Key, blob: seq<Byte>): Parsed
    requires k in header
  {
    if k == Metadata then Skipped else ParseEntry(j, header[k], blob)
  }

  ghost predicate AllLoad(j: Json, header: Header, blob: seq<Byte>) {
    forall k :: k in header ==> ParseAt(j, header, k, blob).Skipped? || ParseAt(j, header, k, blob).Loaded?
  }

  type Found = map<Key, Matrix>

  function FoundIn(j: Json, header: Header, blob: seq<Byte>): Found {
    map k | k in header && ParseAt(j, header, k, blob).Loaded? :: ParseAt(j, header, k, blob).matrix
  }

  /** loadSafetensors: the entries are visited in any order, and all must parse, whatever their name. */
  method LoadSafetensors(j: Json, raw: seq<Byte>) returns (r: Outcome<Found>)
    ensures r.Ok? <==> Frame(j, raw).Ok? && AllLoad(j, Frame(j, raw).value.0, Frame(j, raw).value.1)
    ensures r.Ok? ==> r.value == FoundIn(j, Frame(j, raw).value.0, Frame(j, raw).value.1)
  {
    var framed := Frame(j, raw);
    if framed.Failed? { return Failed; }
    if framed.Panicked? { return Panicked; }
    var (header, blob) := framed.value;
    var result: Found := map[];
    var keys := header.Keys;
    while keys != {}
      invariant keys <= header.Keys
      invariant forall k :: k in header && k !in keys ==>
                  ParseAt(j, header, k, blob).Skipped? || ParseAt(j, header, k, blob).Loaded?
      invariant result == map k | k in header && k !in keys && ParseAt(j, header, k, blob).Loaded? ::
                            ParseAt(j, header, k, blob).matrix
      decreases |keys|
    {
      var key :| key in keys;
      var parsed := ParseAt(j, header, key, blob);
      if parsed.Rejected? { return Failed; }
      if parsed.Crashed? { return Panicked; }
      if parsed.Loaded? {
        result := result[key := parsed.matrix];
      }
      keys := keys - {key};
    }
    r := Ok(result);
  }

  /** The weights among what was found; other names are passed over. */
  type Weights = map<Name, Matrix>

  function WeightsIn(found: Found): (weights: Weights)
    ensures forall n :: n in weights <==> Weight(n) in found
    ensures forall n :: n in weights ==> weights[n] == found[Weight(n)]
  {
    var weights: Weights := map k | k in found && k.Weight? :: k.name := found[k];
    assert forall n :: Weight(n) in found ==> Weight(n).name in weights;
    weights
  }

  function WeightsOf(j: Json, header: Header, blob: seq<Byte>): Weights {
    WeightsIn(FoundIn(j, header, blob))
  }

  /** As many layers as the names reach, each holding what was stored under its names. */
  ghost predicate LayersFrom(layers: seq<LayerAdapter>, weights: Weights) {
    && (forall n :: n in weights ==> n.layer < |layers|)
    && (exists n :: n in weights && n.layer == |layers| - 1)
    && Holding(layers, weights, weights.Keys)
  }

  ghost predicate Holding(layers: seq<LayerAdapter>, weights: Weights, names: set<Name>) {
    forall l: nat, p, m :: l < |layers| ==>
      layers[l].Get(p, m) ==
        if Name(l, p, m) in names && Name(l, p, m) in weights then weights[Name(l, p, m)] else NO_WEIGHTS
  }

  method Load(j: Json, raw: seq<Byte>) returns (r: Outcome<seq<LayerAdapter>>)
    ensures var f := Frame(j, raw);
            && (r.Ok? <==> f.Ok? && AllLoad(j, f.value.0, f.value.1) && WeightsOf(j, f.value.0, f.value.1) != map[])
            && (r.Ok? ==> LayersFrom(r.value, WeightsOf(j, f.value.0, f.value.1)))
  {
    var loaded := LoadSafetensors(j, raw);
    if loaded.Failed? { return Failed; }
    if loaded.Panicked? { return Panicked; }
    var maxLayer := FindMaxLayer(loaded.value);
    if maxLayer < 0 {
      return Failed;
    }
    var layers := FillLayers(loaded.value, maxLayer + 1);
    r := Ok(layers);
  }

  method FindMaxLayer(found: Found) returns (maxLayer: int)
    ensures maxLayer >= -1 && forall n :: n in WeightsIn(found) ==> n.layer <= maxLayer
    ensures if WeightsIn(found) == map[] then maxLayer == -1
            else exists n :: n in WeightsIn(found) && n.layer == maxLayer
  {
    ghost var weights := WeightsIn(found);
    maxLayer := -1;
    var keys := found.Keys;
    while keys != {}
      invariant keys <= found.Keys && maxLayer >= -1
      invariant forall n :: n in weights && Weight(n) !in keys ==> n.layer <= maxLayer
      invariant maxLayer >= 0 ==> exists n :: n in weights && n.layer == maxLayer
      decreases |keys|
    {
      var key :| key in keys;
      if key.Weight? && key.name.layer > maxLayer {
        maxLayer := key.name.layer;
        assert key.name in weights;
      }
      keys := keys - {key};
    }
    if weights != map[] {
      assert weights.Keys != {};
      var n :| n in weights.Keys;
      assert n.layer <= maxLayer;
    }
  }

  method FillLayers(found: Found, count: nat) returns (layers: seq<LayerAdapter>)
    requires forall n :: n in WeightsIn(found) ==> n.layer < count
    ensures |layers| == count && Holding(layers, WeightsIn(found), WeightsIn(found).Keys)
  {
    ghost var weights := WeightsIn(found);
    layers := BlankLayers(count, weights);
    var keys := found.Keys;
    ghost var done: set<Name> := {};
    while keys != {}
      invariant keys <= found.Keys && |layers| == count && Holding(layers, weights, done)
      invariant forall n :: n in weights ==> (n in done <==> Weight(n) !in keys)
      invariant done <= weights.Keys
      decreases |keys|
    {
      var key :| key in keys;
      if key.Weight? {
        layers := FillOne(layers, weights, found[key], done, key.name);
        done := done + {key.name};
      }
      keys := keys - {key};
    }
    assert done == weights.Keys;
  }

  method BlankLayers(count: nat, ghost weights: Weights) returns (layers: seq<LayerAdapter>)
    ensures |layers| == count && Holding(layers, weights, {})
  {
    layers := seq(count, i => BLANK);
    BlankHolding(layers, weights);
  }

  method FillOne(layers: seq<LayerAdapter>, ghost weights: Weights, x: Matrix, ghost done: set<Name>,
                 name: Name)
    returns (filled: seq<LayerAdapter>)
    requires Holding(layers, weights, done) && name in weights && weights[name] == x && name.layer < |layers|
    ensures |filled| == |layers| && Holding(filled, weights, done + {name})
  {
    HoldingMore(layers, weights, done, name);
    var la := layers[name.layer];
    filled := layers[name.layer := la.Put(name.proj, name.mat, x)];
  }

  lemma {:induction false} BlankHolding(layers: seq<LayerAdapter>, weights: Weights)
    requires forall l :: 0 <= l < |layers| ==> layers[l] == BLANK
    ensures Holding(layers, weights, {})
  {
  }

  lemma {:induction false} HoldingMore(layers: seq<LayerAdapter>, weights: Weights, done: set<Name>, name: Name)
    requires Holding(layers, weights, done) && name in weights && name.layer < |layers|
    ensures Holding(layers[name.layer := layers[name.layer].Put(name.proj, name.mat, weights[name])], weights,
                    done + {name})
  {
    var after := layers[name.layer := layers[name.layer].Put(name.proj, name.mat, weights[name])];
    forall l: nat, p, m | l < |layers|
      ensures after[l].Get(p, m) ==
              if Name(l, p, m) in done + {name} && Name(l, p, m) in weights then weights[Name(l, p, m)] else NO_WEIGHTS
    {
      PutGet(layers[name.layer], name.proj, name.mat, weights[name], p, m);
      assert layers[l].Get(p, m) ==
             if Name(l, p, m) in done && Name(l, p, m) in weights then weights[Name(l, p, m)] else NO_WEIGHTS;
    }
  }

  // ---------------------------------------------------------------- saving and loading

  /** Every projection has both matrices with fitting shapes or nothing at all, and the last layer something. */
  ghost predicate Storable(layers: seq<LayerAdapter>) {
    && layers != [] && layers[|layers| - 1].HasAny()
    && forall l: nat, p, m :: l < |layers| ==> Sound(layers[l], p, m)
  }

  predicate Sound(la: LayerAdapter, p: Proj, m: Mat) {
    var x := la.Get(p, m);
    if la.Has(p) then x.rows * x.cols == |x.data| else x == NO_WEIGHTS
  }

  lemma {:induction false} SavedFrame(j: Json, layers: seq<LayerAdapter>, raw: seq<Byte>)
    requires Faithful(j, HeaderOf(Tensors(layers)))
    requires var header := j.marshal(HeaderOf(Tensors(layers)));
             raw == ToBytes(|header|, 8) + header + Blob(Tensors(layers))
    ensures Frame(j, raw) == Ok((HeaderOf(Tensors(layers)), Blob(Tensors(layers))))
  {
    var header := j.marshal(HeaderOf(Tensors(layers)));
    BytesRoundTrip(|header|, 8);
    Widths();
    assert raw[..8] == ToBytes(|header|, 8);
    assert raw[8..8 + |header|] == header;
    assert raw[8 + |header|..] == Blob(Tensors(layers));
  }

  /** A written tensor is read back, if its shape fits, and fails the load otherwise. */
  lemma {:induction false} WrittenParses(j: Json, layers: seq<LayerAdapter>, n: Name)
    requires Written(layers, n)
    ensures Weight(n) in HeaderOf(Tensors(layers))
    ensures var x := TensorAt(layers, n).matrix;
            ParseAt(j, HeaderOf(Tensors(layers)), Weight(n), Blob(Tensors(layers))) ==
            if x.rows * x.cols == |x.data| then Loaded(x) else Rejected
  {
    TensorsAre(layers);
    var offset := PlaceOf(Tensors(layers), TensorAt(layers, n));
    EntryParses(j, TensorAt(layers, n), offset, Blob(Tensors(layers)));
  }

  /** Where a tensor is in the file. */
  lemma {:induction false} PlaceOf(ts: seq<Tensor>, t: Tensor) returns (offset: nat)
    requires t in ts && NamesDistinct(ts)
    ensures Weight(t.name) in HeaderOf(ts) && HeaderOf(ts)[Weight(t.name)] == EntryFor(t, offset)
    ensures var end := offset + 4 * |t.matrix.data|;
            end <= |Blob(ts)| && Blob(ts)[offset..end] == F32Bytes(t.matrix.data)
  {
    var i :| 0 <= i < |ts| && ts[i] == t;
    OffsetsTile(ts, i);
    offset := |Blob(ts[..i])|;
  }

  lemma {:induction false} EntryParses(j: Json, t: Tensor, offset: nat, blob: seq<Byte>)
    requires var end := offset + 4 * |t.matrix.data|;
             end <= |blob| && blob[offset..end] == F32Bytes(t.matrix.data)
    ensures var x := t.matrix;
            ParseEntry(j, EntryFor(t, offset), blob) == if x.rows * x.cols == |x.data| then Loaded(x) else Rejected
  {
    F32RoundTrip(t.matrix.data);
    assert t.matrix == Matrix(t.matrix.data, t.matrix.rows, t.matrix.cols);
  }

  lemma {:induction false} HeaderIsWritten(layers: seq<LayerAdapter>, n: Name)
    ensures Weight(n) in HeaderOf(Tensors(layers)) <==> Written(layers, n)
  {
    TensorsAre(layers);
    HeaderNames(Tensors(layers), n);
    if Written(layers, n) {
      var i :| 0 <= i < |Tensors(layers)| && Tensors(layers)[i] == TensorAt(layers, n);
    }
  }

  ghost predicate ShapesFit(layers: seq<LayerAdapter>) {
    forall n :: Written(layers, n) ==> var x := TensorAt(layers, n).matrix; x.rows * x.cols == |x.data|
  }

  /** What a saved file loads as. */
  lemma {:induction false} SavedWeights(j: Json, layers: seq<LayerAdapter>)
    ensures var header, blob := HeaderOf(Tensors(layers)), Blob(Tensors(layers));
            && (AllLoad(j, header, blob) <==> ShapesFit(layers))
            && (ShapesFit(layers) ==> Match(layers, WeightsOf(j, header, blob)))
  {
    var header, blob := HeaderOf(Tensors(layers)), Blob(Tensors(layers));
    forall n
      ensures Weight(n) in header <==> Written(layers, n)
      ensures Weight(n) in header ==> var x := TensorAt(layers, n).matrix;
                ParseAt(j, header, Weight(n), blob) == if x.rows * x.cols == |x.data| then Loaded(x) else Rejected
    {
      HeaderIsWritten(layers, n);
      if Written(layers, n) { WrittenParses(j, layers, n); }
    }
    forall k | k in header ensures k.Weight? { HeaderKeys(Tensors(layers), k); }
  }

  /** The weights are what the layers wrote. */
  ghost predicate Match(layers: seq<LayerAdapter>, weights: Weights) {
    forall n :: (n in weights <==> Written(layers, n)) && (n in weights ==> weights[n] == TensorAt(layers, n).matrix)
  }

  lemma {:induction false} StorableComesBack(layers: seq<LayerAdapter>, weights: Weights, loaded: seq<LayerAdapter>)
    requires LayersFrom(loaded, weights) && Match(layers, weights) && Storable(layers)
    ensures loaded == layers
  {
    var p := layers[|layers| - 1].AnyProj();
    assert Written(layers, Name(|layers| - 1, p, A));
    assert Name(|layers| - 1, p, A) in weights;
    var n :| n in weights && n.layer == |loaded| - 1;
    assert Written(layers, n);
    forall l | 0 <= l < |layers| ensures loaded[l] == layers[l] {
      forall p, m ensures loaded[l].Get(p, m) == layers[l].Get(p, m) {
        assert Sound(layers[l], p, m);
        OneWeight(layers, weights, loaded, l, p, m);
      }
      SameAdapter(loaded[l], layers[l]);
    }
  }

  /** A loaded weight is the written one, or nothing. */
  lemma {:induction false} OneWeight(layers: seq<LayerAdapter>, weights: Weights, loaded: seq<LayerAdapter>,
                                     l: nat, p: Proj, m: Mat)
    requires LayersFrom(loaded, weights) && Match(layers, weights) && l < |layers| && l < |loaded|
    ensures loaded[l].Get(p, m) == if layers[l].Has(p) then layers[l].Get(p, m) else NO_WEIGHTS
  {
    assert Name(l, p, m) in weights <==> Written(layers, Name(l, p, m));
  }

  lemma {:induction false} WhatComesBackIsStorable(layers: seq<LayerAdapter>, weights: Weights)
    requires ShapesFit(layers) && LayersFrom(layers, weights) && Match(layers, weights)
    ensures Storable(layers)
  {
    LastHasAny(layers, weights);
    forall l: nat, p, m | l < |layers| ensures Sound(layers[l], p, m) {
      OneIsSound(layers, weights, l, p, m);
    }
  }

  lemma {:induction false} LastHasAny(layers: seq<LayerAdapter>, weights: Weights)
    requires LayersFrom(layers, weights) && Match(layers, weights)
    ensures layers != [] && layers[|layers| - 1].HasAny()
  {
    var n := LastName(|layers|, weights);
    MatchIsWritten(layers, weights, n);
    WrittenHasAny(layers, n, |layers| - 1);
  }

  lemma {:induction false} LastName(count: nat, weights: Weights) returns (n: Name)
    requires exists n :: n in weights && n.layer == count - 1
    ensures n in weights && n.layer == count - 1
  {
    n :| n in weights && n.layer == count - 1;
  }

  lemma {:induction false} MatchIsWritten(layers: seq<LayerAdapter>, weights: Weights, n: Name)
    requires Match(layers, weights) && n in weights
    ensures Written(layers, n)
  {
  }

  lemma {:induction false} WrittenHasAny(layers: seq<LayerAdapter>, n: Name, l: int)
    requires Written(layers, n) && n.layer == l
    ensures 0 <= l < |layers| && layers[l].HasAny()
  {
  }

  lemma {:induction false} OneIsSound(layers: seq<LayerAdapter>, weights: Weights, l: nat, p: Proj, m: Mat)
    requires ShapesFit(layers) && LayersFrom(layers, weights) && Match(layers, weights) && l < |layers|
    ensures Sound(layers[l], p, m)
  {
    OneWeight(layers, weights, layers, l, p, m);
    FittingIsSound(layers, l, p, m);
  }

  lemma {:induction false} FittingIsSound(layers: seq<LayerAdapter>, l: nat, p: Proj, m: Mat)
    requires ShapesFit(layers) && l < |layers|
    requires !layers[l].Has(p) ==> layers[l].Get(p, m) == NO_WEIGHTS
    ensures Sound(layers[l], p, m)
  {
    if layers[l].Has(p) {
      assert Written(layers, Name(l, p, m));
      assert TensorAt(layers, Name(l, p, m)).matrix == layers[l].Get(p, m);
    }
  }

  /** Saving and loading gives the adapter back exactly when it is storable. */
  method SaveThenLoad(j: Json, layers: seq<LayerAdapter>) returns (r: Outcome<seq<LayerAdapter>>)
    requires Faithful(j, HeaderOf(Tensors(layers)))
    ensures r == Ok(layers) <==> Storable(layers)
  {
    var raw := Save(j, layers);
    SavedFrame(j, layers, raw);
    SavedWeights(j, layers);
    r := Load(j, raw);
    if r.Ok? {
      ghost var weights := WeightsOf(j, HeaderOf(Tensors(layers)), Blob(Tensors(layers)));
      if Storable(layers) { StorableComesBack(layers, weights, r.value); }
      if r.value == layers { WhatComesBackIsStorable(layers, weights); }
    } else if Storable(layers) {
      StorableLoads(j, layers);
      assert false;
    }
  }

  lemma {:induction false} StorableLoads(j: Json, layers: seq<LayerAdapter>)
    requires Storable(layers)
    ensures ShapesFit(layers) && WeightsOf(j, HeaderOf(Tensors(layers)), Blob(Tensors(layers))) != map[]
  {
    assert ShapesFit(layers) by {
      forall n | Written(layers, n)
        ensures var x := TensorAt(layers, n).matrix; x.rows * x.cols == |x.data|
      {
        assert Sound(layers[n.layer], n.proj, n.mat);
      }
    }
    SavedWeights(j, layers);
    var p := layers[|layers| - 1].AnyProj();
    assert Written(layers, Name(|layers| - 1, p, A));
  }
}
