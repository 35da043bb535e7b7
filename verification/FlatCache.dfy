/** The flat byte cache: per layer one K and one V buffer, appended to and read back through the codec. */
module FlatCache {
  import opened Wrappers
  import opened Arith
  import opened Lists
  import opened FlatCodec

  datatype DType = F32 | F16 | BF16 | F8E4M3 | F8E5M2 | I32 | I8 | I4 | U8

  datatype FlatError =
    | ZeroDimension
    | Arithmetic
    | LayerOutOfRange
    | DTypeMismatch
    | ShapeMismatch
    | UnsupportedStorage
    | UnsupportedDType
    | LenOverflow
    | ReadBeyondWritten

  /** Storage formats the cache can marshal. */
  predicate Supported(d: DType) { d.F32? || d.F16? || d.BF16? || d.I32? || d.I8? || d.U8? }

  /** Bytes per element; two `I4` elements share a byte. */
  function Width(d: DType): (w: pos) {
    match d
    case F32 | I32 => 4
    case F16 | BF16 => 2
    case _ => 1
  }

  function ByteCount(d: DType, elements: nat): Option<nat> {
    if d.I4? then Some(elements / 2 + elements % 2) else CheckedMul(elements, Width(d))
  }

  /** A tensor: shape, and its elements as bit patterns when it lives on the CPU. */
  datatype Tensor = Tensor(dtype: DType, dims: seq<nat>, elements: Option<seq<nat>>)

  /** Formats whose elements the CPU keeps as bit patterns. */
  predicate Plain(d: DType) { d in {F32, F16, BF16, I32, I8, U8} }

  /** Bit patterns of one element. */
  function Patterns(d: DType): nat {
    match d
    case F32 | I32 => 0x1_0000_0000
    case F16 | BF16 => 0x1_0000
    case _ => 0x100
  }

  lemma FormatsAre(d: DType)
    ensures Supported(d) <==> Plain(d)
    ensures Supported(d) ==> Values(Width(d)) == Patterns(d)
  {
    assert Values(1) == 256 * Values(0);
    assert Values(2) == 256 * Values(1);
    assert Values(3) == 256 * Values(2);
    assert Values(4) == 256 * Values(3);
  }

  function ElementCount(dims: seq<nat>): nat { if |dims| == 0 then 1 else Times(dims[0], ElementCount(dims[1..])) }

  /** What tensor construction guarantees: as many elements as the shape says, in memory that can be addressed. */
  ghost predicate Constructed(t: Tensor) {
    t.elements.Some? ==>
      && Plain(t.dtype) && (forall i :: 0 <= i < |t.elements.value| ==> t.elements.value[i] < Patterns(t.dtype))
      && |t.elements.value| == ElementCount(t.dims) && RowBytes(t.dtype, |t.elements.value|) <= USIZE_MAX
  }

  lemma ConstructedFits(t: Tensor)
    requires Constructed(t) && t.elements.Some?
    ensures Supported(t.dtype) && Fits(t.elements.value, Width(t.dtype))
    ensures Times(|t.elements.value|, Width(t.dtype)) == RowBytes(t.dtype, |t.elements.value|) <= USIZE_MAX
  {
    FormatsAre(t.dtype);
    TimesIs(|t.elements.value|, Width(t.dtype));
  }

  // ---- geometry ---------------------------------------------------------

  datatype Layout = Layout(numLayers: nat, maxSeqLen: nat, dtype: DType, rowElems: nat, rowBytes: nat, bufferBytes: nat)

  function NewLayout(layers: nat, heads: nat, headDim: nat, maxSeqLen: nat, dtype: DType): Result<Layout, FlatError> {
    if layers == 0 || heads == 0 || headDim == 0 || maxSeqLen == 0 then Err(ZeroDimension)
    else
      var rowElems := CheckedMul(heads, headDim);
      if rowElems.None? then Err(Arithmetic)
      else
        var rowBytes := ByteCount(dtype, rowElems.value);
        if rowBytes.None? then Err(Arithmetic)
        else
          var buffer := CheckedMul(rowBytes.value, maxSeqLen);
          if ThenMul(ThenMul(buffer, layers), 2).None? then Err(Arithmetic)
          else Ok(Layout(layers, maxSeqLen, dtype, rowElems.value, rowBytes.value, buffer.value))
  }

  /** Geometry that passed construction. */
  ghost predicate Checked(l: Layout) {
    && l.numLayers > 0 && l.maxSeqLen > 0 && l.rowElems > 0
    && ByteCount(l.dtype, l.rowElems) == Some(l.rowBytes)
    && l.bufferBytes == Times(l.rowBytes, l.maxSeqLen) <= USIZE_MAX && l.maxSeqLen <= USIZE_MAX
  }

  /** Bytes of `elements` elements without any bound. */
  function RowBytes(d: DType, elements: nat): nat {
    match d
    case F32 | I32 => elements * 4
    case F16 | BF16 => elements * 2
    case F8E4M3 | F8E5M2 | I8 | U8 => elements
    case I4 => (elements + 1) / 2
  }

  lemma AtLeastOneEach(a: nat, b: nat)
    requires b > 0
    ensures a <= a * b && (a > 0 ==> a * b > 0)
  {
    MulMonotone(1, b, a);
  }

  lemma RowBytesChecked(d: DType, n: nat)
    requires n > 0
    ensures RowBytes(d, n) > 0 && n <= 2 * RowBytes(d, n)
    ensures n <= USIZE_MAX ==> ByteCount(d, n) == if RowBytes(d, n) <= USIZE_MAX then Some(RowBytes(d, n)) else None
  {
    CheckedMulIs(n, Width(d));
    AtLeastOneEach(n, Width(d));
  }

  /**
   A geometry is accepted exactly when no dimension is zero and all K and V buffers together can be addressed; no
   intermediate product refuses anything else.
   */
  lemma NewLayoutIff(layers: nat, heads: nat, headDim: nat, maxSeqLen: nat, dtype: DType)
    ensures NewLayout(layers, heads, headDim, maxSeqLen, dtype).Ok? <==>
              && layers > 0 && heads > 0 && headDim > 0 && maxSeqLen > 0
              && RowBytes(dtype, heads * headDim) * maxSeqLen * layers * 2 <= USIZE_MAX
  {
    hide RowBytes, ByteCount, CheckedMul;
    if layers > 0 && heads > 0 && headDim > 0 && maxSeqLen > 0 {
      var elements := Product(heads, headDim);
      AtLeastOneEach(heads, headDim);
      RowBytesChecked(dtype, elements);
      var row := RowBytes(dtype, elements);
      var buffer := Product(row, maxSeqLen);
      var kind := Product(buffer, layers);
      AtLeastOneEach(row, maxSeqLen);
      AtLeastOneEach(buffer, layers);
      CheckedMulIs(heads, headDim);
      CheckedMulIs(row, maxSeqLen);
      CheckedMulIs(buffer, layers);
      CheckedMulIs(kind, 2);
    }
  }

  lemma NewLayoutChecked(layers: nat, heads: nat, headDim: nat, maxSeqLen: nat, dtype: DType)
    requires maxSeqLen <= USIZE_MAX
    ensures var r := NewLayout(layers, heads, headDim, maxSeqLen, dtype);
            && (r.Err? ==>
                  r.error == if layers == 0 || heads == 0 || headDim == 0 || maxSeqLen == 0 then ZeroDimension
                             else Arithmetic)
            && (r.Ok? ==>
                  var row := RowBytes(dtype, heads * headDim);
                  && Checked(r.value)
                  && r.value == Layout(layers, maxSeqLen, dtype, heads * headDim, row, row * maxSeqLen))
  {
    CheckedMulIs(heads, headDim);
    if heads > 0 && headDim > 0 {
      AtLeastOneEach(heads, headDim);
      RowBytesChecked(dtype, heads * headDim);
      CheckedMulIs(RowBytes(dtype, heads * headDim), maxSeqLen);
    }
    if heads > 0 && headDim > 0 { MulMonotone(1, heads, headDim); }
  }

  datatype Span = Span(nextLen: nat, offset: nat, end: nat)

  function AppendSpan(current: nat, append: nat, rowBytes: nat, maxSeqLen: nat): Result<Span, FlatError> {
    if CheckedAdd(current, append).None? then Err(Arithmetic)
    else if current + append > maxSeqLen then Err(LenOverflow)
    else
      var offset, bytes := CheckedMul(current, rowBytes), CheckedMul(append, rowBytes);
      if offset.None? || bytes.None? then Err(Arithmetic)
      else
        match CheckedAdd(offset.value, bytes.value)
        case None => Err(Arithmetic)
        case Some(end) => Ok(Span(current + append, offset.value, end))
  }

  lemma {:induction false} TimesMonotone(a: nat, b: nat, w: nat)
    requires a <= b
    ensures Times(a, w) <= Times(b, w)
    decreases b
  {
    if a < b { TimesMonotone(a, b - 1, w); }
  }

  lemma {:induction false} TimesAdds(a: nat, b: nat, w: nat)
    ensures Times(a + b, w) == Times(a, w) + Times(b, w)
  {
    if a > 0 { TimesAdds(a - 1, b, w); }
  }

  lemma TimesCommutes(a: nat, b: nat)
    ensures Times(a, b) == Times(b, a)
  {
    TimesIs(a, b);
    TimesIs(b, a);
  }

  /**
   With checked geometry the only refusal of an append is the length limit, and what is accepted starts where the
   rows so far end, is as long as the new rows, and stays inside the buffer.
   */
  lemma SpanInBuffer(l: Layout, current: nat, append: nat)
    requires Checked(l) && current <= l.maxSeqLen && append <= USIZE_MAX
    ensures var r := AppendSpan(current, append, l.rowBytes, l.maxSeqLen);
            && (r.Ok? <==> current + append <= l.maxSeqLen) && l.maxSeqLen <= USIZE_MAX
            && (r.Err? ==> r.error == if current + append > USIZE_MAX then Arithmetic else LenOverflow)
            && (r.Ok? ==> r.value == Span(current + append, Times(current, l.rowBytes),
               Times(current + append, l.rowBytes))
                          && r.value.end <= l.bufferBytes)
  {
    hide Times;
    if current + append <= l.maxSeqLen {
      TimesAdds(current, append, l.rowBytes);
      TimesMonotone(current + append, l.maxSeqLen, l.rowBytes);
      TimesCommutes(l.maxSeqLen, l.rowBytes);
    }
  }

  // ---- one buffer -------------------------------------------------------

  /** The first `len` rows of the buffer are the encoded elements. */
  ghost predicate Holds(l: Layout, buffer: seq<byte>, len: nat, elements: seq<nat>) {
    && |buffer| == l.bufferBytes && len <= l.maxSeqLen
    && |elements| == Times(len, l.rowElems) && Times(len, l.rowBytes) <= l.bufferBytes
    && (if Supported(l.dtype)
        then Fits(elements, Width(l.dtype)) && buffer[..Times(len, l.rowBytes)] == EncodeAll(Width(l.dtype), elements)
        else len == 0)
  }

  lemma RowExtent(l: Layout, n: nat)
    requires Checked(l) && Supported(l.dtype) && n <= l.maxSeqLen
    ensures Times(Times(n, l.rowElems), Width(l.dtype)) == Times(n, l.rowBytes) <= l.bufferBytes
  {
    hide Times;
    TimesSwap(n, l.rowElems, Width(l.dtype));
    TimesMonotone(n, l.maxSeqLen, l.rowBytes);
    TimesCommutes(l.maxSeqLen, l.rowBytes);
  }

  /** Appending encoded rows behind the ones held keeps them and adds the new ones. */
  lemma AppendHolds(l: Layout, buffer: seq<byte>, len: nat, elements: seq<nat>, n: nat, xs: seq<nat>)
    requires Checked(l) && Holds(l, buffer, len, elements) && Supported(l.dtype)
    requires len + n <= l.maxSeqLen && |xs| == Times(n, l.rowElems) && Fits(xs, Width(l.dtype))
    ensures var bytes := EncodeAll(Width(l.dtype), xs);
            && Times(len, l.rowBytes) + |bytes| == Times(len + n, l.rowBytes) <= |buffer|
            && Holds(l, Overwrite(buffer, Times(len, l.rowBytes), bytes), len + n, elements + xs)
  {
    hide Times, EncodeAll;
    var bytes, offset := EncodeAll(Width(l.dtype), xs), Times(len, l.rowBytes);
    EncodedLength(Width(l.dtype), xs);
    RowExtent(l, n);
    RowExtent(l, len + n);
    TimesAdds(len, n, l.rowBytes);
    TimesAdds(len, n, l.rowElems);
    EncodeConcat(Width(l.dtype), elements, xs);
    assert Overwrite(buffer, offset, bytes)[..offset + |bytes|] == buffer[..offset] + bytes;
  }

  /** Reading the first `n` rows back gives the first `n` rows that were written. */
  lemma ReadHolds(l: Layout, buffer: seq<byte>, len: nat, elements: seq<nat>, n: nat)
    requires Checked(l) && Holds(l, buffer, len, elements) && Supported(l.dtype) && n <= len
    ensures Times(n, l.rowElems) <= |elements| && Times(n, l.rowBytes) <= |buffer|
    ensures var bytes := buffer[..Times(n, l.rowBytes)];
            && Times(Times(n, l.rowElems), Width(l.dtype)) == |bytes|
            && DecodeAll(Width(l.dtype), bytes, Times(n, l.rowElems)) == elements[..Times(n, l.rowElems)]
  {
    hide Times, EncodeAll, DecodeAll;
    var w, m := Width(l.dtype), Times(n, l.rowElems);
    TimesMonotone(n, len, l.rowElems);
    TimesMonotone(n, len, l.rowBytes);
    RowExtent(l, n);
    var head, tail := elements[..m], elements[m..];
    assert head + tail == elements;
    EncodeConcat(w, head, tail);
    DecodeEncodeAll(w, head);
    assert buffer[..Times(len, l.rowBytes)][..Times(n, l.rowBytes)] == buffer[..Times(n, l.rowBytes)];
    assert (EncodeAll(w, head) + EncodeAll(w, tail))[..Times(n, l.rowBytes)] == EncodeAll(w, head);
  }

  // ---- the reference ----------------------------------------------------

  /** What has been appended to each layer since the last reset. */
  datatype Log = Log(k: seq<seq<nat>>, v: seq<seq<nat>>, rows: seq<nat>)

  datatype Op = Put(layer: nat, key: Tensor, value: Tensor) | Reset

  /** Rows of a tensor the cache accepts for its layout. */
  ghost predicate RowsOf(l: Layout, t: Tensor, n: nat) {
    t.dtype == l.dtype && t.dims == [n, l.rowElems] && t.elements.Some?
  }

  ghost predicate Acceptable(l: Layout, log: Log, layer: nat, k: Tensor, v: Tensor) {
    && layer < l.numLayers && layer < |log.rows|
    && |k.dims| == 2 && RowsOf(l, k, k.dims[0]) && RowsOf(l, v, k.dims[0])
    && log.rows[layer] + k.dims[0] <= l.maxSeqLen
  }

  function EmptyLog(l: Layout): Log {
    Log(seq(l.numLayers, i => []), seq(l.numLayers, i => []), seq(l.numLayers, i => 0))
  }

  ghost function LogStep(l: Layout, log: Log, op: Op): Log
    requires |log.k| == |log.v| == |log.rows| == l.numLayers
  {
    match op
    case Reset => EmptyLog(l)
    case Put(layer, k, v) =>
      if !Acceptable(l, log, layer, k, v) then log
      else Log(
             log.k[layer := log.k[layer] + k.elements.value],
             log.v[layer := log.v[layer] + v.elements.value],
             log.rows[layer := log.rows[layer] + k.dims[0]])
  }

  ghost function LogRun(l: Layout, log: Log, ops: seq<Op>): (r: Log)
    requires |log.k| == |log.v| == |log.rows| == l.numLayers
    ensures |r.k| == |r.v| == |r.rows| == l.numLayers
    decreases |ops|
  {
    if |ops| == 0 then log else LogRun(l, LogStep(l, log, ops[0]), ops[1..])
  }

  /** A reset forgets everything before it: what follows starts from empty layers. */
  lemma {:induction false} SinceReset(l: Layout, log: Log, before: seq<Op>, after: seq<Op>)
    requires |log.k| == |log.v| == |log.rows| == l.numLayers
    ensures LogRun(l, log, before + [Op.Reset] + after) == LogRun(l, EmptyLog(l), after)
    decreases |before|
  {
    var ops := before + [Op.Reset] + after;
    if |before| == 0 {
      assert ops[0] == Op.Reset && ops[1..] == after;
    } else {
      assert ops[0] == before[0] && ops[1..] == before[1..] + [Op.Reset] + after;
      SinceReset(l, LogStep(l, log, ops[0]), before[1..], after);
    }
  }

  // ---- tensors in and out -----------------------------------------------

  lemma MatrixCount(n: nat, e: nat)
    ensures ElementCount([n, e]) == Times(n, e)
  {
    hide Times;
    assert [n, e][1..] == [e] && [e][1..] == [];
    assert ElementCount([e]) == Times(e, 1);
    TimesCommutes(e, 1);
    OneTime(e);
  }

  lemma FewerThanBytes(n: nat, w: pos)
    ensures n <= Times(n, w)
  {
    TimesIs(n, w);
    MulMonotone(1, w, n);
  }

  /** Why a tensor is refused, in the order of the checks. */
  function TensorRefusal(l: Layout, t: Tensor): Option<FlatError> {
    if t.dtype != l.dtype then Some(DTypeMismatch)
    else if |t.dims| != 2 || t.dims[1] != l.rowElems then Some(ShapeMismatch)
    else if t.elements.None? then Some(UnsupportedStorage)
    else None
  }

  /** Why an append is refused: key first, then value, then their row counts, then the space left. */
  function PutRefusal(l: Layout, held: seq<nat>, layer: nat, k: Tensor, v: Tensor): Option<FlatError> {
    if layer >= l.numLayers || layer >= |held| then Some(LayerOutOfRange)
    else if TensorRefusal(l, k).Some? then TensorRefusal(l, k)
    else if TensorRefusal(l, v).Some? then TensorRefusal(l, v)
    else if k.dims[0] != v.dims[0] then Some(ShapeMismatch)
    else if held[layer] + k.dims[0] > USIZE_MAX then Some(Arithmetic)
    else if held[layer] + k.dims[0] > l.maxSeqLen then Some(LenOverflow)
    else None
  }

  lemma TensorAccepted(l: Layout, t: Tensor)
    ensures TensorRefusal(l, t).None? <==> |t.dims| == 2 && RowsOf(l, t, t.dims[0])
  {
    assert |t.dims| == 2 ==> t.dims == [t.dims[0], t.dims[1]];
  }

  lemma PutAccepted(l: Layout, log: Log, layer: nat, k: Tensor, v: Tensor)
    requires Checked(l) && |log.rows| == l.numLayers
    ensures PutRefusal(l, log.rows, layer, k, v).None? <==> Acceptable(l, log, layer, k, v)
  {
    hide TensorRefusal, RowsOf, ByteCount;
    TensorAccepted(l, k);
    TensorAccepted(l, v);
    if Acceptable(l, log, layer, k, v) { SameRows(l, v, k.dims[0]); }
  }

  lemma SameRows(l: Layout, t: Tensor, n: nat)
    requires RowsOf(l, t, n)
    ensures |t.dims| == 2 && t.dims[0] == n
  {}

  /** Validate a tensor against the layout and give its row count and bytes. */
  method TensorAsBytes(l: Layout, t: Tensor) returns (r: Result<(nat, seq<byte>), FlatError>)
    requires Checked(l) && Constructed(t)
    ensures r.Ok? <==> |t.dims| == 2 && RowsOf(l, t, t.dims[0])
    ensures r.Err? ==> Some(r.error) == TensorRefusal(l, t)
    ensures r.Ok? ==> r.value == (t.dims[0], EncodeAll(Width(l.dtype), t.elements.value))
    ensures r.Ok? ==> Supported(l.dtype) && Fits(t.elements.value, Width(l.dtype))
    ensures r.Ok? ==> |t.elements.value| == Times(t.dims[0], l.rowElems) <= USIZE_MAX
  {
    hide Times, EncodeAll, Checked;
    if t.dtype != l.dtype { return Err(DTypeMismatch); }
    if |t.dims| != 2 { return Err(ShapeMismatch); }
    var n := t.dims[0];
    if t.dims[1] != l.rowElems { return Err(ShapeMismatch); }
    if t.elements.None? { return Err(UnsupportedStorage); }
    ConstructedFits(t);
    var bytes := EncodeAll(Width(t.dtype), t.elements.value);
    EncodedLength(Width(t.dtype), t.elements.value);
    assert t.dims == [n, l.rowElems];
    MatrixCount(n, l.rowElems);
    FewerThanBytes(|t.elements.value|, Width(l.dtype));
    var expectedElements := CheckedMul(n, l.rowElems);
    if expectedElements.None? { assert false; }
    var expected := ByteCount(l.dtype, expectedElements.value);
    if expected.None? { assert false; }
    if |bytes| != expected.value { return Err(ShapeMismatch); }
    return Ok((n, bytes));
  }

  // ---- the cache --------------------------------------------------------

  class FlatKvCache {
    const layout: Layout
    var kBuffers: seq<seq<byte>>
    var vBuffers: seq<seq<byte>>
    var lens: seq<nat>
    ghost var log: Log

    /** Every layer holds exactly the rows of its log. */
    ghost predicate Valid()
      reads this
    {
      && Checked(layout)
      && |kBuffers| == |vBuffers| == |lens| == |log.k| == |log.v| == layout.numLayers && log.rows == lens
      && forall i :: 0 <= i < layout.numLayers ==>
           Holds(layout, kBuffers[i], lens[i], log.k[i]) && Holds(layout, vBuffers[i], lens[i], log.v[i])
    }

    constructor (l: Layout)
      requires Checked(l)
      ensures Valid() && layout == l && log == EmptyLog(l)
    {
      layout := l;
      kBuffers := seq(l.numLayers, i => seq(l.bufferBytes, j => 0));
      vBuffers := seq(l.numLayers, i => seq(l.bufferBytes, j => 0));
      lens := seq(l.numLayers, i => 0);
      log := EmptyLog(l);
    }

    /** Append the rows of both tensors to a layer; a refusal changes nothing. */
    method Put(layer: nat, k: Tensor, v: Tensor) returns (refused: Option<FlatError>)
      requires Valid() && Constructed(k) && Constructed(v)
      modifies this
      ensures Valid() && log == LogStep(layout, old(log), Op.Put(layer, k, v))
      ensures refused.None? <==> Acceptable(layout, old(log), layer, k, v)
      ensures refused == PutRefusal(layout, old(log).rows, layer, k, v)
      ensures refused.Some? ==> kBuffers == old(kBuffers) && vBuffers == old(vBuffers) && lens == old(lens)
    {
      hide Times, EncodeAll, Holds, AppendSpan, Checked, Acceptable, TensorRefusal;
      PutAccepted(layout, log, layer, k, v);
      TensorAccepted(layout, k);
      TensorAccepted(layout, v);
      if layer >= layout.numLayers { return Some(LayerOutOfRange); }
      var keys := TensorAsBytes(layout, k);
      if keys.Err? { return Some(keys.error); }
      var values := TensorAsBytes(layout, v);
      if values.Err? { return Some(values.error); }
      var n := keys.value.0;
      if n != values.value.0 { return Some(ShapeMismatch); }
      RowsFit(layout, n, |k.elements.value|);
      HeldLength(layout, kBuffers[layer], lens[layer], log.k[layer]);
      SpanInBuffer(layout, lens[layer], n);
      var span := AppendSpan(lens[layer], n, layout.rowBytes, layout.maxSeqLen);
      if span.Err? { return Some(span.error); }
      assert PutRefusal(layout, log.rows, layer, k, v).None?;
      AppendHolds(layout, kBuffers[layer], lens[layer], log.k[layer], n, k.elements.value);
      AppendHolds(layout, vBuffers[layer], lens[layer], log.v[layer], n, v.elements.value);
      kBuffers := kBuffers[layer := Overwrite(kBuffers[layer], span.value.offset, keys.value.1)];
      vBuffers := vBuffers[layer := Overwrite(vBuffers[layer], span.value.offset, values.value.1)];
      lens := lens[layer := span.value.nextLen];
      log := LogStep(layout, log, Op.Put(layer, k, v));
      return None;
    }

    /** The first `n` rows appended to a layer since the last reset, bit for bit. */
    method Get(layer: nat, n: nat) returns (r: Result<(Tensor, Tensor), FlatError>)
      requires Valid()
      ensures r.Ok?
              <==> layer < layout.numLayers && n <= log.rows[layer] && layout.dtype in {F32, F16, BF16, I32, I8, U8}
      ensures r.Err? ==>
                r.error == if layer >= layout.numLayers then LayerOutOfRange
                           else if n > log.rows[layer] then ReadBeyondWritten
                           else UnsupportedDType
      ensures r.Ok? ==>
                var m := Times(n, layout.rowElems);
                && m <= |log.k[layer]| && m <= |log.v[layer]|
                && r.value == (Tensor(layout.dtype, [n, layout.rowElems], Some(log.k[layer][..m])),
                               Tensor(layout.dtype, [n, layout.rowElems], Some(log.v[layer][..m])))
    {
      hide Times, EncodeAll, DecodeAll, Holds, Checked;
      FormatsAre(layout.dtype);
      if layer >= layout.numLayers { return Err(LayerOutOfRange); }
      var len := lens[layer];
      if n > len { return Err(ReadBeyondWritten); }
      HeldLength(layout, kBuffers[layer], len, log.k[layer]);
      ReadEnd(layout, n);
      var end := CheckedMul(n, layout.rowBytes);
      if end.None? { assert false; }
      HeldLength(layout, vBuffers[layer], len, log.v[layer]);
      var k := TensorFromBytes(layout, kBuffers[layer][..end.value], n);
      if k.Err? { return Err(k.error); }
      var v := TensorFromBytes(layout, vBuffers[layer][..end.value], n);
      if v.Err? { return Err(v.error); }
      ReadHolds(layout, kBuffers[layer], len, log.k[layer], n);
      ReadHolds(layout, vBuffers[layer], len, log.v[layer], n);
      return Ok((k.value, v.value));
    }

    method Reset()
      requires Valid()
      modifies this
      ensures Valid() && log == LogStep(layout, old(log), Op.Reset)
      ensures kBuffers == old(kBuffers) && vBuffers == old(vBuffers)
    {
      hide Holds;
      forall i | 0 <= i < layout.numLayers
        ensures Holds(layout, kBuffers[i], 0, []) && Holds(layout, vBuffers[i], 0, [])
      {
        NothingHeld(layout, kBuffers[i], lens[i], log.k[i]);
        NothingHeld(layout, vBuffers[i], lens[i], log.v[i]);
      }
      for i := 0 to |lens|
        invariant |lens| == layout.numLayers && forall j :: 0 <= j < i ==> lens[j] == 0
        invariant kBuffers == old(kBuffers) && vBuffers == old(vBuffers) && log == old(log)
      {
        lens := lens[i := 0];
      }
      log := LogStep(layout, log, Op.Reset);
      assert log.rows == lens;
    }

    /** Any run of puts, accepted or refused, and resets leaves exactly the logged rows. */
    method Run(ops: seq<Op>)
      requires Valid()
      requires forall i :: 0 <= i < |ops| && ops[i].Put? ==>
                 Constructed(ops[i].key) && Constructed(ops[i].value)
      modifies this
      ensures Valid() && log == LogRun(layout, old(log), ops)
    {
      hide Holds, LogStep, Constructed;
      for i := 0 to |ops|
        invariant Valid() && LogRun(layout, log, ops[i..]) == LogRun(layout, old(log), ops)
      {
        assert ops[i..][0] == ops[i] && ops[i..][1..] == ops[i + 1..];
        match ops[i] {
          case Put(layer, k, v) => var _ := Put(layer, k, v);
          case Reset => Reset();
        }
      }
    }
  }

  lemma HeldLength(l: Layout, buffer: seq<byte>, len: nat, elements: seq<nat>)
    requires Holds(l, buffer, len, elements)
    ensures |buffer| == l.bufferBytes && len <= l.maxSeqLen && |elements| == Times(len, l.rowElems)
    ensures !Supported(l.dtype) ==> len == 0
  {}

  lemma RowsFit(l: Layout, n: nat, elements: nat)
    requires Checked(l) && elements == Times(n, l.rowElems) <= USIZE_MAX
    ensures n <= USIZE_MAX
  {
    TimesIs(n, l.rowElems);
    MulMonotone(1, l.rowElems, n);
  }

  lemma ReadEnd(l: Layout, n: nat)
    requires Checked(l) && n <= l.maxSeqLen
    ensures CheckedMul(n, l.rowBytes) == Some(Times(n, l.rowBytes)) && Times(n, l.rowBytes) <= l.bufferBytes
  {
    hide Times;
    TimesMonotone(n, l.maxSeqLen, l.rowBytes);
    TimesCommutes(l.maxSeqLen, l.rowBytes);
  }

  lemma NothingHeld(l: Layout, buffer: seq<byte>, len: nat, elements: seq<nat>)
    requires Holds(l, buffer, len, elements)
    ensures Holds(l, buffer, 0, [])
  {}

  /** Decode as many elements as the shape `[n, rowElems]` needs. */
  method TensorFromBytes(l: Layout, bytes: seq<byte>, n: nat) returns (r: Result<Tensor, FlatError>)
    requires Checked(l) && n <= l.maxSeqLen && |bytes| == Times(n, l.rowBytes)
    ensures r.Ok? <==> l.dtype in {F32, F16, BF16, I32, I8, U8}
    ensures r.Err? ==> r.error == UnsupportedDType
    ensures r.Ok? ==>
              && Times(Times(n, l.rowElems), Width(l.dtype)) == |bytes|
              && r.value == Tensor(l.dtype, [n, l.rowElems],
                 Some(DecodeAll(Width(l.dtype), bytes, Times(n, l.rowElems))))
  {
    hide Times, Quot, DecodeAll, Checked;
    FormatsAre(l.dtype);
    if !Supported(l.dtype) { return Err(UnsupportedDType); }
    RowExtent(l, n);
    ReadCount(l, n);
    var elements := CheckedMul(n, l.rowElems);
    if elements.None? { assert false; }
    var ok, xs := DecodeChunks(Width(l.dtype), bytes, elements.value);
    WholeChunks(Times(n, l.rowElems), Width(l.dtype));
    if !ok { return Err(ShapeMismatch); }
    return Ok(Tensor(l.dtype, [n, l.rowElems], Some(xs)));
  }

  lemma ReadCount(l: Layout, n: nat)
    requires Checked(l) && n <= l.maxSeqLen && Supported(l.dtype)
    ensures CheckedMul(n, l.rowElems) == Some(Times(n, l.rowElems))
  {
    hide Times;
    RowExtent(l, n);
    TimesCommutes(Times(n, l.rowElems), Width(l.dtype));
    TimesMonotone(1, Width(l.dtype), Times(n, l.rowElems));
    OneTime(Times(n, l.rowElems));
  }

  lemma OneTime(x: nat)
    ensures Times(1, x) == x
  {}

  lemma {:induction false} WholeChunks(n: nat, w: pos)
    ensures Quot(Times(n, w), w) == n
  {
    if n > 0 {
      WholeChunks(n - 1, w);
      assert Times(n, w) - w == Times(n - 1, w);
    }
  }
}
