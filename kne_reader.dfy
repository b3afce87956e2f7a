/**
 * The model-container reader (src/kne_reader.c). The container is a parsed
 * flatbuffer tree; every table or vector the library tests for NULL is an
 * `Option` here. The readers build the library's tensor and model descriptors
 * from it and return the first failure in a fixed order.
 */
module KneReader {
  import opened Types
  import opened Lookups
  import opened ModelReaderUtils

  // ---------------------------------------------------------------------------
  // The container tree.

  /** KneronKNE_DataType_enum_t. */
  datatype KneDataType =
    | KneInt8 | KneInt16 | KneInt32 | KneInt64
    | KneUInt8 | KneUInt16 | KneUInt32 | KneUInt64
    | KneFloat | KneBfloat16 | KneDouble
    | KneOther(code: int)

  /** KneronKNE_QuantizationParameters: `radix` is an int8 vector, `scale` raw bytes. */
  datatype KneQuantization = KneQuantization(scaleType: KneDataType, radix: seq<int>, scaleCount: nat, scale: seq<byte>)

  datatype KneTensor = KneTensor(
    name: string,
    format: RawFormat,
    shape: seq<int>,
    strideAligned: seq<int>,
    chDim: int,
    quantization: Option<KneQuantization>)

  datatype KneSchemaVersion = KneSchemaVersion(major: nat, minor: nat, revision: nat)

  datatype BufferLocation = LocationOutputBuffer | LocationOther(code: nat)

  datatype KneBufferInfo = KneBufferInfo(location: BufferLocation, len: nat)

  datatype KneModelHeader = KneModelHeader(
    id: nat,
    schemaVersion: Option<KneSchemaVersion>,
    inputs: Option<seq<Option<KneTensor>>>,
    outputs: Option<seq<Option<KneTensor>>>,
    bufferInfo: Option<seq<Option<KneBufferInfo>>>)

  datatype KneModel = KneModel(header: Option<KneModelHeader>)

  datatype KneHeader = KneHeader(target: Chip)

  datatype KneContent = KneContent(header: Option<KneHeader>, models: Option<seq<Option<KneModel>>>)

  // ---------------------------------------------------------------------------
  // Descriptors the reader produces.

  datatype SchemaVersion = SchemaVersion(major: nat, minor: nat, revision: nat)

  datatype SingleModelDescriptor = SingleModelDescriptor(
    target: Chip,
    id: nat,
    schema: SchemaVersion,
    inputs: seq<TensorDescriptor>,
    outputs: seq<TensorDescriptor>)

  datatype KneInfo = KneInfo(target: Chip, models: seq<Option<KneModel>>)

  // ---------------------------------------------------------------------------
  // Data types.

  /** construct_kne_data_type_size_flatbuffer; `hasOutput` is false for a NULL output pointer. */
  function KneDataTypeSize(t: KneDataType, hasOutput: bool): (r: Result<nat>)
    ensures !hasOutput ==> r == Err(ErrInvalidParam)
    ensures hasOutput ==> (r.Err? <==> t.KneOther?)
    ensures hasOutput && t.KneOther? ==> r == Err(ErrInvalidModel)
    ensures hasOutput && t in {KneInt8, KneUInt8} ==> r == Ok(1)
    ensures hasOutput && t in {KneInt16, KneUInt16, KneBfloat16} ==> r == Ok(2)
    ensures hasOutput && t in {KneInt32, KneUInt32, KneFloat} ==> r == Ok(4)
    ensures hasOutput && t in {KneInt64, KneUInt64, KneDouble} ==> r == Ok(8)
  {
    if !hasOutput then Err(ErrInvalidParam)
    else match t
      case KneInt8 => Ok(1)
      case KneInt16 => Ok(2)
      case KneInt32 => Ok(4)
      case KneInt64 => Ok(8)
      case KneUInt8 => Ok(1)
      case KneUInt16 => Ok(2)
      case KneUInt32 => Ok(4)
      case KneUInt64 => Ok(8)
      case KneFloat => Ok(4)
      case KneBfloat16 => Ok(2)
      case KneDouble => Ok(8)
      case KneOther(_) => Err(ErrInvalidModel)
  }

  /** construct_kne_data_type_flatbuffer: the container type as a kp_dtype_t. */
  function KneDataTypeKind(t: KneDataType, hasOutput: bool): (r: Result<DType>)
    ensures !hasOutput ==> r == Err(ErrInvalidParam)
    ensures hasOutput ==> (r.Err? <==> t.KneOther?)
    ensures hasOutput && t.KneOther? ==> r == Err(ErrInvalidModel)
    ensures hasOutput && t == KneInt8 ==> r == Ok(DInt8)
    ensures hasOutput && t == KneInt16 ==> r == Ok(DInt16)
    ensures hasOutput && t == KneInt32 ==> r == Ok(DInt32)
    ensures hasOutput && t == KneInt64 ==> r == Ok(DInt64)
    ensures hasOutput && t == KneUInt8 ==> r == Ok(DUInt8)
    ensures hasOutput && t == KneUInt16 ==> r == Ok(DUInt16)
    ensures hasOutput && t == KneUInt32 ==> r == Ok(DUInt32)
    ensures hasOutput && t == KneUInt64 ==> r == Ok(DUInt64)
    ensures hasOutput && t == KneFloat ==> r == Ok(DFloat32)
    ensures hasOutput && t == KneBfloat16 ==> r == Ok(DBFloat16)
    ensures hasOutput && t == KneDouble ==> r == Ok(DDouble64)
    ensures r.Ok? ==> !r.value.DTypeOther?
  {
    if !hasOutput then Err(ErrInvalidParam)
    else match t
      case KneInt8 => Ok(DInt8)
      case KneInt16 => Ok(DInt16)
      case KneInt32 => Ok(DInt32)
      case KneInt64 => Ok(DInt64)
      case KneUInt8 => Ok(DUInt8)
      case KneUInt16 => Ok(DUInt16)
      case KneUInt32 => Ok(DUInt32)
      case KneUInt64 => Ok(DUInt64)
      case KneFloat => Ok(DFloat32)
      case KneBfloat16 => Ok(DBFloat16)
      case KneDouble => Ok(DDouble64)
      case KneOther(_) => Err(ErrInvalidModel)
  }

  /**
   * The two mappings accept exactly the same codes, and the container width of
   * a type is the library's width of the type it maps to.
   */
  lemma DataTypeMappingsAgree(t: KneDataType, hasOutput: bool)
    ensures KneDataTypeSize(t, hasOutput).Ok? <==> KneDataTypeKind(t, hasOutput).Ok?
    ensures KneDataTypeSize(t, hasOutput).Ok? ==>
              KneDataTypeSize(t, hasOutput).value == DataTypeSize(KneDataTypeKind(t, hasOutput).value)
  {
  }

  // ---------------------------------------------------------------------------
  // Quantization parameters.

  /** The number of descriptors: the larger of scale_count and the radix length. */
  function DescriptorCount(q: KneQuantization): (n: nat)
    ensures n >= q.scaleCount && n >= |q.radix|
    ensures n == q.scaleCount || n == |q.radix|
  {
    if q.scaleCount > |q.radix| then q.scaleCount else |q.radix|
  }

  /** The byte offset the scale cursor has reached at descriptor `i`. */
  function ScaleOffset(q: KneQuantization, width: nat, i: nat): nat
  {
    if q.scaleCount > 1 then i * width else 0
  }

  /**
   * The vectors hold every element the descriptor loop reads: a radix vector
   * of length 1 or of the full count, and enough scale bytes for the cursor.
   */
  predicate QuantizationReadable(q: KneQuantization)
  {
    var n := DescriptorCount(q);
    (|q.radix| == 1 || |q.radix| == n)
    && (KneDataTypeKind(q.scaleType, true).Ok? && n > 0 ==>
          var w := DataTypeSize(KneDataTypeKind(q.scaleType, true).value);
          ScaleOffset(q, w, n - 1) + w <= |q.scale|)
  }

  /** Descriptor `i`: radix broadcast from a single radix, scale read at the cursor. */
  function DescriptorAt(q: KneQuantization, kind: DType, i: nat): FixedPointDescriptor
    requires QuantizationReadable(q) && i < DescriptorCount(q)
    requires KneDataTypeKind(q.scaleType, true) == Ok(kind)
  {
    var w := DataTypeSize(kind);
    ScaleCursorInBounds(q, w, i);
    FixedPointDescriptor(
      if |q.radix| == 1 then q.radix[0] else q.radix[i],
      kind,
      TypedValueAt(kind, q.scale, ScaleOffset(q, w, i)))
  }

  lemma ScaleCursorInBounds(q: KneQuantization, w: nat, i: nat)
    requires QuantizationReadable(q) && i < DescriptorCount(q)
    requires KneDataTypeKind(q.scaleType, true).Ok? && w == DataTypeSize(KneDataTypeKind(q.scaleType, true).value)
    ensures ScaleOffset(q, w, i) + w <= |q.scale|
  {
    if q.scaleCount > 1 {
      var n := DescriptorCount(q);
      assert i * w <= (n - 1) * w by {
        MulMonotone(i, n - 1, w);
      }
    }
  }

  /** The scale cursor advances by the width exactly when scale_count > 1. */
  lemma ScaleOffsetStep(q: KneQuantization, w: nat, i: nat)
    ensures ScaleOffset(q, w, i + 1) == ScaleOffset(q, w, i) + (if q.scaleCount > 1 then w else 0)
  {
    if q.scaleCount > 1 {
      assert (i + 1) * w == i * w + w;
    }
  }


  /**
   * construct_kne_single_tensor_info_quantization_parameters_flatbuffer, as a
   * value: a missing table is INVALID_PARAM, an unknown scale type
   * INVALID_MODEL, and otherwise a version-1 parameter set of
   * DescriptorCount(q) descriptors.
   */
  function QuantizationSpec(table: Option<KneQuantization>, axis: int): Result<Quantization>
    requires table.Some? ==> QuantizationReadable(table.value)
  {
    if table.None? then Err(ErrInvalidParam)
    else
      var q := table.value;
      match KneDataTypeKind(q.scaleType, true)
      case Err(_) => Err(ErrInvalidModel)
      case Ok(kind) =>
        var n := DescriptorCount(q);
        Ok(QuantV1(axis, n, Some(seq(n, i requires 0 <= i < n => DescriptorAt(q, kind, i)))))
  }

  /**
   * The broadcast rules: every descriptor has the radix at its own position
   * unless there is a single radix, and the same scale slot unless
   * scale_count > 1, in which case descriptor i reads slot i.
   */
  lemma {:induction false} QuantizationBroadcast(q: KneQuantization, axis: int, i: nat)
    requires QuantizationReadable(q)
    requires QuantizationSpec(Some(q), axis).Ok?
    requires i < DescriptorCount(q)
    ensures var p := QuantizationSpec(Some(q), axis).value;
            p.QuantV1? && p.axis == axis && p.count == DescriptorCount(q)
            && p.descriptors.Some? && |p.descriptors.value| == p.count
            && p.descriptors.value[i].radix == (if |q.radix| == 1 then q.radix[0] else q.radix[i])
            && (q.scaleCount <= 1 ==> p.descriptors.value[i].scale == p.descriptors.value[0].scale)
    ensures var p := QuantizationSpec(Some(q), axis).value;
            var kind := KneDataTypeKind(q.scaleType, true).value;
            var w := DataTypeSize(kind);
            p.descriptors.Some? && |p.descriptors.value| == DescriptorCount(q)
            && p.descriptors.value[i].scaleType == kind
            && (q.scaleCount > 1 ==> i * w + w <= |q.scale| && p.descriptors.value[i].scale == TypedValueAt(kind, q.scale, i * w))
            && (q.scaleCount <= 1 ==> w <= |q.scale| && p.descriptors.value[i].scale == TypedValueAt(kind, q.scale, 0))
  {
    var kind := KneDataTypeKind(q.scaleType, true).value;
    var p := QuantizationSpec(Some(q), axis).value;
    assert p.descriptors.value[i] == DescriptorAt(q, kind, i);
    assert p.descriptors.value[0] == DescriptorAt(q, kind, 0);
  }

  /**
   * construct_kne_single_tensor_info_quantization_parameters_flatbuffer: a
   * missing table is INVALID_PARAM, an unknown scale type INVALID_MODEL, and
   * otherwise the descriptors the loop builds.
   */
  method ConstructQuantization(table: Option<KneQuantization>, axis: int) returns (r: Result<Quantization>)
    requires table.Some? ==> QuantizationReadable(table.value)
    ensures r == QuantizationSpec(table, axis)
  {
    if table.None? {
      return Err(ErrInvalidParam);
    }
    var q := table.value;
    var kindResult := KneDataTypeKind(q.scaleType, true);
    if kindResult.Err? {
      return Err(ErrInvalidModel);
    }
    var sizeResult := KneDataTypeSize(q.scaleType, true);
    if sizeResult.Err? {
      return Err(ErrInvalidModel);
    }
    DataTypeMappingsAgree(q.scaleType, true);
    var descriptors := FillQuantizationDescriptors(q, kindResult.value, sizeResult.value);
    QuantizationSpecOf(q, axis, kindResult.value, descriptors);
    r := Ok(QuantV1(axis, |descriptors|, Some(descriptors)));
  }

  /** The descriptor loop: the scale cursor advances by the scale width only when scale_count > 1. */
  method FillQuantizationDescriptors(q: KneQuantization, kind: DType, width: nat) returns (ds: seq<FixedPointDescriptor>)
    requires QuantizationReadable(q) && KneDataTypeKind(q.scaleType, true) == Ok(kind)
    requires width == DataTypeSize(kind)
    ensures |ds| == DescriptorCount(q) && forall i :: 0 <= i < |ds| ==> ds[i] == DescriptorAt(q, kind, i)
  {
    var n := DescriptorCount(q);
    var descriptors := new FixedPointDescriptor[n];
    var scaleCursor := 0;
    var idx := 0;
    ghost var done: seq<FixedPointDescriptor> := [];
    while idx < n
      invariant 0 <= idx <= n && |done| == idx && descriptors[..idx] == done
      invariant scaleCursor == ScaleOffset(q, width, idx)
      invariant forall i :: 0 <= i < idx ==> done[i] == DescriptorAt(q, kind, i)
    {
      var radix := if |q.radix| == 1 then q.radix[0] else q.radix[idx];
      DescriptorAtCursor(q, kind, width, idx, radix, scaleCursor);
      descriptors[idx] := FixedPointDescriptor(radix, kind, TypedValueAt(kind, q.scale, scaleCursor));
      done := done + [descriptors[idx]];
      assert descriptors[..idx + 1] == descriptors[..idx] + [descriptors[idx]];
      ScaleOffsetStep(q, width, idx);
      if q.scaleCount > 1 {
        scaleCursor := scaleCursor + width;
      }
      idx := idx + 1;
    }
    assert descriptors[..] == descriptors[..idx];
    ds := descriptors[..];
  }

  /** Descriptor i holds the radix the loop picks and the scale at the cursor. */
  lemma DescriptorAtCursor(q: KneQuantization, kind: DType, width: nat, i: nat, radix: int, cursor: nat)
    requires QuantizationReadable(q) && KneDataTypeKind(q.scaleType, true) == Ok(kind)
    requires width == DataTypeSize(kind) && i < DescriptorCount(q)
    requires radix == (if |q.radix| == 1 then q.radix[0] else q.radix[i]) && cursor == ScaleOffset(q, width, i)
    ensures cursor + width <= |q.scale|
    ensures DescriptorAt(q, kind, i) == FixedPointDescriptor(radix, kind, TypedValueAt(kind, q.scale, cursor))
  {
    ScaleCursorInBounds(q, width, i);
  }

  /** The parameter set QuantizationSpec gives is the one holding descriptors 0..n-1. */
  lemma QuantizationSpecOf(q: KneQuantization, axis: int, kind: DType, ds: seq<FixedPointDescriptor>)
    requires QuantizationReadable(q) && KneDataTypeKind(q.scaleType, true) == Ok(kind)
    requires |ds| == DescriptorCount(q) && forall i :: 0 <= i < |ds| ==> ds[i] == DescriptorAt(q, kind, i)
    ensures QuantizationSpec(Some(q), axis) == Ok(QuantV1(axis, |ds|, Some(ds)))
  {
    assert ds == seq(|ds|, i requires 0 <= i < |ds| => DescriptorAt(q, kind, i));
  }

  // ---------------------------------------------------------------------------
  // Tensors.

  function Product(s: seq<int>): int
  {
    if |s| == 0 then 1 else s[0] * Product(s[1..])
  }

  /** Row-major ONNX strides in uint32: element d is the product of the later extents. */
  function OnnxStrides(shape: seq<int>): (r: seq<int>)
    ensures |r| == |shape|
  {
    seq(|shape|, d requires 0 <= d < |shape| => Wrap32(Product(shape[d + 1..])))
  }

  /** The strides the backward loop builds: the last is 1 and each is the next one times the next extent. */
  lemma {:induction false} OnnxStridesRecurrence(shape: seq<int>, d: nat)
    requires d < |shape|
    ensures d == |shape| - 1 ==> OnnxStrides(shape)[d] == 1
    ensures d < |shape| - 1 ==> OnnxStrides(shape)[d] == Wrap32(OnnxStrides(shape)[d + 1] * shape[d + 1])
  {
    if d < |shape| - 1 {
      var rest := shape[d + 2..];
      assert shape[d + 1..] == [shape[d + 1]] + rest;
      assert shape[d + 1..][1..] == rest;
      calc {
        Wrap32(OnnxStrides(shape)[d + 1] * shape[d + 1]);
        Wrap32(Wrap32(Product(rest)) * shape[d + 1]);
        { WrapProduct(Product(rest), shape[d + 1]); }
        Wrap32(Product(rest) * shape[d + 1]);
        Wrap32(Product(shape[d + 1..]));
      }
    }
  }

  /** The two stride loops of construct_kne_single_model_tensors_info. */
  method SynthesizeOnnxStrides(shape: seq<int>) returns (strides: array<int>)
    ensures strides[..] == OnnxStrides(shape)
  {
    strides := new int[|shape|];
    for d := 0 to |shape|
      invariant forall k :: 0 <= k < d ==> strides[k] == 1
    {
      strides[d] := 1;
    }
    var d := |shape| - 2;
    if |shape| > 0 {
      OnnxStridesRecurrence(shape, |shape| - 1);
    }
    while d > -1
      invariant -2 <= d <= |shape| - 2
      invariant forall k :: 0 <= k < |shape| && k > d ==> strides[k] == OnnxStrides(shape)[k]
      invariant forall k :: 0 <= k <= d ==> strides[k] == 1
    {
      OnnxStridesRecurrence(shape, d);
      strides[d] := Wrap32(strides[d] * (strides[d + 1] * shape[d + 1]));
      d := d - 1;
    }
  }

  /** The tensor supplies an NPU stride per axis and readable quantization vectors. */
  predicate TensorReadable(t: KneTensor)
  {
    |t.strideAligned| >= |t.shape|
    && (t.quantization.Some? ==> QuantizationReadable(t.quantization.value))
  }

  /**
   * construct_kne_single_model_tensors_info, as a value: a missing tensor is
   * INVALID_PARAM, a quantization failure is returned as is, and otherwise the
   * descriptor has shape version 2 with the shape and NPU strides copied and
   * row-major ONNX strides.
   */
  function TensorSpec(tensor: Option<KneTensor>, target: Chip, index: nat): Result<TensorDescriptor>
    requires tensor.Some? ==> TensorReadable(tensor.value)
  {
    if tensor.None? then Err(ErrInvalidParam)
    else
      var t := tensor.value;
      match QuantizationSpec(t.quantization, t.chDim)
      case Err(s) => Err(s)
      case Ok(q) =>
        Ok(TensorDescriptor(
          index, Some(t.name), ConvertDataFormat(t.format, target),
          ShapeV2(|t.shape|, Some(t.shape), Some(t.strideAligned[..|t.shape|]), Some(OnnxStrides(t.shape))),
          q))
  }

  /** A constructed tensor descriptor passes is_tensor_info_reallocted and records the tensor as given. */
  lemma {:induction false} TensorSpecFacts(tensor: Option<KneTensor>, target: Chip, index: nat)
    requires tensor.Some? ==> TensorReadable(tensor.value)
    ensures tensor.Some? && tensor.value.quantization.None? ==> TensorSpec(tensor, target, index) == Err(ErrInvalidParam)
    ensures TensorSpec(tensor, target, index).Ok? ==>
              var d := TensorSpec(tensor, target, index).value;
              Populated(d) && IsTensorInfoReallocated(d) == Success
              && d.index == index && d.quant.QuantV1? && d.quant.axis == tensor.value.chDim
              && d.shape.ShapeV2? && d.shape.shape == Some(tensor.value.shape)
  {
    if TensorSpec(tensor, target, index).Ok? {
      var t := tensor.value;
      var q := QuantizationSpec(t.quantization, t.chDim).value;
      assert q.QuantV1? && q.descriptors.Some? && |q.descriptors.value| == q.count;
      PopulatedPassesCheck(TensorSpec(tensor, target, index).value);
    }
  }

  method ConstructTensor(tensor: Option<KneTensor>, target: Chip, index: nat) returns (r: Result<TensorDescriptor>)
    requires tensor.Some? ==> TensorReadable(tensor.value)
    ensures r == TensorSpec(tensor, target, index)
  {
    if tensor.None? {
      return Err(ErrInvalidParam);
    }
    var t := tensor.value;
    var layout := ConvertDataFormat(t.format, target);
    var q := ConstructQuantization(t.quantization, t.chDim);
    if q.Err? {
      return Err(q.status);
    }
    var len := |t.shape|;
    var strideOnnx := SynthesizeOnnxStrides(t.shape);
    var d := TensorDescriptor(index, Some(t.name), layout,
                              ShapeV2(len, Some(t.shape), Some(t.strideAligned[..len]), Some(strideOnnx[..])), q.value);
    TensorSpecFacts(tensor, target, index);
    var check := IsTensorInfoReallocated(d);
    assert check == Success;
    r := Ok(d);
  }

  // ---------------------------------------------------------------------------
  // Tensor lists.

  predicate TensorVecReadable(v: seq<Option<KneTensor>>)
  {
    forall i :: 0 <= i < |v| && v[i].Some? ==> TensorReadable(v[i].value)
  }

  function Prepend(prefix: seq<TensorDescriptor>, r: Result<seq<TensorDescriptor>>): Result<seq<TensorDescriptor>>
  {
    match r
    case Ok(rest) => Ok(prefix + rest)
    case Err(s) => Err(s)
  }

  lemma PrependEmpty(r: Result<seq<TensorDescriptor>>)
    ensures Prepend([], r) == r
  {
    if r.Ok? {
      assert [] + r.value == r.value;
    }
  }

  lemma PrependTwice(a: seq<TensorDescriptor>, b: seq<TensorDescriptor>, r: Result<seq<TensorDescriptor>>)
    ensures Prepend(a, Prepend(b, r)) == Prepend(a + b, r)
  {
    if r.Ok? {
      assert a + (b + r.value) == (a + b) + r.value;
    }
  }

  /** What each tensor of a list yields, constructed with its position as index. */
  function TensorResults(v: seq<Option<KneTensor>>, target: Chip): (rs: seq<Result<TensorDescriptor>>)
    requires TensorVecReadable(v)
    ensures |rs| == |v| && forall i :: 0 <= i < |v| ==> rs[i] == TensorSpec(v[i], target, i)
  {
    seq(|v|, i requires 0 <= i < |v| => TensorSpec(v[i], target, i))
  }

  /** The descriptors of the results from position k on; the first failure aborts. */
  function Collect(rs: seq<Result<TensorDescriptor>>, k: nat): Result<seq<TensorDescriptor>>
    requires k <= |rs|
    decreases |rs| - k
  {
    if k == |rs| then Ok([])
    else match rs[k]
      case Err(s) => Err(s)
      case Ok(d) => Prepend([d], Collect(rs, k + 1))
  }

  /** The list built from position k on: each tensor gets its position as index; the first failure aborts. */
  function TensorListFrom(v: seq<Option<KneTensor>>, target: Chip, k: nat): Result<seq<TensorDescriptor>>
    requires TensorVecReadable(v) && k <= |v|
  {
    Collect(TensorResults(v, target), k)
  }

  /** A successful collection holds every result from position k on, in order. */
  lemma {:induction false} CollectContents(rs: seq<Result<TensorDescriptor>>, k: nat)
    requires k <= |rs| && Collect(rs, k).Ok?
    ensures var ns := Collect(rs, k).value;
            |ns| == |rs| - k && forall i :: 0 <= i < |ns| ==> rs[k + i] == Ok(ns[i])
    decreases |rs| - k
  {
    if k < |rs| {
      CollectContents(rs, k + 1);
      var rest := Collect(rs, k + 1).value;
      var ns := Collect(rs, k).value;
      assert ns == [rs[k].value] + rest;
      forall i | 0 <= i < |ns|
        ensures rs[k + i] == Ok(ns[i])
      {
        if i > 0 {
          assert ns[i] == rest[i - 1];
          assert k + i == (k + 1) + (i - 1);
        }
      }
    }
  }

  /** A failing collection carries the status of a failing result before which every result succeeded. */
  lemma {:induction false} CollectFailureIsFirst(rs: seq<Result<TensorDescriptor>>, k: nat)
    requires k <= |rs| && Collect(rs, k).Err?
    ensures exists i :: k <= i < |rs| && rs[i] == Err(Collect(rs, k).status)
                        && forall j :: k <= j < i ==> rs[j].Ok?
    decreases |rs| - k
  {
    if rs[k].Ok? {
      CollectFailureIsFirst(rs, k + 1);
      var i :| k + 1 <= i < |rs| && rs[i] == Err(Collect(rs, k + 1).status)
               && forall j :: k + 1 <= j < i ==> rs[j].Ok?;
      assert forall j :: k <= j < i ==> rs[j].Ok?;
    }
  }

  /** One failing result makes the collection fail. */
  lemma {:induction false} CollectFailsAt(rs: seq<Result<TensorDescriptor>>, k: nat, i: nat)
    requires k <= i < |rs| && rs[i].Err?
    ensures Collect(rs, k).Err?
    decreases i - k
  {
    if k < i {
      CollectFailsAt(rs, k + 1, i);
    }
  }

  /** A successful list has one descriptor per tensor, in order, each with its position as index. */
  lemma TensorListContents(v: seq<Option<KneTensor>>, target: Chip, k: nat)
    requires TensorVecReadable(v) && k <= |v|
    requires TensorListFrom(v, target, k).Ok?
    ensures var ns := TensorListFrom(v, target, k).value;
            |ns| == |v| - k
            && forall i :: 0 <= i < |ns| ==>
                 TensorSpec(v[k + i], target, k + i) == Ok(ns[i]) && ns[i].index == k + i
  {
    var rs := TensorResults(v, target);
    CollectContents(rs, k);
    var ns := Collect(rs, k).value;
    forall i | 0 <= i < |ns|
      ensures TensorSpec(v[k + i], target, k + i) == Ok(ns[i]) && ns[i].index == k + i
    {
      assert rs[k + i] == Ok(ns[i]);
      TensorSpecFacts(v[k + i], target, k + i);
    }
  }

  /** The list fails exactly when some tensor fails, with the status of the first one that does. */
  lemma TensorListFirstFailure(v: seq<Option<KneTensor>>, target: Chip, k: nat)
    requires TensorVecReadable(v) && k <= |v|
    ensures TensorListFrom(v, target, k).Err? <==> exists i :: k <= i < |v| && TensorSpec(v[i], target, i).Err?
    ensures TensorListFrom(v, target, k).Err? ==>
              exists i :: k <= i < |v| && TensorSpec(v[i], target, i) == Err(TensorListFrom(v, target, k).status)
                          && forall j :: k <= j < i ==> TensorSpec(v[j], target, j).Ok?
  {
    var rs := TensorResults(v, target);
    if Collect(rs, k).Err? {
      CollectFailureIsFirst(rs, k);
    }
    if exists i :: k <= i < |v| && TensorSpec(v[i], target, i).Err? {
      var i :| k <= i < |v| && TensorSpec(v[i], target, i).Err?;
      CollectFailsAt(rs, k, i);
    }
  }

  /** The loop shared by the input and output list constructors. */
  method ConstructTensorList(v: seq<Option<KneTensor>>, target: Chip) returns (r: Result<seq<TensorDescriptor>>)
    requires TensorVecReadable(v)
    ensures r == TensorListFrom(v, target, 0)
  {
    ghost var rs := TensorResults(v, target);
    var nodes := new TensorDescriptor[|v|];
    var idx := 0;
    PrependEmpty(Collect(rs, 0));
    while idx < |v|
      invariant 0 <= idx <= |v|
      invariant Collect(rs, 0) == Prepend(nodes[..idx], Collect(rs, idx))
    {
      var d := ConstructTensor(v[idx], target, idx);
      assert d == rs[idx];
      if d.Err? {
        return Err(d.status);
      }
      assert Collect(rs, idx) == Prepend([d.value], Collect(rs, idx + 1));
      PrependTwice(nodes[..idx], [d.value], Collect(rs, idx + 1));
      nodes[idx] := d.value;
      assert nodes[..idx + 1] == nodes[..idx] + [d.value];
      idx := idx + 1;
    }
    assert nodes[..idx] + [] == nodes[..];
    r := Ok(nodes[..]);
  }

  predicate HeaderReadable(h: KneModelHeader)
  {
    (h.inputs.Some? ==> TensorVecReadable(h.inputs.value))
    && (h.outputs.Some? ==> TensorVecReadable(h.outputs.value))
  }

  /** construct_kne_single_model_input_tensor_info. */
  function InputTensorsSpec(header: Option<KneModelHeader>, target: Chip): Result<seq<TensorDescriptor>>
    requires header.Some? ==> HeaderReadable(header.value)
  {
    if header.None? then Err(ErrInvalidParam)
    else if header.value.inputs.None? then Err(ErrInvalidModel)
    else TensorListFrom(header.value.inputs.value, target, 0)
  }

  /** construct_kne_single_model_output_tensor_info. */
  function OutputTensorsSpec(header: Option<KneModelHeader>, target: Chip): Result<seq<TensorDescriptor>>
    requires header.Some? ==> HeaderReadable(header.value)
  {
    if header.None? then Err(ErrInvalidParam)
    else if header.value.outputs.None? then Err(ErrInvalidModel)
    else TensorListFrom(header.value.outputs.value, target, 0)
  }

  method ConstructInputTensors(header: Option<KneModelHeader>, target: Chip) returns (r: Result<seq<TensorDescriptor>>)
    requires header.Some? ==> HeaderReadable(header.value)
    ensures r == InputTensorsSpec(header, target)
  {
    if header.None? {
      return Err(ErrInvalidParam);
    }
    if header.value.inputs.None? {
      return Err(ErrInvalidModel);
    }
    r := ConstructTensorList(header.value.inputs.value, target);
  }

  method ConstructOutputTensors(header: Option<KneModelHeader>, target: Chip) returns (r: Result<seq<TensorDescriptor>>)
    requires header.Some? ==> HeaderReadable(header.value)
    ensures r == OutputTensorsSpec(header, target)
  {
    if header.None? {
      return Err(ErrInvalidParam);
    }
    if header.value.outputs.None? {
      return Err(ErrInvalidModel);
    }
    r := ConstructTensorList(header.value.outputs.value, target);
  }

  /** construct_kne_single_model_schema_info. */
  function SchemaSpec(header: Option<KneModelHeader>): (r: Result<SchemaVersion>)
    ensures header.None? ==> r == Err(ErrInvalidParam)
    ensures header.Some? && header.value.schemaVersion.None? ==> r == Err(ErrInvalidModel)
    ensures r.Ok? ==> var s := header.value.schemaVersion.value;
                      r.value == SchemaVersion(s.major, s.minor, s.revision)
  {
    if header.None? then Err(ErrInvalidParam)
    else match header.value.schemaVersion
      case None => Err(ErrInvalidModel)
      case Some(s) => Ok(SchemaVersion(s.major, s.minor, s.revision))
  }

  // ---------------------------------------------------------------------------
  // Models.

  predicate ModelReadable(m: Option<KneModel>)
  {
    m.Some? && m.value.header.Some? ==> HeaderReadable(m.value.header.value)
  }

  /**
   * construct_kne_single_model_info: a missing model is INVALID_PARAM, a missing
   * header INVALID_MODEL; then the schema, the inputs and the outputs are built
   * in that order and the first failure is returned.
   */
  function SingleModelSpec(model: Option<KneModel>, target: Chip): Result<SingleModelDescriptor>
    requires ModelReadable(model)
  {
    if model.None? then Err(ErrInvalidParam)
    else if model.value.header.None? then Err(ErrInvalidModel)
    else
      var h := model.value.header;
      match SchemaSpec(h)
      case Err(s) => Err(s)
      case Ok(schema) =>
        match InputTensorsSpec(h, target)
        case Err(s) => Err(s)
        case Ok(ins) =>
          match OutputTensorsSpec(h, target)
          case Err(s) => Err(s)
          case Ok(outs) => Ok(SingleModelDescriptor(target, h.value.id, schema, ins, outs))
  }

  method ConstructSingleModel(model: Option<KneModel>, target: Chip) returns (r: Result<SingleModelDescriptor>)
    requires ModelReadable(model)
    ensures r == SingleModelSpec(model, target)
  {
    if model.None? {
      return Err(ErrInvalidParam);
    }
    var h := model.value.header;
    if h.None? {
      return Err(ErrInvalidModel);
    }
    var id := h.value.id;
    var schema := SchemaSpec(h);
    if schema.Err? {
      return Err(schema.status);
    }
    var ins := ConstructInputTensors(h, target);
    if ins.Err? {
      return Err(ins.status);
    }
    var outs := ConstructOutputTensors(h, target);
    if outs.Err? {
      return Err(outs.status);
    }
    r := Ok(SingleModelDescriptor(target, id, schema.value, ins.value, outs.value));
  }

  /** get_kne_header: a NULL table is INVALID_PARAM, a missing header INVALID_MODEL. */
  function KneHeaderOf(table: Option<KneContent>): (r: Result<Chip>)
    ensures r.Ok? <==> table.Some? && table.value.header.Some?
    ensures table.None? ==> r == Err(ErrInvalidParam)
    ensures table.Some? && table.value.header.None? ==> r == Err(ErrInvalidModel)
    ensures r.Ok? ==> r.value == table.value.header.value.target
  {
    if table.None? then Err(ErrInvalidParam)
    else if table.value.header.None? then Err(ErrInvalidModel)
    else Ok(table.value.header.value.target)
  }

  /** get_kne_models: a NULL table is INVALID_PARAM, a missing model vector INVALID_MODEL. */
  function KneModelsOf(table: Option<KneContent>): (r: Result<seq<Option<KneModel>>>)
    ensures r.Ok? <==> table.Some? && table.value.models.Some?
    ensures table.None? ==> r == Err(ErrInvalidParam)
    ensures table.Some? && table.value.models.None? ==> r == Err(ErrInvalidModel)
    ensures r.Ok? ==> r.value == table.value.models.value
  {
    if table.None? then Err(ErrInvalidParam)
    else if table.value.models.None? then Err(ErrInvalidModel)
    else Ok(table.value.models.value)
  }

  /**
   * read_kne: a root that does not resolve, a missing header or a missing model
   * vector all give INVALID_MODEL; otherwise the target and the model vector.
   */
  function ReadKne(root: Option<KneContent>): (r: Result<KneInfo>)
    ensures r.Err? ==> r.status == ErrInvalidModel
    ensures r.Ok? <==> root.Some? && root.value.header.Some? && root.value.models.Some?
    ensures r.Ok? ==> r.value == KneInfo(root.value.header.value.target, root.value.models.value)
  {
    if root.None? then Err(ErrInvalidModel)
    else
      var header := KneHeaderOf(root);
      if header.Err? then Err(ErrInvalidModel)
      else
        var models := KneModelsOf(root);
        if models.Err? then Err(ErrInvalidModel)
        else Ok(KneInfo(header.value, models.value))
  }

  // ---------------------------------------------------------------------------
  // Output buffer size.

  /** The buffer scan of one matching model: `None` when it has no OUTPUT_BUFFER entry. */
  function BufferScan(bs: seq<Option<KneBufferInfo>>, j: nat): Option<Result<nat>>
    requires j <= |bs|
    decreases |bs| - j
  {
    if j == |bs| then None
    else if bs[j].None? then Some(Err(ErrInvalidModel))
    else if bs[j].value.location == LocationOutputBuffer then Some(Ok(bs[j].value.len))
    else BufferScan(bs, j + 1)
  }

  /** The model scan from position k: malformed entries stop it, a match with an output buffer ends it. */
  function ModelScan(ms: seq<Option<KneModel>>, modelId: nat, k: nat): Result<nat>
    requires k <= |ms|
    decreases |ms| - k
  {
    if k == |ms| then Err(ErrModelNotLoaded)
    else if ms[k].None? || ms[k].value.header.None? then Err(ErrInvalidModel)
    else
      var h := ms[k].value.header.value;
      if h.id != modelId then ModelScan(ms, modelId, k + 1)
      else if h.bufferInfo.None? then Err(ErrInvalidModel)
      else match BufferScan(h.bufferInfo.value, 0)
        case Some(r) => r
        case None => ModelScan(ms, modelId, k + 1)
  }

  /** get_kne_single_model_output_buffer_size, as a value. */
  function OutputBufferSizeSpec(modelVec: Option<seq<Option<KneModel>>>, modelId: nat): Result<nat>
  {
    if modelVec.None? then Err(ErrInvalidParam) else ModelScan(modelVec.value, modelId, 0)
  }

  /** Entry j of a buffer list is the first OUTPUT_BUFFER entry, and every entry before it is present. */
  predicate FirstOutputBufferAt(bs: seq<Option<KneBufferInfo>>, j: int)
  {
    0 <= j < |bs| && bs[j].Some? && bs[j].value.location == LocationOutputBuffer
    && forall i :: 0 <= i < j ==> bs[i].Some? && bs[i].value.location != LocationOutputBuffer
  }

  /** A model the scan passes over without stopping. */
  predicate PassedOver(m: Option<KneModel>, modelId: nat)
  {
    m.Some? && m.value.header.Some?
    && (m.value.header.value.id == modelId ==>
          m.value.header.value.bufferInfo.Some?
          && forall i :: 0 <= i < |m.value.header.value.bufferInfo.value| ==>
               m.value.header.value.bufferInfo.value[i].Some?
               && m.value.header.value.bufferInfo.value[i].value.location != LocationOutputBuffer)
  }

  lemma {:induction false} BufferScanFound(bs: seq<Option<KneBufferInfo>>, j: nat)
    requires j <= |bs|
    requires forall i :: 0 <= i < j ==> bs[i].Some? && bs[i].value.location != LocationOutputBuffer
    ensures BufferScan(bs, j).Some? && BufferScan(bs, j).value.Ok? ==>
              exists p :: FirstOutputBufferAt(bs, p) && BufferScan(bs, j).value.value == bs[p].value.len
    ensures BufferScan(bs, j).None? <==>
              forall i :: j <= i < |bs| ==> bs[i].Some? && bs[i].value.location != LocationOutputBuffer
    ensures BufferScan(bs, j).Some? && BufferScan(bs, j).value.Err? ==> BufferScan(bs, j).value.status == ErrInvalidModel
    decreases |bs| - j
  {
    if j < |bs| {
      if bs[j].Some? && bs[j].value.location == LocationOutputBuffer {
        assert FirstOutputBufferAt(bs, j);
      } else if bs[j].Some? {
        BufferScanFound(bs, j + 1);
      }
    }
  }

  /** A scan reaching the first OUTPUT_BUFFER entry returns its length. */
  lemma {:induction false} BufferScanReached(bs: seq<Option<KneBufferInfo>>, j: nat, p: nat)
    requires j <= p && FirstOutputBufferAt(bs, p)
    ensures BufferScan(bs, j) == Some(Ok(bs[p].value.len))
    decreases p - j
  {
    if j < p {
      BufferScanReached(bs, j + 1, p);
    }
  }

  /**
   * The converse of OutputBufferSizeFound: when every model before m is passed
   * over and model m has the requested id and a first OUTPUT_BUFFER entry at p,
   * the scan returns that entry's length.
   */
  lemma {:induction false} OutputBufferSizeReached(ms: seq<Option<KneModel>>, modelId: nat, k: nat, m: nat, p: nat)
    requires k <= m < |ms|
    requires forall i :: k <= i < m ==> PassedOver(ms[i], modelId)
    requires ms[m].Some? && ms[m].value.header.Some? && ms[m].value.header.value.id == modelId
    requires ms[m].value.header.value.bufferInfo.Some?
    requires FirstOutputBufferAt(ms[m].value.header.value.bufferInfo.value, p)
    ensures ModelScan(ms, modelId, k) == Ok(ms[m].value.header.value.bufferInfo.value[p].value.len)
    decreases m - k
  {
    if k == m {
      BufferScanReached(ms[m].value.header.value.bufferInfo.value, 0, p);
    } else {
      assert PassedOver(ms[k], modelId);
      var h := ms[k].value.header.value;
      if h.id == modelId {
        BufferScanFound(h.bufferInfo.value, 0);
      }
      OutputBufferSizeReached(ms, modelId, k + 1, m, p);
    }
  }

  /** The scan fails only with INVALID_MODEL (a malformed model or entry) or MODEL_NOT_LOADED. */
  lemma {:induction false} ModelScanFailures(ms: seq<Option<KneModel>>, modelId: nat, k: nat)
    requires k <= |ms|
    ensures ModelScan(ms, modelId, k).Err? ==>
              ModelScan(ms, modelId, k).status == ErrInvalidModel || ModelScan(ms, modelId, k).status == ErrModelNotLoaded
    decreases |ms| - k
  {
    if k < |ms| && ms[k].Some? && ms[k].value.header.Some? {
      var h := ms[k].value.header.value;
      if h.id == modelId && h.bufferInfo.Some? {
        BufferScanFound(h.bufferInfo.value, 0);
      }
      ModelScanFailures(ms, modelId, k + 1);
    }
  }

  /**
   * A size is returned only if it is the first OUTPUT_BUFFER entry of a model
   * with the requested id that every earlier model has been passed over to reach.
   */
  lemma {:induction false} OutputBufferSizeFound(ms: seq<Option<KneModel>>, modelId: nat, k: nat)
    requires k <= |ms|
    requires ModelScan(ms, modelId, k).Ok?
    ensures exists m, p :: k <= m < |ms| && ms[m].Some? && ms[m].value.header.Some?
              && ms[m].value.header.value.id == modelId
              && ms[m].value.header.value.bufferInfo.Some?
              && FirstOutputBufferAt(ms[m].value.header.value.bufferInfo.value, p)
              && ModelScan(ms, modelId, k).value == ms[m].value.header.value.bufferInfo.value[p].value.len
              && forall i :: k <= i < m ==> PassedOver(ms[i], modelId)
    decreases |ms| - k
  {
    var h := ms[k].value.header.value;
    if h.id != modelId {
      OutputBufferSizeFound(ms, modelId, k + 1);
      var m, p :| k + 1 <= m < |ms| && ms[m].Some? && ms[m].value.header.Some?
              && ms[m].value.header.value.id == modelId
              && ms[m].value.header.value.bufferInfo.Some?
              && FirstOutputBufferAt(ms[m].value.header.value.bufferInfo.value, p)
              && ModelScan(ms, modelId, k + 1).value == ms[m].value.header.value.bufferInfo.value[p].value.len
              && forall i :: k + 1 <= i < m ==> PassedOver(ms[i], modelId);
      assert PassedOver(ms[k], modelId);
      assert forall i :: k <= i < m ==> PassedOver(ms[i], modelId);
    } else {
      var bs := h.bufferInfo.value;
      BufferScanFound(bs, 0);
      if BufferScan(bs, 0).None? {
        OutputBufferSizeFound(ms, modelId, k + 1);
        var m, p :| k + 1 <= m < |ms| && ms[m].Some? && ms[m].value.header.Some?
                && ms[m].value.header.value.id == modelId
                && ms[m].value.header.value.bufferInfo.Some?
                && FirstOutputBufferAt(ms[m].value.header.value.bufferInfo.value, p)
                && ModelScan(ms, modelId, k + 1).value == ms[m].value.header.value.bufferInfo.value[p].value.len
                && forall i :: k + 1 <= i < m ==> PassedOver(ms[i], modelId);
        assert PassedOver(ms[k], modelId);
        assert forall i :: k <= i < m ==> PassedOver(ms[i], modelId);
      } else {
        var p :| FirstOutputBufferAt(bs, p) && BufferScan(bs, 0).value.value == bs[p].value.len;
      }
    }
  }

  /** MODEL_NOT_LOADED is returned exactly when the scan passes over every model. */
  lemma {:induction false} OutputBufferSizeNotLoaded(ms: seq<Option<KneModel>>, modelId: nat, k: nat)
    requires k <= |ms|
    ensures ModelScan(ms, modelId, k) == Err(ErrModelNotLoaded) <==>
              forall i :: k <= i < |ms| ==> PassedOver(ms[i], modelId)
    decreases |ms| - k
  {
    if k < |ms| {
      OutputBufferSizeNotLoaded(ms, modelId, k + 1);
      if ms[k].Some? && ms[k].value.header.Some? && ms[k].value.header.value.id == modelId
         && ms[k].value.header.value.bufferInfo.Some? {
        BufferScanFound(ms[k].value.header.value.bufferInfo.value, 0);
      }
      assert PassedOver(ms[k], modelId) ==> ModelScan(ms, modelId, k) == ModelScan(ms, modelId, k + 1);
      assert !PassedOver(ms[k], modelId) ==> ModelScan(ms, modelId, k) != Err(ErrModelNotLoaded);
    }
  }

  /** The nested loops of get_kne_single_model_output_buffer_size. */
  method GetOutputBufferSize(modelVec: Option<seq<Option<KneModel>>>, modelId: nat) returns (r: Result<nat>)
    ensures r == OutputBufferSizeSpec(modelVec, modelId)
  {
    if modelVec.None? {
      return Err(ErrInvalidParam);
    }
    var ms := modelVec.value;
    var k := 0;
    while k < |ms|
      invariant 0 <= k <= |ms|
      invariant ModelScan(ms, modelId, 0) == ModelScan(ms, modelId, k)
    {
      if ms[k].None? || ms[k].value.header.None? {
        return Err(ErrInvalidModel);
      }
      var h := ms[k].value.header.value;
      if h.id == modelId {
        if h.bufferInfo.None? {
          return Err(ErrInvalidModel);
        }
        var bs := h.bufferInfo.value;
        var j := 0;
        while j < |bs|
          invariant 0 <= j <= |bs|
          invariant BufferScan(bs, 0) == BufferScan(bs, j)
        {
          if bs[j].None? {
            return Err(ErrInvalidModel);
          }
          if bs[j].value.location == LocationOutputBuffer {
            return Ok(bs[j].value.len);
          }
          j := j + 1;
        }
      }
      k := k + 1;
    }
    r := Err(ErrModelNotLoaded);
  }

  // ---------------------------------------------------------------------------
  // All models.

  predicate ModelVecReadable(ms: seq<Option<KneModel>>)
  {
    forall i :: 0 <= i < |ms| ==> ModelReadable(ms[i])
  }

  /**
   * construct_kne_models_info: one descriptor per container model, each with
   * the given target; any single-model failure is reported as INVALID_PARAM.
   */
  method ConstructModelsInfo(modelVec: Option<seq<Option<KneModel>>>, target: Chip)
    returns (r: Result<seq<SingleModelDescriptor>>)
    requires modelVec.Some? ==> ModelVecReadable(modelVec.value)
    ensures r.Err? ==> r.status == ErrInvalidParam
    ensures modelVec.None? ==> r.Err?
    ensures modelVec.Some? ==>
              (r.Ok? <==> forall i :: 0 <= i < |modelVec.value| ==> SingleModelSpec(modelVec.value[i], target).Ok?)
    ensures r.Ok? ==>
              |r.value| == |modelVec.value|
              && forall i :: 0 <= i < |r.value| ==>
                   Ok(r.value[i]) == SingleModelSpec(modelVec.value[i], target) && r.value[i].target == target
  {
    if modelVec.None? {
      return Err(ErrInvalidParam);
    }
    var ms := modelVec.value;
    var models := new SingleModelDescriptor[|ms|];
    var idx := 0;
    while idx < |ms|
      invariant 0 <= idx <= |ms|
      invariant forall i :: 0 <= i < idx ==>
                  Ok(models[i]) == SingleModelSpec(ms[i], target) && models[i].target == target
    {
      var m := ConstructSingleModel(ms[idx], target);
      if m.Err? {
        return Err(ErrInvalidParam);
      }
      models[idx] := m.value;
      idx := idx + 1;
    }
    r := Ok(models[..]);
  }
}
