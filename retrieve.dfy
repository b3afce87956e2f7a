/**
 * The node decoders of src/kp_inference.c: kp_generic_inference_retrieve_fixed_node
 * and kp_generic_inference_retrieve_float_node. Both extract the raw node,
 * then convert its NPU data to ONNX order: V1 nodes by a legacy 4-D loop
 * nest, V2 nodes by the N-dimensional walk. The float decoder pairs every
 * element with the quantization descriptor its factor comes from; the
 * floating-point division itself is not modelled.
 */
module Retrieve {
  import opened Types
  import opened Lookups
  import opened FixedPoint
  import opened LegacyDecode
  import opened NdWalk
  import opened RawNode

  /** kp_inf_fixed_node_output_t. */
  datatype FixedNode = FixedNode(dtype: FixedPointDType, numData: nat, shape: seq<int>, name: string,
                                 quant: Quantization, data: seq<int>)

  /** A float element: `fixed` divided by the factor scale * 2^radix of descriptor `factor`. */
  datatype FloatElement = FloatElement(fixed: int, factor: FixedPointDescriptor)

  /** kp_inf_float_node_output_t. */
  datatype FloatNode = FloatNode(numData: nat, shape: seq<int>, name: string, data: seq<FloatElement>)

  /** The ONNX shape a node reports: shape_onnx for V1, shape for V2. */
  function OnnxShape(d: TensorDescriptor): seq<int>
    requires Populated(d)
  {
    match d.shape
    case ShapeV1(_, _, _, o, _, _) => o.value
    case ShapeV2(_, s, _, _) => s.value
    case ShapeOtherVersion(_) => []
  }

  /** The `num_data *= shape[i]` loop: the element count in uint32. */
  method NumData(shape: seq<int>) returns (n: nat)
    ensures n == Wrap32(Volume(shape))
  {
    n := 1;
    for i := 0 to |shape|
      invariant n == Wrap32(Volume(shape[..i]))
    {
      assert shape[..i + 1][..i] == shape[..i];
      WrapProduct(Volume(shape[..i]), shape[i]);
      n := Wrap32(n * shape[i]);
    }
    assert shape[..|shape|] == shape;
  }

  // ---------------------------------------------------------------------------
  // The decoded data of both node versions.

  /** The V1 NPU dimensions channel, height and width are shape_npu[1..3]. */
  predicate LegacyDimsOk(d: TensorDescriptor)
  {
    d.shape.ShapeV1? && d.shape.npu.Some? && |d.shape.npu.value| == 4
  }

  function NpuDims(d: TensorDescriptor): LegacyDims
    requires LegacyDimsOk(d)
  {
    LegacyDims(d.shape.npu.value[1], d.shape.npu.value[2], d.shape.npu.value[3])
  }

  /**
   * The number of elements the V1 loops write: channel*height*width when they
   * run, none when a loop bound is at or below 0.
   */
  function LegacyCount(d: TensorDescriptor, code: ConvertCode): int
    requires LegacyDimsOk(d)
  {
    var n := NpuDims(d);
    if LoopsRun(d.layout, code, n) then n.channel * (n.height * n.width) else 0
  }

  /** The output of a legacy loop nest: in loop order, the elements the plan selects. */
  function LegacyData(nest: LoopNest, wide: bool, data: seq<byte>): seq<int>
    requires GatherReadable(nest, wide, data)
  {
    seq(|Visits(nest)|, k requires 0 <= k < |Visits(nest)| => LegacyElement(wide, data, SourceAt(nest, Visits(nest)[k])))
  }

  /** The output position of a visit holds the element the visit reads. */
  lemma LegacyDataAt(nest: LoopNest, wide: bool, data: seq<byte>, pos: int, src: int)
    requires GatherReadable(nest, wide, data) && ReadsAt(nest, pos, src)
    ensures 0 <= pos < |LegacyData(nest, wide, data)| && LegacyReadable(wide, data, src)
    ensures LegacyData(nest, wide, data)[pos] == LegacyElement(wide, data, src)
  {
  }

  /** The V2 shape the walk can traverse, with one NPU stride per axis and 32-bit volume. */
  predicate WalkOk(d: TensorDescriptor)
  {
    Populated(d) && d.shape.ShapeV2? && WalkableShape(OnnxShape(d))
    && |d.shape.strideNpu.value| == |OnnxShape(d)| && Volume(OnnxShape(d)) < Pow32
  }

  /** The output of the walk: at every ONNX offset, the element at its NPU offset. */
  function WalkData(layout: DataLayout, shape: seq<int>, strides: seq<int>, data: seq<byte>): (r: seq<int>)
    requires WalkableShape(shape) && |strides| == |shape| && WalkReadable(layout, shape, strides, data)
    ensures |r| == Volume(shape)
  {
    VolumePositive(shape);
    seq(Volume(shape), t requires 0 <= t < Volume(shape) => WalkElement(layout, shape, strides, data, t))
  }

  /** The node's data lies inside the result and every element a branch reads exists. */
  predicate DecodeReadable(node: RawFixedNode, code: ConvertCode, data: seq<byte>)
  {
    var d := node.descriptor;
    node.dataOffset <= |data| && Populated(d)
    && (d.shape.ShapeV1? ==>
          LegacyDimsOk(d)
          && (LegacyNest(d.layout, code, NpuDims(d)).Ok? ==>
                GatherReadable(LegacyNest(d.layout, code, NpuDims(d)).value, LegacyWide(d.layout), data[node.dataOffset..])))
    && (d.shape.ShapeV2? && code == ConvertNone && IsWalkLayout(d.layout) ==>
          WalkOk(d) && WalkReadable(d.layout, OnnxShape(d), d.shape.strideNpu.value, data[node.dataOffset..]))
  }

  /** The conversion a V1 node accepts: 1W16C8B data cannot be converted from HCW. */
  predicate LegacyConvertible(layout: DataLayout, code: ConvertCode)
  {
    !(layout == Layout1W16C8B && code in {ConvertHcw2Chw, ConvertHcw2Hwc})
  }

  /** The conversion a V2 node accepts: the default ordering over a walk layout. */
  predicate WalkConvertible(layout: DataLayout, code: ConvertCode)
  {
    code == ConvertNone && IsWalkLayout(layout)
  }

  /**
   * The converted elements of a node. A V1 node goes through the loop nest
   * of its layout and conversion code and yields channel*height*width
   * elements; a V2 node goes through the walk and yields, at every ONNX
   * offset, the element at that offset's NPU position.
   */
  function DecodedData(node: RawFixedNode, code: ConvertCode, data: seq<byte>): (r: Option<seq<int>>)
    requires DecodeReadable(node, code, data)
    ensures node.descriptor.shape.ShapeV1? ==>
              (r.Some? <==> LegacyConvertible(node.descriptor.layout, code))
              && (r.Some? ==> |r.value| == LegacyCount(node.descriptor, code))
    ensures node.descriptor.shape.ShapeV2? ==>
              (r.Some? <==> WalkConvertible(node.descriptor.layout, code))
              && (r.Some? ==>
                    WalkOk(node.descriptor) && |r.value| == Volume(OnnxShape(node.descriptor))
                    && forall t :: 0 <= t < |r.value| ==>
                         r.value[t] == WalkElement(node.descriptor.layout, OnnxShape(node.descriptor),
                                                   node.descriptor.shape.strideNpu.value, data[node.dataOffset..], t))
  {
    var d := node.descriptor;
    var bytes := data[node.dataOffset..];
    if d.shape.ShapeV1? then
      match LegacyNest(d.layout, code, NpuDims(d))
      case Err(_) => None
      case Ok(nest) =>
        LegacyNestCount(d.layout, code, NpuDims(d));
        Some(LegacyData(nest, LegacyWide(d.layout), bytes))
    else if !WalkConvertible(d.layout, code) then None
    else Some(WalkData(d.layout, OnnxShape(d), d.shape.strideNpu.value, bytes))
  }

  /**
   * Decodes the V1 or V2 data of an extracted node (the shared middle part of
   * both decoders).
   */
  method DecodeNode(node: RawFixedNode, code: ConvertCode, data: seq<byte>) returns (r: Option<seq<int>>)
    requires DecodeReadable(node, code, data)
    ensures r == DecodedData(node, code, data)
  {
    var d := node.descriptor;
    var bytes := data[node.dataOffset..];
    if d.shape.ShapeV1? {
      var nest := LegacyNest(d.layout, code, NpuDims(d));
      if nest.Err? {
        return None;
      }
      var values := Gather(nest.value, LegacyWide(d.layout), bytes);
      assert values == LegacyData(nest.value, LegacyWide(d.layout), bytes);
      r := Some(values);
    } else {
      if code != ConvertNone || !IsWalkLayout(d.layout) {
        return None;
      }
      var values := WalkNode(d.layout, OnnxShape(d), d.shape.strideNpu.value, bytes);
      assert values == WalkData(d.layout, OnnxShape(d), d.shape.strideNpu.value, bytes);
      r := Some(values);
    }
  }

  /** The conversion code of a result: from its product and the requested ordering. */
  function ResultConvertCode(raw: RawOutput, ordering: ChannelOrdering): ConvertCode
  {
    ChannelOrderingConvertCode(raw.product, ordering)
  }

  predicate NodeReadable(raw: RawOutput, nodeIdx: nat, ordering: ChannelOrdering)
  {
    RawReadable(raw, nodeIdx)
    && (RawFixedNodeSpec(raw, nodeIdx).Some? ==>
          DecodeReadable(RawFixedNodeSpec(raw, nodeIdx).value, ResultConvertCode(raw, ordering), raw.data))
  }

  // ---------------------------------------------------------------------------
  // kp_generic_inference_retrieve_fixed_node

  /** The fixed node of an extracted node, or None when its data cannot be converted. */
  function FixedFromNode(node: RawFixedNode, code: ConvertCode, data: seq<byte>): Option<FixedNode>
    requires DecodeReadable(node, code, data)
  {
    var d := node.descriptor;
    match DecodedData(node, code, data)
    case None => None
    case Some(values) =>
      Some(FixedNode(FixedPointDTypeOf(d.layout), Wrap32(Volume(OnnxShape(d))), OnnxShape(d), d.name.value,
                     d.quant, values))
  }

  function FixedNodeSpec(raw: RawOutput, nodeIdx: nat, ordering: ChannelOrdering): Option<FixedNode>
    requires NodeReadable(raw, nodeIdx, ordering)
  {
    if !IsInferenceMagic(raw.magic) then None
    else match RawFixedNodeSpec(raw, nodeIdx)
      case None => None
      case Some(node) => FixedFromNode(node, ResultConvertCode(raw, ordering), raw.data)
  }

  method DecodeFixedNode(node: RawFixedNode, code: ConvertCode, data: seq<byte>) returns (r: Option<FixedNode>)
    requires DecodeReadable(node, code, data)
    ensures r == FixedFromNode(node, code, data)
  {
    var d := node.descriptor;
    var shape := OnnxShape(d);
    var numData := NumData(shape);
    var values := DecodeNode(node, code, data);
    if values.None? {
      return None;
    }
    r := Some(FixedNode(FixedPointDTypeOf(d.layout), numData, shape, d.name.value, d.quant, values.value));
  }

  method RetrieveFixedNode(raw: RawOutput, nodeIdx: nat, ordering: ChannelOrdering) returns (r: Option<FixedNode>)
    requires NodeReadable(raw, nodeIdx, ordering)
    ensures r == FixedNodeSpec(raw, nodeIdx, ordering)
  {
    var rawNode := RetrieveRawFixedNode(raw, nodeIdx);
    if !IsInferenceMagic(raw.magic) || rawNode.None? {
      return None;
    }
    var code := ChannelOrderingConvertCode(raw.product, ordering);
    r := DecodeFixedNode(rawNode.value, code, raw.data);
  }

  /**
   * A fixed node is returned exactly when its raw node is and the conversion
   * is possible: 1W16C8B V1 data cannot be converted from HCW, and V2 data
   * takes only the default ordering and a walk layout.
   */
  lemma FixedNodeAcceptance(raw: RawOutput, nodeIdx: nat, ordering: ChannelOrdering)
    requires NodeReadable(raw, nodeIdx, ordering)
    ensures FixedNodeSpec(raw, nodeIdx, ordering).Some? <==>
              IsInferenceMagic(raw.magic) && RawFixedNodeSpec(raw, nodeIdx).Some?
              && var d := RawFixedNodeSpec(raw, nodeIdx).value.descriptor;
                 var code := ChannelOrderingConvertCode(raw.product, ordering);
                 (d.shape.ShapeV1? ==> LegacyConvertible(d.layout, code))
                 && (d.shape.ShapeV2? ==> WalkConvertible(d.layout, code))
  {
  }

  /**
   * A decoded fixed node reports the uint32 product of its ONNX shape as its
   * element count, the element type of its layout, and the shape, name and
   * quantization of its descriptor; a V1 node holds channel*height*width
   * converted elements and a V2 node one element per ONNX offset, read at
   * that offset's NPU position.
   */
  lemma FixedNodeContents(node: RawFixedNode, code: ConvertCode, data: seq<byte>)
    requires DecodeReadable(node, code, data) && FixedFromNode(node, code, data).Some?
    ensures var f := FixedFromNode(node, code, data).value;
            var d := node.descriptor;
            f.numData == Wrap32(Volume(f.shape)) && f.shape == OnnxShape(d)
            && f.dtype == FixedPointDTypeOf(d.layout) && Some(f.name) == d.name && f.quant == d.quant
            && (d.shape.ShapeV1? ==> |f.data| == LegacyCount(d, code))
            && (d.shape.ShapeV2? ==>
                  |f.data| == Volume(f.shape)
                  && forall t :: 0 <= t < |f.data| ==>
                       f.data[t] == WalkElement(d.layout, f.shape, d.shape.strideNpu.value, data[node.dataOffset..], t))
  {
  }

  /**
   * A V1 node with a loop bound at or below 0 (a metadata extent of 2^31 or
   * more reads back negative) needs nothing of its data, and, where its
   * conversion is possible, is returned with no converted element.
   */
  lemma IdleLegacyNode(node: RawFixedNode, code: ConvertCode, data: seq<byte>)
    requires node.dataOffset <= |data| && Populated(node.descriptor) && LegacyDimsOk(node.descriptor)
    requires !LoopsRun(node.descriptor.layout, code, NpuDims(node.descriptor))
    ensures DecodeReadable(node, code, data)
    ensures FixedFromNode(node, code, data).Some? <==> LegacyConvertible(node.descriptor.layout, code)
    ensures FixedFromNode(node, code, data).Some? ==> FixedFromNode(node, code, data).value.data == []
  {
    var d := node.descriptor;
    var nest := LegacyNest(d.layout, code, NpuDims(d));
    if nest.Ok? {
      LegacyNestCount(d.layout, code, NpuDims(d));
      assert Visits(nest.value) == [];
    }
  }

  /** An extracted V1 node whose loops do not run can be retrieved, whatever its extents. */
  lemma IdleRawNodeReadable(raw: RawOutput, nodeIdx: nat, ordering: ChannelOrdering)
    requires RawReadable(raw, nodeIdx) && RawFixedNodeSpec(raw, nodeIdx).Some?
    requires var node := RawFixedNodeSpec(raw, nodeIdx).value;
             node.dataOffset <= |raw.data| && LegacyDimsOk(node.descriptor)
             && !LoopsRun(node.descriptor.layout, ResultConvertCode(raw, ordering), NpuDims(node.descriptor))
    ensures NodeReadable(raw, nodeIdx, ordering) && FloatReadable(raw, nodeIdx, ordering)
  {
    RawNodeDescriptorComplete(raw, nodeIdx);
    IdleLegacyNode(RawFixedNodeSpec(raw, nodeIdx).value, ResultConvertCode(raw, ordering), raw.data);
  }

  /**
   * A V1 node converted from HCW to CHW over 16-element rows (the KL520
   * layouts) holds NPU element (h, c, w) at CHW position (c, h, w).
   */
  lemma LegacyChwOrder(node: RawFixedNode, data: seq<byte>, c: nat, h: nat, w: nat)
    requires DecodeReadable(node, ConvertHcw2Chw, data) && FixedFromNode(node, ConvertHcw2Chw, data).Some?
    requires node.descriptor.shape.ShapeV1?
    requires node.descriptor.layout != Layout1W16C8B && node.descriptor.layout != Layout8W1C16B
    requires var d := NpuDims(node.descriptor); c < d.channel && h < d.height && w < d.width
    ensures var d := NpuDims(node.descriptor);
            var f := FixedFromNode(node, ConvertHcw2Chw, data).value;
            0 <= ChwPos(d, c, h, w) < |f.data|
            && LegacyReadable(false, data[node.dataOffset..], HcwIndex(d, PaddedWidth(d.width, 16), h, c, w))
            && f.data[ChwPos(d, c, h, w)]
               == LegacyElement(false, data[node.dataOffset..], HcwIndex(d, PaddedWidth(d.width, 16), h, c, w))
  {
    var desc := node.descriptor;
    var d := NpuDims(desc);
    var a := PaddedWidth(d.width, 16);
    var bytes := data[node.dataOffset..];
    LegacyNestStrided(desc.layout, ConvertHcw2Chw, d);
    var nest := StridedNest(ConvertHcw2Chw, d, a);
    assert LegacyNest(desc.layout, ConvertHcw2Chw, d) == Ok(nest);
    assert FixedFromNode(node, ConvertHcw2Chw, data).value.data == LegacyData(nest, false, bytes);
    HcwToChw(d, a, c, h, w);
    LegacyDataAt(nest, false, bytes, ChwPos(d, c, h, w), HcwIndex(d, a, h, c, w));
  }

  /** The layouts KL520 results carry. */
  lemma Kl520Layouts(f: RawFormat)
    ensures ModelReaderUtils.ConvertDataFormat(f, KL520) in {LayoutUnknown, Layout4W4C8B, Layout16W1C8B}
  {
  }

  /**
   * End to end on KL520, which stores HCW with rows padded to 16: asked for
   * CHW, the fixed node holds element (c, h, w) of the NPU data at its CHW
   * position.
   */
  lemma Kl520ChwOrder(raw: RawOutput, nodeIdx: nat, c: nat, h: nat, w: nat)
    requires NodeReadable(raw, nodeIdx, OrderCHW) && raw.magic == MagicInference && raw.product == KL520
    requires FixedNodeSpec(raw, nodeIdx, OrderCHW).Some?
    requires var d := NpuDims(RawFixedNodeSpec(raw, nodeIdx).value.descriptor);
             c < d.channel && h < d.height && w < d.width
    ensures var node := RawFixedNodeSpec(raw, nodeIdx).value;
            var d := NpuDims(node.descriptor);
            var f := FixedNodeSpec(raw, nodeIdx, OrderCHW).value;
            0 <= ChwPos(d, c, h, w) < |f.data|
            && LegacyReadable(false, raw.data[node.dataOffset..], HcwIndex(d, PaddedWidth(d.width, 16), h, c, w))
            && f.data[ChwPos(d, c, h, w)]
               == LegacyElement(false, raw.data[node.dataOffset..], HcwIndex(d, PaddedWidth(d.width, 16), h, c, w))
  {
    var node := RawFixedNodeSpec(raw, nodeIdx).value;
    assert node == Kl520Node(raw.body.outNodeNum, raw.body.metas, nodeIdx);
    Kl520Layouts(raw.body.metas[nodeIdx].dataLayout);
    LegacyChwOrder(node, raw.data, c, h, w);
  }

  /** The channel-first V2 products decode only the default ordering: HCW or HWC loses the node. */
  lemma V2RejectsReordering(raw: RawOutput, nodeIdx: nat, ordering: ChannelOrdering)
    requires NodeReadable(raw, nodeIdx, ordering) && raw.magic == MagicInferenceV2 && IsV2Product(raw.product)
    requires ordering == OrderHCW || ordering == OrderHWC
    ensures FixedNodeSpec(raw, nodeIdx, ordering).None?
  {
    if RawFixedNodeSpec(raw, nodeIdx).Some? {
      RawNodeDescriptorComplete(raw, nodeIdx);
    }
  }

  // ---------------------------------------------------------------------------
  // kp_generic_inference_retrieve_float_node

  /** The product of every extent except the quantized axis's. */
  function OtherExtents(shape: seq<int>, axis: int): (r: int)
    ensures (forall a :: 0 <= a < |shape| ==> shape[a] >= 1) ==> r >= 1
  {
    if |shape| == 0 then 1
    else OtherExtents(shape[..|shape| - 1], axis) * (if |shape| - 1 == axis then 1 else shape[|shape| - 1])
  }

  /** The extents other than the quantized axis's, times the quantized extent, give the volume. */
  lemma {:induction false} OtherExtentsVolume(shape: seq<int>, axis: int)
    ensures 0 <= axis < |shape| ==> OtherExtents(shape, axis) * shape[axis] == Volume(shape)
    ensures !(0 <= axis < |shape|) ==> OtherExtents(shape, axis) == Volume(shape)
  {
    if |shape| > 0 {
      var p, last := shape[..|shape| - 1], shape[|shape| - 1];
      OtherExtentsVolume(p, axis);
      var o, v := OtherExtents(p, axis), Volume(p);
      assert Volume(shape) == v * last;
      if axis == |p| {
        assert OtherExtents(shape, axis) == o * 1;
      } else if 0 <= axis < |p| {
        assert OtherExtents(shape, axis) == o * last;
        assert o * p[axis] == v && p[axis] == shape[axis];
        MulSwap(o, last, p[axis]);
      } else {
        assert OtherExtents(shape, axis) == o * last;
      }
    }
  }

  lemma MulSwap(a: int, b: int, c: int)
    ensures (a * b) * c == (a * c) * b
  {
  }

  /** The quantized-axis stride loop: the product of the extents of every other axis. */
  method QuantizedAxisStride(shape: seq<int>, axis: int) returns (s: int)
    ensures s == OtherExtents(shape, axis)
  {
    s := 1;
    for a := 0 to |shape|
      invariant s == OtherExtents(shape[..a], axis)
    {
      assert shape[..a + 1][..a] == shape[..a];
      if a != axis {
        s := s * shape[a];
      }
    }
    assert shape[..|shape|] == shape;
  }

  /** The factor the float decoder starts from before any descriptor is read. */
  const InitialFactor: FixedPointDescriptor := FixedPointDescriptor(0, DFloat32, 0)

  /** The V2 axis stride: channel-wise, with more than one descriptor, the product of the other extents. */
  function AxisStrideOf(d: TensorDescriptor): (r: nat)
    requires WalkOk(d)
    ensures d.quant.count > 1 ==> r >= 1 && r == OtherExtents(OnnxShape(d), d.quant.axis)
  {
    if d.quant.count > 1 then OtherExtents(OnnxShape(d), d.quant.axis) else 0
  }

  /** The factor state after the descriptor steps for offsets 0..t of a V2 node. */
  function FactorAt(d: TensorDescriptor, t: nat): Result<FactorState>
    requires WalkOk(d)
  {
    FactorsThrough(d.quant.descriptors.value, d.quant.count, d.quant.count > 1, AxisStrideOf(d), InitialFactor, t)
  }

  /** A step that succeeds was preceded only by steps that succeeded. */
  lemma {:induction false} FactorsOkBefore(descriptors: seq<FixedPointDescriptor>, count: nat, channelWise: bool,
                                           axisStride: nat, init: FixedPointDescriptor, s: nat, t: nat)
    requires count <= |descriptors| && (channelWise ==> axisStride > 0) && s <= t
    requires FactorsThrough(descriptors, count, channelWise, axisStride, init, t).Ok?
    ensures FactorsThrough(descriptors, count, channelWise, axisStride, init, s).Ok?
  {
    if s < t {
      FactorsOkBefore(descriptors, count, channelWise, axisStride, init, s, t - 1);
    }
  }

  /** Every offset of a V2 node up to the last one has a factor when the last one has. */
  lemma WalkFactorsOk(d: TensorDescriptor, n: nat)
    requires WalkOk(d) && n >= 1 && FactorAt(d, n - 1).Ok?
    ensures forall t :: 0 <= t < n ==> FactorAt(d, t).Ok?
  {
    forall t | 0 <= t < n
      ensures FactorAt(d, t).Ok?
    {
      FactorsOkBefore(d.quant.descriptors.value, d.quant.count, d.quant.count > 1, AxisStrideOf(d), InitialFactor, t, n - 1);
    }
  }

  /** The float output of a V2 node, or None when some descriptor step fails. */
  function FloatWalk(d: TensorDescriptor, values: seq<int>): Option<seq<FloatElement>>
    requires WalkOk(d) && |values| == Volume(OnnxShape(d))
  {
    var n := |values|;
    VolumePositive(OnnxShape(d));
    if FactorAt(d, n - 1).Err? then None
    else
      WalkFactorsOk(d, n);
      Some(seq(n, t requires 0 <= t < n => FloatElement(values[t], FactorAt(d, t).value.factor)))
  }

  /** The float output of a V1 node: every element uses descriptor 0, read once. */
  function FloatLegacy(d: TensorDescriptor, values: seq<int>): Option<seq<FloatElement>>
    requires Populated(d)
  {
    match FactorStep(d.quant.descriptors.value, d.quant.count, false, 0, 0, FactorState(0, InitialFactor))
    case Err(_) => None
    case Ok(s) => Some(seq(|values|, k requires 0 <= k < |values| => FloatElement(values[k], s.factor)))
  }

  /** The float decoder passes V2 offsets and strides as `int`: the walk stays below 2^31. */
  predicate FloatDecodeReadable(node: RawFixedNode, code: ConvertCode, data: seq<byte>)
  {
    DecodeReadable(node, code, data)
    && (node.descriptor.shape.ShapeV2? ==> Volume(OnnxShape(node.descriptor)) < 0x8000_0000)
  }

  /** The float node of an extracted node, or None when its data or a factor cannot be had. */
  function FloatFromNode(node: RawFixedNode, code: ConvertCode, data: seq<byte>): Option<FloatNode>
    requires FloatDecodeReadable(node, code, data)
  {
    var d := node.descriptor;
    match DecodedData(node, code, data)
    case None => None
    case Some(values) =>
      var elements := if d.shape.ShapeV1? then FloatLegacy(d, values) else FloatWalk(d, values);
      if elements.None? then None
      else Some(FloatNode(Wrap32(Volume(OnnxShape(d))), OnnxShape(d), d.name.value, elements.value))
  }

  predicate FloatReadable(raw: RawOutput, nodeIdx: nat, ordering: ChannelOrdering)
  {
    RawReadable(raw, nodeIdx)
    && (RawFixedNodeSpec(raw, nodeIdx).Some? ==>
          FloatDecodeReadable(RawFixedNodeSpec(raw, nodeIdx).value, ResultConvertCode(raw, ordering), raw.data))
  }

  function FloatNodeSpec(raw: RawOutput, nodeIdx: nat, ordering: ChannelOrdering): Option<FloatNode>
    requires FloatReadable(raw, nodeIdx, ordering)
  {
    if !IsInferenceMagic(raw.magic) then None
    else match RawFixedNodeSpec(raw, nodeIdx)
      case None => None
      case Some(node) => FloatFromNode(node, ResultConvertCode(raw, ordering), raw.data)
  }

  /** Once a step fails, every later state is the failure. */
  lemma FactorsFailAfter(descriptors: seq<FixedPointDescriptor>, count: nat, channelWise: bool,
                         axisStride: nat, init: FixedPointDescriptor, s: nat, t: nat)
    requires count <= |descriptors| && (channelWise ==> axisStride > 0) && s <= t
    requires FactorsThrough(descriptors, count, channelWise, axisStride, init, s).Err?
    ensures FactorsThrough(descriptors, count, channelWise, axisStride, init, t).Err?
  {
    if FactorsThrough(descriptors, count, channelWise, axisStride, init, t).Ok? {
      FactorsOkBefore(descriptors, count, channelWise, axisStride, init, s, t);
    }
  }

  /**
   * The descriptor cursor of the float walk: get_quantization_parameters_factor
   * updates the descriptor index and the factor through its out-pointers,
   * once per ONNX offset; a failing step ends the decoding.
   */
  method SelectFactors(descriptors: seq<FixedPointDescriptor>, count: nat, channelWise: bool, axisStride: nat, n: nat)
    returns (r: Result<seq<FixedPointDescriptor>>)
    requires count <= |descriptors| && (channelWise ==> axisStride > 0) && n >= 1
    ensures r.Ok? <==> FactorsThrough(descriptors, count, channelWise, axisStride, InitialFactor, n - 1).Ok?
    ensures r.Ok? ==> |r.value| == n
                      && forall t :: 0 <= t < n ==>
                           FactorsThrough(descriptors, count, channelWise, axisStride, InitialFactor, t).Ok?
                           && r.value[t] == FactorsThrough(descriptors, count, channelWise, axisStride, InitialFactor, t).value.factor
  {
    var state := FactorState(0, InitialFactor);
    var factors := [];
    for t := 0 to n
      invariant |factors| == t
      invariant t > 0 ==> FactorsThrough(descriptors, count, channelWise, axisStride, InitialFactor, t - 1) == Ok(state)
      invariant t == 0 ==> state == FactorState(0, InitialFactor)
      invariant forall s :: 0 <= s < t ==>
                  FactorsThrough(descriptors, count, channelWise, axisStride, InitialFactor, s).Ok?
                  && factors[s] == FactorsThrough(descriptors, count, channelWise, axisStride, InitialFactor, s).value.factor
    {
      var step := FactorStep(descriptors, count, channelWise, t, axisStride, state);
      if step.Err? {
        assert FactorsThrough(descriptors, count, channelWise, axisStride, InitialFactor, t).Err?;
        FactorsFailAfter(descriptors, count, channelWise, axisStride, InitialFactor, t, n - 1);
        return Err(step.status);
      }
      state := step.value;
      factors := factors + [state.factor];
    }
    r := Ok(factors);
  }

  /** The V2 pairing of elements with factors. */
  method WalkFactors(d: TensorDescriptor, values: seq<int>) returns (r: Option<seq<FloatElement>>)
    requires WalkOk(d) && |values| == Volume(OnnxShape(d))
    ensures r == FloatWalk(d, values)
  {
    var shape := OnnxShape(d);
    var stride := 0;
    if d.quant.count > 1 {
      stride := QuantizedAxisStride(shape, d.quant.axis);
    }
    assert stride == AxisStrideOf(d);
    VolumePositive(shape);
    var factors := SelectFactors(d.quant.descriptors.value, d.quant.count, d.quant.count > 1, stride, |values|);
    if factors.Err? {
      return None;
    }
    var elements := seq(|values|, t requires 0 <= t < |values| => FloatElement(values[t], factors.value[t]));
    assert FloatWalk(d, values).value == elements;
    r := Some(elements);
  }

  method DecodeFloatNode(node: RawFixedNode, code: ConvertCode, data: seq<byte>) returns (r: Option<FloatNode>)
    requires FloatDecodeReadable(node, code, data)
    ensures r == FloatFromNode(node, code, data)
  {
    var d := node.descriptor;
    var shape := OnnxShape(d);
    var numData := NumData(shape);
    var values := DecodeNode(node, code, data);
    if values.None? {
      return None;
    }
    var elements: Option<seq<FloatElement>>;
    if d.shape.ShapeV1? {
      var step := FactorStep(d.quant.descriptors.value, d.quant.count, false, 0, 0, FactorState(0, InitialFactor));
      if step.Err? {
        return None;
      }
      elements := Some(seq(|values.value|, k requires 0 <= k < |values.value| => FloatElement(values.value[k], step.value.factor)));
    } else {
      elements := WalkFactors(d, values.value);
    }
    if elements.None? {
      return None;
    }
    r := Some(FloatNode(numData, shape, d.name.value, elements.value));
  }

  method RetrieveFloatNode(raw: RawOutput, nodeIdx: nat, ordering: ChannelOrdering) returns (r: Option<FloatNode>)
    requires FloatReadable(raw, nodeIdx, ordering)
    ensures r == FloatNodeSpec(raw, nodeIdx, ordering)
  {
    var rawNode := RetrieveRawFixedNode(raw, nodeIdx);
    if !IsInferenceMagic(raw.magic) || rawNode.None? {
      return None;
    }
    var code := ChannelOrderingConvertCode(raw.product, ordering);
    r := DecodeFloatNode(rawNode.value, code, raw.data);
  }

  /**
   * A float node is returned exactly when the fixed node is and the factors
   * can be read: for V1 descriptor 0, channel-wise every descriptor up to the
   * last offset's, per-tensor descriptor 0.
   */
  lemma FloatNodeAcceptance(node: RawFixedNode, code: ConvertCode, data: seq<byte>)
    requires FloatDecodeReadable(node, code, data)
    ensures FloatFromNode(node, code, data).Some? <==>
              FixedFromNode(node, code, data).Some?
              && var d := node.descriptor;
                 var n := Volume(OnnxShape(d));
                 (d.shape.ShapeV1? || d.quant.count <= 1 ==> DescriptorInformation(d.quant.descriptors.value, d.quant.count, 0).Ok?)
                 && (d.shape.ShapeV2? && d.quant.count > 1 && WalkOk(d) ==>
                       forall k :: 0 <= k <= (n - 1) / OtherExtents(OnnxShape(d), d.quant.axis) ==>
                         DescriptorInformation(d.quant.descriptors.value, d.quant.count, k).Ok?)
  {
    var d := node.descriptor;
    if d.shape.ShapeV2? && DecodedData(node, code, data).Some? {
      var n := Volume(OnnxShape(d));
      VolumePositive(OnnxShape(d));
      if d.quant.count > 1 {
        ChannelWiseSelection(d.quant.descriptors.value, d.quant.count, AxisStrideOf(d), InitialFactor, n - 1);
      } else {
        PerTensorSelection(d.quant.descriptors.value, d.quant.count, InitialFactor, n - 1);
      }
    }
  }

  /**
   * A float node keeps the fixed node's count, shape and name, and pairs every
   * fixed element, in order, with a factor.
   */
  lemma FloatNodeElements(node: RawFixedNode, code: ConvertCode, data: seq<byte>)
    requires FloatDecodeReadable(node, code, data) && FloatFromNode(node, code, data).Some?
    ensures FixedFromNode(node, code, data).Some?
    ensures var fl := FloatFromNode(node, code, data).value;
            var fx := FixedFromNode(node, code, data).value;
            fl.numData == fx.numData && fl.shape == fx.shape && fl.name == fx.name && |fl.data| == |fx.data|
            && forall k :: 0 <= k < |fl.data| ==> fl.data[k].fixed == fx.data[k]
  {
  }

  /** The factor paired with V2 offset t is the one the descriptor steps reach at t. */
  lemma FloatWalkAt(node: RawFixedNode, code: ConvertCode, data: seq<byte>, t: nat)
    requires FloatDecodeReadable(node, code, data) && FloatFromNode(node, code, data).Some?
    requires node.descriptor.shape.ShapeV2? && t < |FloatFromNode(node, code, data).value.data|
    ensures WalkOk(node.descriptor) && FactorAt(node.descriptor, t).Ok?
    ensures FloatFromNode(node, code, data).value.data[t].factor == FactorAt(node.descriptor, t).value.factor
  {
    var d := node.descriptor;
    var values := DecodedData(node, code, data).value;
    var elements := FloatWalk(d, values);
    assert FloatFromNode(node, code, data).value.data == elements.value;
    WalkFactorsOk(d, |values|);
  }

  /** V1: every element is divided by the factor of descriptor 0. */
  lemma FloatLegacyFactor(node: RawFixedNode, code: ConvertCode, data: seq<byte>, k: nat)
    requires FloatDecodeReadable(node, code, data) && FloatFromNode(node, code, data).Some?
    requires node.descriptor.shape.ShapeV1? && k < |FloatFromNode(node, code, data).value.data|
    ensures FloatFromNode(node, code, data).value.data[k].factor == node.descriptor.quant.descriptors.value[0]
  {
  }

  /**
   * Channel-wise V2 selection: with more than one descriptor, the element at
   * ONNX offset t is divided by the factor of descriptor t / S, where S is
   * the product of the extents of the other axes.
   */
  lemma FloatChannelWise(node: RawFixedNode, code: ConvertCode, data: seq<byte>, t: nat)
    requires FloatDecodeReadable(node, code, data) && FloatFromNode(node, code, data).Some?
    requires node.descriptor.shape.ShapeV2? && node.descriptor.quant.count > 1
    requires t < |FloatFromNode(node, code, data).value.data|
    ensures OtherExtents(OnnxShape(node.descriptor), node.descriptor.quant.axis) >= 1
    ensures ChannelOf(node.descriptor, t) < |node.descriptor.quant.descriptors.value|
    ensures FloatFromNode(node, code, data).value.data[t].factor == node.descriptor.quant.descriptors.value[ChannelOf(node.descriptor, t)]
  {
    var d := node.descriptor;
    FloatWalkAt(node, code, data, t);
    var s := AxisStrideOf(d);
    assert FactorAt(d, t) == FactorsThrough(d.quant.descriptors.value, d.quant.count, true, s, InitialFactor, t);
    ChannelWiseFactor(d.quant.descriptors.value, d.quant.count, s, InitialFactor, t);
  }

  /** The descriptor channel-wise selection uses at ONNX offset t: t / S, S the product of the other extents. */
  function ChannelOf(d: TensorDescriptor, t: nat): nat
    requires Populated(d)
  {
    var s := OtherExtents(OnnxShape(d), d.quant.axis);
    if s >= 1 then t / s else 0
  }

  /** Per-tensor V2 selection: with at most one descriptor every element uses descriptor 0. */
  lemma FloatPerTensor(node: RawFixedNode, code: ConvertCode, data: seq<byte>, t: nat)
    requires FloatDecodeReadable(node, code, data) && FloatFromNode(node, code, data).Some?
    requires node.descriptor.shape.ShapeV2? && node.descriptor.quant.count <= 1
    requires t < |FloatFromNode(node, code, data).value.data|
    ensures node.descriptor.quant.count == 1
    ensures FloatFromNode(node, code, data).value.data[t].factor == node.descriptor.quant.descriptors.value[0]
  {
    var d := node.descriptor;
    FloatWalkAt(node, code, data, t);
    PerTensorSelection(d.quant.descriptors.value, d.quant.count, InitialFactor, t);
  }

  /**
   * Channel-wise selection runs out of descriptors when the offsets go past
   * count * S: then the float node is lost (the factor lookup fails with
   * INVALID_PARAM).
   */
  lemma FloatChannelWiseOverrun(node: RawFixedNode, code: ConvertCode, data: seq<byte>)
    requires FloatDecodeReadable(node, code, data)
    requires var d := node.descriptor;
             d.shape.ShapeV2? && d.quant.count > 1 && WalkOk(d)
             && Volume(OnnxShape(d)) > d.quant.count * OtherExtents(OnnxShape(d), d.quant.axis)
    ensures FloatFromNode(node, code, data).None?
  {
    var d := node.descriptor;
    var n := Volume(OnnxShape(d));
    var s := AxisStrideOf(d);
    ChannelWiseSelection(d.quant.descriptors.value, d.quant.count, s, InitialFactor, n - 1);
    DivAtLeast(n - 1, s, d.quant.count);
  }

  lemma DivAtLeast(a: nat, s: nat, k: nat)
    requires s >= 1 && a >= k * s
    ensures a / s >= k
  {
    if a / s < k {
      assert a == (a / s) * s + a % s;
      MulMonotone(a / s + 1, k, s);
    }
  }

  // ---------------------------------------------------------------------------
  // Channel-wise selection by the quantized axis's coordinate

  /** The product of the extents after `axis`: the row-major distance between two steps along it. */
  function LaterExtents(shape: seq<int>, axis: nat): (r: int)
    ensures (forall a :: 0 <= a < |shape| ==> shape[a] >= 1) ==> r >= 1
  {
    if |shape| <= axis + 1 then 1
    else LaterExtents(shape[..|shape| - 1], axis) * shape[|shape| - 1]
  }

  /** The quantized-axis coordinate of the element at row-major offset t. */
  function IntendedChannel(shape: seq<int>, axis: nat, t: nat): (c: nat)
    requires axis < |shape| && forall a :: 0 <= a < |shape| ==> shape[a] >= 1
    ensures c < shape[axis]
  {
    (t / LaterExtents(shape, axis)) % shape[axis]
  }

  /** Dividing f * s + d by l * s, with the digit d below s, divides f by l. */
  lemma DivNested(f: int, l: int, s: int, d: int)
    requires f >= 0 && l >= 1 && 0 <= d < s
    ensures (f * s + d) / (l * s) == f / l
  {
    var q, r := f / l, f % l;
    assert f == q * l + r;
    assert f * s + d == q * (l * s) + (r * s + d);
    MulMonotone(r, l - 1, s);
    assert r * s + d < l * s;
    DivModUnique(f * s + d, l * s, q, r * s + d);
  }

  /** IntendedChannel picks, for every multi-index in the box, its coordinate on the quantized axis. */
  lemma {:induction false} IntendedChannelIsCoordinate(shape: seq<int>, axis: nat, idx: seq<int>)
    requires axis < |shape| && InBox(idx, shape)
    ensures forall a :: 0 <= a < |shape| ==> shape[a] >= 1
    ensures Flatten(idx, shape) >= 0 && IntendedChannel(shape, axis, Flatten(idx, shape)) == idx[axis]
  {
    var n := |shape|;
    FlattenBound(idx, shape);
    var p, sp, s, d := idx[..n - 1], shape[..n - 1], shape[n - 1], idx[n - 1];
    if n > 1 {
      assert InBox(p, sp) && WalkableShape(sp);
      FlattenBound(p, sp);
    }
    var f := Flatten(p, sp);
    assert Flatten(idx, shape) == f * s + d;
    if axis == n - 1 {
      assert LaterExtents(shape, axis) == 1;
      DivModUnique(f * s + d, s, f, d);
    } else {
      IntendedChannelIsCoordinate(sp, axis, p);
      var l := LaterExtents(sp, axis);
      assert LaterExtents(shape, axis) == l * s;
      DivNested(f, l, s, d);
      assert sp[axis] == shape[axis] && p[axis] == idx[axis];
    }
  }

  lemma {:induction false} UnitOtherExtents(shape: seq<int>, axis: nat)
    requires |shape| <= axis && forall a :: 0 <= a < |shape| ==> shape[a] == 1
    ensures OtherExtents(shape, axis) == 1
  {
    if |shape| > 0 {
      UnitOtherExtents(shape[..|shape| - 1], axis);
    }
  }

  /** With extent 1 on every axis before the quantized one, the other extents are the later ones. */
  lemma {:induction false} OtherExtentsAreLater(shape: seq<int>, axis: nat)
    requires axis < |shape| && forall a :: 0 <= a < axis ==> shape[a] == 1
    ensures OtherExtents(shape, axis) == LaterExtents(shape, axis)
  {
    var n := |shape|;
    var sp := shape[..n - 1];
    if axis == n - 1 {
      UnitOtherExtents(sp, axis);
      assert OtherExtents(shape, axis) == OtherExtents(sp, axis) * 1;
    } else {
      OtherExtentsAreLater(sp, axis);
    }
  }

  /**
   * The selection as written (descriptor t / S) agrees with the quantized
   * axis's coordinate when every axis before the quantized one has extent 1.
   */
  lemma ChannelSelectionsAgree(shape: seq<int>, axis: nat, t: nat)
    requires axis < |shape| && (forall a :: 0 <= a < |shape| ==> shape[a] >= 1)
    requires (forall a :: 0 <= a < axis ==> shape[a] == 1) && t < Volume(shape)
    ensures t / OtherExtents(shape, axis) == IntendedChannel(shape, axis, t)
  {
    OtherExtentsAreLater(shape, axis);
    OtherExtentsVolume(shape, axis);
    var l, c := LaterExtents(shape, axis), shape[axis];
    assert t < l * c;
    QuotientBelow(t, l, c);
  }

  /** Below l * c, the quotient by l is below c, so reducing it modulo c keeps it. */
  lemma QuotientBelow(t: nat, l: int, c: int)
    requires l >= 1 && t < l * c
    ensures t / l < c && (t / l) % c == t / l
  {
    var q := t / l;
    assert t == q * l + t % l;
    DivModUnique(q, c, 0, q);
  }

  /**
   * Shape [2, 2] quantized along axis 1: S is 2, so row 0, column 1 (offset
   * 1) gets descriptor 1 / 2 = 0 instead of its column's descriptor 1.
   */
  lemma ChannelSelectionMismatch()
    ensures OtherExtents([2, 2], 1) == 2 && Flatten([0, 1], [2, 2]) == 1
    ensures 1 / OtherExtents([2, 2], 1) == 0 && IntendedChannel([2, 2], 1, 1) == 1
  {
    IntendedChannelIsCoordinate([2, 2], 1, [0, 1]);
  }
}
