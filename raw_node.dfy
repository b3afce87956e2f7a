/**
 * Raw node extraction (kp_generic_inference_retrieve_raw_fixed_node in
 * src/kp_inference.c): locating output node `nodeIdx` in a raw inference
 * result and describing it with a uniform tensor descriptor.
 *
 * The result buffer is modelled by its decoded records: the magic type and
 * product of the result header, the per-product node tables
 * (src/include/soc_common/kdp2_inf_generic_raw.h and the KL520 metadata of
 * src/include/local/kp_internal.h), and the bytes of the region the node data
 * offsets count from.
 */
module RawNode {
  import opened Types
  import opened Lookups
  import opened FixedPoint
  import opened ModelReaderUtils

  /** _kl520_output_node_metadata_t; `scale` is the bit pattern of its float. */
  datatype Kl520NodeMeta = Kl520NodeMeta(height: nat, channel: nat, width: nat, radix: int, scale: nat, dataLayout: RawFormat)

  /** _720_raw_onode_t, the fields the extraction reads. */
  datatype Onode720 = Onode720(startOffset: nat, dataFormat: RawFormat, rowLength: nat, colLength: nat, chLength: nat,
                               outputIndex: nat, outputRadix: nat, outputScale: nat)

  /** _630_raw_onode_t, the fields the extraction reads. */
  datatype Onode630 = Onode630(idx: nat, fmt: RawFormat, batch: nat, chLength: nat, rowLength: nat, colLength: nat,
                               scale: nat, radix: nat, startOffset: nat)

  /**
   * npu_data_single_node_header_v2_t with the arrays it points to already
   * read: the shape and stride values, the node name, and the raw radix and
   * scale vectors.
   */
  datatype NpuNodeHeader = NpuNodeHeader(
    index: nat, name: string, dataLayout: RawFormat,
    shapeLen: nat, shapeType: DType, shape: seq<int>,
    strideOnnxType: DType, strideOnnx: seq<int>,
    strideNpuType: DType, strideNpu: seq<int>,
    quantizedAxis: nat, quantLen: nat,
    radixType: DType, radix: seq<byte>,
    scaleType: DType, scale: seq<byte>,
    npuDataLen: nat, npuDataStart: nat)

  /** The node table a result carries, by product. */
  datatype RawBody =
    | Kl520Body(outNodeNum: nat, metas: seq<Kl520NodeMeta>)
    | Kl720Body(totalRawLen720: nat, totalNodes720: int, onodes720: seq<Onode720>)
    | Kl630Body(totalRawLen630: nat, totalNodes630: int, onodes630: seq<Onode630>)
    | NpuBody(nodeNum: nat, headers: seq<NpuNodeHeader>)
    | NoBody

  /**
   * A raw inference result. `data` holds the bytes of the region node data
   * offsets count from: the raw data after the V1 result header for KL520,
   * KL720 and KL630, and the data area of the NPU data header for V2.
   */
  datatype RawOutput = RawOutput(magic: Magic, product: Chip, body: RawBody, data: seq<byte>)

  /** kp_inf_raw_fixed_node_output_t: element count, data position and metadata. */
  datatype RawFixedNode = RawFixedNode(numData: nat, dataOffset: nat, descriptor: TensorDescriptor)

  /** sizeof(_kl520_output_node_metadata_t): six 32-bit fields. */
  const Kl520MetaSize: nat := 24
  /** sizeof(_720_raw_cnn_res_t): two 32-bit counts and 40 onodes of 14 words. */
  const Kl720RawHeaderSize: nat := 2248
  /** sizeof(_630_raw_cnn_res_t): two 32-bit counts and 40 onodes of 13 words. */
  const Kl630RawHeaderSize: nat := 2088

  /** The products a V2 result is decoded for. */
  predicate IsV2Product(p: Chip)
  {
    p == KL730 || p == KL830
  }

  /** The node table matches the magic type and product the header announces. */
  predicate BodyFits(raw: RawOutput)
  {
    (raw.magic == MagicInference ==>
       (raw.product == KL520 ==> raw.body.Kl520Body?)
       && (raw.product == KL720 ==> raw.body.Kl720Body?)
       && (raw.product == KL630 ==> raw.body.Kl630Body?))
    && (raw.magic == MagicInferenceV2 && IsV2Product(raw.product) ==> raw.body.NpuBody?)
  }

  // ---------------------------------------------------------------------------
  // The node-index check.

  /**
   * The check as written: `node_idx > total - 1` rejects, with total - 1
   * computed in 32 bits and compared as unsigned.
   */
  predicate NodeIndexAcceptedAsWritten(nodeIdx: nat, total: int)
  {
    nodeIdx <= Wrap32(total - 1)
  }

  /** The check the code evidently means: the index names one of the `total` nodes. */
  predicate NodeIndexValid(nodeIdx: nat, total: int)
  {
    nodeIdx < total
  }

  /** With an empty node table the check as written accepts every 32-bit index. */
  lemma EmptyTableAcceptsEveryIndex(nodeIdx: nat)
    requires nodeIdx < Pow32
    ensures NodeIndexAcceptedAsWritten(nodeIdx, 0) && !NodeIndexValid(nodeIdx, 0)
  {
    assert Wrap32(0 - 1) == Pow32 - 1;
  }

  /** A negative signed count (KL720, KL630) makes the check as written accept large indices too. */
  lemma NegativeCountAcceptsIndices(nodeIdx: nat, total: int)
    requires -0x8000_0000 <= total <= 0 && nodeIdx < Pow32 + total
    ensures NodeIndexAcceptedAsWritten(nodeIdx, total) && !NodeIndexValid(nodeIdx, total)
  {
    assert Wrap32(total - 1) == Pow32 + total - 1;
  }

  /** For a non-empty table the two checks agree on every 32-bit index. */
  lemma NodeIndexChecksAgree(nodeIdx: nat, total: int)
    requires nodeIdx < Pow32 && 0 < total < Pow32
    ensures NodeIndexAcceptedAsWritten(nodeIdx, total) <==> NodeIndexValid(nodeIdx, total)
  {
    assert Wrap32(total - 1) == total - 1;
  }

  /** The node count the check compares with. */
  function NodeTotal(body: RawBody): int
  {
    match body
    case Kl520Body(n, _) => n
    case Kl720Body(_, n, _) => n
    case Kl630Body(_, n, _) => n
    case NpuBody(n, _) => n
    case NoBody => 0
  }

  // ---------------------------------------------------------------------------
  // KL520: node data stored one after another behind the metadata table.

  predicate Kl520MetaInRange(m: Kl520NodeMeta)
  {
    m.height < Pow32 && m.channel < Pow32 && m.width < Pow32
  }

  /** The bytes one KL520 node occupies: height * channel * its width rounded up to 16. */
  function Kl520NodeBytes(m: Kl520NodeMeta): nat
    requires Kl520MetaInRange(m)
  {
    m.height * m.channel * RoundUp(m.width, 16)
  }

  /** The bytes of the first k nodes. */
  function Kl520Preceding(metas: seq<Kl520NodeMeta>, k: nat): nat
    requires k <= |metas| && forall i :: 0 <= i < k ==> Kl520MetaInRange(metas[i])
  {
    if k == 0 then 0 else Kl520Preceding(metas, k - 1) + Kl520NodeBytes(metas[k - 1])
  }

  /** Where node k's data starts: after the count, the metadata table and the nodes before it (uint32). */
  function Kl520DataStart(outNodeNum: nat, metas: seq<Kl520NodeMeta>, k: nat): nat
    requires k <= |metas| && forall i :: 0 <= i < k ==> Kl520MetaInRange(metas[i])
  {
    Wrap32(4 + outNodeNum * Kl520MetaSize + Kl520Preceding(metas, k))
  }

  /** The KL520 offset loop: `raw_offset` accumulated in uint32 over the nodes before nodeIdx. */
  method Kl520DataOffset(outNodeNum: nat, metas: seq<Kl520NodeMeta>, nodeIdx: nat) returns (off: nat)
    requires nodeIdx <= |metas| && forall i :: 0 <= i < nodeIdx ==> Kl520MetaInRange(metas[i])
    ensures off == Kl520DataStart(outNodeNum, metas, nodeIdx)
  {
    off := Wrap32(4 + outNodeNum * Kl520MetaSize);
    var i := 0;
    while i < nodeIdx
      invariant 0 <= i <= nodeIdx
      invariant off == Kl520DataStart(outNodeNum, metas, i)
    {
      var bytes := Kl520NodeBytes(metas[i]);
      Kl520OffsetStep(outNodeNum, metas, i, off);
      off := Wrap32(off + Wrap32(bytes));
      i := i + 1;
    }
  }

  /** One turn of the offset loop adds node i's bytes to the offset, in uint32. */
  lemma Kl520OffsetStep(outNodeNum: nat, metas: seq<Kl520NodeMeta>, i: nat, off: int)
    requires i < |metas| && forall j :: 0 <= j <= i ==> Kl520MetaInRange(metas[j])
    requires off == Kl520DataStart(outNodeNum, metas, i)
    ensures Wrap32(off + Wrap32(Kl520NodeBytes(metas[i]))) == Kl520DataStart(outNodeNum, metas, i + 1)
  {
    var base := 4 + outNodeNum * Kl520MetaSize;
    var pre, bytes := Kl520Preceding(metas, i), Kl520NodeBytes(metas[i]);
    assert Kl520Preceding(metas, i + 1) == pre + bytes;
    WrapAccumulate(base + pre, bytes, off);
  }

  /** Adding a wrapped summand to a wrapped sum and wrapping again is the wrapped total. */
  lemma WrapAccumulate(base: int, b: int, off: int)
    requires off == Wrap32(base)
    ensures Wrap32(off + Wrap32(b)) == Wrap32(base + b)
  {
    WrapAdd(b, off);
    WrapAdd(base, b);
  }

  /**
   * Without 32-bit overflow the first node's data follows the metadata table
   * and every node's data directly follows the previous node's.
   */
  lemma Kl520NodesContiguous(outNodeNum: nat, metas: seq<Kl520NodeMeta>, k: nat)
    requires k < |metas| && forall i :: 0 <= i <= k ==> Kl520MetaInRange(metas[i])
    requires 4 + outNodeNum * Kl520MetaSize + Kl520Preceding(metas, k + 1) < Pow32
    ensures Kl520DataStart(outNodeNum, metas, 0) == 4 + outNodeNum * Kl520MetaSize
    ensures Kl520DataStart(outNodeNum, metas, k + 1) == Kl520DataStart(outNodeNum, metas, k) + Kl520NodeBytes(metas[k])
    ensures Kl520DataStart(outNodeNum, metas, k) >= 4 + outNodeNum * Kl520MetaSize
  {
    var base := 4 + outNodeNum * Kl520MetaSize;
    var pre, bytes := Kl520Preceding(metas, k), Kl520NodeBytes(metas[k]);
    assert Kl520Preceding(metas, k + 1) == pre + bytes;
    WrapSmall(base);
    WrapSmall(base + pre);
    WrapSmall(base + pre + bytes);
  }

  lemma WrapSmall(x: int)
    requires 0 <= x < Pow32
    ensures Wrap32(x) == x
  {
  }

  // ---------------------------------------------------------------------------
  // The descriptors.

  /** A V1 shape: the NPU and ONNX shapes both `s`, and the identity axis permutation. */
  function LegacyShape(s: seq<int>): ShapeInfo
  {
    ShapeV1(4, Some(s), 4, Some(s), 4, Some([0, 1, 2, 3]))
  }

  /** A single FLOAT32 quantization descriptor on axis 1. */
  function SingleDescriptor(radix: int, scale: nat): Quantization
  {
    QuantV1(1, 1, Some([FixedPointDescriptor(radix, DFloat32, scale)]))
  }

  function Kl520Node(outNodeNum: nat, metas: seq<Kl520NodeMeta>, nodeIdx: nat): RawFixedNode
    requires nodeIdx < |metas| && forall i :: 0 <= i <= nodeIdx ==> Kl520MetaInRange(metas[i])
  {
    var m := metas[nodeIdx];
    RawFixedNode(Wrap32(Kl520NodeBytes(m)), Kl520DataStart(outNodeNum, metas, nodeIdx),
      TensorDescriptor(nodeIdx, Some(""), ConvertDataFormat(m.dataLayout, KL520),
        LegacyShape([1, AsInt32(m.channel), AsInt32(m.height), AsInt32(m.width)]),
        SingleDescriptor(m.radix, m.scale)))
  }

  function Kl720Node(totalRawLen: nat, o: Onode720): RawFixedNode
  {
    RawFixedNode(totalRawLen, Kl720RawHeaderSize + o.startOffset,
      TensorDescriptor(o.outputIndex, Some(""), ConvertDataFormat(o.dataFormat, KL720),
        LegacyShape([1, AsInt32(o.chLength), AsInt32(o.rowLength), AsInt32(o.colLength)]),
        SingleDescriptor(AsInt32(o.outputRadix), o.outputScale)))
  }

  function Kl630Node(totalRawLen: nat, o: Onode630): RawFixedNode
  {
    RawFixedNode(totalRawLen, Kl630RawHeaderSize + o.startOffset,
      TensorDescriptor(o.idx, Some(""), ConvertDataFormat(o.fmt, KL630),
        LegacyShape([AsInt32(o.batch), AsInt32(o.chLength), AsInt32(o.rowLength), AsInt32(o.colLength)]),
        SingleDescriptor(AsInt32(o.radix), o.scale)))
  }

  /** The V2 header's shape and strides are INT32 and UINT32 respectively. */
  predicate ShapeTypesSupported(h: NpuNodeHeader)
  {
    h.shapeType == DInt32 && h.strideNpuType == DUInt32 && h.strideOnnxType == DUInt32
  }

  /** The arrays a V2 header points to hold what it announces. */
  predicate HeaderReadable(h: NpuNodeHeader)
  {
    h.shapeLen <= |h.shape| && h.shapeLen <= |h.strideNpu| && h.shapeLen <= |h.strideOnnx|
    && FillReadable(h.quantLen, h.scaleType, h.radixType, h.scale, h.radix)
  }

  /**
   * A V2 node: the shape and strides copied, the layout mapped with the KL730
   * table (for KL830 too), and the descriptors filled from the radix and scale
   * vectors; a fill failure loses the node.
   */
  function NpuNode(h: NpuNodeHeader): Option<RawFixedNode>
    requires HeaderReadable(h) && ShapeTypesSupported(h)
  {
    match FillSpec(h.quantLen, h.scaleType, h.radixType, h.scale, h.radix)
    case Err(_) => None
    case Ok(ds) =>
      Some(RawFixedNode(h.npuDataLen, h.npuDataStart,
        TensorDescriptor(h.index, Some(h.name), ConvertDataFormat(h.dataLayout, KL730),
          ShapeV2(h.shapeLen, Some(h.shape[..h.shapeLen]), Some(h.strideNpu[..h.shapeLen]), Some(h.strideOnnx[..h.shapeLen])),
          QuantV1(h.quantizedAxis, h.quantLen, Some(ds)))))
  }

  /** The records an accepted index reads exist and hold 32-bit values. */
  predicate RawReadable(raw: RawOutput, nodeIdx: nat)
  {
    BodyFits(raw)
    && (NodeIndexValid(nodeIdx, NodeTotal(raw.body)) ==>
          match raw.body
          case Kl520Body(_, metas) =>
            nodeIdx < |metas| && forall i :: 0 <= i <= nodeIdx ==> Kl520MetaInRange(metas[i])
          case Kl720Body(_, _, onodes) => nodeIdx < |onodes|
          case Kl630Body(_, _, onodes) => nodeIdx < |onodes|
          case NpuBody(_, headers) => nodeIdx < |headers| && HeaderReadable(headers[nodeIdx])
          case NoBody => true)
  }

  /** The node the extraction returns, or None where the library returns NULL. */
  function RawFixedNodeSpec(raw: RawOutput, nodeIdx: nat): Option<RawFixedNode>
    requires RawReadable(raw, nodeIdx)
  {
    if raw.magic == MagicInference then
      match raw.product
      case KL520 =>
        var n, metas := raw.body.outNodeNum, raw.body.metas;
        if !NodeIndexValid(nodeIdx, n) then None else Some(Kl520Node(n, metas, nodeIdx))
      case KL720 =>
        if !NodeIndexValid(nodeIdx, raw.body.totalNodes720) then None
        else Some(Kl720Node(raw.body.totalRawLen720, raw.body.onodes720[nodeIdx]))
      case KL630 =>
        if !NodeIndexValid(nodeIdx, raw.body.totalNodes630) then None
        else Some(Kl630Node(raw.body.totalRawLen630, raw.body.onodes630[nodeIdx]))
      case _ => None
    else if raw.magic == MagicInferenceV2 && IsV2Product(raw.product) then
      if !NodeIndexValid(nodeIdx, raw.body.nodeNum) then None
      else
        var h := raw.body.headers[nodeIdx];
        if !ShapeTypesSupported(h) then None else NpuNode(h)
    else None
  }

  /** kp_generic_inference_retrieve_raw_fixed_node, with the node-index check corrected. */
  method RetrieveRawFixedNode(raw: RawOutput, nodeIdx: nat) returns (r: Option<RawFixedNode>)
    requires RawReadable(raw, nodeIdx)
    ensures r == RawFixedNodeSpec(raw, nodeIdx)
  {
    r := None;
    if raw.magic == MagicInference {
      match raw.product
      case KL520 => {
        var n, metas := raw.body.outNodeNum, raw.body.metas;
        if !NodeIndexValid(nodeIdx, n) {
          return None;
        }
        var off := Kl520DataOffset(n, metas, nodeIdx);
        var m := metas[nodeIdx];
        var numData := Wrap32(m.height * m.channel * RoundUp(m.width, 16));
        var shape := [1, AsInt32(m.channel), AsInt32(m.height), AsInt32(m.width)];
        var desc := TensorDescriptor(nodeIdx, Some(""), ConvertDataFormat(m.dataLayout, KL520),
                                     LegacyShape(shape), SingleDescriptor(m.radix, m.scale));
        r := Some(RawFixedNode(numData, off, desc));
      }
      case KL720 => {
        if !NodeIndexValid(nodeIdx, raw.body.totalNodes720) {
          return None;
        }
        r := Some(Kl720Node(raw.body.totalRawLen720, raw.body.onodes720[nodeIdx]));
      }
      case KL630 => {
        if !NodeIndexValid(nodeIdx, raw.body.totalNodes630) {
          return None;
        }
        r := Some(Kl630Node(raw.body.totalRawLen630, raw.body.onodes630[nodeIdx]));
      }
      case _ => {
      }
    } else if raw.magic == MagicInferenceV2 && IsV2Product(raw.product) {
      if !NodeIndexValid(nodeIdx, raw.body.nodeNum) {
        return None;
      }
      var h := raw.body.headers[nodeIdx];
      if !ShapeTypesSupported(h) {
        return None;
      }
      var fill := FillDescriptors(h.quantLen, h.scaleType, h.radixType, h.scale, h.radix);
      FillMeetsSpec(h.quantLen, h.scaleType, h.radixType, h.scale, h.radix, fill);
      if fill.Err? {
        return None;
      }
      var shape := ShapeV2(h.shapeLen, Some(h.shape[..h.shapeLen]), Some(h.strideNpu[..h.shapeLen]),
                           Some(h.strideOnnx[..h.shapeLen]));
      var desc := TensorDescriptor(h.index, Some(h.name), ConvertDataFormat(h.dataLayout, KL730), shape,
                                   QuantV1(h.quantizedAxis, h.quantLen, Some(fill.value)));
      r := Some(RawFixedNode(h.npuDataLen, h.npuDataStart, desc));
    }
  }

  // ---------------------------------------------------------------------------
  // Properties of the extraction.

  /** The products whose results carry a node table the extraction reads. */
  predicate Extractable(raw: RawOutput)
  {
    (raw.magic == MagicInference && raw.product in {KL520, KL720, KL630})
    || (raw.magic == MagicInferenceV2 && IsV2Product(raw.product))
  }

  /**
   * A node is returned exactly when the result has a supported magic type and
   * product, the index names one of its nodes, and for V2 the shape types are
   * supported and the quantization descriptors can be filled.
   */
  lemma RawNodeAcceptance(raw: RawOutput, nodeIdx: nat)
    requires RawReadable(raw, nodeIdx)
    ensures RawFixedNodeSpec(raw, nodeIdx).Some? <==>
              Extractable(raw) && NodeIndexValid(nodeIdx, NodeTotal(raw.body))
              && (raw.magic == MagicInferenceV2 ==>
                    ShapeTypesSupported(raw.body.headers[nodeIdx])
                    && FillSpec(raw.body.headers[nodeIdx].quantLen, raw.body.headers[nodeIdx].scaleType,
                                raw.body.headers[nodeIdx].radixType, raw.body.headers[nodeIdx].scale,
                                raw.body.headers[nodeIdx].radix).Ok?)
  {
  }

  /**
   * Every returned node has a complete descriptor, so the library's
   * reallocation check passes on it. V1 nodes carry four-axis NPU and ONNX
   * shapes that agree, the identity permutation and one FLOAT32 descriptor;
   * V2 nodes carry shape_len axes and quantized_parameters_len descriptors.
   */
  lemma RawNodeDescriptorComplete(raw: RawOutput, nodeIdx: nat)
    requires RawReadable(raw, nodeIdx) && RawFixedNodeSpec(raw, nodeIdx).Some?
    ensures Populated(RawFixedNodeSpec(raw, nodeIdx).value.descriptor)
    ensures IsTensorInfoReallocated(RawFixedNodeSpec(raw, nodeIdx).value.descriptor) == Success
    ensures raw.magic == MagicInference ==>
              var d := RawFixedNodeSpec(raw, nodeIdx).value.descriptor;
              d.shape.ShapeV1? && d.shape.npu == d.shape.onnx && d.shape.perm == Some([0, 1, 2, 3])
              && d.quant.count == 1 && d.quant.descriptors.value[0].scaleType == DFloat32
    ensures raw.magic == MagicInferenceV2 ==>
              var d := RawFixedNodeSpec(raw, nodeIdx).value.descriptor;
              d.shape.ShapeV2? && d.shape.len == raw.body.headers[nodeIdx].shapeLen
              && d.quant.count == raw.body.headers[nodeIdx].quantLen
  {
    var d := RawFixedNodeSpec(raw, nodeIdx).value.descriptor;
    if raw.magic == MagicInferenceV2 {
      var h := raw.body.headers[nodeIdx];
      FillMeetsSpec(h.quantLen, h.scaleType, h.radixType, h.scale, h.radix,
                    FillSpec(h.quantLen, h.scaleType, h.radixType, h.scale, h.radix));
    }
    PopulatedPassesCheck(d);
  }

  /**
   * KL520 node data: the index is the node's position, the element count is
   * height * channel * the width rounded up to 16 (uint32), and the data
   * starts after the nodes before it.
   */
  lemma Kl520NodeLayout(raw: RawOutput, nodeIdx: nat)
    requires RawReadable(raw, nodeIdx) && raw.magic == MagicInference && raw.product == KL520
    requires RawFixedNodeSpec(raw, nodeIdx).Some?
    ensures var r := RawFixedNodeSpec(raw, nodeIdx).value;
            r.descriptor.index == nodeIdx
            && r.numData == Wrap32(Kl520NodeBytes(raw.body.metas[nodeIdx]))
            && r.dataOffset == Kl520DataStart(raw.body.outNodeNum, raw.body.metas, nodeIdx)
  {
  }
}
