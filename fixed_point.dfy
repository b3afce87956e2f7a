/**
 * Fixed-point quantization helpers of the inference library
 * (src/kp_inference.c): reading one quantization descriptor, the per-element
 * factor step of the float decoder, and filling a descriptor list from the
 * typed radix and scale vectors of a V2 result.
 *
 * A float factor is `scale * 2^radix` in the library; the model keeps the
 * descriptor it is computed from instead of the floating-point value.
 */
module FixedPoint {
  import opened Types
  import opened Lookups

  /** The scale types get_quantization_parameters_v1_information converts to float. */
  predicate IsFactorScaleType(d: DType)
  {
    d in {DInt8, DInt16, DInt32, DUInt8, DUInt16, DUInt32, DFloat32}
  }

  /**
   * get_quantization_parameters_v1_information: an index at or beyond the
   * descriptor count is INVALID_PARAM, a scale type it does not convert is
   * INVALID_MODEL, and otherwise the descriptor at that index.
   */
  function DescriptorInformation(descriptors: seq<FixedPointDescriptor>, count: nat, idx: nat): (r: Result<FixedPointDescriptor>)
    requires count <= |descriptors|
    ensures idx >= count ==> r == Err(ErrInvalidParam)
    ensures idx < count ==> (r.Ok? <==> IsFactorScaleType(descriptors[idx].scaleType))
    ensures idx < count && !IsFactorScaleType(descriptors[idx].scaleType) ==> r == Err(ErrInvalidModel)
    ensures r.Ok? ==> r.value == descriptors[idx]
  {
    if idx >= count then Err(ErrInvalidParam)
    else if !IsFactorScaleType(descriptors[idx].scaleType) then Err(ErrInvalidModel)
    else Ok(descriptors[idx])
  }

  /** The two values get_quantization_parameters_factor updates through its out-pointers. */
  datatype FactorState = FactorState(idx: nat, factor: FixedPointDescriptor)

  /**
   * get_quantization_parameters_factor for the element at ONNX offset
   * `offset`. Channel-wise, a new factor is read at every multiple of the axis
   * stride and the descriptor index then advances; per-tensor, descriptor 0 is
   * read at offset 0. Elsewhere the state is kept.
   */
  function FactorStep(descriptors: seq<FixedPointDescriptor>, count: nat, channelWise: bool,
                      offset: nat, axisStride: nat, s: FactorState): (r: Result<FactorState>)
    requires count <= |descriptors|
    requires channelWise ==> axisStride > 0
    ensures r.Ok? ==> r.value.idx == s.idx || r.value.idx == s.idx + 1
    ensures r.Err? ==> r.status == ErrInvalidParam || r.status == ErrInvalidModel
  {
    if channelWise then
      if offset % axisStride == 0 then
        match DescriptorInformation(descriptors, count, s.idx)
        case Err(e) => Err(e)
        case Ok(d) => Ok(FactorState(s.idx + 1, d))
      else Ok(s)
    else if offset == 0 then
      match DescriptorInformation(descriptors, count, 0)
      case Err(e) => Err(e)
      case Ok(d) => Ok(FactorState(s.idx, d))
    else Ok(s)
  }

  /** The state after the steps for offsets 0..t, starting from index 0 and factor `init`. */
  function FactorsThrough(descriptors: seq<FixedPointDescriptor>, count: nat, channelWise: bool,
                          axisStride: nat, init: FixedPointDescriptor, t: nat): Result<FactorState>
    requires count <= |descriptors|
    requires channelWise ==> axisStride > 0
  {
    var prev := if t == 0 then Ok(FactorState(0, init))
                else FactorsThrough(descriptors, count, channelWise, axisStride, init, t - 1);
    match prev
    case Err(e) => Err(e)
    case Ok(s) => FactorStep(descriptors, count, channelWise, t, axisStride, s)
  }

  /** How t/s and t%s change from t to t + 1. */
  lemma DivModStep(t: nat, s: nat)
    requires s > 0
    ensures (t + 1) % s == 0 ==> (t + 1) / s == t / s + 1 && t % s == s - 1
    ensures (t + 1) % s != 0 ==> (t + 1) / s == t / s && (t + 1) % s == t % s + 1
  {
    var q, r := t / s, t % s;
    if r + 1 < s {
      DivModUnique(t + 1, s, q, r + 1);
    } else {
      DivModUnique(t + 1, s, q + 1, 0);
    }
  }

  /**
   * Channel-wise selection: the element at ONNX offset t is quantized with
   * descriptor t / axisStride, and after it the index has passed that
   * descriptor; the walk fails exactly when one of descriptors 0..t/axisStride
   * cannot be read.
   */
  lemma {:induction false} ChannelWiseSelection(descriptors: seq<FixedPointDescriptor>, count: nat, axisStride: nat,
                                                init: FixedPointDescriptor, t: nat)
    requires count <= |descriptors| && axisStride > 0
    ensures FactorsThrough(descriptors, count, true, axisStride, init, t).Ok? <==>
              forall k :: 0 <= k <= t / axisStride ==> DescriptorInformation(descriptors, count, k).Ok?
    ensures FactorsThrough(descriptors, count, true, axisStride, init, t).Ok? ==>
              t / axisStride < count
              && FactorsThrough(descriptors, count, true, axisStride, init, t).value
                == FactorState(t / axisStride + 1, descriptors[t / axisStride])
  {
    if t == 0 {
      assert 0 % axisStride == 0 && 0 / axisStride == 0;
    } else {
      ChannelWiseSelection(descriptors, count, axisStride, init, t - 1);
      DivModStep(t - 1, axisStride);
      var q := (t - 1) / axisStride;
      if t % axisStride == 0 {
        assert t / axisStride == q + 1;
        if FactorsThrough(descriptors, count, true, axisStride, init, t - 1).Ok? {
          assert (forall k :: 0 <= k <= t / axisStride ==> DescriptorInformation(descriptors, count, k).Ok?)
                 <==> DescriptorInformation(descriptors, count, q + 1).Ok?;
        }
      } else {
        assert t / axisStride == q;
      }
    }
  }

  /** When channel-wise selection reaches offset t, its factor is descriptor t / axisStride. */
  lemma ChannelWiseFactor(descriptors: seq<FixedPointDescriptor>, count: nat, axisStride: nat,
                          init: FixedPointDescriptor, t: nat)
    requires count <= |descriptors| && axisStride > 0
    requires FactorsThrough(descriptors, count, true, axisStride, init, t).Ok?
    ensures t / axisStride < count
    ensures FactorsThrough(descriptors, count, true, axisStride, init, t).value.factor == descriptors[t / axisStride]
  {
    ChannelWiseSelection(descriptors, count, axisStride, init, t);
  }

  /** Per-tensor selection: every element uses descriptor 0, which must be readable. */
  lemma {:induction false} PerTensorSelection(descriptors: seq<FixedPointDescriptor>, count: nat, init: FixedPointDescriptor, t: nat)
    requires count <= |descriptors|
    ensures FactorsThrough(descriptors, count, false, 0, init, t).Ok? <==> DescriptorInformation(descriptors, count, 0).Ok?
    ensures FactorsThrough(descriptors, count, false, 0, init, t).Ok? ==>
              FactorsThrough(descriptors, count, false, 0, init, t).value == FactorState(0, descriptors[0])
  {
    if t > 0 {
      PerTensorSelection(descriptors, count, init, t - 1);
    }
  }

  // ---------------------------------------------------------------------------
  // fill_quantized_fix_point_descripter

  /** The radix types the fill accepts. */
  predicate IsRadixType(d: DType)
  {
    d in {DInt8, DInt16, DInt32}
  }

  /** The typed vectors hold `len` elements of their types. */
  predicate FillReadable(len: nat, scaleType: DType, radixType: DType, scale: seq<byte>, radix: seq<byte>)
  {
    len * DataTypeSize(scaleType) <= |scale| && len * DataTypeSize(radixType) <= |radix|
  }

  /** Descriptor `idx` of a fill: the idx-th radix and the idx-th scale of their types. */
  function FilledDescriptor(scaleType: DType, radixType: DType, scale: seq<byte>, radix: seq<byte>, idx: nat, len: nat)
    : FixedPointDescriptor
    requires idx < len && FillReadable(len, scaleType, radixType, scale, radix)
  {
    SlotInBounds(idx, len, DataTypeSize(scaleType), |scale|);
    SlotInBounds(idx, len, DataTypeSize(radixType), |radix|);
    FixedPointDescriptor(
      TypedValueAt(radixType, radix, idx * DataTypeSize(radixType)),
      scaleType,
      TypedValueAt(scaleType, scale, idx * DataTypeSize(scaleType)))
  }

  lemma SlotInBounds(idx: nat, len: nat, w: nat, size: nat)
    requires idx < len && len * w <= size
    ensures idx * w + w <= size
  {
    assert (idx + 1) * w <= len * w by {
      MulMonotone(idx + 1, len, w);
    }
  }


  /** The list a fill produces, or its failure. */
  function FillSpec(len: nat, scaleType: DType, radixType: DType, scale: seq<byte>, radix: seq<byte>)
    : Result<seq<FixedPointDescriptor>>
    requires FillReadable(len, scaleType, radixType, scale, radix)
  {
    if len > 0 && (scaleType.DTypeOther? || !IsRadixType(radixType)) then Err(ErrInvalidModel)
    else Ok(seq(len, i requires 0 <= i < len => FilledDescriptor(scaleType, radixType, scale, radix, i, len)))
  }

  /**
   * fill_quantized_fix_point_descripter: an empty list always succeeds; a
   * non-empty one fails with INVALID_MODEL on an unknown scale type or a radix
   * type other than int8/int16/int32, and otherwise holds the idx-th radix and
   * scale at position idx.
   */
  method FillDescriptors(len: nat, scaleType: DType, radixType: DType, scale: seq<byte>, radix: seq<byte>)
    returns (r: Result<seq<FixedPointDescriptor>>)
    requires FillReadable(len, scaleType, radixType, scale, radix)
    ensures r.Err? <==> len > 0 && (scaleType.DTypeOther? || !IsRadixType(radixType))
    ensures r.Err? ==> r.status == ErrInvalidModel
    ensures r.Ok? ==> |r.value| == len
                      && forall i :: 0 <= i < len ==>
                           r.value[i] == FilledDescriptor(scaleType, radixType, scale, radix, i, len)
  {
    var list := new FixedPointDescriptor[len];
    var idx := 0;
    while idx < len
      invariant 0 <= idx <= len
      invariant idx > 0 ==> !scaleType.DTypeOther? && IsRadixType(radixType)
      invariant forall i :: 0 <= i < idx ==> list[i] == FilledDescriptor(scaleType, radixType, scale, radix, i, len)
    {
      if scaleType.DTypeOther? {
        return Err(ErrInvalidModel);
      }
      var sw := DataTypeSize(scaleType);
      SlotInBounds(idx, len, sw, |scale|);
      var scaleValue := TypedValueAt(scaleType, scale, idx * sw);
      if !IsRadixType(radixType) {
        return Err(ErrInvalidModel);
      }
      var rw := DataTypeSize(radixType);
      SlotInBounds(idx, len, rw, |radix|);
      list[idx] := FixedPointDescriptor(TypedValueAt(radixType, radix, idx * rw), scaleType, scaleValue);
      assert list[idx] == FilledDescriptor(scaleType, radixType, scale, radix, idx, len);
      idx := idx + 1;
    }
    r := Ok(list[..]);
  }

  /** A result meeting the fill's postcondition is the list FillSpec describes. */
  lemma FillMeetsSpec(len: nat, scaleType: DType, radixType: DType, scale: seq<byte>, radix: seq<byte>,
                      r: Result<seq<FixedPointDescriptor>>)
    requires FillReadable(len, scaleType, radixType, scale, radix)
    requires r.Err? <==> len > 0 && (scaleType.DTypeOther? || !IsRadixType(radixType))
    requires r.Err? ==> r.status == ErrInvalidModel
    requires r.Ok? ==> |r.value| == len
                       && forall i :: 0 <= i < len ==>
                            r.value[i] == FilledDescriptor(scaleType, radixType, scale, radix, i, len)
    ensures r == FillSpec(len, scaleType, radixType, scale, radix)
  {
    if r.Ok? {
      assert r.value == FillSpec(len, scaleType, radixType, scale, radix).value;
    }
  }
}
