/**
 * The pure lookups of the inference library (src/kp_inference.c): header-stamp
 * verification, channel-ordering conversion codes, fixed-point element types,
 * image payload sizes, the column round-up and data-type widths.
 */
module Lookups {
  import opened Types

  /** kp_inference_header_stamp_t, decoded. */
  datatype HeaderStamp = HeaderStamp(magic: Magic, totalSize: nat, jobId: nat, statusCode: int)

  predicate IsInferenceMagic(m: Magic)
  {
    m == MagicInference || m == MagicInferenceV2
  }

  /**
   * verify_result_header_stamp: the checks run in a fixed order and the first
   * one that fails decides the result.
   */
  function VerifyResultHeaderStamp(stamp: HeaderStamp, checkTotalSize: nat, checkJobId: nat): (r: int)
    ensures r == Success <==>
              IsInferenceMagic(stamp.magic) && stamp.statusCode == Success
              && (checkJobId > 0 ==> stamp.jobId == checkJobId)
              && (checkTotalSize > 0 ==> stamp.totalSize == checkTotalSize)
    ensures !IsInferenceMagic(stamp.magic) ==> r == ErrReceiveIncorrectHeaderStamp
    ensures IsInferenceMagic(stamp.magic) && stamp.statusCode != Success ==> r == stamp.statusCode
    ensures (IsInferenceMagic(stamp.magic) && stamp.statusCode == Success
             && checkJobId > 0 && stamp.jobId != checkJobId) ==> r == ErrReceiveJobIdMismatch
    ensures (IsInferenceMagic(stamp.magic) && stamp.statusCode == Success
             && (checkJobId == 0 || stamp.jobId == checkJobId)
             && checkTotalSize > 0 && stamp.totalSize != checkTotalSize) ==> r == ErrReceiveSizeMismatch
  {
    if !IsInferenceMagic(stamp.magic) then ErrReceiveIncorrectHeaderStamp
    else if stamp.statusCode != Success then stamp.statusCode
    else if checkJobId > 0 && stamp.jobId != checkJobId then ErrReceiveJobIdMismatch
    else if checkTotalSize > 0 && stamp.totalSize != checkTotalSize then ErrReceiveSizeMismatch
    else Success
  }

  /** The products whose NPU works channel-first (KL720, KL630, KL730, KL830). */
  predicate ChannelFirstProduct(p: Chip)
  {
    p == KL720 || p == KL630 || p == KL730 || p == KL830
  }

  /**
   * get_channel_ordering_convert_code: KL520 converts from HCW, the
   * channel-first products convert from CHW, and every other ordering or
   * product needs no conversion.
   */
  function ChannelOrderingConvertCode(product: Chip, ordering: ChannelOrdering): (r: ConvertCode)
    ensures r == ConvertHcw2Chw <==> product == KL520 && ordering == OrderCHW
    ensures r == ConvertHcw2Hwc <==> product == KL520 && ordering == OrderHWC
    ensures r == ConvertChw2Hcw <==> ChannelFirstProduct(product) && ordering == OrderHCW
    ensures r == ConvertChw2Hwc <==> ChannelFirstProduct(product) && ordering == OrderHWC
  {
    match product
    case KL520 =>
      (match ordering
       case OrderCHW => ConvertHcw2Chw
       case OrderHWC => ConvertHcw2Hwc
       case _ => ConvertNone)
    case KL720 => ChannelFirstConvertCode(ordering)
    case KL630 => ChannelFirstConvertCode(ordering)
    case KL830 => ChannelFirstConvertCode(ordering)
    case KL730 => ChannelFirstConvertCode(ordering)
    case _ => ConvertNone
  }

  function ChannelFirstConvertCode(ordering: ChannelOrdering): ConvertCode
  {
    match ordering
    case OrderHCW => ConvertChw2Hcw
    case OrderHWC => ConvertChw2Hwc
    case _ => ConvertNone
  }

  /** kp_fixed_point_dtype_t. */
  datatype FixedPointDType = FixedInt8 | FixedInt16 | FixedUnknown

  /** Layouts that store one 8-bit value per element. */
  predicate Is8BitLayout(l: DataLayout)
  {
    l in {Layout4W4C8B, Layout1W16C8B, Layout1W16C8BChCompact, Layout16W1C8B, LayoutRaw8B}
  }

  /** Layouts that store one 16-bit word per element. */
  predicate Is16BitWordLayout(l: DataLayout)
  {
    l in {Layout8W1C16B, LayoutRaw16B}
  }

  /** Layouts that split each 16-bit value into a low and a high byte plane. */
  predicate IsHighLowLayout(l: DataLayout)
  {
    l in {Layout4W4C8BHL, Layout1W16C8BHL, Layout1W16C8BHLChCompact, Layout16W1C8BHL}
  }

  /** get_fixed_point_dtype: 8-bit layouts give INT8, 16-bit and HL layouts INT16, others UNKNOWN. */
  function FixedPointDTypeOf(layout: DataLayout): (r: FixedPointDType)
    ensures r == FixedInt8 <==> Is8BitLayout(layout)
    ensures r == FixedInt16 <==> Is16BitWordLayout(layout) || IsHighLowLayout(layout)
    ensures r == FixedUnknown <==> layout == LayoutUnknown || layout == LayoutRawFloat
  {
    match layout
    case Layout4W4C8B => FixedInt8
    case Layout1W16C8B => FixedInt8
    case Layout1W16C8BChCompact => FixedInt8
    case Layout16W1C8B => FixedInt8
    case LayoutRaw8B => FixedInt8
    case Layout8W1C16B => FixedInt16
    case Layout4W4C8BHL => FixedInt16
    case Layout1W16C8BHL => FixedInt16
    case Layout1W16C8BHLChCompact => FixedInt16
    case Layout16W1C8BHL => FixedInt16
    case LayoutRaw16B => FixedInt16
    case _ => FixedUnknown
  }

  /** Element byte size of a fixed-point output buffer: 2 for INT16, 1 otherwise. */
  function FixedElementSize(d: FixedPointDType): nat
  {
    if d == FixedInt16 then 2 else 1
  }

  /** kp_image_format_t. */
  datatype ImageFormat =
    | ImageRgb565
    | ImageRgba8888
    | ImageYuyv
    | ImageYCbCr422(variant: YCbCrOrder)
    | ImageRaw8
    | ImageYuv420
    | ImageUnknown
    | ImageOther(code: nat)

  /** The eight byte orders of the YCbCr 4:2:2 formats. */
  datatype YCbCrOrder = CrY1CbY0 | CbY1CrY0 | Y1CrY0Cb | Y1CbY0Cr | CrY0CbY1 | CbY0CrY1 | Y0CrY1Cb | Y0CbY1Cr

  /** Bytes per pixel times two, for the formats get_image_size knows. */
  function HalfBytesPerPixel(format: ImageFormat): (r: nat)
  {
    match format
    case ImageRgb565 => 4
    case ImageYuyv => 4
    case ImageYCbCr422(_) => 4
    case ImageRgba8888 => 8
    case ImageRaw8 => 2
    case ImageYuv420 => 3
    case _ => 0
  }

  /**
   * get_image_size: the payload bytes of an image. YUV420 is width*height*1.5
   * truncated; an unknown format gives size 0 and INVALID_PARAM.
   */
  function ImageSize(format: ImageFormat, width: nat, height: nat): (int, nat)
  {
    match format
    case ImageRgb565 => (Success, width * height * 2)
    case ImageYuyv => (Success, width * height * 2)
    case ImageYCbCr422(_) => (Success, width * height * 2)
    case ImageRgba8888 => (Success, width * height * 4)
    case ImageRaw8 => (Success, width * height)
    case ImageYuv420 => (Success, (3 * width * height) / 2)
    case _ => (ErrInvalidParam, 0)
  }

  /**
   * An image of a known format is width * height pixels of its size in bytes
   * (truncated for YUV420); any other format is INVALID_PARAM with size 0.
   */
  lemma ImageSizeBytes(format: ImageFormat, width: nat, height: nat)
    ensures ImageSize(format, width, height).0 == Success <==> HalfBytesPerPixel(format) > 0
    ensures ImageSize(format, width, height).0 != Success ==>
              ImageSize(format, width, height).0 == ErrInvalidParam && ImageSize(format, width, height).1 == 0
    ensures ImageSize(format, width, height).1 == (HalfBytesPerPixel(format) * width * height) / 2
  {
    var p := width * height;
    assert HalfBytesPerPixel(format) * width * height == HalfBytesPerPixel(format) * p;
  }

  /** The column roundings the library uses: KDP_COL_MIN_8 and KDP_COL_MIN_16. */
  predicate IsColumnRounding(r: nat)
  {
    r == 8 || r == 16
  }

  /**
   * round_up on uint32: `(num + (round - 1)) & ~(round - 1)`. For a power-of-two
   * rounding the mask `~(round - 1)` clears the low bits of the wrapped sum, that
   * is, it subtracts the sum's remainder modulo `round`.
   */
  function RoundUp(num: nat, roundNum: nat): nat
    requires num < Pow32 && IsColumnRounding(roundNum)
  {
    var s := Wrap32(num + (roundNum - 1));
    s - s % roundNum
  }

  /**
   * round_up gives the least multiple of the rounding that is at least `num`,
   * unless `num + roundNum - 1` overflows 32 bits, where the result wraps to 0.
   */
  lemma RoundUpIsLeastMultiple(num: nat, roundNum: nat)
    requires num < Pow32 && IsColumnRounding(roundNum)
    ensures num + roundNum - 1 < Pow32 ==>
              RoundUp(num, roundNum) % roundNum == 0
              && num <= RoundUp(num, roundNum) < num + roundNum
    ensures num + roundNum - 1 >= Pow32 ==> RoundUp(num, roundNum) == 0
  {
    var t := num + (roundNum - 1);
    if t < Pow32 {
      assert Wrap32(t) == t;
    } else {
      assert Wrap32(t) == t - Pow32;
    }
  }

  /** get_data_type_size: the byte width of each kp_dtype_t, 0 for an unknown type. */
  function DataTypeSize(d: DType): (r: nat)
    ensures r == 0 <==> d.DTypeOther?
    ensures d in {DInt8, DUInt8} ==> r == 1
    ensures d in {DInt16, DUInt16, DBFloat16} ==> r == 2
    ensures d in {DInt32, DUInt32, DFloat32} ==> r == 4
    ensures d in {DInt64, DUInt64, DDouble64} ==> r == 8
  {
    match d
    case DInt8 => 1
    case DInt16 => 2
    case DInt32 => 4
    case DInt64 => 8
    case DUInt8 => 1
    case DUInt16 => 2
    case DUInt32 => 4
    case DUInt64 => 8
    case DFloat32 => 4
    case DBFloat16 => 2
    case DDouble64 => 8
    case DTypeOther(_) => 0
  }

  predicate IsSignedInteger(d: DType)
  {
    d in {DInt8, DInt16, DInt32, DInt64}
  }

  /**
   * The value a `d`-typed slot at byte offset `off` holds: a two's-complement
   * integer for the signed types, the unsigned value (or the bit pattern of a
   * floating-point scale) for the others.
   */
  function TypedValueAt(d: DType, bytes: seq<byte>, off: nat): int
    requires off + DataTypeSize(d) <= |bytes|
  {
    var slot := bytes[off..off + DataTypeSize(d)];
    if IsSignedInteger(d) then SignedLittleEndian(slot) else LittleEndian(slot)
  }
}
