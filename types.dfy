/**
 * Shared vocabulary of the Kneron host library model: status codes, chip and
 * format enumerations, the tensor descriptor every decoder produces, and the
 * little-endian byte and fixed-width integer helpers the wire formats need.
 *
 * The numeric values of the enumerations live in headers that are not part of
 * this model (kp_struct.h, model_type.h, kdp2_ipc_cmd.h), so the enumerations
 * are datatypes; every code the library does not name is an `Other*` case.
 */
module Types {

  datatype Option<T> = None | Some(value: T)

  datatype Result<T> = Ok(value: T) | Err(status: int)

  // Status codes. The numeric value is the suffix of the library's name for it.
  const Success: int := 0
  const ErrUsbTimeout: int := -7
  const ErrMemoryAllocationFailure: int := 9
  const ErrInvalidParam: int := 12
  const ErrSendDescFail: int := 13
  const ErrSendDataFail: int := 14
  const ErrSendDataTooLarge: int := 15
  const ErrInvalidModel: int := 21
  const ErrReceiveIncorrectHeaderStamp: int := 30
  const ErrReceiveSizeMismatch: int := 31
  const ErrReceiveJobIdMismatch: int := 32
  const ErrModelNotLoaded: int := 35
  const ErrInvalidCheckpointData: int := 36
  const DbgCheckpointEnd: int := 37
  const ErrFifoInputBufferCountNotEnough: int := 42
  const ErrInvalidInputNodeDataNumber: int := 48

  /** Device products and model target chips (the two enums name the same chips). */
  datatype Chip = KL520 | KL720 | KL530 | KL630 | KL730 | KL830 | OtherChip(code: nat)

  /** The magic type carried in every header stamp. */
  datatype Magic =
    | MagicInference
    | MagicInferenceV2
    | MagicCommand
    | MagicCustomized
    | MagicCheckpointData
    | MagicCheckpointDataV2
    | MagicOther(code: nat)

  /** kp_model_tensor_data_layout_t. */
  datatype DataLayout =
    | LayoutUnknown
    | Layout4W4C8B
    | Layout1W16C8B
    | Layout16W1C8B
    | Layout8W1C16B
    | LayoutRaw8B
    | LayoutRaw16B
    | LayoutRawFloat
    | Layout4W4C8BHL
    | Layout1W16C8BHL
    | Layout16W1C8BHL
    | Layout1W16C8BChCompact
    | Layout1W16C8BHLChCompact

  /**
   * A raw data-format code of a chip's compiler. `Named(n)` is the code the
   * chip's own DATA_FMT_<chip>_<n> constant has; any other code is `Unnamed`.
   */
  datatype FormatName =
    | Fmt4W4C8B | Fmt4W4C8BHL | Fmt16W1C8B | Fmt16W1C8BHL
    | Fmt1W16C8B | Fmt1W16C8BHL | Fmt1W16C8BChCompact | Fmt1W16C8BHLChCompact
    | Fmt8W1C16B | FmtRaw8 | FmtRaw16 | FmtRawFloat

  datatype RawFormat = Named(name: FormatName) | Unnamed(code: nat)

  /** kp_dtype_t. */
  datatype DType =
    | DInt8 | DInt16 | DInt32 | DInt64
    | DUInt8 | DUInt16 | DUInt32 | DUInt64
    | DFloat32 | DBFloat16 | DDouble64
    | DTypeOther(code: int)

  /** kp_channel_ordering_t. */
  datatype ChannelOrdering = OrderHCW | OrderCHW | OrderHWC | OrderDefault | OrderOther(code: nat)

  /** Legacy 4-D channel-order conversion codes. */
  datatype ConvertCode = ConvertNone | ConvertChw2Hcw | ConvertHcw2Chw | ConvertChw2Hwc | ConvertHcw2Hwc

  // ---------------------------------------------------------------------------
  // Tensor descriptor (kp_tensor_descriptor_t). Arrays the library allocates
  // are `Option`s: `None` is a NULL pointer left by a failed allocation.

  /** One fixed-point descriptor; `scale` is the scale as stored in `scaleType`
    * (the integer it holds, or the bit pattern of a floating-point scale). */
  datatype FixedPointDescriptor = FixedPointDescriptor(radix: int, scaleType: DType, scale: int)

  datatype ShapeInfo =
    | ShapeV1(npuLen: nat, npu: Option<seq<int>>, onnxLen: nat, onnx: Option<seq<int>>,
              permLen: nat, perm: Option<seq<int>>)
    | ShapeV2(len: nat, shape: Option<seq<int>>, strideNpu: Option<seq<int>>, strideOnnx: Option<seq<int>>)
    | ShapeOtherVersion(version: nat)

  datatype Quantization =
    | QuantV1(axis: int, count: nat, descriptors: Option<seq<FixedPointDescriptor>>)
    | QuantOtherVersion(version: nat)

  datatype TensorDescriptor = TensorDescriptor(
    index: nat,
    name: Option<string>,
    layout: DataLayout,
    shape: ShapeInfo,
    quant: Quantization)

  /** Every pointer of the descriptor is set and every array has its recorded length. */
  predicate Populated(d: TensorDescriptor)
  {
    d.name.Some?
    && d.quant.QuantV1? && d.quant.descriptors.Some? && |d.quant.descriptors.value| == d.quant.count
    && match d.shape
       case ShapeV1(nl, n, ol, o, pl, p) =>
         n.Some? && |n.value| == nl && o.Some? && |o.value| == ol && p.Some? && |p.value| == pl
       case ShapeV2(l, s, sn, so) =>
         s.Some? && |s.value| == l && sn.Some? && |sn.value| == l && so.Some? && |so.value| == l
       case ShapeOtherVersion(_) => false
  }

  // ---------------------------------------------------------------------------
  // Bytes and fixed-width integers.

  type byte = x: int | 0 <= x < 256

  const Pow32: int := 0x1_0000_0000

  /** The value modulo 2^32, as a uint32 variable holds it after C arithmetic. */
  function Wrap32(x: int): (r: nat)
    ensures r < Pow32
    ensures (x - r) % Pow32 == 0
  {
    x % Pow32
  }

  /** A uint32 bit pattern read back as an int32. */
  function AsInt32(x: int): (r: int)
    ensures -0x8000_0000 <= r < 0x8000_0000
    ensures (r - x) % Pow32 == 0
  {
    var w := Wrap32(x);
    if w >= 0x8000_0000 then w - Pow32 else w
  }

  function AsInt8(b: byte): (r: int)
    ensures -128 <= r < 128 && (r - b) % 256 == 0
  {
    if b >= 128 then b - 256 else b
  }

  function AsInt16(u: int): (r: int)
    requires 0 <= u < 0x1_0000
    ensures -0x8000 <= r < 0x8000 && (r - u) % 0x1_0000 == 0
  {
    if u >= 0x8000 then u - 0x1_0000 else u
  }

  /** The unsigned little-endian value of a byte string. */
  function LittleEndian(bs: seq<byte>): (r: nat)
    ensures |bs| == 0 ==> r == 0
  {
    if |bs| == 0 then 0 else bs[0] + 256 * LittleEndian(bs[1..])
  }

  lemma {:induction false} LittleEndianBound(bs: seq<byte>)
    ensures LittleEndian(bs) < Pow(256, |bs|)
  {
    if |bs| > 0 {
      LittleEndianBound(bs[1..]);
    }
  }

  function Pow(b: nat, e: nat): (r: nat)
    ensures b > 0 ==> r > 0
  {
    if e == 0 then 1 else b * Pow(b, e - 1)
  }

  /** The two's-complement value of a little-endian byte string. */
  function SignedLittleEndian(bs: seq<byte>): int
  {
    var u := LittleEndian(bs);
    if |bs| > 0 && bs[|bs| - 1] >= 128 then u - Pow(256, |bs|) else u
  }

  // ---------------------------------------------------------------------------
  // Arithmetic facts shared by the decoders.

  /** Reducing a summand modulo 2^32 first does not change the wrapped sum. */
  lemma WrapAdd(x: int, y: int)
    ensures Wrap32(Wrap32(x) + y) == Wrap32(x + y)
  {
    var k := x / Pow32;
    assert Wrap32(x) == x - k * Pow32;
    assert (x + y) == (Wrap32(x) + y) + k * Pow32;
  }

  lemma AddMultipleOfPow32(k: int, x: int)
    ensures (k * Pow32 + x) % Pow32 == x % Pow32
  {
  }

  /** Reducing a factor modulo 2^32 first does not change the wrapped product. */
  lemma WrapProduct(a: int, b: int)
    ensures Wrap32(Wrap32(a) * b) == Wrap32(a * b)
  {
    var q, m := a / Pow32, a % Pow32;
    assert a == q * Pow32 + m;
    assert a * b == (q * b) * Pow32 + m * b;
    AddMultipleOfPow32(q * b, m * b);
  }

  /** Euclidean division is unique: the quotient and remainder of q*s + r are q and r. */
  lemma DivModUnique(a: int, s: int, q: int, r: int)
    requires s > 0 && 0 <= r < s && a == q * s + r
    ensures a / s == q && a % s == r
  {
    var q', r' := a / s, a % s;
    assert a == q' * s + r';
    assert (q - q') * s == r' - r;
    if q' < q {
      MulAtLeast(q - q', s);
    } else if q' > q {
      MulAtLeast(q' - q, s);
    }
  }

  /** Multiplying by a non-negative factor keeps the order. */
  lemma MulMonotone(a: int, b: int, s: int)
    requires a <= b && s >= 0
    ensures a * s <= b * s
  {
  }

  lemma MulAtLeast(k: int, s: int)
    requires k >= 1 && s > 0
    ensures k * s >= s
  {
  }

}
