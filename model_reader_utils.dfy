/**
 * Descriptor utilities shared by the model readers: the per-chip map from a
 * compiler's raw data-format code to the tensor data layout, and the check
 * that a freshly allocated tensor descriptor has every array it needs.
 */
module ModelReaderUtils {
  import opened Types

  /** The layout that carries the same name as a data-format constant. */
  function LayoutNamed(n: FormatName): DataLayout
  {
    match n
    case Fmt4W4C8B => Layout4W4C8B
    case Fmt4W4C8BHL => Layout4W4C8BHL
    case Fmt16W1C8B => Layout16W1C8B
    case Fmt16W1C8BHL => Layout16W1C8BHL
    case Fmt1W16C8B => Layout1W16C8B
    case Fmt1W16C8BHL => Layout1W16C8BHL
    case Fmt1W16C8BChCompact => Layout1W16C8BChCompact
    case Fmt1W16C8BHLChCompact => Layout1W16C8BHLChCompact
    case Fmt8W1C16B => Layout8W1C16B
    case FmtRaw8 => LayoutRaw8B
    case FmtRaw16 => LayoutRaw16B
    case FmtRawFloat => LayoutRawFloat
  }

  /** The data-format names each chip's compiler table defines and the library maps. */
  function SupportedFormats(chip: Chip): set<FormatName>
  {
    match chip
    case KL520 => {Fmt4W4C8B, Fmt16W1C8B}
    case KL720 => {Fmt4W4C8B, Fmt16W1C8B, Fmt1W16C8B, Fmt1W16C8BHL, Fmt8W1C16B, FmtRaw8, FmtRaw16, FmtRawFloat}
    case KL530 => HlChipFormats()
    case KL630 => HlChipFormats()
    case KL730 => HlChipFormats() + {Fmt1W16C8BChCompact, Fmt1W16C8BHLChCompact}
    case _ => {}
  }

  function HlChipFormats(): set<FormatName>
  {
    {Fmt4W4C8B, Fmt4W4C8BHL, Fmt16W1C8B, Fmt16W1C8BHL, Fmt1W16C8B, Fmt1W16C8BHL,
     Fmt8W1C16B, FmtRaw8, FmtRaw16, FmtRawFloat}
  }

  /**
   * convert_data_format_to_kp_tensor_format: a code the chip's table names maps
   * to the layout of the same name; everything else is LAYOUT_UNKNOWN.
   */
  function ConvertDataFormat(format: RawFormat, chip: Chip): (r: DataLayout)
    ensures r != LayoutUnknown <==> format.Named? && format.name in SupportedFormats(chip)
    ensures r != LayoutUnknown ==> r == LayoutNamed(format.name)
  {
    match format
    case Unnamed(_) => LayoutUnknown
    case Named(n) =>
      match chip
      case KL520 =>
        (match n
         case Fmt4W4C8B => Layout4W4C8B
         case Fmt16W1C8B => Layout16W1C8B
         case _ => LayoutUnknown)
      case KL720 =>
        (match n
         case Fmt4W4C8B => Layout4W4C8B
         case Fmt16W1C8B => Layout16W1C8B
         case Fmt1W16C8B => Layout1W16C8B
         case Fmt1W16C8BHL => Layout1W16C8BHL
         case Fmt8W1C16B => Layout8W1C16B
         case FmtRaw8 => LayoutRaw8B
         case FmtRaw16 => LayoutRaw16B
         case FmtRawFloat => LayoutRawFloat
         case _ => LayoutUnknown)
      case KL530 => ConvertHlChipFormat(n)
      case KL630 => ConvertHlChipFormat(n)
      case KL730 =>
        (match n
         case Fmt1W16C8BChCompact => Layout1W16C8BChCompact
         case Fmt1W16C8BHLChCompact => Layout1W16C8BHLChCompact
         case _ => ConvertHlChipFormat(n))
      case _ => LayoutUnknown
  }

  /** The switch shared by the KL530, KL630 and KL730 branches. */
  function ConvertHlChipFormat(n: FormatName): DataLayout
  {
    match n
    case Fmt4W4C8B => Layout4W4C8B
    case Fmt4W4C8BHL => Layout4W4C8BHL
    case Fmt16W1C8B => Layout16W1C8B
    case Fmt16W1C8BHL => Layout16W1C8BHL
    case Fmt1W16C8B => Layout1W16C8B
    case Fmt1W16C8BHL => Layout1W16C8BHL
    case Fmt8W1C16B => Layout8W1C16B
    case FmtRaw8 => LayoutRaw8B
    case FmtRaw16 => LayoutRaw16B
    case FmtRawFloat => LayoutRawFloat
    case _ => LayoutUnknown
  }

  /** KL520 produces only the two 8-bit layouts; CH_COMPACT layouts come only from KL730. */
  lemma ChipSpecificLayouts(format: RawFormat, chip: Chip)
    ensures chip == KL520 && ConvertDataFormat(format, chip) != LayoutUnknown ==>
              ConvertDataFormat(format, chip) in {Layout4W4C8B, Layout16W1C8B}
    ensures ConvertDataFormat(format, chip) in {Layout1W16C8BChCompact, Layout1W16C8BHLChCompact} ==> chip == KL730
    ensures chip == KL720 ==> ConvertDataFormat(format, chip) !in {Layout4W4C8BHL, Layout16W1C8BHL}
    ensures chip !in {KL520, KL720, KL530, KL630, KL730} ==> ConvertDataFormat(format, chip) == LayoutUnknown
  {
  }

  /** KL530, KL630 and KL730 map all four HL variants their tables define. */
  lemma HlVariantsMapped(chip: Chip)
    requires chip in {KL530, KL630, KL730}
    ensures ConvertDataFormat(Named(Fmt4W4C8BHL), chip) == Layout4W4C8BHL
    ensures ConvertDataFormat(Named(Fmt16W1C8BHL), chip) == Layout16W1C8BHL
    ensures ConvertDataFormat(Named(Fmt1W16C8BHL), chip) == Layout1W16C8BHL
    ensures chip == KL730 ==> ConvertDataFormat(Named(Fmt1W16C8BHLChCompact), chip) == Layout1W16C8BHLChCompact
  {
  }

  /** Every array pointer the descriptor's lengths require is set. */
  predicate HasRequiredArrays(d: TensorDescriptor)
  {
    d.name.Some?
    && d.quant.QuantV1?
    && (d.quant.count > 0 ==> d.quant.descriptors.Some?)
    && match d.shape
       case ShapeV1(nl, n, ol, o, pl, p) =>
         (pl > 0 ==> p.Some?) && (nl > 0 ==> n.Some?) && (ol > 0 ==> o.Some?)
       case ShapeV2(l, s, sn, so) =>
         l > 0 ==> s.Some? && sn.Some? && so.Some?
       case ShapeOtherVersion(_) => false
  }

  /**
   * is_tensor_info_reallocted: success exactly when the name is present, the
   * quantization version is 1 with its descriptor list present when non-empty,
   * and the shape version is 1 or 2 with every non-empty array present; every
   * failure is MEMORY_ALLOCATION_FAILURE.
   */
  function IsTensorInfoReallocated(d: TensorDescriptor): (r: int)
    ensures r == Success || r == ErrMemoryAllocationFailure
    ensures r == Success <==> HasRequiredArrays(d)
  {
    if d.name.None? then ErrMemoryAllocationFailure
    else if !d.quant.QuantV1? then ErrMemoryAllocationFailure
    else if d.quant.count > 0 && d.quant.descriptors.None? then ErrMemoryAllocationFailure
    else match d.shape
      case ShapeV1(nl, n, ol, o, pl, p) =>
        if (pl > 0 && p.None?) || (nl > 0 && n.None?) || (ol > 0 && o.None?)
        then ErrMemoryAllocationFailure else Success
      case ShapeV2(l, s, sn, so) =>
        if l > 0 && (s.None? || sn.None? || so.None?) then ErrMemoryAllocationFailure else Success
      case ShapeOtherVersion(_) => ErrMemoryAllocationFailure
  }

  /** A descriptor with every array allocated passes the check; a missing name never does. */
  lemma PopulatedPassesCheck(d: TensorDescriptor)
    ensures Populated(d) ==> IsTensorInfoReallocated(d) == Success
    ensures d.name.None? ==> IsTensorInfoReallocated(d) == ErrMemoryAllocationFailure
  {
  }
}
