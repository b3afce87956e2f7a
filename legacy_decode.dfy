/**
 * The 4-D conversion of a V1 result node (the shape-version-1 branches of
 * kp_generic_inference_retrieve_fixed_node and
 * kp_generic_inference_retrieve_float_node in src/kp_inference.c).
 *
 * Every branch is a three-level loop nest whose innermost statement copies one
 * NPU element to the next output position. A `LoopNest` records the three
 * extents and a `GatherPlan` the NPU element index the loop variables select.
 */
module LegacyDecode {
  import opened Types
  import opened Lookups

  /** The three loop orders of the 1W16C8B branches. */
  datatype BlockOrder =
    | BlockHcw           // loops h, c, w
    | BlockHwc           // loops h, w, c
    | BlockChannelMajor  // loops c, then i over the h*w positions

  /** The NPU element index a branch reads for loop variables (x, y, z). */
  datatype GatherPlan =
    | Strided(sx: int, sy: int, sz: int)
    | ChannelBlocks(order: BlockOrder, height: int, width: int)

  datatype LoopNest = LoopNest(nx: nat, ny: nat, nz: nat, plan: GatherPlan)

  /** KDP_CHANNEL_MIN_16: channels per group of the 1W16C8B layout. */
  const ChannelGroup: int := 16

  /**
   * The 1W16C8B element of channel c at spatial position p (p = h*width + w):
   * groups of 16 channels are stored one after another, each group holding
   * its 16 channels side by side for every spatial position.
   */
  function BlockIndex(height: int, width: int, c: int, p: int): int
    requires c >= 0
  {
    (c / ChannelGroup) * (height * width * ChannelGroup) + p * ChannelGroup + c % ChannelGroup
  }

  function SourceIndex(plan: GatherPlan, x: int, y: int, z: int): int
    requires x >= 0 && y >= 0 && z >= 0
  {
    match plan
    case Strided(sx, sy, sz) => x * sx + y * sy + z * sz
    case ChannelBlocks(order, height, width) =>
      match order
      case BlockHcw => BlockIndex(height, width, y, x * width + z)
      case BlockHwc => BlockIndex(height, width, z, x * width + y)
      case BlockChannelMajor => BlockIndex(height, width, x, y)
  }

  // ---------------------------------------------------------------------------
  // The loop positions a loop nest visits, in the order the loops run.

  datatype Pos = Pos(x: nat, y: nat, z: nat)

  function Row(nz: nat, x: nat, y: nat): (r: seq<Pos>)
    ensures |r| == nz
  {
    seq(nz, z requires 0 <= z => Pos(x, y, z))
  }

  /** The first k rows of plane x. */
  function Plane(nz: nat, x: nat, k: nat): seq<Pos>
  {
    if k == 0 then [] else Plane(nz, x, k - 1) + Row(nz, x, k - 1)
  }

  /** The first k planes. */
  function Block(ny: nat, nz: nat, k: nat): seq<Pos>
  {
    if k == 0 then [] else Block(ny, nz, k - 1) + Plane(nz, k - 1, ny)
  }

  /** The loop positions of a nest, in loop order. */
  function Visits(nest: LoopNest): seq<Pos>
  {
    Block(nest.ny, nest.nz, nest.nx)
  }

  /** y*n + z < k*n when y < k and z < n. */
  lemma MulLess(y: nat, k: nat, z: nat, n: nat)
    requires y < k && z < n
    ensures y * n + z < k * n
  {
    assert (y + 1) * n <= k * n by {
      MulMonotone(y + 1, k, n);
    }
  }


  lemma {:induction false} PlaneLength(nz: nat, x: nat, k: nat)
    ensures |Plane(nz, x, k)| == k * nz
  {
    if k > 0 {
      PlaneLength(nz, x, k - 1);
      MulStep(k, nz);
    }
  }

  lemma {:induction false} PlaneAt(nz: nat, x: nat, k: nat, y: nat, z: nat)
    requires y < k && z < nz
    ensures y * nz + z < k * nz && |Plane(nz, x, k)| == k * nz
    ensures Plane(nz, x, k)[y * nz + z] == Pos(x, y, z)
  {
    PlaneLength(nz, x, k);
    MulLess(y, k, z, nz);
    PlaneLength(nz, x, k - 1);
    if y < k - 1 {
      PlaneAt(nz, x, k - 1, y, z);
    } else {
      assert y * nz == (k - 1) * nz;
    }
  }

  lemma {:induction false} BlockLength(ny: nat, nz: nat, k: nat)
    ensures |Block(ny, nz, k)| == k * (ny * nz)
  {
    if k > 0 {
      BlockLength(ny, nz, k - 1);
      PlaneLength(nz, k - 1, ny);
      MulStep(k, ny * nz);
    }
  }

  lemma MulStep(k: nat, m: nat)
    requires k > 0
    ensures (k - 1) * m + m == k * m
  {
  }

  lemma {:induction false} BlockAt(ny: nat, nz: nat, k: nat, x: nat, off: nat, y: nat, z: nat)
    requires x < k && y < ny && z < nz && off == y * nz + z
    ensures x * (ny * nz) + off < k * (ny * nz) && |Block(ny, nz, k)| == k * (ny * nz)
    ensures Block(ny, nz, k)[x * (ny * nz) + off] == Pos(x, y, z)
  {
    PlaneAt(nz, x, ny, y, z);
    BlockLength(ny, nz, k);
    BlockLength(ny, nz, k - 1);
    MulLess(x, k, off, ny * nz);
    if x < k - 1 {
      BlockAt(ny, nz, k - 1, x, off, y, z);
    } else {
      assert x * (ny * nz) == (k - 1) * (ny * nz);
    }
  }

  /** The row-major position of (x, y, z) in an [_, ny, nz] box. */
  function Flat3(ny: int, nz: int, x: int, y: int, z: int): int
  {
    (x * ny + y) * nz + z
  }

  lemma FlatIndex(x: int, y: int, z: int, ny: int, nz: int)
    ensures Flat3(ny, nz, x, y, z) == x * (ny * nz) + (y * nz + z)
  {
  }

  /**
   * A nest visits nx*ny*nz positions, and the visit at the row-major
   * position of (x, y, z) is the loop variables (x, y, z).
   */
  lemma VisitsAt(nest: LoopNest, x: nat, y: nat, z: nat)
    requires x < nest.nx && y < nest.ny && z < nest.nz
    ensures |Visits(nest)| == nest.nx * (nest.ny * nest.nz)
    ensures 0 <= Flat3(nest.ny, nest.nz, x, y, z) < |Visits(nest)|
    ensures Visits(nest)[Flat3(nest.ny, nest.nz, x, y, z)] == Pos(x, y, z)
  {
    var ny, nz := nest.ny, nest.nz;
    var off := y * nz + z;
    FlatIndex(x, y, z, ny, nz);
    BlockAt(ny, nz, nest.nx, x, off, y, z);
    var p := x * (ny * nz) + off;
    assert Flat3(ny, nz, x, y, z) == p;
    assert Visits(nest) == Block(ny, nz, nest.nx);
  }

  lemma {:induction false} PlanePrefix(nz: nat, x: nat, k: nat, k': nat)
    requires k <= k'
    ensures Plane(nz, x, k) <= Plane(nz, x, k')
  {
    if k < k' {
      PlanePrefix(nz, x, k, k' - 1);
    }
  }

  lemma {:induction false} BlockPrefix(ny: nat, nz: nat, k: nat, k': nat)
    requires k <= k'
    ensures Block(ny, nz, k) <= Block(ny, nz, k')
  {
    if k < k' {
      BlockPrefix(ny, nz, k, k' - 1);
    }
  }

  /** The rows of plane x up to and including (x, y, z) are a prefix of the whole plane. */
  lemma RowIsPrefix(nz: nat, ny: nat, x: nat, y: nat, z: nat)
    requires y < ny && z < nz
    ensures Plane(nz, x, y) + Row(nz, x, y)[..z + 1] <= Plane(nz, x, ny)
  {
    var pl, r := Plane(nz, x, y), Row(nz, x, y);
    PlanePrefix(nz, x, y + 1, ny);
    assert Plane(nz, x, y + 1) == pl + r;
    PrefixAppend(pl, r[..z + 1], r);
    PrefixTrans(pl + r[..z + 1], pl + r, Plane(nz, x, ny));
  }

  /** What the loops have visited up to and including (x, y, z) is a prefix of all visits. */
  lemma NextIsPrefix(nest: LoopNest, x: nat, y: nat, z: nat)
    requires x < nest.nx && y < nest.ny && z < nest.nz
    ensures Block(nest.ny, nest.nz, x) + Plane(nest.nz, x, y) + Row(nest.nz, x, y)[..z + 1] <= Visits(nest)
  {
    var b, pr := Block(nest.ny, nest.nz, x), Plane(nest.nz, x, y) + Row(nest.nz, x, y)[..z + 1];
    PlaneInBlock(nest.ny, nest.nz, nest.nx, x, pr) by {
      RowIsPrefix(nest.nz, nest.ny, x, y, z);
    }
    SeqAssoc(b, Plane(nest.nz, x, y), Row(nest.nz, x, y)[..z + 1]);
  }

  /** A prefix of plane x, appended to the planes before it, is a prefix of the whole block. */
  lemma PlaneInBlock(ny: nat, nz: nat, nx: nat, x: nat, pr: seq<Pos>)
    requires x < nx && pr <= Plane(nz, x, ny)
    ensures Block(ny, nz, x) + pr <= Block(ny, nz, nx)
  {
    var b, pl := Block(ny, nz, x), Plane(nz, x, ny);
    BlockPrefix(ny, nz, x + 1, nx);
    assert Block(ny, nz, x + 1) == b + pl;
    PrefixAppend(b, pr, pl);
    PrefixTrans(b + pr, b + pl, Block(ny, nz, nx));
  }

  lemma SeqAssoc<T>(a: seq<T>, b: seq<T>, c: seq<T>)
    ensures a + b + c == a + (b + c)
  {
  }

  lemma PrefixTrans<T>(a: seq<T>, b: seq<T>, c: seq<T>)
    requires a <= b && b <= c
    ensures a <= c
  {
  }

  lemma PrefixAppend<T>(a: seq<T>, b: seq<T>, c: seq<T>)
    requires b <= c
    ensures a + b <= a + c
  {
    assert forall k :: 0 <= k < |a + b| ==> (a + b)[k] == (a + c)[k] by {
      forall k | 0 <= k < |a + b|
        ensures (a + b)[k] == (a + c)[k]
      {
        if k >= |a| {
          assert (a + b)[k] == b[k - |a|];
        }
      }
    }
  }

  /** The NPU element index the nest reads at a visited position. */
  function SourceAt(nest: LoopNest, p: Pos): int
  {
    SourceIndex(nest.plan, p.x, p.y, p.z)
  }

  // ---------------------------------------------------------------------------
  // Elements.

  /** Element i of the raw data: an int16 word when `wide`, an int8 byte otherwise. */
  predicate LegacyReadable(wide: bool, data: seq<byte>, i: int)
  {
    0 <= i && if wide then 2 * i + 1 < |data| else i < |data|
  }

  function LegacyElement(wide: bool, data: seq<byte>, i: int): (v: int)
    requires LegacyReadable(wide, data, i)
    ensures wide ==> -0x8000 <= v < 0x8000
    ensures !wide ==> -128 <= v < 128
  {
    if wide then AsInt16((data[2 * i] as int) + 256 * (data[2 * i + 1] as int)) else AsInt8(data[i])
  }

  predicate GatherReadable(nest: LoopNest, wide: bool, data: seq<byte>)
  {
    forall k :: 0 <= k < |Visits(nest)| ==> LegacyReadable(wide, data, SourceAt(nest, Visits(nest)[k]))
  }

  /** Appending the next element of a row to what was visited before it. */
  lemma RowStep(before: seq<Pos>, row: seq<Pos>, z: nat)
    requires z < |row|
    ensures before + row[..z] + [row[z]] == before + row[..z + 1]
  {
    assert row[..z + 1] == row[..z] + [row[z]];
  }

  /** `out` holds, in order, the readable elements at the positions `seen`. */
  predicate Gathered(nest: LoopNest, wide: bool, data: seq<byte>, seen: seq<Pos>, out: seq<int>)
  {
    |out| == |seen|
    && forall k :: 0 <= k < |out| ==>
         LegacyReadable(wide, data, SourceAt(nest, seen[k])) && out[k] == LegacyElement(wide, data, SourceAt(nest, seen[k]))
  }

  /** One turn of the innermost loop: the next visit is readable and its element extends the output. */
  lemma GatherStep(nest: LoopNest, wide: bool, data: seq<byte>, seen: seq<Pos>, out: seq<int>, p: Pos)
    requires GatherReadable(nest, wide, data)
    requires Gathered(nest, wide, data, seen, out) && seen + [p] <= Visits(nest)
    ensures LegacyReadable(wide, data, SourceAt(nest, p))
    ensures Gathered(nest, wide, data, seen + [p], out + [LegacyElement(wide, data, SourceAt(nest, p))])
  {
    assert Visits(nest)[|seen|] == (seen + [p])[|seen|] == p;
  }

  /**
   * A conversion loop nest: the output holds, in loop order, the raw
   * elements the plan selects.
   */
  method Gather(nest: LoopNest, wide: bool, data: seq<byte>) returns (out: seq<int>)
    requires GatherReadable(nest, wide, data)
    ensures |out| == |Visits(nest)|
    ensures forall k :: 0 <= k < |out| ==> out[k] == LegacyElement(wide, data, SourceAt(nest, Visits(nest)[k]))
  {
    ghost var seen: seq<Pos> := [];
    out := [];
    for x := 0 to nest.nx
      invariant seen == Block(nest.ny, nest.nz, x) && seen <= Visits(nest)
      invariant Gathered(nest, wide, data, seen, out)
    {
      EmptyTail(Block(nest.ny, nest.nz, x), Plane(nest.nz, x, 0));
      for y := 0 to nest.ny
        invariant seen == Block(nest.ny, nest.nz, x) + Plane(nest.nz, x, y) && seen <= Visits(nest)
        invariant Gathered(nest, wide, data, seen, out)
      {
        EmptyTail(Block(nest.ny, nest.nz, x) + Plane(nest.nz, x, y), Row(nest.nz, x, y)[..0]);
        for z := 0 to nest.nz
          invariant seen == Block(nest.ny, nest.nz, x) + Plane(nest.nz, x, y) + Row(nest.nz, x, y)[..z]
          invariant seen <= Visits(nest)
          invariant Gathered(nest, wide, data, seen, out)
        {
          NextIsPrefix(nest, x, y, z);
          RowStep(Block(nest.ny, nest.nz, x) + Plane(nest.nz, x, y), Row(nest.nz, x, y), z);
          GatherStep(nest, wide, data, seen, out, Pos(x, y, z));
          out := out + [LegacyElement(wide, data, SourceAt(nest, Pos(x, y, z)))];
          seen := seen + [Pos(x, y, z)];
        }
        PlaneStep(Block(nest.ny, nest.nz, x), nest.nz, x, y);
      }
    }
  }

  lemma EmptyTail(a: seq<Pos>, b: seq<Pos>)
    requires b == []
    ensures a + b == a
  {
  }

  /** A whole row finishes the next row of the plane. */
  lemma PlaneStep(before: seq<Pos>, nz: nat, x: nat, y: nat)
    ensures before + Plane(nz, x, y) + Row(nz, x, y)[..nz] == before + Plane(nz, x, y + 1)
  {
    assert Row(nz, x, y)[..nz] == Row(nz, x, y);
    SeqAssoc(before, Plane(nz, x, y), Row(nz, x, y));
  }

  // ---------------------------------------------------------------------------
  // The branches.

  /**
   * The NPU dimensions of a V1 node: shape_npu[1..3], held in `int` variables
   * as the source holds them. Nothing bounds them from below: a metadata value
   * of 2^31 or more reads back negative.
   */
  datatype LegacyDims = LegacyDims(channel: int, height: int, width: int)

  /** How often `for (int i = 0; i < n; i++)` runs its body: n times, or not at all when n <= 0. */
  function Trips(n: int): nat
  {
    if n > 0 then n else 0
  }

  /**
   * The padded row width `width_aligned = round_up(width, k)`: the `int`
   * width is passed as a uint32 and the uint32 result is stored back in an
   * `int`.
   */
  function PaddedWidth(width: int, k: nat): int
    requires IsColumnRounding(k)
  {
    AsInt32(RoundUp(Wrap32(width), k))
  }

  /**
   * A width from 0 up to 2^31 - k is padded to the least multiple of k at or
   * above it; a larger positive width pads to 2^31, which the `int` holds as
   * -2^31.
   */
  lemma PaddedWidthFacts(width: int, k: nat)
    requires IsColumnRounding(k) && width < 0x8000_0000
    ensures 0 <= width <= 0x8000_0000 - k ==>
              PaddedWidth(width, k) % k == 0 && width <= PaddedWidth(width, k) < width + k
    ensures 0x8000_0000 - k < width ==> PaddedWidth(width, k) == -0x8000_0000
  {
    if 0 <= width {
      RoundUpIsLeastMultiple(width, k);
      var r := RoundUp(width, k);
      Int32OfUnsigned(r);
      if 0x8000_0000 - k < width {
        SameMultiple(r, 0x8000_0000, k);
      }
    }
  }

  /** A value below 2^32 read back as an int32: itself below 2^31, else 2^32 less. */
  lemma Int32OfUnsigned(x: nat)
    requires x < Pow32
    ensures AsInt32(x) == if x >= 0x8000_0000 then x - Pow32 else x
  {
    assert Wrap32(x) == x;
  }

  /** Two multiples of k less than k apart are equal. */
  lemma SameMultiple(a: int, b: int, k: nat)
    requires k > 0 && a % k == 0 && b % k == 0 && a - k < b < a + k
    ensures a == b
  {
    var p, q := a / k, b / k;
    assert a == p * k && b == q * k;
    assert (p - q) * k == a - b;
    if p > q {
      MulAtLeast(p - q, k);
    } else if p < q {
      MulAtLeast(q - p, k);
    }
  }

  /**
   * The four reorderings and the plain copy over rows padded to `aligned`
   * elements. Every `for` runs Trips of its bound; the plain copy's outer
   * loop runs to the `int` product height * channel.
   */
  function StridedNest(code: ConvertCode, d: LegacyDims, aligned: int): LoopNest
  {
    var c, h, w := d.channel, d.height, d.width;
    match code
    case ConvertHcw2Chw => LoopNest(Trips(c), Trips(h), Trips(w), Strided(aligned, c * aligned, 1))
    case ConvertChw2Hcw => LoopNest(Trips(h), Trips(c), Trips(w), Strided(aligned, h * aligned, 1))
    case ConvertHcw2Hwc => LoopNest(Trips(h), Trips(w), Trips(c), Strided(c * aligned, 1, aligned))
    case ConvertChw2Hwc => LoopNest(Trips(h), Trips(w), Trips(c), Strided(aligned, 1, h * aligned))
    case ConvertNone => LoopNest(Trips(h * c), Trips(w), 1, Strided(aligned, 1, 0))
  }

  /**
   * The loop nest of a V1 node by layout and conversion code: 8W1C16B rows are
   * padded to 8 words, other 8-bit layouts to 16 bytes, and 1W16C8B cannot be
   * converted from HCW.
   */
  function LegacyNest(layout: DataLayout, code: ConvertCode, d: LegacyDims): (r: Result<LoopNest>)
    ensures r.Err? <==> layout == Layout1W16C8B && code in {ConvertHcw2Chw, ConvertHcw2Hwc}
  {
    var c, h, w := d.channel, d.height, d.width;
    if layout == Layout8W1C16B then Ok(StridedNest(code, d, PaddedWidth(w, 8)))
    else if layout == Layout1W16C8B then
      match code
      case ConvertHcw2Chw => Err(ErrInvalidModel)
      case ConvertHcw2Hwc => Err(ErrInvalidModel)
      case ConvertChw2Hcw => Ok(LoopNest(Trips(h), Trips(c), Trips(w), ChannelBlocks(BlockHcw, h, w)))
      case ConvertChw2Hwc => Ok(LoopNest(Trips(h), Trips(w), Trips(c), ChannelBlocks(BlockHwc, h, w)))
      case ConvertNone => Ok(LoopNest(Trips(c), Trips(h * w), 1, ChannelBlocks(BlockChannelMajor, h, w)))
    else Ok(StridedNest(code, d, PaddedWidth(w, 16)))
  }

  /**
   * Whether a branch's loops run their body at all: every bound positive, where
   * the plain copies test the products height * channel (strided) and
   * height * width (1W16C8B) instead of the two extents.
   */
  predicate LoopsRun(layout: DataLayout, code: ConvertCode, d: LegacyDims)
  {
    if code == ConvertNone && layout == Layout1W16C8B then d.channel > 0 && d.height * d.width > 0
    else if code == ConvertNone then d.height * d.channel > 0 && d.width > 0
    else d.channel > 0 && d.height > 0 && d.width > 0
  }

  /** Only 8W1C16B nodes hold 16-bit words. */
  predicate LegacyWide(layout: DataLayout)
  {
    layout == Layout8W1C16B
  }

  /** The padded row width a strided branch uses. */
  function AlignedWidth(layout: DataLayout, d: LegacyDims): int
  {
    if layout == Layout8W1C16B then PaddedWidth(d.width, 8) else PaddedWidth(d.width, 16)
  }

  /** Every layout other than 1W16C8B takes a strided branch over its padded row width. */
  lemma LegacyNestStrided(layout: DataLayout, code: ConvertCode, d: LegacyDims)
    requires layout != Layout1W16C8B
    ensures LegacyNest(layout, code, d) == Ok(StridedNest(code, d, AlignedWidth(layout, d)))
    ensures 0 <= d.width <= 0x8000_0000 - 16 ==> d.width <= AlignedWidth(layout, d) < d.width + 16
  {
    if 0 <= d.width <= 0x8000_0000 - 16 {
      PaddedWidthFacts(d.width, 8);
      PaddedWidthFacts(d.width, 16);
    }
  }

  lemma ProductOrders(c: int, h: int, w: int)
    ensures h * (c * w) == c * (h * w) && h * (w * c) == c * (h * w) && (h * c) * (w * 1) == c * (h * w)
  {
  }

  /**
   * A branch whose loops run writes channel*height*width elements; one with a
   * bound at or below 0 writes none.
   */
  lemma LegacyNestCount(layout: DataLayout, code: ConvertCode, d: LegacyDims)
    requires !(layout == Layout1W16C8B && code in {ConvertHcw2Chw, ConvertHcw2Hwc})
    ensures |Visits(LegacyNest(layout, code, d).value)|
            == if LoopsRun(layout, code, d) then d.channel * (d.height * d.width) else 0
  {
    var c, h, w := d.channel, d.height, d.width;
    var nest := LegacyNest(layout, code, d).value;
    BlockLength(nest.ny, nest.nz, nest.nx);
    ProductOrders(c, h, w);
    match code
    case ConvertHcw2Chw => TripsProduct(c, h, w);
    case ConvertChw2Hcw => TripsProduct(h, c, w);
    case ConvertHcw2Hwc => TripsProduct(h, w, c);
    case ConvertChw2Hwc => TripsProduct(h, w, c);
    case ConvertNone =>
      if layout == Layout1W16C8B {
        TripsProduct(c, h * w, 1);
      } else {
        TripsProduct(h * c, w, 1);
      }
  }

  /** Three nested `for` loops run their body the product of their bounds times, or never. */
  lemma TripsProduct(a: int, b: int, c: int)
    ensures Trips(a) * (Trips(b) * Trips(c)) == if a > 0 && b > 0 && c > 0 then a * (b * c) else 0
  {
  }

  /** Element (h, c, w) of an HCW tensor whose rows are padded to `aligned` elements (KL520). */
  function HcwIndex(d: LegacyDims, aligned: int, h: int, c: int, w: int): int
  {
    (h * d.channel + c) * aligned + w
  }

  /** Element (c, h, w) of a CHW tensor whose rows are padded to `aligned` elements. */
  function ChwIndex(d: LegacyDims, aligned: int, c: int, h: int, w: int): int
  {
    (c * d.height + h) * aligned + w
  }

  /** Output positions of element (c, h, w) in the three orderings. */
  function ChwPos(d: LegacyDims, c: int, h: int, w: int): int { Flat3(d.height, d.width, c, h, w) }
  function HcwPos(d: LegacyDims, c: int, h: int, w: int): int { Flat3(d.channel, d.width, h, c, w) }
  function HwcPos(d: LegacyDims, c: int, h: int, w: int): int { Flat3(d.width, d.channel, h, w, c) }

  /** Output position `pos` of a nest is inside its visits and reads NPU element `src`. */
  predicate ReadsAt(nest: LoopNest, pos: int, src: int)
  {
    0 <= pos < |Visits(nest)| && SourceAt(nest, Visits(nest)[pos]) == src
  }

  /** The visit at the row-major position of (x, y, z) reads what the plan selects for it. */
  lemma NestReads(nest: LoopNest, x: nat, y: nat, z: nat)
    requires x < nest.nx && y < nest.ny && z < nest.nz
    ensures ReadsAt(nest, Flat3(nest.ny, nest.nz, x, y, z), SourceIndex(nest.plan, x, y, z))
  {
    VisitsAt(nest, x, y, z);
  }

  /** The source index of a strided plan, named so that the nonlinear terms stay apart. */
  lemma StridedSource(nest: LoopNest, sx: int, sy: int, sz: int, x: nat, y: nat, z: nat)
    requires nest.plan == Strided(sx, sy, sz)
    ensures SourceIndex(nest.plan, x, y, z) == x * sx + y * sy + z * sz
  {
  }

  /** HCW2CHW re-layouts KL520's HCW data: the CHW output holds element (c, h, w) at its CHW position. */
  lemma HcwToChw(d: LegacyDims, a: int, c: nat, h: nat, w: nat)
    requires c < d.channel && h < d.height && w < d.width
    ensures ReadsAt(StridedNest(ConvertHcw2Chw, d, a), ChwPos(d, c, h, w), HcwIndex(d, a, h, c, w))
  {
    var nest := StridedNest(ConvertHcw2Chw, d, a);
    assert nest == LoopNest(d.channel, d.height, d.width, Strided(a, d.channel * a, 1));
    NestReads(nest, c, h, w);
    StridedSource(nest, a, d.channel * a, 1, c, h, w);
    assert c * a + h * (d.channel * a) + w * 1 == HcwIndex(d, a, h, c, w) by {
      HcwIdentities(d.channel, a, h, c, w);
    }
  }

  /** HCW2HWC: the HWC output holds element (c, h, w) of KL520's HCW data at its HWC position. */
  lemma HcwToHwc(d: LegacyDims, a: int, c: nat, h: nat, w: nat)
    requires c < d.channel && h < d.height && w < d.width
    ensures ReadsAt(StridedNest(ConvertHcw2Hwc, d, a), HwcPos(d, c, h, w), HcwIndex(d, a, h, c, w))
  {
    var nest := StridedNest(ConvertHcw2Hwc, d, a);
    assert nest == LoopNest(d.height, d.width, d.channel, Strided(d.channel * a, 1, a));
    NestReads(nest, h, w, c);
    StridedSource(nest, d.channel * a, 1, a, h, w, c);
    assert h * (d.channel * a) + w * 1 + c * a == HcwIndex(d, a, h, c, w) by {
      HcwIdentities(d.channel, a, h, c, w);
    }
  }

  lemma HcwIdentities(cs: int, a: int, h: int, c: int, w: int)
    ensures c * a + h * (cs * a) + w * 1 == (h * cs + c) * a + w
    ensures h * (cs * a) + w * 1 + c * a == (h * cs + c) * a + w
  {
  }

  /** CHW2HCW: the HCW output holds element (c, h, w) of channel-first data at its HCW position. */
  lemma ChwToHcw(d: LegacyDims, a: int, c: nat, h: nat, w: nat)
    requires c < d.channel && h < d.height && w < d.width
    ensures ReadsAt(StridedNest(ConvertChw2Hcw, d, a), HcwPos(d, c, h, w), ChwIndex(d, a, c, h, w))
  {
    var nest := StridedNest(ConvertChw2Hcw, d, a);
    assert nest == LoopNest(d.height, d.channel, d.width, Strided(a, d.height * a, 1));
    NestReads(nest, h, c, w);
    StridedSource(nest, a, d.height * a, 1, h, c, w);
    assert h * a + c * (d.height * a) + w * 1 == ChwIndex(d, a, c, h, w) by {
      ChwIdentities(d.height, a, c, h, w);
    }
  }

  /** CHW2HWC: the HWC output holds element (c, h, w) of channel-first data at its HWC position. */
  lemma ChwToHwc(d: LegacyDims, a: int, c: nat, h: nat, w: nat)
    requires c < d.channel && h < d.height && w < d.width
    ensures ReadsAt(StridedNest(ConvertChw2Hwc, d, a), HwcPos(d, c, h, w), ChwIndex(d, a, c, h, w))
  {
    var nest := StridedNest(ConvertChw2Hwc, d, a);
    assert nest == LoopNest(d.height, d.width, d.channel, Strided(a, 1, d.height * a));
    NestReads(nest, h, w, c);
    StridedSource(nest, a, 1, d.height * a, h, w, c);
    assert h * a + w * 1 + c * (d.height * a) == ChwIndex(d, a, c, h, w) by {
      ChwIdentities(d.height, a, c, h, w);
    }
  }

  lemma ChwIdentities(hs: int, a: int, c: int, h: int, w: int)
    ensures h * a + c * (hs * a) + w * 1 == (c * hs + h) * a + w
    ensures h * a + w * 1 + c * (hs * a) == (c * hs + h) * a + w
  {
  }

  /** Without conversion the rows are copied in NPU order with their padding dropped. */
  lemma PlainCopy(d: LegacyDims, a: int, i: nat, j: nat)
    requires i < d.height * d.channel && j < d.width
    ensures ReadsAt(StridedNest(ConvertNone, d, a), i * d.width + j, i * a + j)
  {
    var nest := StridedNest(ConvertNone, d, a);
    assert nest == LoopNest(d.height * d.channel, d.width, 1, Strided(a, 1, 0));
    NestReads(nest, i, j, 0);
    StridedSource(nest, a, 1, 0, i, j, 0);
    assert Flat3(d.width, 1, i, j, 0) == i * d.width + j;
  }

  /** 1W16C8B, CHW2HCW: channel c at spatial position h*W + w is read from its channel group into its HCW position. */
  lemma BlockToHcw(d: LegacyDims, c: nat, h: nat, w: nat)
    requires c < d.channel && h < d.height && w < d.width
    ensures ReadsAt(LegacyNest(Layout1W16C8B, ConvertChw2Hcw, d).value, HcwPos(d, c, h, w),
                    BlockIndex(d.height, d.width, c, h * d.width + w))
  {
    var nest := LegacyNest(Layout1W16C8B, ConvertChw2Hcw, d).value;
    assert nest == LoopNest(d.height, d.channel, d.width, ChannelBlocks(BlockHcw, d.height, d.width));
    NestReads(nest, h, c, w);
  }

  /** 1W16C8B, CHW2HWC: channel c at spatial position h*W + w is read from its channel group into its HWC position. */
  lemma BlockToHwc(d: LegacyDims, c: nat, h: nat, w: nat)
    requires c < d.channel && h < d.height && w < d.width
    ensures ReadsAt(LegacyNest(Layout1W16C8B, ConvertChw2Hwc, d).value, HwcPos(d, c, h, w),
                    BlockIndex(d.height, d.width, c, h * d.width + w))
  {
    var nest := LegacyNest(Layout1W16C8B, ConvertChw2Hwc, d).value;
    assert nest == LoopNest(d.height, d.width, d.channel, ChannelBlocks(BlockHwc, d.height, d.width));
    NestReads(nest, h, w, c);
  }

  /** 1W16C8B without conversion: channel c at spatial position p lands at c*(H*W) + p. */
  lemma BlockToChw(d: LegacyDims, c: nat, p: nat)
    requires c < d.channel && p < d.height * d.width
    ensures ReadsAt(LegacyNest(Layout1W16C8B, ConvertNone, d).value, c * (d.height * d.width) + p,
                    BlockIndex(d.height, d.width, c, p))
  {
    var nest := LegacyNest(Layout1W16C8B, ConvertNone, d).value;
    assert nest == LoopNest(d.channel, d.height * d.width, 1, ChannelBlocks(BlockChannelMajor, d.height, d.width));
    NestReads(nest, c, p, 0);
    assert Flat3(d.height * d.width, 1, c, p, 0) == c * (d.height * d.width) + p;
  }
}
