/**
 * The N-dimensional conversion of a V2 result node from NPU layout to ONNX
 * order (the shape-version-2 branches of kp_generic_inference_retrieve_fixed_node
 * and kp_generic_inference_retrieve_float_node in src/kp_inference.c).
 *
 * A multi-index counter walks the ONNX shape in row-major order. For each index
 * the NPU element offset is the dot product of the index with the NPU strides
 * (in uint32 arithmetic), corrected by a channel-group term for the 1W16C8B
 * layouts; the element found there is written to the next ONNX offset.
 */
module NdWalk {
  import opened Types
  import opened Lookups

  // ---------------------------------------------------------------------------
  // The row-major multi-index counter.

  /** A shape the walk can traverse: at least one axis and every extent positive. */
  predicate WalkableShape(shape: seq<int>)
  {
    |shape| >= 1 && forall a :: 0 <= a < |shape| ==> shape[a] >= 1
  }

  /** The number of elements of a shape. */
  function Volume(shape: seq<int>): int
  {
    if |shape| == 0 then 1 else Volume(shape[..|shape| - 1]) * shape[|shape| - 1]
  }

  lemma {:induction false} VolumePositive(shape: seq<int>)
    requires forall a :: 0 <= a < |shape| ==> shape[a] >= 1
    ensures Volume(shape) >= 1
  {
    if |shape| > 0 {
      var p := shape[..|shape| - 1];
      assert forall a :: 0 <= a < |p| ==> p[a] == shape[a];
      VolumePositive(p);
      MulAtLeast(Volume(p), shape[|shape| - 1]);
    }
  }

  /** The row-major offset of a multi-index: the last axis varies fastest. */
  function Flatten(idx: seq<int>, shape: seq<int>): int
    requires |idx| == |shape|
  {
    if |idx| == 0 then 0
    else Flatten(idx[..|idx| - 1], shape[..|shape| - 1]) * shape[|shape| - 1] + idx[|idx| - 1]
  }

  /**
   * One step of the counter: the last axis is incremented, an axis that
   * reaches its extent is reset to 0 and carries into the axis before it, and
   * the first axis is never reset (reaching its extent ends the walk).
   */
  function Inc(idx: seq<int>, shape: seq<int>): (r: seq<int>)
    requires |idx| == |shape| >= 1
    ensures |r| == |idx|
  {
    var n := |idx|;
    if n == 1 then [idx[0] + 1]
    else if idx[n - 1] + 1 == shape[n - 1] then Inc(idx[..n - 1], shape[..n - 1]) + [0]
    else idx[n - 1 := idx[n - 1] + 1]
  }

  function Zeros(n: nat): (r: seq<int>)
    ensures |r| == n && forall a :: 0 <= a < n ==> r[a] == 0
  {
    seq(n, _ => 0)
  }

  /** The counter after t steps. */
  function IdxAt(shape: seq<int>, t: nat): (r: seq<int>)
    requires |shape| >= 1
    ensures |r| == |shape|
  {
    if t == 0 then Zeros(|shape|) else Inc(IdxAt(shape, t - 1), shape)
  }

  /** A multi-index inside the box the shape spans. */
  predicate InBox(idx: seq<int>, shape: seq<int>)
  {
    |idx| == |shape| && forall a :: 0 <= a < |idx| ==> 0 <= idx[a] < shape[a]
  }

  /** Every axis inside its extent except the first, which may have reached it. */
  predicate Digits(idx: seq<int>, shape: seq<int>)
  {
    |idx| == |shape| >= 1 && 0 <= idx[0] && forall a :: 1 <= a < |idx| ==> 0 <= idx[a] < shape[a]
  }

  /** The offset of a multi-index extended by one trailing axis. */
  lemma FlattenSnoc(p: seq<int>, d: int, sp: seq<int>, s: int)
    requires |p| == |sp|
    ensures Flatten(p + [d], sp + [s]) == Flatten(p, sp) * s + d
  {
    assert (p + [d])[..|p|] == p && (sp + [s])[..|sp|] == sp;
  }

  /** A counter step adds one to the row-major offset and moves the first axis by at most one. */
  lemma FlattenInc(idx: seq<int>, shape: seq<int>)
    requires Digits(idx, shape)
    ensures Flatten(Inc(idx, shape), shape) == Flatten(idx, shape) + 1
    ensures Inc(idx, shape)[0] == idx[0] || Inc(idx, shape)[0] == idx[0] + 1
    ensures Digits(Inc(idx, shape), shape)
  {
    IncDigits(idx, shape);
    FlattenIncOffset(idx, shape);
  }

  /** A counter step keeps every axis but the first inside its extent and moves the first by at most one. */
  lemma {:induction false} IncDigits(idx: seq<int>, shape: seq<int>)
    requires Digits(idx, shape)
    ensures Inc(idx, shape)[0] == idx[0] || Inc(idx, shape)[0] == idx[0] + 1
    ensures Digits(Inc(idx, shape), shape)
  {
    var n := |idx|;
    if n > 1 {
      var p, sp, d, s := idx[..n - 1], shape[..n - 1], idx[n - 1], shape[n - 1];
      if d + 1 == s {
        assert Digits(p, sp) by {
          assert forall a :: 1 <= a < |p| ==> p[a] == idx[a] && sp[a] == shape[a];
        }
        IncDigits(p, sp);
        var q := Inc(p, sp);
        assert Inc(idx, shape) == q + [0];
        assert forall a :: 1 <= a < n - 1 ==> (q + [0])[a] == q[a] && sp[a] == shape[a];
      }
    }
  }

  /** A counter step adds one to the row-major offset. */
  lemma {:induction false} FlattenIncOffset(idx: seq<int>, shape: seq<int>)
    requires Digits(idx, shape)
    ensures Flatten(Inc(idx, shape), shape) == Flatten(idx, shape) + 1
  {
    var n := |idx|;
    if n > 1 {
      var p, sp, d, s := idx[..n - 1], shape[..n - 1], idx[n - 1], shape[n - 1];
      assert idx == p + [d] && shape == sp + [s];
      FlattenSnoc(p, d, sp, s);
      var f := Flatten(p, sp);
      if d + 1 == s {
        assert Digits(p, sp) by {
          assert forall a :: 1 <= a < |p| ==> p[a] == idx[a] && sp[a] == shape[a];
        }
        FlattenIncOffset(p, sp);
        var q := Inc(p, sp);
        assert Inc(idx, shape) == q + [0];
        FlattenSnoc(q, 0, sp, s);
        CarryStep(f, d, s);
      } else {
        assert Inc(idx, shape) == p + [d + 1];
        FlattenSnoc(p, d + 1, sp, s);
      }
    }
  }

  /** A carry: the last digit wraps to 0 and the prefix goes up by one. */
  lemma CarryStep(f: int, d: int, s: int)
    requires d + 1 == s
    ensures (f + 1) * s + 0 == (f * s + d) + 1
  {
  }

  /** A place-value decomposition with digits below s is unique. */
  lemma PlaceValueUnique(f: int, d: int, g: int, e: int, s: int)
    requires 0 <= d < s && 0 <= e < s && f * s + d == g * s + e
    ensures f == g && d == e
  {
    DivModUnique(f * s + d, s, f, d);
    DivModUnique(g * s + e, s, g, e);
  }

  /** The counter stays a valid multi-index and its row-major offset is its step count. */
  lemma {:induction false} IdxAtFlatten(shape: seq<int>, t: nat)
    requires WalkableShape(shape)
    ensures Digits(IdxAt(shape, t), shape)
    ensures Flatten(IdxAt(shape, t), shape) == t
  {
    if t == 0 {
      ZerosFlatten(shape);
    } else {
      IdxAtFlatten(shape, t - 1);
      FlattenInc(IdxAt(shape, t - 1), shape);
    }
  }

  lemma {:induction false} ZerosFlatten(shape: seq<int>)
    ensures Flatten(Zeros(|shape|), shape) == 0
  {
    if |shape| > 0 {
      assert Zeros(|shape|)[..|shape| - 1] == Zeros(|shape| - 1);
      ZerosFlatten(shape[..|shape| - 1]);
    }
  }

  /** The offset of a multi-index is below the volume exactly when its first axis is inside its extent. */
  lemma {:induction false} FlattenBound(idx: seq<int>, shape: seq<int>)
    requires Digits(idx, shape) && WalkableShape(shape)
    ensures 0 <= Flatten(idx, shape)
    ensures idx[0] < shape[0] <==> Flatten(idx, shape) < Volume(shape)
  {
    var n := |idx|;
    if n == 1 {
      assert idx[..0] == [] && shape[..0] == [];
    } else {
      var p, sp := idx[..n - 1], shape[..n - 1];
      assert Digits(p, sp) && WalkableShape(sp) by {
        assert forall a :: 0 <= a < |p| ==> p[a] == idx[a] && sp[a] == shape[a];
      }
      FlattenBound(p, sp);
      var s, d, f := shape[n - 1], idx[n - 1], Flatten(p, sp);
      assert Flatten(idx, shape) == f * s + d;
      assert Volume(shape) == Volume(sp) * s;
      assert 0 <= d < s;
      PlaceValueBound(f, d, s, Volume(sp));
    }
  }

  /** A place-value step keeps a digit below the volume exactly when its prefix is. */
  lemma PlaceValueBound(f: int, d: int, s: int, v: int)
    requires 0 <= f && 0 <= d < s
    ensures 0 <= f * s + d
    ensures f < v <==> f * s + d < v * s
  {
    MulMonotone(0, f, s);
    if f < v {
      MulMonotone(f + 1, v, s);
      assert (f + 1) * s == f * s + s;
    } else {
      MulMonotone(v, f, s);
    }
  }


  /** Two multi-indices in the box with the same offset are equal. */
  lemma {:induction false} FlattenInjective(i: seq<int>, j: seq<int>, shape: seq<int>)
    requires InBox(i, shape) && InBox(j, shape) && WalkableShape(shape)
    requires Flatten(i, shape) == Flatten(j, shape)
    ensures i == j
  {
    var n := |i|;
    if n == 1 {
      assert i[..0] == [] && j[..0] == [] && shape[..0] == [];
    } else {
      var pi, pj, sp, s := i[..n - 1], j[..n - 1], shape[..n - 1], shape[n - 1];
      BoxPrefix(i, shape);
      BoxPrefix(j, shape);
      PlaceValueUnique(Flatten(pi, sp), i[n - 1], Flatten(pj, sp), j[n - 1], s);
      FlattenInjective(pi, pj, sp);
    }
  }

  /** A multi-index of the box is its prefix, in the box of the shape's prefix, followed by its last digit. */
  lemma BoxPrefix(i: seq<int>, shape: seq<int>)
    requires InBox(i, shape) && WalkableShape(shape) && |i| >= 2
    ensures InBox(i[..|i| - 1], shape[..|i| - 1]) && WalkableShape(shape[..|i| - 1])
    ensures i == i[..|i| - 1] + [i[|i| - 1]] && 0 <= i[|i| - 1] < shape[|i| - 1]
    ensures Flatten(i, shape) == Flatten(i[..|i| - 1], shape[..|i| - 1]) * shape[|i| - 1] + i[|i| - 1]
  {
    var n := |i|;
    assert forall a :: 0 <= a < n - 1 ==> i[..n - 1][a] == i[a] && shape[..n - 1][a] == shape[a];
  }

  /**
   * The walk visits the box in row-major order: the counter after t < Volume
   * steps is inside the box at offset t, and the step that reaches Volume is
   * the first to put the first axis at its extent, which ends the walk.
   */
  lemma CounterInBox(shape: seq<int>, t: nat)
    requires WalkableShape(shape)
    ensures t < Volume(shape) ==> InBox(IdxAt(shape, t), shape) && Flatten(IdxAt(shape, t), shape) == t
    ensures t < Volume(shape) ==> IdxAt(shape, t)[0] != shape[0]
    ensures t == Volume(shape) ==> IdxAt(shape, t)[0] == shape[0]
  {
    IdxAtFlatten(shape, t);
    FlattenBound(IdxAt(shape, t), shape);
    if t == Volume(shape) {
      VolumePositive(shape);
      IdxAtFlatten(shape, t - 1);
      FlattenBound(IdxAt(shape, t - 1), shape);
      FlattenInc(IdxAt(shape, t - 1), shape);
    }
  }

  /** Every multi-index of the box is visited, at the step its offset names. */
  lemma EveryIndexVisited(shape: seq<int>, idx: seq<int>)
    requires WalkableShape(shape) && InBox(idx, shape)
    ensures 0 <= Flatten(idx, shape) < Volume(shape)
    ensures IdxAt(shape, Flatten(idx, shape)) == idx
  {
    FlattenBound(idx, shape);
    var t := Flatten(idx, shape);
    CounterInBox(shape, t);
    FlattenInjective(IdxAt(shape, t), idx, shape);
  }

  // ---------------------------------------------------------------------------
  // NPU offsets.

  /** The sum of index times stride over the axes, before wrapping. */
  function Dot(idx: seq<int>, strides: seq<int>): int
    requires |idx| == |strides|
  {
    if |idx| == 0 then 0
    else Dot(idx[..|idx| - 1], strides[..|strides| - 1]) + idx[|idx| - 1] * strides[|strides| - 1]
  }

  /** The uint32 accumulator `npu_data_buf_offset` after the stride loop. */
  function BaseOffset(idx: seq<int>, strides: seq<int>): nat
    requires |idx| == |strides|
  {
    Wrap32(Dot(idx, strides))
  }

  /** The layouts whose walk adds the channel-group term (exactly 1W16C8B and 1W16C8BHL). */
  predicate IsChannelGroupLayout(l: DataLayout)
  {
    l == Layout1W16C8B || l == Layout1W16C8BHL
  }

  /** The layouts a V2 walk converts; any other layout fails the retrieval. */
  predicate IsWalkLayout(l: DataLayout)
  {
    Is8BitLayout(l) || Is16BitWordLayout(l) || IsHighLowLayout(l)
  }

  /** The channel axis after scanning axes 0..k-1: the last one of NPU stride 1, else `ch`. */
  function ChannelScan(strides: seq<int>, ch: int, k: nat): int
    requires k <= |strides|
  {
    if k == 0 then ch
    else if strides[k - 1] == 1 then k - 1
    else ChannelScan(strides, ch, k - 1)
  }

  /** The int32 value `stride_npu[axis] * shape[axis]` takes. */
  function GroupCandidate(strides: seq<int>, shape: seq<int>, a: nat): int
    requires a < |strides| == |shape|
  {
    AsInt32(strides[a] * shape[a])
  }

  /** The running maximum after scanning axes 0..k-1, starting from `g`; unit-stride axes are skipped. */
  function GroupScan(strides: seq<int>, shape: seq<int>, g: int, k: nat): int
    requires k <= |strides| == |shape|
  {
    if k == 0 then g
    else
      var m := GroupScan(strides, shape, g, k - 1);
      if strides[k - 1] == 1 then m
      else if GroupCandidate(strides, shape, k - 1) > m then GroupCandidate(strides, shape, k - 1)
      else m
  }

  /** The largest candidate over the non-unit-stride axes 0..k-1, if there is one. */
  function GroupSpan(strides: seq<int>, shape: seq<int>, k: nat): Option<int>
    requires k <= |strides| == |shape|
  {
    if k == 0 then None
    else
      var m := GroupSpan(strides, shape, k - 1);
      if strides[k - 1] == 1 then m
      else if m.None? || GroupCandidate(strides, shape, k - 1) > m.value then Some(GroupCandidate(strides, shape, k - 1))
      else m
  }

  function MaxWith(g: int, m: Option<int>): int
  {
    if m.Some? && m.value > g then m.value else g
  }

  /** The scan is the larger of its start and the largest non-unit candidate. */
  lemma {:induction false} GroupScanIsMax(strides: seq<int>, shape: seq<int>, g: int, k: nat)
    requires k <= |strides| == |shape|
    ensures GroupScan(strides, shape, g, k) == MaxWith(g, GroupSpan(strides, shape, k))
  {
    if k > 0 {
      GroupScanIsMax(strides, shape, g, k - 1);
    }
  }

  /**
   * The variable `npu_channel_group_stride` before element t's use: it starts at
   * 0, and every element raises it to the scanned maximum and then lowers it by
   * 16. It is never reset between elements.
   */
  function GroupStrideAt(strides: seq<int>, shape: seq<int>, t: nat): int
    requires |strides| == |shape|
  {
    if t == 0 then 0 else GroupScan(strides, shape, GroupStrideAt(strides, shape, t - 1), |shape|) - 16
  }

  /**
   * Although never reset, the group stride is constant over the walk: when the
   * largest `stride * extent` over the non-unit-stride axes is some T >= 0, every
   * element uses T - 16.
   */
  lemma {:induction false} GroupStrideStable(strides: seq<int>, shape: seq<int>, t: nat)
    requires |strides| == |shape|
    requires GroupSpan(strides, shape, |shape|).Some? && GroupSpan(strides, shape, |shape|).value >= 0
    requires t >= 1
    ensures GroupStrideAt(strides, shape, t) == GroupSpan(strides, shape, |shape|).value - 16
  {
    GroupScanIsMax(strides, shape, GroupStrideAt(strides, shape, t - 1), |shape|);
    if t > 1 {
      GroupStrideStable(strides, shape, t - 1);
    }
  }

  /** The channel axis the walk uses at every element: the last axis of NPU stride 1, else axis 0. */
  function ChannelAxis(strides: seq<int>): int
  {
    ChannelScan(strides, 0, |strides|)
  }

  lemma {:induction false} ChannelScanRange(strides: seq<int>, ch: int, k: nat)
    requires k <= |strides|
    ensures ChannelScan(strides, ch, k) == ch || 0 <= ChannelScan(strides, ch, k) < k
    ensures ChannelScan(strides, ch, k) != ch ==> strides[ChannelScan(strides, ch, k)] == 1
  {
    if k > 0 && strides[k - 1] != 1 {
      ChannelScanRange(strides, ch, k - 1);
    }
  }

  /** Scanning again from an earlier result gives the same channel axis. */
  lemma {:induction false} ChannelScanStable(strides: seq<int>, c1: int, c2: int, k: nat)
    requires k <= |strides|
    ensures (ChannelScan(strides, c1, k) == c1 && ChannelScan(strides, c2, k) == c2)
            || ChannelScan(strides, c1, k) == ChannelScan(strides, c2, k)
  {
    if k > 0 && strides[k - 1] != 1 {
      ChannelScanStable(strides, c1, c2, k - 1);
    }
  }

  /** The NPU element offset of the walk's t-th element. */
  function NpuOffsetAt(layout: DataLayout, shape: seq<int>, strides: seq<int>, t: nat): nat
    requires WalkableShape(shape) && |strides| == |shape|
  {
    var idx := IdxAt(shape, t);
    var base := BaseOffset(idx, strides);
    if IsChannelGroupLayout(layout) then
      ChannelAxisInRange(strides);
      Wrap32(base + (idx[ChannelAxis(strides)] / 16) * GroupStrideAt(strides, shape, t + 1))
    else base
  }

  lemma ChannelAxisInRange(strides: seq<int>)
    requires |strides| >= 1
    ensures 0 <= ChannelAxis(strides) < |strides|
  {
    ChannelScanRange(strides, 0, |strides|);
  }

  /**
   * For the 1W16C8B layouts the offset is the plain NPU offset plus
   * (channel index / 16) * (T - 16), T being the largest `stride * extent` over
   * the non-unit-stride axes.
   */
  lemma ChannelGroupOffset(layout: DataLayout, shape: seq<int>, strides: seq<int>, t: nat)
    requires WalkableShape(shape) && |strides| == |shape| && IsChannelGroupLayout(layout)
    requires GroupSpan(strides, shape, |shape|).Some? && GroupSpan(strides, shape, |shape|).value >= 0
    ensures 0 <= ChannelAxis(strides) < |shape|
    ensures NpuOffsetAt(layout, shape, strides, t)
            == Wrap32(BaseOffset(IdxAt(shape, t), strides)
                      + (IdxAt(shape, t)[ChannelAxis(strides)] / 16) * (GroupSpan(strides, shape, |shape|).value - 16))
  {
    ChannelAxisInRange(strides);
    GroupStrideStable(strides, shape, t + 1);
  }

  // ---------------------------------------------------------------------------
  // Elements.

  /** The low-byte position of HL element o: 16-element blocks spread over 32 bytes. */
  function HighLowPosition(o: nat): nat
  {
    Wrap32((o / 16) * 32) + o % 16
  }

  /**
   * For offsets below 2^31 the low byte of HL element o is byte o%16 of
   * 32-byte block o/16 and its high byte sits 16 bytes later in the same block.
   */
  lemma HighLowPlanes(o: nat)
    requires o < 0x8000_0000
    ensures HighLowPosition(o) / 32 == o / 16 && HighLowPosition(o) % 32 == o % 16
    ensures Wrap32(HighLowPosition(o) + 16) == HighLowPosition(o) + 16
    ensures (HighLowPosition(o) + 16) / 32 == o / 16 && (HighLowPosition(o) + 16) % 32 == o % 16 + 16
  {
    assert (o / 16) * 32 < Pow32;
    DivModUnique(HighLowPosition(o), 32, o / 16, o % 16);
    DivModUnique(HighLowPosition(o) + 16, 32, o / 16, o % 16 + 16);
  }

  /** The bytes element o of the layout's kind occupies lie inside the data. */
  predicate ElementReadable(layout: DataLayout, data: seq<byte>, o: nat)
  {
    if Is16BitWordLayout(layout) then 2 * o + 1 < |data|
    else if IsHighLowLayout(layout) then Wrap32(HighLowPosition(o) + 16) < |data| && HighLowPosition(o) < |data|
    else o < |data|
  }

  /**
   * The fixed-point value of NPU element o: a signed byte for 8-bit layouts, a
   * little-endian word with its lowest bit cleared for 16-bit layouts, and for
   * HL layouts twice the low 7 bits of the low byte plus the high byte shifted
   * left by 8, read as int16.
   */
  function ElementValue(layout: DataLayout, data: seq<byte>, o: nat): (v: int)
    requires ElementReadable(layout, data, o)
    ensures Is16BitWordLayout(layout) || IsHighLowLayout(layout) ==> -0x8000 <= v < 0x8000 && v % 2 == 0
    ensures !Is16BitWordLayout(layout) && !IsHighLowLayout(layout) ==> -128 <= v < 128
  {
    if Is16BitWordLayout(layout) then
      var w := (data[2 * o] as int) + 256 * (data[2 * o + 1] as int);
      AsInt16(w - w % 2)
    else if IsHighLowLayout(layout) then
      var lo: int := data[HighLowPosition(o)];
      var hi: int := data[Wrap32(HighLowPosition(o) + 16)];
      AsInt16(2 * (lo % 128) + 256 * hi)
    else AsInt8(data[o])
  }

  /** Every element the walk reads lies inside the data. */
  predicate WalkReadable(layout: DataLayout, shape: seq<int>, strides: seq<int>, data: seq<byte>)
    requires WalkableShape(shape) && |strides| == |shape|
  {
    forall t :: 0 <= t < Volume(shape) ==> ElementReadable(layout, data, NpuOffsetAt(layout, shape, strides, t))
  }

  /** The ONNX element at offset t. */
  function WalkElement(layout: DataLayout, shape: seq<int>, strides: seq<int>, data: seq<byte>, t: nat): int
    requires WalkableShape(shape) && |strides| == |shape|
    requires t < Volume(shape) && WalkReadable(layout, shape, strides, data)
  {
    ElementValue(layout, data, NpuOffsetAt(layout, shape, strides, t))
  }

  /**
   * Every ONNX multi-index of the box reads its NPU element: the output
   * element at its row-major offset is read at the NPU offset of that
   * multi-index (for the layouts without a channel-group term).
   */
  lemma WalkPlacesEveryIndex(layout: DataLayout, shape: seq<int>, strides: seq<int>, idx: seq<int>)
    requires WalkableShape(shape) && |strides| == |shape|
    requires InBox(idx, shape) && !IsChannelGroupLayout(layout)
    ensures 0 <= Flatten(idx, shape) < Volume(shape)
    ensures NpuOffsetAt(layout, shape, strides, Flatten(idx, shape)) == BaseOffset(idx, strides)
  {
    EveryIndexVisited(shape, idx);
  }

  // ---------------------------------------------------------------------------
  // The walk.

  /** The stride loop: `npu_data_buf_offset` accumulated in uint32 over all axes. */
  method NpuBaseOffset(idx: array<int>, strides: seq<int>) returns (o: nat)
    requires idx.Length == |strides|
    ensures o == BaseOffset(idx[..], strides)
  {
    o := 0;
    var axis := 0;
    while axis < idx.Length
      invariant 0 <= axis <= idx.Length
      invariant o == Wrap32(Dot(idx[..axis], strides[..axis]))
    {
      assert idx[..axis + 1][..axis] == idx[..axis] && strides[..axis + 1][..axis] == strides[..axis];
      WrapAdd(Dot(idx[..axis], strides[..axis]), idx[axis] * strides[axis]);
      o := Wrap32(o + idx[axis] * strides[axis]);
      axis := axis + 1;
    }
    assert idx[..axis] == idx[..] && strides[..axis] == strides;
  }

  /** The channel-group loop: updates the channel axis and the running maximum over all axes. */
  method ScanChannelGroup(strides: seq<int>, shape: seq<int>, ch: int, g: int) returns (ch': int, g': int)
    requires |strides| == |shape|
    ensures ch' == ChannelScan(strides, ch, |shape|)
    ensures g' == GroupScan(strides, shape, g, |shape|)
  {
    ch', g' := ch, g;
    var axis := 0;
    while axis < |shape|
      invariant 0 <= axis <= |shape|
      invariant ch' == ChannelScan(strides, ch, axis)
      invariant g' == GroupScan(strides, shape, g, axis)
    {
      if strides[axis] == 1 {
        ch' := axis;
      } else {
        var tmp := AsInt32(strides[axis] * shape[axis]);
        if tmp > g' {
          g' := tmp;
        }
      }
      axis := axis + 1;
    }
  }

  /** The carry loop: advances the counter in place by one step. */
  method Carry(idx: array<int>, shape: seq<int>)
    requires idx.Length == |shape| >= 1
    modifies idx
    ensures idx[..] == Inc(old(idx[..]), shape)
  {
    ghost var pre := idx[..];
    var n := idx.Length;
    var axis := n - 1;
    var fin := false;
    assert pre[..axis + 1] == pre && shape[..axis + 1] == shape;
    while !fin
      invariant 0 <= axis < n
      invariant !fin ==> idx[..] == pre[..axis + 1] + Zeros(n - 1 - axis)
      invariant !fin ==> Inc(pre, shape) == Inc(pre[..axis + 1], shape[..axis + 1]) + Zeros(n - 1 - axis)
      invariant fin ==> idx[..] == Inc(pre, shape)
      decreases if fin then 0 else 1, axis
    {
      ghost var p, sp := pre[..axis + 1], shape[..axis + 1];
      idx[axis] := idx[axis] + 1;
      if idx[axis] == shape[axis] {
        if axis == 0 {
          fin := true;
          assert idx[..] == [p[0] + 1] + Zeros(n - 1);
        } else {
          idx[axis] := 0;
          assert p[..axis] == pre[..axis] && sp[..axis] == shape[..axis];
          assert Inc(p, sp) == Inc(pre[..axis], shape[..axis]) + [0];
          assert idx[..] == pre[..axis] + Zeros(n - axis);
          assert Zeros(n - 1 - axis) + [0] == [0] + Zeros(n - 1 - axis);
          axis := axis - 1;
        }
      } else {
        fin := true;
        if axis > 0 {
          assert Inc(p, sp) == p[axis := p[axis] + 1];
        }
        assert idx[..] == Inc(p, sp) + Zeros(n - 1 - axis);
      }
    }
  }

  /**
   * The offset computation of one element: the stride loop, and for the
   * 1W16C8B layouts the channel-group loop and its correction. The channel
   * axis and group stride carried between elements are passed in and out.
   */
  method ElementOffset(layout: DataLayout, shape: seq<int>, strides: seq<int>, idx: array<int>, t: nat, ch: int, g: int)
    returns (o: nat, ch': int, g': int)
    requires WalkableShape(shape) && |strides| == |shape| && idx[..] == IdxAt(shape, t)
    requires IsChannelGroupLayout(layout) ==> g == GroupStrideAt(strides, shape, t) && (ch == 0 || ch == ChannelAxis(strides))
    ensures o == NpuOffsetAt(layout, shape, strides, t)
    ensures IsChannelGroupLayout(layout) ==> g' == GroupStrideAt(strides, shape, t + 1) && ch' == ChannelAxis(strides)
    ensures !IsChannelGroupLayout(layout) ==> ch' == ch
  {
    o := NpuBaseOffset(idx, strides);
    ch', g' := ch, g;
    if IsChannelGroupLayout(layout) {
      ch', g' := ScanChannelGroup(strides, shape, ch, g);
      ChannelScanStable(strides, 0, ch, |shape|);
      ChannelAxisInRange(strides);
      g' := g' - 16;
      o := Wrap32(o + (idx[ch'] / 16) * g');
    }
  }

  /**
   * One pass of the conversion loop: reads the element the counter points at,
   * advances the counter, and reports whether the first axis reached its
   * extent, which happens exactly after the last element.
   */
  method WalkStep(layout: DataLayout, shape: seq<int>, strides: seq<int>, data: seq<byte>,
                  idx: array<int>, t: nat, ch: int, g: int)
    returns (v: int, last: bool, ch': int, g': int)
    requires WalkableShape(shape) && |strides| == |shape| && t < Volume(shape)
    requires WalkReadable(layout, shape, strides, data)
    requires idx[..] == IdxAt(shape, t)
    requires IsChannelGroupLayout(layout) ==> g == GroupStrideAt(strides, shape, t)
    requires ch == 0 || ch == ChannelAxis(strides)
    modifies idx
    ensures v == WalkElement(layout, shape, strides, data, t)
    ensures idx[..] == IdxAt(shape, t + 1)
    ensures last <==> t + 1 == Volume(shape)
    ensures IsChannelGroupLayout(layout) ==> g' == GroupStrideAt(strides, shape, t + 1)
    ensures ch' == 0 || ch' == ChannelAxis(strides)
  {
    var o;
    o, ch', g' := ElementOffset(layout, shape, strides, idx, t, ch, g);
    v := ElementValue(layout, data, o);
    Carry(idx, shape);
    assert idx[..] == IdxAt(shape, t + 1);
    CounterInBox(shape, t + 1);
    last := idx[0] == shape[0];
  }

  /**
   * The V2 conversion loop of one node: the output holds, at every ONNX
   * offset t below the volume, the element at the t-th NPU offset.
   */
  method WalkNode(layout: DataLayout, shape: seq<int>, strides: seq<int>, data: seq<byte>) returns (out: seq<int>)
    requires WalkableShape(shape) && |strides| == |shape| && Volume(shape) < Pow32
    requires WalkReadable(layout, shape, strides, data)
    ensures |out| == Volume(shape)
    ensures forall t :: 0 <= t < |out| ==> out[t] == WalkElement(layout, shape, strides, data, t)
  {
    var n := |shape|;
    var volume := Volume(shape);
    VolumePositive(shape);
    var idx := new int[n](_ => 0);
    out := [];
    var t := 0;
    var ch, g := 0, 0;
    var done := false;
    assert idx[..] == Zeros(n);
    while !done
      invariant 0 <= t < volume && idx.Length == n
      invariant |out| == if done then t + 1 else t
      invariant !done ==> idx[..] == IdxAt(shape, t)
      invariant !done && IsChannelGroupLayout(layout) ==> g == GroupStrideAt(strides, shape, t)
      invariant ch == 0 || ch == ChannelAxis(strides)
      invariant done ==> t == volume - 1
      invariant forall s :: 0 <= s < |out| ==> out[s] == WalkElement(layout, shape, strides, data, s)
      decreases volume - t, if done then 0 else 1
    {
      var v, last;
      v, last, ch, g := WalkStep(layout, shape, strides, data, idx, t, ch, g);
      out := out + [v];
      if last {
        done := true;
      } else {
        t := t + 1;
      }
    }
  }
}
