/**
 * The bit layout of a JNI port identifier (src/kp_usb_jni.c): the bus number
 * in bits 0-1 and port k, for k < 6, in the five bits from bit 2 + 5k.
 */
module PortBits {

  /** The bit each port field starts at: 2 + 5k for port k. */
  const Shifts: seq<bv32> := [2, 7, 12, 17, 22, 27]

  /** Where the field of port k starts. */
  function Shift(k: nat): (s: bv32)
    requires k < 6
    ensures s < 32
  {
    Shifts[k]
  }

  /** The bit positions the port fields start at. */
  predicate IsShift(s: bv32)
  {
    s == 2 || s == 7 || s == 12 || s == 17 || s == 22 || s == 27
  }

  lemma ShiftTable()
    ensures Shift(0) == 2 && Shift(1) == 7 && Shift(2) == 12 && Shift(3) == 17 && Shift(4) == 22 && Shift(5) == 27
  {
  }

  /** Distinct ports have distinct fields. */
  lemma ShiftFacts(i: nat, j: nat)
    requires i < 6 && j < 6
    ensures IsShift(Shift(i)) && (Shift(i) == Shift(j) <==> i == j)
  {
    ShiftTable();
  }

  /** Each field is five bits above the one before. */
  lemma ShiftNext(k: nat)
    requires k < 5
    ensures Shift(k + 1) == Shift(k) + 5
    ensures Shift(k) == 2 || Shift(k) == 7 || Shift(k) == 12 || Shift(k) == 17 || Shift(k) == 22
  {
    ShiftTable();
  }

  /** `port_id |= p << s`. */
  function Put(id: bv32, p: bv32, s: bv32): bv32
    requires s < 32
  {
    id | (p << s)
  }

  /** The two bus bits of an identifier. */
  function BusField(id: bv32): bv32
  {
    id & 3
  }

  /** The five bits from bit s on. */
  function Field(id: bv32, s: bv32): bv32
    requires s < 32
  {
    (id >> s) & 31
  }

  /** The five bits of port k of an identifier. */
  function PortField(id: bv32, k: nat): bv32
    requires k < 6
  {
    Field(id, Shift(k))
  }

  function Mask5(v: bv32): (r: bv32)
    ensures r < 32
  {
    v & 0x1f
  }

  lemma MaskSmall(v: bv32)
    requires v < 32
    ensures Mask5(v) == v
  {
  }

  lemma AndThree(v: bv32)
    ensures BusField(v & 3) == v & 3
  {
  }

  /** A bus number modulo 4 leaves every port field empty. */
  lemma SmallFields(b: bv32, s: bv32)
    requires b < 4 && IsShift(s)
    ensures Field(b, s) == 0
  {
  }

  /** Putting any value at a field position leaves the bus bits alone. */
  lemma PutKeepsBus(prev: bv32, p: bv32, s: bv32)
    requires IsShift(s)
    ensures BusField(Put(prev, p, s)) == BusField(prev)
  {
    if s == 2 { } else if s == 7 { } else if s == 12 { } else if s == 17 { } else if s == 22 { } else { }
  }

  /** Putting a value below 32 at field position s leaves the field at t alone. */
  lemma PutOtherField(prev: bv32, p: bv32, s: bv32, t: bv32)
    requires p < 32 && IsShift(s) && IsShift(t) && s != t
    ensures Field(Put(prev, p, s), t) == Field(prev, t)
  {
    if s == 2 { } else if s == 7 { } else if s == 12 { } else if s == 17 { } else if s == 22 { } else { }
  }

  /** Putting a value below 32 at the position of an empty field puts it in that field. */
  lemma PutEmptyField(prev: bv32, p: bv32, s: bv32)
    requires p < 32 && IsShift(s) && Field(prev, s) == 0
    ensures Field(Put(prev, p, s), s) == p
  {
    if s == 2 { } else if s == 7 { } else if s == 12 { } else if s == 17 { } else if s == 22 { } else { }
  }

  /** A value from 32 to 63 put at field position s also sets the lowest bit of the field five bits up. */
  lemma PutOverflows(id: bv32, q: bv32, s: bv32)
    requires 32 <= q < 64 && (s == 2 || s == 7 || s == 12 || s == 17 || s == 22)
    ensures Put(id, q, s) == Put(Put(id, q - 32, s), 1, s + 5)
  {
    if s == 2 { } else if s == 7 { } else if s == 12 { } else if s == 17 { } else { }
  }

  /** A port number of 32 or more also sets the lowest bit of the next port's field. */
  lemma PortOverflowsIntoNextField(id: bv32, q: bv32, k: nat)
    requires 32 <= q < 64 && k < 5
    ensures Put(id, q, Shift(k)) == Put(Put(id, q - 32, Shift(k)), 1, Shift(k + 1))
  {
    ShiftNext(k);
    PutOverflows(id, q, Shift(k));
  }

  lemma PutNothing(id: bv32, s: bv32)
    requires s < 32
    ensures Put(id, 0, s) == id
  {
  }

  // ---------------------------------------------------------------------------
  // Packing a bus number and up to six port numbers

  /**
   * What a port number contributes: the number itself, as the source ORs it
   * in, or, in the corrected variant, the number masked to its five bits.
   */
  function PortBitsOf(v: bv32, masked: bool): (r: bv32)
    ensures masked ==> r < 32
    ensures !masked || v < 32 ==> r == v
  {
    if masked then Mask5(v) else v
  }

  /** The identifier after the bus number ns[0] and the port numbers ns[1..k + 1]. */
  function Pack(ns: seq<bv32>, k: nat, masked: bool): bv32
    requires k < |ns| && k <= 6
  {
    if k == 0 then ns[0] & 3 else Put(Pack(ns, k - 1, masked), PortBitsOf(ns[k], masked), Shift(k - 1))
  }

  /** Every port number up to index k fits its five-bit field. */
  predicate PortsFit(ns: seq<bv32>, k: nat)
    requires k < |ns|
  {
    forall j :: 1 <= j <= k ==> ns[j] < 32
  }

  /** The bus field of a packed identifier is the bus number modulo 4, whatever the port numbers. */
  lemma {:induction false} BusOfPack(ns: seq<bv32>, k: nat, masked: bool)
    requires k < |ns| && k <= 6
    ensures BusField(Pack(ns, k, masked)) == ns[0] & 3
  {
    if k == 0 {
      AndThree(ns[0]);
    } else {
      BusOfPack(ns, k - 1, masked);
      ShiftFacts(k - 1, k - 1);
      PutKeepsBus(Pack(ns, k - 1, masked), PortBitsOf(ns[k], masked), Shift(k - 1));
    }
  }

  /**
   * Field j of a packed identifier holds port number j + 1 for j < k and 0
   * beyond, provided every port number fits or the numbers are masked.
   */
  lemma {:induction false} PortFieldOfPack(ns: seq<bv32>, k: nat, j: nat, masked: bool)
    requires k < |ns| && k <= 6 && j < 6 && (!masked ==> PortsFit(ns, k))
    ensures PortField(Pack(ns, k, masked), j) == if j < k then PortBitsOf(ns[j + 1], masked) else 0
  {
    ShiftFacts(j, j);
    if k == 0 {
      SmallFields(ns[0] & 3, Shift(j));
    } else {
      assert !masked ==> PortsFit(ns, k - 1) && ns[k] < 32;
      var prev, p := Pack(ns, k - 1, masked), PortBitsOf(ns[k], masked);
      ShiftFacts(k - 1, j);
      if j == k - 1 {
        PortFieldOfPack(ns, k - 1, k - 1, masked);
        PutEmptyField(prev, p, Shift(k - 1));
      } else {
        PortFieldOfPack(ns, k - 1, j, masked);
        PutOtherField(prev, p, Shift(k - 1), Shift(j));
      }
    }
  }

  /** Packing reads nothing beyond index k. */
  lemma {:induction false} PackPrefix(ns: seq<bv32>, ms: seq<bv32>, k: nat, masked: bool)
    requires k < |ns| && k < |ms| && k <= 6 && ns[..k + 1] == ms[..k + 1]
    ensures Pack(ns, k, masked) == Pack(ms, k, masked)
  {
    assert ns[k] == ns[..k + 1][k] && ms[k] == ms[..k + 1][k];
    assert ns[0] == ns[..k + 1][0] && ms[0] == ms[..k + 1][0];
    if k > 0 {
      assert ns[..k] == ns[..k + 1][..k] && ms[..k] == ms[..k + 1][..k];
      PackPrefix(ns, ms, k - 1, masked);
    }
  }

  /** Masking changes nothing when every port number fits its field. */
  lemma {:induction false} MaskedPackAgrees(ns: seq<bv32>, k: nat)
    requires k < |ns| && k <= 6 && PortsFit(ns, k)
    ensures Pack(ns, k, true) == Pack(ns, k, false)
  {
    if k > 0 {
      assert PortsFit(ns, k - 1) && ns[k] < 32;
      MaskedPackAgrees(ns, k - 1);
    }
  }

  /** A bus number with the single port 32 packs like the same bus with ports 0 and 1. */
  lemma PackCollision(ns: seq<bv32>, ms: seq<bv32>)
    requires |ns| == 2 && |ms| == 3 && ns[0] == ms[0]
    requires ns[1] == 32 && ms[1] == 0 && ms[2] == 1
    ensures Pack(ns, 1, false) == Pack(ms, 2, false)
  {
    var bus := ns[0] & 3;
    assert Pack(ns, 1, false) == Put(bus, 32, Shift(0));
    assert Pack(ms, 1, false) == Put(bus, 0, Shift(0));
    PutNothing(bus, Shift(0));
    assert Pack(ms, 2, false) == Put(bus, 1, Shift(1));
    PortOverflowsIntoNextField(bus, 32, 0);
  }
}
