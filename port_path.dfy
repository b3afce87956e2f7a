/**
 * The port identifier the JNI transport derives from a USB port path of the
 * form "busNo-hubPortNo-devicePortNo" (generate_port_id_from_path in
 * src/kp_usb_jni.c): the path is split on '-' as strtok does, every token is
 * read as atoi reads it, the bus number fills bits 0-1 and up to six port
 * numbers are OR-ed in from bit 2, five bits apart.
 */
module PortPath {
  import opened PortText
  import opened PortBits

  /** The number atoi reads from each token. */
  function Numbers(ts: seq<string>): (r: seq<bv32>)
    ensures |r| == |ts| && forall i :: 0 <= i < |ts| ==> r[i] == Atoi(ts[i])
  {
    seq(|ts|, i requires 0 <= i < |ts| => Atoi(ts[i]))
  }

  /** How many port tokens are used: at most six, extra tokens are ignored. */
  function PortCount(ts: seq<string>): (n: nat)
    ensures |ts| > 0 ==> n < |ts| && n <= 6
    ensures 0 < |ts| <= 7 ==> n == |ts| - 1
  {
    if |ts| == 0 then 0 else if |ts| - 1 < 6 then |ts| - 1 else 6
  }

  /** The port identifier of a token list as the source computes it; no token at all gives 0. */
  function PortIdOf(ts: seq<string>): bv32
  {
    if |ts| == 0 then 0 else Pack(Numbers(ts), PortCount(ts), false)
  }

  /** generate_port_id_from_path: the path is split on '-', then the tokens are packed. */
  method GeneratePortId(path: string) returns (id: bv32)
    ensures id == PortIdOf(Tokens(path))
  {
    id := PackTokens(Tokens(path));
  }

  /** The strtok loop of generate_port_id_from_path, over the tokens it yields. */
  method PackTokens(tokens: seq<string>) returns (id: bv32)
    ensures id == PortIdOf(tokens)
  {
    id := 0;
    if |tokens| > 0 {
      id := Atoi(tokens[0]) & 0x3;
      var portIndex := 0;
      while portIndex + 1 < |tokens| && portIndex < 6
        invariant 0 <= portIndex <= 6 && portIndex < |tokens|
        invariant id == Pack(Numbers(tokens), portIndex, false)
      {
        var portNum := Atoi(tokens[portIndex + 1]);
        PackNext(tokens, portIndex, portNum);
        id := Put(id, portNum, Shift(portIndex));
        portIndex := portIndex + 1;
      }
    }
  }

  /** One more port number OR-ed in, as the loop does it. */
  lemma PackNext(ts: seq<string>, k: nat, p: bv32)
    requires k + 1 < |ts| && k < 6 && p == Atoi(ts[k + 1])
    ensures Pack(Numbers(ts), k + 1, false) == Put(Pack(Numbers(ts), k, false), p, Shift(k))
  {
  }

  /** Every port number the identifier holds fits five bits. */
  predicate PortNumbersFit(ts: seq<string>)
  {
    forall j :: 1 <= j <= PortCount(ts) && j < |ts| ==> Atoi(ts[j]) < 32
  }

  /** The identifier of a path holds the bus number modulo 4 in bits 0-1, whatever its port numbers. */
  lemma PortIdBus(ts: seq<string>)
    requires |ts| > 0
    ensures BusField(PortIdOf(ts)) == Atoi(ts[0]) & 3
  {
    BusOfPack(Numbers(ts), PortCount(ts), false);
  }

  /**
   * When every port number fits five bits, the identifier of a path holds
   * port j in field j for each of the first six ports, the unused fields
   * being 0.
   */
  lemma PortIdFields(ts: seq<string>, j: nat)
    requires |ts| > 0 && j < 6 && PortNumbersFit(ts)
    ensures PortField(PortIdOf(ts), j) == if j < PortCount(ts) then Atoi(ts[j + 1]) else 0
  {
    var ns := Numbers(ts);
    assert PortsFit(ns, PortCount(ts));
    PortFieldOfPack(ns, PortCount(ts), j, false);
  }

  /** Every token after the seventh is ignored. */
  lemma ExtraTokensIgnored(ts: seq<string>)
    requires |ts| > 7
    ensures PortIdOf(ts) == PortIdOf(ts[..7])
  {
    assert Numbers(ts)[..7] == Numbers(ts[..7]);
    PackPrefix(Numbers(ts), Numbers(ts[..7]), 6, false);
  }

  /** The paths "1-32" and "1-0-1" get the same identifier. */
  lemma OverflowingPathsCollide()
    ensures Tokens("1-32") == ["1", "32"] && Tokens("1-0-1") == ["1", "0", "1"]
    ensures PortIdOf(Tokens("1-32")) == PortIdOf(Tokens("1-0-1"))
  {
    CollidingPaths();
    NumbersOfCollidingPaths();
    PortNumberOverflow("1", "32", "0", "1");
  }

  /** A port token reading 32 gives the identifier of a port 0 followed by a port 1. */
  lemma PortNumberOverflow(bus: string, x: string, z: string, o: string)
    requires Atoi(x) == 32 && Atoi(z) == 0 && Atoi(o) == 1
    ensures PortIdOf([bus, x]) == PortIdOf([bus, z, o])
  {
    var a, b := [bus, x], [bus, z, o];
    PackCollision(Numbers(a), Numbers(b));
  }

  lemma CollidingPaths()
    ensures Tokens("1-32") == ["1", "32"] && Tokens("1-0-1") == ["1", "0", "1"]
  {
    var a, b := ["1", "32"], ["1", "0", "1"];
    TokensOfJoin(a);
    TokensOfJoin(b);
    assert Join(a) == "1-32" && Join(b) == "1-0-1";
  }

  lemma NumbersOfCollidingPaths()
    ensures Atoi("1") == 1 && Atoi("0") == 0 && Atoi("32") == 32
  {
    AtoiOfOneDigit("1");
    AtoiOfOneDigit("0");
    AtoiOfThirtyTwo();
  }

  lemma AtoiOfOneDigit(d: string)
    requires |d| == 1 && IsDigit(d[0])
    ensures Atoi(d) == DigitBits(d[0])
  {
    AtoiOfNumeral(d);
    assert d[..0] == "";
  }

  lemma AtoiOfThirtyTwo()
    ensures Atoi("32") == 32
  {
    AtoiOfDigits("3", '2');
    AtoiOfOneDigit("3");
    assert "3"[0] == '3' && DigitBits('3') == 3;
    assert Horner(3, '2') == 32;
    assert "3" + ['2'] == "32";
  }

  /** The identifier with each port number masked to its five-bit field. */
  function MaskedPortIdOf(ts: seq<string>): bv32
  {
    if |ts| == 0 then 0 else Pack(Numbers(ts), PortCount(ts), true)
  }

  /** With masking, every used port number is recovered modulo 32 from its own field, whatever the numbers are. */
  lemma MaskedPortIdFields(ts: seq<string>, j: nat)
    requires |ts| > 0 && j < 6
    ensures BusField(MaskedPortIdOf(ts)) == Atoi(ts[0]) & 3
    ensures PortField(MaskedPortIdOf(ts), j) == if j < PortCount(ts) then Mask5(Atoi(ts[j + 1])) else 0
  {
    BusOfPack(Numbers(ts), PortCount(ts), true);
    PortFieldOfPack(Numbers(ts), PortCount(ts), j, true);
  }

  /** Masking changes nothing when every port number fits its field. */
  lemma MaskedAgreesWhenPortsFit(ts: seq<string>)
    requires PortNumbersFit(ts)
    ensures MaskedPortIdOf(ts) == PortIdOf(ts)
  {
    if |ts| > 0 {
      assert PortsFit(Numbers(ts), PortCount(ts));
      MaskedPackAgrees(Numbers(ts), PortCount(ts));
    }
  }
}
