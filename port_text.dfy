/**
 * The two C library routines generate_port_id_from_path in src/kp_usb_jni.c
 * relies on: strtok splitting a path on '-', and atoi reading each token.
 */
module PortText {
  // ---------------------------------------------------------------------------
  // strtok(path, "-")

  /** A token strtok can return: non-empty and free of the delimiter. */
  predicate IsToken(t: string)
  {
    |t| > 0 && forall i :: 0 <= i < |t| ==> t[i] != '-'
  }

  /** The length of the longest delimiter-free prefix. */
  function RunLength(s: string): (n: nat)
    ensures n <= |s|
    ensures forall i :: 0 <= i < n ==> s[i] != '-'
    ensures n < |s| ==> s[n] == '-'
  {
    if s == [] || s[0] == '-' then 0 else 1 + RunLength(s[1..])
  }

  /** The tokens successive strtok calls return: runs of delimiters are skipped, empty tokens never appear. */
  function Tokens(s: string): (r: seq<string>)
    ensures forall i :: 0 <= i < |r| ==> IsToken(r[i])
    decreases |s|
  {
    if s == [] then []
    else if s[0] == '-' then Tokens(s[1..])
    else
      var n := RunLength(s);
      [s[..n]] + Tokens(s[n..])
  }

  /** The tokens written out with one delimiter between each two. */
  function Join(ts: seq<string>): string
  {
    if |ts| == 0 then []
    else if |ts| == 1 then ts[0]
    else ts[0] + "-" + Join(ts[1..])
  }

  lemma {:induction false} RunLengthOfToken(t: string, rest: string)
    requires IsToken(t) && (rest == [] || rest[0] == '-')
    ensures RunLength(t + rest) == |t|
  {
    assert (t + rest)[0] == t[0];
    assert (t + rest)[1..] == t[1..] + rest;
    if |t| > 1 {
      RunLengthOfToken(t[1..], rest);
    } else {
      assert t[1..] + rest == rest;
    }
  }

  /** Splitting a joined path gives back its tokens. */
  lemma {:induction false} TokensOfJoin(ts: seq<string>)
    requires forall i :: 0 <= i < |ts| ==> IsToken(ts[i])
    ensures Tokens(Join(ts)) == ts
  {
    if |ts| == 1 {
      RunLengthOfToken(ts[0], []);
      assert ts[0][..|ts[0]|] == ts[0];
      assert Join(ts)[|ts[0]|..] == [];
    } else if |ts| > 1 {
      var rest := "-" + Join(ts[1..]);
      assert Join(ts) == ts[0] + rest;
      RunLengthOfToken(ts[0], rest);
      assert (ts[0] + rest)[..|ts[0]|] == ts[0];
      assert (ts[0] + rest)[|ts[0]|..] == rest;
      assert rest[1..] == Join(ts[1..]);
      TokensOfJoin(ts[1..]);
      assert Tokens(Join(ts)) == [ts[0]] + Tokens(rest);
      assert Tokens(rest) == Tokens(Join(ts[1..]));
      assert [ts[0]] + ts[1..] == ts;
    }
  }

  // ---------------------------------------------------------------------------
  // atoi

  predicate IsSpace(c: char)
  {
    c == ' ' || c == '\t' || c == '\n' || c == '\U{B}' || c == '\U{C}' || c == '\r'
  }

  predicate IsDigit(c: char)
  {
    '0' <= c <= '9'
  }

  function SpaceRun(s: string): (n: nat)
    ensures n <= |s|
    ensures forall i :: 0 <= i < n ==> IsSpace(s[i])
    ensures n < |s| ==> !IsSpace(s[n])
  {
    if s == [] || !IsSpace(s[0]) then 0 else 1 + SpaceRun(s[1..])
  }

  function DigitRun(s: string): (n: nat)
    ensures n <= |s|
    ensures forall i :: 0 <= i < n ==> IsDigit(s[i])
    ensures n < |s| ==> !IsDigit(s[n])
  {
    if s == [] || !IsDigit(s[0]) then 0 else 1 + DigitRun(s[1..])
  }

  function DigitBits(c: char): (r: bv32)
    requires IsDigit(c)
    ensures r < 10
  {
    if c == '0' then 0 else if c == '1' then 1 else if c == '2' then 2 else if c == '3' then 3
    else if c == '4' then 4 else if c == '5' then 5 else if c == '6' then 6 else if c == '7' then 7
    else if c == '8' then 8 else 9
  }

  /** The value of a string of decimal digits, most significant first, in 32-bit two's complement. */
  function DigitsBits(d: string): bv32
    requires forall i :: 0 <= i < |d| ==> IsDigit(d[i])
  {
    if d == [] then 0 else Horner(DigitsBits(d[..|d| - 1]), d[|d| - 1])
  }

  /** One digit appended to a value read so far: `v * 10 + digit` in int, wrapping in 32 bits. */
  function Horner(v: bv32, c: char): bv32
    requires IsDigit(c)
  {
    v * 10 + DigitBits(c)
  }

  /** C's unary minus on a 32-bit int: the two's-complement negation. */
  function Negate(v: bv32): bv32
  {
    -v
  }

  /** What atoi reads from a string: an optional minus sign and the run of digits after it. */
  datatype Scanned = Scanned(negative: bool, digits: string)

  /** The leading digits of s. */
  function Leading(s: string): (d: string)
    ensures forall i :: 0 <= i < |d| ==> IsDigit(d[i])
  {
    s[..DigitRun(s)]
  }

  /**
   * What atoi reads: leading white space is skipped, an optional sign is
   * read, then the longest run of decimal digits; anything after it is
   * ignored.
   */
  function Scan(s: string): (r: Scanned)
    ensures forall i :: 0 <= i < |r.digits| ==> IsDigit(r.digits[i])
  {
    var t := s[SpaceRun(s)..];
    if |t| > 0 && t[0] == '-' then Scanned(true, Leading(t[1..]))
    else if |t| > 0 && t[0] == '+' then Scanned(false, Leading(t[1..]))
    else Scanned(false, Leading(t))
  }

  /**
   * atoi, as the 32-bit pattern of the int it returns: the digits read, in
   * two's complement and negated after a minus sign; a token without digits
   * reads as 0 and a value outside the range of int wraps around.
   */
  function Atoi(s: string): bv32
  {
    var r := Scan(s);
    if r.negative then Negate(DigitsBits(r.digits)) else DigitsBits(r.digits)
  }

  lemma DigitsFillRun(d: string)
    requires |d| > 0 && forall i :: 0 <= i < |d| ==> IsDigit(d[i])
    ensures SpaceRun(d) == 0 && DigitRun(d) == |d| && d[0..] == d && d[..|d|] == d
    ensures d[0] != '-' && d[0] != '+'
  {
    assert IsDigit(d[0]);
  }

  /** Appending a digit to a digit string: atoi reads the digits most significant first. */
  lemma AtoiOfDigits(d: string, c: char)
    requires |d| > 0 && forall i :: 0 <= i < |d| ==> IsDigit(d[i])
    requires IsDigit(c)
    ensures Atoi(d + [c]) == Horner(Atoi(d), c)
  {
    DigitsFillRun(d);
    var e := d + [c];
    DigitsFillRun(e);
    assert Scan(d) == Scanned(false, d);
    assert Scan(e) == Scanned(false, e);
    assert e[..|e| - 1] == d;
  }

  /** A string of digits reads as its value. */
  lemma AtoiOfNumeral(d: string)
    requires |d| > 0 && forall i :: 0 <= i < |d| ==> IsDigit(d[i])
    ensures Atoi(d) == DigitsBits(d)
  {
    DigitsFillRun(d);
    assert Scan(d) == Scanned(false, d);
  }

  /** atoi skips leading white space. */
  lemma ScanSkipsSpace(ws: string, t: string)
    requires forall i :: 0 <= i < |ws| ==> IsSpace(ws[i])
    requires |t| > 0 && !IsSpace(t[0])
    ensures Scan(ws + t) == Scan(t)
  {
    SpacePrefix(ws, t);
    assert SpaceRun(t) == 0 && t[0..] == t;
  }

  /** The digits read from a string starting with digits are those digits, up to the first other character. */
  lemma LeadingOfDigits(d: string, rest: string)
    requires |d| > 0 && forall i :: 0 <= i < |d| ==> IsDigit(d[i])
    requires rest == [] || !IsDigit(rest[0])
    ensures Leading(d + rest) == d
    ensures |d + rest| > 0 && IsDigit((d + rest)[0]) && !IsSpace((d + rest)[0])
  {
    DigitPrefix(d, rest);
  }

  /** atoi skips leading white space and stops at the first character that is not a digit. */
  lemma ScanSkipsSpaceAndSuffix(ws: string, d: string, rest: string)
    requires forall i :: 0 <= i < |ws| ==> IsSpace(ws[i])
    requires |d| > 0 && forall i :: 0 <= i < |d| ==> IsDigit(d[i])
    requires rest == [] || !IsDigit(rest[0])
    ensures Scan(ws + d + rest) == Scanned(false, d)
  {
    var u := d + rest;
    LeadingOfDigits(d, rest);
    assert ws + d + rest == ws + u;
    ScanSkipsSpace(ws, u);
    assert SpaceRun(u) == 0 && u[0..] == u;
  }

  /** A plus sign after the white space is skipped. */
  lemma ScanPlus(ws: string, d: string, rest: string)
    requires forall i :: 0 <= i < |ws| ==> IsSpace(ws[i])
    requires |d| > 0 && forall i :: 0 <= i < |d| ==> IsDigit(d[i])
    requires rest == [] || !IsDigit(rest[0])
    ensures Scan(ws + "+" + d + rest) == Scanned(false, d)
  {
    var u := "+" + (d + rest);
    LeadingOfDigits(d, rest);
    assert ws + "+" + d + rest == ws + u;
    ScanSkipsSpace(ws, u);
    assert SpaceRun(u) == 0 && u[0..] == u && u[1..] == d + rest;
  }

  lemma {:induction false} SpacePrefix(ws: string, t: string)
    requires forall i :: 0 <= i < |ws| ==> IsSpace(ws[i])
    requires |t| > 0 && !IsSpace(t[0])
    ensures (ws + t)[SpaceRun(ws + t)..] == t
  {
    if |ws| > 0 {
      assert (ws + t)[0] == ws[0];
      assert (ws + t)[1..] == ws[1..] + t;
      SpacePrefix(ws[1..], t);
    } else {
      assert ws + t == t;
    }
  }

  lemma {:induction false} DigitPrefix(d: string, rest: string)
    requires |d| > 0 && forall i :: 0 <= i < |d| ==> IsDigit(d[i])
    requires rest == [] || !IsDigit(rest[0])
    ensures (d + rest)[..DigitRun(d + rest)] == d
    ensures (d + rest)[0] == d[0] && !IsSpace(d[0])
  {
    assert (d + rest)[0] == d[0];
    assert (d + rest)[1..] == d[1..] + rest;
    if |d| > 1 {
      DigitPrefix(d[1..], rest);
      assert (d + rest)[..DigitRun(d + rest)] == [d[0]] + (d[1..] + rest)[..DigitRun(d[1..] + rest)];
      assert [d[0]] + d[1..] == d;
    } else {
      assert d[1..] + rest == rest;
      assert DigitRun(rest) == 0;
    }
  }
}
