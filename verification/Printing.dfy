/** The numbers in the packets of a game as the server prints them: six decimals for floats, literals for velocities. */
module Printing {
  import opened Collections
  import opened Protocol
  import opened Numerals
  import opened Wire

  function Abs(v: real): (r: real)
    ensures r >= 0.0
  {
    if v < 0.0 then -v else v
  }

  /** The nearest number of millionths; halves go to the even one. */
  function Millionths(v: real): (m: nat)
    requires v >= 0.0
    ensures 1000000.0 * v - 0.5 <= m as real <= 1000000.0 * v + 0.5
  {
    var scaled := 1000000.0 * v;
    var floor := scaled.Floor;
    var rest := scaled - floor as real;
    if rest < 0.5 || (rest == 0.5 && floor % 2 == 0) then floor else floor + 1
  }

  /** The six digits of k, leading zeros included. */
  function SixDigits(k: nat): string
    requires k < 1000000
  {
    var k1 := k / 10;
    var k2 := k1 / 10;
    var k3 := k2 / 10;
    var k4 := k3 / 10;
    [DigitChar(k4 / 10), DigitChar(k4 % 10), DigitChar(k3 % 10), DigitChar(k2 % 10), DigitChar(k1 % 10),
     DigitChar(k % 10)]
  }

  /** std::to_string of a float. */
  function SixDecimals(v: real): Number {
    var m := Millionths(Abs(v));
    Number(v < 0.0, m / 1000000, Some(SixDigits(m % 1000000)))
  }

  lemma FractionCons(c: char, rest: string)
    requires IsDigit(c) && AllDigits(rest)
    ensures AllDigits([c] + rest)
    ensures FractionValue([c] + rest) == (DigitValue(c) as real + FractionValue(rest)) / 10.0
  {
    assert ([c] + rest)[1..] == rest;
  }

  lemma SixDigitsValue(k: nat)
    requires k < 1000000
    ensures AllDigits(SixDigits(k)) && 1000000.0 * FractionValue(SixDigits(k)) == k as real
  {
    var k1 := k / 10;
    var k2 := k1 / 10;
    var k3 := k2 / 10;
    var k4 := k3 / 10;
    var a, b, c := DigitChar(k4 / 10), DigitChar(k4 % 10), DigitChar(k3 % 10);
    var d, e, f := DigitChar(k2 % 10), DigitChar(k1 % 10), DigitChar(k % 10);
    FractionCons(f, "");
    FractionCons(e, [f]);
    FractionCons(d, [e, f]);
    FractionCons(c, [d, e, f]);
    FractionCons(b, [c, d, e, f]);
    FractionCons(a, [b, c, d, e, f]);
    SixTerms(DigitValue(a), DigitValue(b), DigitValue(c), DigitValue(d), DigitValue(e), DigitValue(f));
    assert SixDigits(k) == [a] + [b, c, d, e, f];
    assert k == 100000 * DigitValue(a) + 10000 * DigitValue(b) + 1000 * DigitValue(c) + 100 * DigitValue(d) +
                10 * DigitValue(e) + DigitValue(f);
  }

  lemma SixTerms(a: nat, b: nat, c: nat, d: nat, e: nat, f: nat)
    ensures var low := (d as real + (e as real + (f as real + 0.0) / 10.0) / 10.0) / 10.0;
      1000000.0 * ((a as real + (b as real + (c as real + low) / 10.0) / 10.0) / 10.0) ==
      (100000 * a + 10000 * b + 1000 * c + 100 * d + 10 * e + f) as real
  {
  }

  /** What is printed is at most half a millionth away, and is exact if the value has at most six decimals. */
  lemma SixDecimalsNearest(v: real)
    ensures IsNumber(SixDecimals(v))
    ensures Value(SixDecimals(v)) == Signed(v < 0.0, Millionths(Abs(v)) as real / 1000000.0)
    ensures v - 0.0000005 <= Value(SixDecimals(v)) <= v + 0.0000005
  {
    var m := Millionths(Abs(v));
    SixDigitsValue(m % 1000000);
    assert m == 1000000 * (m / 1000000) + m % 1000000;
  }

  /** Whole numbers are printed exactly. */
  lemma WholeIsExact(v: real)
    requires v.Floor as real == v
    ensures Value(SixDecimals(v)) == v
  {
    SixDecimalsNearest(v);
    var k := 1000000 * if v < 0.0 then -v.Floor else v.Floor;
    assert k as real == 1000000.0 * Abs(v);
    assert Millionths(Abs(v)) == k;
  }

  /** What is printed of a number within the float range is within it. */
  lemma SixDecimalsInRange(v: real)
    requires Abs(v) <= FLOAT_MAX - 1.0
    ensures IsNumber(SixDecimals(v)) && InFloatRange(Value(SixDecimals(v)))
  {
    SixDecimalsNearest(v);
    var m := Millionths(Abs(v));
    if m > 0 {
      assert m as real / 1000000.0 >= 0.000001;
    }
  }

  // ---- Packets ----

  /** The velocities of packets are literals; -0.1 is the only one with a point. */
  function Velocity(v: real): Number {
    if v == -0.1 then Number(true, 0, Some("1"))
    else if v.Floor as real == v then IntNumber(v.Floor)
    else SixDecimals(v)
  }

  /** The coordinates of a DESTROY packet are the literal 0; all others are floats. */
  function Coordinate(kind: PacketType, v: real): Number {
    if v == 0.0 && (kind == DESTROY_PLAYER || kind == DESTROY_ENEMY || kind == DESTROY_BOSS || kind == DESTROY_BULLET)
    then IntNumber(0) else SixDecimals(v)
  }

  function Printed(m: Message): Payload {
    Payload(m.id, Coordinate(m.kind, m.x), Coordinate(m.kind, m.y), Velocity(m.vx), Velocity(m.vy))
  }

  /** The widths of int and float. */
  ghost predicate InRange(m: Message) {
    && INT_MIN <= m.id <= INT_MAX
    && Abs(m.x) <= FLOAT_MAX - 1.0 && Abs(m.y) <= FLOAT_MAX - 1.0
    && Abs(m.vx) <= FLOAT_MAX - 1.0 && Abs(m.vy) <= FLOAT_MAX - 1.0
  }

  lemma IntValue(n: int)
    ensures IsNumber(IntNumber(n)) && Value(IntNumber(n)) == n as real
  {
  }

  lemma IntInRange(v: real)
    requires v.Floor as real == v && Abs(v) <= FLOAT_MAX - 1.0
    ensures InFloatRange(v)
  {
    if v != 0.0 {
      assert Abs(v) >= 1.0;
    }
  }

  /** p can be read back, to half a millionth, and exactly if v is whole. */
  ghost predicate ReadsBack(p: Number, v: real) {
    && IsNumber(p) && InFloatRange(Value(p))
    && v - 0.0000005 <= Value(p) <= v + 0.0000005
    && (v.Floor as real == v ==> Value(p) == v)
  }

  /** p can be read back, and exactly if v is a velocity that the game uses. */
  ghost predicate ReadsBackVelocity(p: Number, v: real) {
    && IsNumber(p) && InFloatRange(Value(p))
    && (v == 5.0 || v == -1.0 || v == -0.1 || v == 0.0 ==> Value(p) == v)
  }

  lemma PrintedCoordinate(kind: PacketType, v: real)
    requires Abs(v) <= FLOAT_MAX - 1.0
    ensures ReadsBack(Coordinate(kind, v), v)
  {
    SixDecimalsInRange(v);
    SixDecimalsNearest(v);
    IntValue(0);
    if v.Floor as real == v {
      WholeIsExact(v);
    }
  }

  lemma TenthReadsBack()
    ensures ReadsBackVelocity(Number(true, 0, Some("1")), -0.1)
  {
    assert "1"[1..] == "";
    assert FractionValue("1") == 0.1;
  }

  lemma IntReadsBack(v: real)
    requires v.Floor as real == v && Abs(v) <= FLOAT_MAX - 1.0
    ensures ReadsBackVelocity(IntNumber(v.Floor), v)
  {
    IntValue(v.Floor);
    IntInRange(v);
  }

  lemma OtherReadsBack(n: Number, v: real)
    requires v.Floor as real != v && v != -0.1 && IsNumber(n) && InFloatRange(Value(n))
    ensures ReadsBackVelocity(n, v)
  {
  }

  lemma PrintedVelocity(v: real)
    requires Abs(v) <= FLOAT_MAX - 1.0
    ensures ReadsBackVelocity(Velocity(v), v)
  {
    if v == -0.1 {
      TenthReadsBack();
    } else if v.Floor as real == v {
      IntReadsBack(v);
    } else {
      SixDecimalsInRange(v);
      OtherReadsBack(SixDecimals(v), v);
    }
  }

  /**
    The printed payload of a message can be read back: its id exactly, its coordinates to half a millionth and exactly
    where they are whole, and the velocities that the game uses exactly.
   */
  lemma PrintedIsReadable(m: Message)
    requires InRange(m)
    ensures var p := Printed(m);
      && Representable(p) && p.id == m.id
      && ReadsBack(p.x, m.x) && ReadsBack(p.y, m.y)
      && ReadsBackVelocity(p.vx, m.vx) && ReadsBackVelocity(p.vy, m.vy)
  {
    PrintedCoordinate(m.kind, m.x);
    PrintedCoordinate(m.kind, m.y);
    PrintedVelocity(m.vx);
    PrintedVelocity(m.vy);
    PartsAreReadable(m, Printed(m));
  }

  lemma PartsAreReadable(m: Message, p: Payload)
    requires InRange(m) && p.id == m.id
    requires ReadsBack(p.x, m.x) && ReadsBack(p.y, m.y)
    requires ReadsBackVelocity(p.vx, m.vx) && ReadsBackVelocity(p.vy, m.vy)
    ensures Representable(p)
  {
  }
}
