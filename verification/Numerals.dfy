/** Decimal printing (std::to_string) and parsing (std::stoi, std::stof) of the numbers that packets carry. */
module Numerals {
  import opened Collections

  predicate IsDigit(c: char) { '0' <= c <= '9' }

  predicate AllDigits(s: string) { forall i | 0 <= i < |s| :: IsDigit(s[i]) }

  function DigitValue(c: char): nat
    requires IsDigit(c)
  {
    c as int - '0' as int
  }

  function DigitChar(d: nat): (c: char)
    requires d < 10
    ensures IsDigit(c) && DigitValue(c) == d
  {
    ('0' as int + d) as char
  }

  function PrintNat(n: nat): string {
    if n < 10 then [DigitChar(n)] else PrintNat(n / 10) + [DigitChar(n % 10)]
  }

  function NatValue(s: string): nat
    requires AllDigits(s)
  {
    if s == "" then 0 else 10 * NatValue(s[..|s| - 1]) + DigitValue(s[|s| - 1])
  }

  lemma {:induction false} PrintedNat(n: nat)
    ensures PrintNat(n) != "" && AllDigits(PrintNat(n))
    ensures NatValue(PrintNat(n)) == n
  {
    if n >= 10 {
      PrintedNat(n / 10);
      assert PrintNat(n)[..|PrintNat(n)| - 1] == PrintNat(n / 10);
    }
  }

  /** The value of the digits after a decimal point. */
  function FractionValue(s: string): real
    requires AllDigits(s)
  {
    if s == "" then 0.0 else (DigitValue(s[0]) as real + FractionValue(s[1..])) / 10.0
  }

  // ---- Printed numbers ----

  /**
    A number as it appears in a payload: a sign, a whole part, and digits after the point if there is a point. An
    integer has none, a float printed by std::to_string has six, and the literal -0.1 has one.
   */
  datatype Number = Number(negative: bool, whole: nat, fraction: Option<string>)

  predicate IsNumber(n: Number) {
    n.fraction.Some? ==> AllDigits(n.fraction.value)
  }

  function Print(n: Number): string {
    (if n.negative then "-" else "") + PrintNat(n.whole) +
    (if n.fraction.Some? then "." + n.fraction.value else "")
  }

  function Signed(negative: bool, magnitude: real): real {
    if negative then -magnitude else magnitude
  }

  function Decimal(whole: nat, decimals: string): real
    requires AllDigits(decimals)
  {
    whole as real + FractionValue(decimals)
  }

  function Value(n: Number): real
    requires IsNumber(n)
  {
    Signed(n.negative, Decimal(n.whole, if n.fraction.Some? then n.fraction.value else ""))
  }

  function IntNumber(n: int): Number {
    Number(n < 0, if n < 0 then -n else n, None)
  }

  // ---- Parsing ----

  predicate IsSpace(c: char) { c == ' ' || 9 <= c as int <= 13 }

  function SkipSpaces(s: string): string {
    if s != "" && IsSpace(s[0]) then SkipSpaces(s[1..]) else s
  }

  /** The length of the longest prefix of digits. */
  function DigitSpan(s: string): (k: nat)
    ensures k <= |s| && AllDigits(s[..k])
    ensures k < |s| ==> !IsDigit(s[k])
  {
    if s == "" || !IsDigit(s[0]) then 0 else
      var k := DigitSpan(s[1..]);
      assert forall i | 0 < i < k + 1 :: s[i] == s[1..][..k][i - 1];
      k + 1
  }

  const INT_MIN: int := -0x8000_0000
  const INT_MAX: int := 0x7fff_ffff

  /** The largest finite float and the smallest normal one. */
  const FLOAT_MAX: real := 340282346638528859811704183484516925440.0
  const FLOAT_MIN: real := 1.0 / 85070591730234615865843651857942052864.0

  predicate InFloatRange(v: real) {
    v == 0.0 || FLOAT_MIN <= v <= FLOAT_MAX || FLOAT_MIN <= -v <= FLOAT_MAX
  }

  function SignOf(s: string): (bool, string) {
    if s != "" && s[0] == '-' then (true, s[1..])
    else if s != "" && s[0] == '+' then (false, s[1..])
    else (false, s)
  }

  function Negated(negative: bool, n: int): int {
    if negative then -n else n
  }

  /** std::stoi: leading space, sign, digits, then anything. None stands for either exception it throws. */
  function Stoi(s: string): Option<int> {
    var (negative, t) := SignOf(SkipSpaces(s));
    var k := DigitSpan(t);
    if k == 0 then None
    else
      var v := Negated(negative, NatValue(t[..k]));
      if INT_MIN <= v <= INT_MAX then Some(v) else None
  }

  /** Digits, and more digits if a point follows; at least one digit in all. */
  function Magnitude(t: string): Option<real> {
    var k := DigitSpan(t);
    var tail := if k < |t| && t[k] == '.' then t[k + 1..] else "";
    var f := DigitSpan(tail);
    if k + f == 0 then None else Some(Decimal(NatValue(t[..k]), tail[..f]))
  }

  /** std::stof on plain decimals: leading space, sign, magnitude, then anything. */
  function Stof(s: string): Option<real> {
    var (negative, t) := SignOf(SkipSpaces(s));
    match Magnitude(t)
    case None => None
    case Some(m) => if InFloatRange(Signed(negative, m)) then Some(Signed(negative, m)) else None
  }

  // ---- Parsing inverts printing ----

  lemma {:induction false} DigitSpanOfDigits(digits: string, rest: string)
    requires AllDigits(digits) && (rest == "" || !IsDigit(rest[0]))
    ensures DigitSpan(digits + rest) == |digits|
  {
    if digits == "" {
      assert digits + rest == rest;
    } else {
      assert (digits + rest)[1..] == digits[1..] + rest;
      DigitSpanOfDigits(digits[1..], rest);
    }
  }

  lemma SignOfPrinted(negative: bool, digits: string, rest: string)
    requires digits != "" && AllDigits(digits)
    ensures SignOf(SkipSpaces((if negative then "-" else "") + digits + rest)) == (negative, digits + rest)
  {
    var s := (if negative then "-" else "") + digits + rest;
    if negative {
      assert s[0] == '-' && s[1..] == digits + rest;
    } else {
      assert s == digits + rest && s[0] == digits[0];
    }
  }

  lemma StoiOfPrinted(n: int)
    requires INT_MIN <= n <= INT_MAX
    ensures Stoi(Print(IntNumber(n))) == Some(n)
  {
    var num := IntNumber(n);
    var digits := PrintNat(num.whole);
    PrintedNat(num.whole);
    SignOfPrinted(num.negative, digits, "");
    DigitSpanOfDigits(digits, "");
    assert (digits + "")[..|digits|] == digits;
  }

  lemma MagnitudeOfWhole(digits: string)
    requires digits != "" && AllDigits(digits)
    ensures Magnitude(digits) == Some(Decimal(NatValue(digits), ""))
  {
    DigitSpanOfDigits(digits, "");
    assert digits + "" == digits && digits[..|digits|] == digits;
  }

  lemma MagnitudeOfDecimal(digits: string, decimals: string)
    requires digits != "" && AllDigits(digits) && AllDigits(decimals)
    ensures Magnitude(digits + ("." + decimals)) == Some(Decimal(NatValue(digits), decimals))
  {
    var t := digits + ("." + decimals);
    DigitSpanOfDigits(digits, "." + decimals);
    assert t[..|digits|] == digits && t[|digits| + 1..] == decimals;
    DigitSpanOfDigits(decimals, "");
    assert decimals + "" == decimals && decimals[..|decimals|] == decimals;
  }

  lemma StofOfPrinted(n: Number)
    requires IsNumber(n) && InFloatRange(Value(n))
    ensures Stof(Print(n)) == Some(Value(n))
  {
    var digits := PrintNat(n.whole);
    PrintedNat(n.whole);
    match n.fraction
    case None =>
      SignOfPrinted(n.negative, digits, "");
      MagnitudeOfWhole(digits);
      assert digits + "" == digits;
      assert Print(n) == (if n.negative then "-" else "") + digits + "";
    case Some(decimals) =>
      SignOfPrinted(n.negative, digits, "." + decimals);
      MagnitudeOfDecimal(digits, decimals);
      assert Print(n) == (if n.negative then "-" else "") + digits + ("." + decimals);
  }
}
