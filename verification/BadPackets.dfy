/** Packets and numbers that no server printed: what the client makes of them, and what they leave behind. */
module BadPackets {
  import opened Collections
  import opened Numerals
  import opened Wire

  // ---- Numbers with something before or after them ----

  ghost predicate AllSpaces(s: string) {
    forall i | 0 <= i < |s| :: IsSpace(s[i])
  }

  lemma {:induction false} SpacesAreSkipped(spaces: string, s: string)
    requires AllSpaces(spaces) && (s == "" || !IsSpace(s[0]))
    ensures SkipSpaces(spaces + s) == s
  {
    if spaces == "" {
      assert spaces + s == s;
    } else {
      assert (spaces + s)[1..] == spaces[1..] + s;
      SpacesAreSkipped(spaces[1..], s);
    }
  }

  /** A printed integer, after any space and before anything but a digit, is read exactly if it fits an int. */
  lemma StoiReadsNumber(spaces: string, n: int, rest: string)
    requires AllSpaces(spaces) && (rest == "" || !IsDigit(rest[0]))
    ensures Stoi(spaces + (Print(IntNumber(n)) + rest)) == if INT_MIN <= n <= INT_MAX then Some(n) else None
  {
    var num := IntNumber(n);
    var digits := PrintNat(num.whole);
    var sign := if num.negative then "-" else "";
    PrintedNat(num.whole);
    assert Print(num) + rest == sign + digits + rest;
    assert (Print(num) + rest)[0] == if num.negative then '-' else digits[0];
    SpacesAreSkipped(spaces, Print(num) + rest);
    SignOfPrinted(num.negative, digits, rest);
    DigitSpanOfDigits(digits, rest);
    assert SkipSpaces(sign + digits + rest) == sign + digits + rest;
    assert (digits + rest)[..|digits|] == digits;
  }

  /** Without a digit after space and sign, nothing is read. */
  lemma StoiNeedsDigit(spaces: string, sign: string, rest: string)
    requires AllSpaces(spaces) && sign in {"", "-", "+"}
    requires rest == "" || (!IsDigit(rest[0]) && !IsSpace(rest[0]) && rest[0] != '-' && rest[0] != '+')
    ensures Stoi(spaces + (sign + rest)) == None
  {
    SpacesAreSkipped(spaces, sign + rest);
    if sign == "" {
      assert sign + rest == rest;
    } else {
      assert (sign + rest)[1..] == rest;
    }
  }

  // ---- Fields ----

  /** Whether field i of the six is a number of its type. */
  predicate Parses(e: seq<string>, i: nat)
    requires |e| == 6 && i < 6
  {
    if i == 0 || i == 5 then Stoi(e[i]).Some? else Stof(e[i]).Some?
  }

  /** The first field that is not a number of its type, or 6. */
  function FirstBad(e: seq<string>, i: nat): (k: nat)
    requires |e| == 6 && i <= 6
    ensures i <= k <= 6
    ensures (forall j | i <= j < k :: Parses(e, j)) && (k < 6 ==> !Parses(e, k))
    decreases 6 - i
  {
    if i < 6 && Parses(e, i) then FirstBad(e, i + 1) else i
  }

  /** The fields before the first bad one are stored and the others keep their values; only six good ones count. */
  lemma FieldsBeforeBadAreStored(r: Reader, kind: int, e: seq<string>)
    requires |e| == 6
    ensures var (v, outcome) := ReadFields(r, kind, e); var k := FirstBad(e, 0);
      && outcome == (if k == 6 then Parsed else Malformed)
      && v.action == kind
      && v.serverId == (if 0 < k then Stoi(e[0]).value else r.serverId)
      && v.x == (if 1 < k then Stof(e[1]).value else r.x)
      && v.y == (if 2 < k then Stof(e[2]).value else r.y)
      && v.vx == (if 3 < k then Stof(e[3]).value else r.vx)
      && v.vy == (if 4 < k then Stof(e[4]).value else r.vy)
      && v.last == (if k == 6 then Stoi(e[5]).value else r.last)
      && v.lost == if k == 6 && v.last - r.last != 1 then v.last - r.last - 1 else r.lost
  {
    var k := FirstBad(e, 0);
    assert forall j | 0 <= j < k :: Parses(e, j);
    assert Parses(e, 0) <==> k > 0;
    assert k > 0 ==> (Parses(e, 1) <==> k > 1);
    assert k > 1 ==> (Parses(e, 2) <==> k > 2);
    assert k > 2 ==> (Parses(e, 3) <==> k > 3);
    assert k > 3 ==> (Parses(e, 4) <==> k > 4);
    assert k > 4 ==> (Parses(e, 5) <==> k > 5);
  }

  // ---- Packets ----

  lemma ParseBySplit(r: Reader, s: string)
    ensures Parse(r, s) ==
            if s == "" then (r, Empty)
            else if |s| == 1 then (r, Uncaught)
            else if |Split(s[2..])| != 6 then (r, BadFormat)
            else if s[0] as int == 99 then (r, Heartbeat)
            else ReadFields(r, s[0] as int, Split(s[2..]))
  {
  }

  /** Which outcome a datagram has, and what the outcomes other than Parsed leave unchanged. */
  lemma OutcomesAreExact(r: Reader, s: string)
    ensures var (v, outcome) := Parse(r, s);
      && (outcome == Empty <==> s == "")
      && (outcome == Uncaught <==> |s| == 1)
      && (outcome == BadFormat <==> |s| >= 2 && |Split(s[2..])| != 6)
      && (outcome == Heartbeat <==> |s| >= 2 && |Split(s[2..])| == 6 && s[0] as int == 99)
      && (outcome == Parsed <==>
            |s| >= 2 && |Split(s[2..])| == 6 && s[0] as int != 99 && FirstBad(Split(s[2..]), 0) == 6)
      && (outcome != Parsed ==> v.last == r.last && v.lost == r.lost)
      && (outcome != Parsed && outcome != Malformed ==> v == r)
  {
    ParseBySplit(r, s);
    if |s| >= 2 && |Split(s[2..])| == 6 {
      FieldsBeforeBadAreStored(r, s[0] as int, Split(s[2..]));
    }
  }
}
