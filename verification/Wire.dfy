/** The text format of server packets: printing by Server::createPacket, parsing by Client::parseMessage. */
module Wire {
  import opened Collections
  import opened Protocol
  import opened Numerals

  // ---- Joining and splitting fields ----

  predicate NoSemicolon(s: string) { ';' !in s }

  function Join(fields: seq<string>): string {
    if fields == [] then ""
    else if |fields| == 1 then fields[0]
    else fields[0] + ";" + Join(fields[1..])
  }

  /** The length of the text up to the first ';' or the end. */
  function FieldLength(s: string): (k: nat)
    ensures k <= |s| && NoSemicolon(s[..k]) && (k < |s| ==> s[k] == ';')
  {
    if s == "" || s[0] == ';' then 0 else
      var k := FieldLength(s[1..]);
      assert s[..k + 1] == [s[0]] + s[1..][..k];
      k + 1
  }

  /** Repeated getline(ss, segment, ';'): no segment is produced after a final ';'. */
  function Split(s: string): seq<string>
    decreases |s|
  {
    if s == "" then []
    else
      var k := FieldLength(s);
      if k == |s| then [s] else [s[..k]] + Split(s[k + 1..])
  }

  lemma {:induction false} FieldLengthOfField(field: string, rest: string)
    requires NoSemicolon(field) && (rest == "" || rest[0] == ';')
    ensures FieldLength(field + rest) == |field|
  {
    if field == "" {
      assert field + rest == rest;
    } else {
      assert (field + rest)[1..] == field[1..] + rest;
      FieldLengthOfField(field[1..], rest);
    }
  }

  lemma SplitFirst(head: string, rest: string)
    requires NoSemicolon(head)
    ensures Split(head + ";" + rest) == [head] + Split(rest)
  {
    var s := head + ";" + rest;
    FieldLengthOfField(head, ";" + rest);
    assert s == head + (";" + rest);
    assert s[..|head|] == head && s[|head| + 1..] == rest;
  }

  lemma SplitOne(field: string)
    requires NoSemicolon(field)
    ensures Split(field) == if field == "" then [] else [field]
  {
    if field != "" {
      FieldLengthOfField(field, "");
      assert field + "" == field;
    }
  }

  /** The fields that getline gives back: an empty last one is lost. */
  function Recovered(fields: seq<string>): seq<string>
    requires fields != []
  {
    if fields[|fields| - 1] == "" then fields[..|fields| - 1] else fields
  }

  lemma JoinCons(head: string, rest: seq<string>)
    requires rest != []
    ensures Join([head] + rest) == head + ";" + Join(rest)
  {
    assert ([head] + rest)[1..] == rest;
  }

  lemma RecoveredCons(head: string, rest: seq<string>)
    requires rest != []
    ensures Recovered([head] + rest) == [head] + Recovered(rest)
  {
    assert ([head] + rest)[..|rest|] == [head] + rest[..|rest| - 1];
  }

  /** Splitting undoes joining exactly when the last field is not empty; otherwise that field is lost. */
  lemma {:induction false} SplitJoin(fields: seq<string>)
    requires fields != [] && forall i | 0 <= i < |fields| :: NoSemicolon(fields[i])
    ensures Split(Join(fields)) == Recovered(fields)
    decreases |fields|
  {
    if |fields| == 1 {
      SplitOne(fields[0]);
    } else {
      var head, rest := fields[0], fields[1..];
      assert fields == [head] + rest;
      SplitJoin(rest);
      SplitFirst(head, Join(rest));
      JoinCons(head, rest);
      RecoveredCons(head, rest);
    }
  }

  // ---- Printing ----

  /** The five numbers of a payload: the id is an int, the others are whatever was printed. */
  datatype Payload = Payload(id: int, x: Number, y: Number, vx: Number, vy: Number)

  function PayloadFields(p: Payload): seq<string> {
    [Print(IntNumber(p.id)), Print(p.x), Print(p.y), Print(p.vx), Print(p.vy)]
  }

  const NO_DATA: string := "-1;-1;-1;-1;-1"

  function DataOrDefault(data: string): string {
    if data == "" then NO_DATA else data
  }

  /** The packet that createPacket builds with the incremented sequence number. */
  function Packet(kind: PacketType, data: string, number: int): string {
    [Code(kind) as char] + ";" + DataOrDefault(data) + ";" + Print(IntNumber(number))
  }

  // ---- Parsing ----

  /** The client's parsed packet, the last sequence number it saw, and the packets_lost_ reading of its lag meter. */
  datatype Reader = Reader(
    action: int,
    serverId: int,
    x: real,
    y: real,
    vx: real,
    vy: real,
    last: int,
    lost: int
  )

  datatype Outcome =
    | Empty        // reported, nothing read
    | Uncaught     // substr(2) of a one-byte packet throws outside any handler
    | BadFormat    // not six fields
    | Heartbeat
    | Malformed    // a number did not parse; the fields before it have been stored
    | Parsed

  function Deserialise(s: string): seq<string> {
    if |Split(s)| == 6 then Split(s) else []
  }

  /** The type, the id and the place; false when a number does not parse, which leaves the fields before it stored. */
  function ReadPlace(r: Reader, kind: int, e: seq<string>): (Reader, bool)
    requires |e| == 6
  {
    var r0 := r.(action := kind);
    match Stoi(e[0])
    case None => (r0, false)
    case Some(id) =>
    var r1 := r0.(serverId := id);
    match Stof(e[1])
    case None => (r1, false)
    case Some(x) =>
    var r2 := r1.(x := x);
    match Stof(e[2])
    case None => (r2, false)
    case Some(y) => (r2.(y := y), true)
  }

  function ReadVelocity(r: Reader, e: seq<string>): (Reader, bool)
    requires |e| == 6
  {
    match Stof(e[3])
    case None => (r, false)
    case Some(vx) =>
    var r1 := r.(vx := vx);
    match Stof(e[4])
    case None => (r1, false)
    case Some(vy) => (r1.(vy := vy), true)
  }

  function ReadNumber(r: Reader, e: seq<string>): (Reader, bool)
    requires |e| == 6
  {
    match Stoi(e[5])
    case None => (r, false)
    case Some(number) => (Count(r, number), true)
  }

  /** The assignments of parseMessage in order, each made only if its number parses. */
  function ReadFields(r: Reader, kind: int, e: seq<string>): (Reader, Outcome)
    requires |e| == 6
  {
    var (r1, placed) := ReadPlace(r, kind, e);
    if !placed then (r1, Malformed)
    else
      var (r2, moving) := ReadVelocity(r1, e);
      if !moving then (r2, Malformed)
      else
        var (r3, counted) := ReadNumber(r2, e);
        (r3, if counted then Parsed else Malformed)
  }

  /** Sequence-gap accounting: the reading changes only when there is a gap. */
  function Count(r: Reader, number: int): Reader {
    r.(last := number, lost := if number - r.last != 1 then number - r.last - 1 else r.lost)
  }

  function Parse(r: Reader, received: string): (Reader, Outcome) {
    if received == "" then (r, Empty)
    else if |received| == 1 then (r, Uncaught)
    else
      var e := Deserialise(received[2..]);
      if e == [] then (r, BadFormat)
      else if received[0] as int == Code(HEARTBEAT) then (r, Heartbeat)
      else ReadFields(r, received[0] as int, e)
  }

  // ---- Round trip ----

  predicate Representable(p: Payload) {
    && INT_MIN <= p.id <= INT_MAX
    && IsNumber(p.x) && InFloatRange(Value(p.x))
    && IsNumber(p.y) && InFloatRange(Value(p.y))
    && IsNumber(p.vx) && InFloatRange(Value(p.vx))
    && IsNumber(p.vy) && InFloatRange(Value(p.vy))
  }

  lemma PrintedHasNoSemicolon(n: Number)
    requires IsNumber(n)
    ensures NoSemicolon(Print(n)) && Print(n) != ""
  {
    PrintedNat(n.whole);
  }

  ghost predicate CleanFields(f: seq<string>) {
    forall i | 0 <= i < |f| :: NoSemicolon(f[i]) && f[i] != ""
  }

  lemma PayloadIsClean(p: Payload)
    requires Representable(p)
    ensures |PayloadFields(p)| == 5 && CleanFields(PayloadFields(p))
  {
    PrintedHasNoSemicolon(IntNumber(p.id));
    PrintedHasNoSemicolon(p.x);
    PrintedHasNoSemicolon(p.y);
    PrintedHasNoSemicolon(p.vx);
    PrintedHasNoSemicolon(p.vy);
  }

  lemma CleanFieldsSplit(f: seq<string>, last: string)
    requires f != [] && CleanFields(f) && NoSemicolon(last) && last != ""
    ensures Split(Join(f) + ";" + last) == f + [last]
  {
    JoinSnoc(f, last);
    SplitJoin(f + [last]);
  }

  lemma {:induction false} JoinSnoc(fields: seq<string>, last: string)
    requires fields != []
    ensures Join(fields + [last]) == Join(fields) + ";" + last
    decreases |fields|
  {
    var all := fields + [last];
    assert all[1..] == fields[1..] + [last];
    if |fields| == 1 {
      assert Join([last]) == last;
    } else {
      JoinSnoc(fields[1..], last);
      assert fields[0] + ";" + (Join(fields[1..]) + ";" + last) == (fields[0] + ";" + Join(fields[1..])) + ";" + last;
    }
  }

  lemma PacketShape(kind: PacketType, data: string, number: int)
    ensures var s := Packet(kind, data, number);
      && |s| >= 2
      && s[0] as int == Code(kind)
      && s[2..] == DataOrDefault(data) + ";" + Print(IntNumber(number))
  {
    var head := [Code(kind) as char] + ";";
    var tail := DataOrDefault(data) + ";" + Print(IntNumber(number));
    assert Packet(kind, data, number) == head + tail;
  }

  lemma ParseSplit(r: Reader, s: string, e: seq<string>)
    requires |s| >= 2 && Split(s[2..]) == e && |e| == 6
    ensures Parse(r, s) ==
            if s[0] as int == Code(HEARTBEAT) then (r, Heartbeat) else ReadFields(r, s[0] as int, e)
  {
  }

  /** What the client holds after reading a packet of this kind with this payload and number. */
  function AfterPacket(r: Reader, kind: PacketType, p: Payload, number: int): Reader
    requires Representable(p)
  {
    Count(r.(action := Code(kind), serverId := p.id, x := Value(p.x), y := Value(p.y), vx := Value(p.vx),
             vy := Value(p.vy)), number)
  }

  lemma OnlyHeartbeatIs99(kind: PacketType)
    ensures Code(kind) == Code(HEARTBEAT) <==> kind == HEARTBEAT
  {
  }

  /** Parsing a printed packet comes down to reading its fields one by one. */
  lemma PacketParses(r: Reader, kind: PacketType, f: seq<string>, number: int)
    requires |f| == 5 && CleanFields(f) && Join(f) != ""
    ensures Parse(r, Packet(kind, Join(f), number)) ==
            if Code(kind) == Code(HEARTBEAT) then (r, Heartbeat)
            else ReadFields(r, Code(kind), f + [Print(IntNumber(number))])
  {
    var last := Print(IntNumber(number));
    PrintedHasNoSemicolon(IntNumber(number));
    PacketShape(kind, Join(f), number);
    CleanFieldsSplit(f, last);
    ParseSplit(r, Packet(kind, Join(f), number), f + [last]);
  }

  /** The payload's fields parse to the payload's values. */
  ghost predicate ParsesTo(e: seq<string>, p: Payload, number: int)
    requires Representable(p) && |e| == 6
  {
    && Stoi(e[0]) == Some(p.id) && Stoi(e[5]) == Some(number)
    && Stof(e[1]) == Some(Value(p.x)) && Stof(e[2]) == Some(Value(p.y))
    && Stof(e[3]) == Some(Value(p.vx)) && Stof(e[4]) == Some(Value(p.vy))
  }

  lemma IntsParse(p: Payload, number: int, e: seq<string>)
    requires Representable(p) && INT_MIN <= number <= INT_MAX
    requires e == PayloadFields(p) + [Print(IntNumber(number))]
    ensures Stoi(e[0]) == Some(p.id) && Stoi(e[5]) == Some(number)
  {
    StoiOfPrinted(p.id);
    StoiOfPrinted(number);
  }

  lemma NumberParses(n: Number, field: string)
    requires IsNumber(n) && InFloatRange(Value(n)) && field == Print(n)
    ensures Stof(field) == Some(Value(n))
  {
    StofOfPrinted(n);
  }

  lemma PlacesParse(p: Payload, last: string, e: seq<string>)
    requires Representable(p) && e == PayloadFields(p) + [last]
    ensures Stof(e[1]) == Some(Value(p.x)) && Stof(e[2]) == Some(Value(p.y))
  {
    NumberParses(p.x, e[1]);
    NumberParses(p.y, e[2]);
  }

  lemma VelocitiesParse(p: Payload, last: string, e: seq<string>)
    requires Representable(p) && e == PayloadFields(p) + [last]
    ensures Stof(e[3]) == Some(Value(p.vx)) && Stof(e[4]) == Some(Value(p.vy))
  {
    NumberParses(p.vx, e[3]);
    NumberParses(p.vy, e[4]);
  }

  lemma FieldsParse(p: Payload, number: int, e: seq<string>)
    requires Representable(p) && INT_MIN <= number <= INT_MAX
    requires e == PayloadFields(p) + [Print(IntNumber(number))]
    ensures ParsesTo(e, p, number)
  {
    IntsParse(p, number, e);
    PlacesParse(p, Print(IntNumber(number)), e);
    VelocitiesParse(p, Print(IntNumber(number)), e);
  }

  lemma ParsedFieldsAreRead(r: Reader, kind: PacketType, e: seq<string>, p: Payload, number: int)
    requires Representable(p) && |e| == 6 && ParsesTo(e, p, number)
    ensures ReadFields(r, Code(kind), e) == (AfterPacket(r, kind, p, number), Parsed)
  {
  }

  /**
    Whatever packet the server prints, other than a heartbeat, the client reads back its type, its five numbers and its
    sequence number.
   */
  lemma RoundTrip(r: Reader, kind: PacketType, p: Payload, number: int)
    requires kind != HEARTBEAT && Representable(p) && INT_MIN <= number <= INT_MAX
    ensures Parse(r, Packet(kind, Join(PayloadFields(p)), number)) == (AfterPacket(r, kind, p, number), Parsed)
  {
    DataIsNotEmpty(p);
    PayloadIsClean(p);
    PacketParses(r, kind, PayloadFields(p), number);
    OnlyHeartbeatIs99(kind);
    var e := PayloadFields(p) + [Print(IntNumber(number))];
    FieldsParse(p, number, e);
    ParsedFieldsAreRead(r, kind, e, p, number);
  }

  lemma DataIsNotEmpty(p: Payload)
    ensures Join(PayloadFields(p)) != ""
  {
    var f := PayloadFields(p);
    assert Join(f) == f[0] + ";" + Join(f[1..]);
  }

  const NO_PAYLOAD: Payload := Payload(-1, IntNumber(-1), IntNumber(-1), IntNumber(-1), IntNumber(-1))

  lemma NoDataIsNoPayload()
    ensures Print(IntNumber(-1)) == "-1" && Value(IntNumber(-1)) == -1.0
    ensures Representable(NO_PAYLOAD)
    ensures Join(PayloadFields(NO_PAYLOAD)) == NO_DATA
  {
    assert PrintNat(1) == ['1'];
    assert Print(IntNumber(-1)) == "-1";
    var one := ["-1"];
    JoinSnoc(one, "-1");
    JoinSnoc(one + one, "-1");
    JoinSnoc(one + one + one, "-1");
    JoinSnoc(one + one + one + one, "-1");
    assert PayloadFields(NO_PAYLOAD) == one + one + one + one + one;
  }

  /** The empty payload is sent as five times -1. */
  lemma EmptyPayloadRoundTrip(r: Reader, kind: PacketType, number: int)
    requires kind != HEARTBEAT && INT_MIN <= number <= INT_MAX
    ensures Parse(r, Packet(kind, "", number)) ==
            (Count(r.(action := Code(kind), serverId := -1, x := -1.0, y := -1.0, vx := -1.0, vy := -1.0), number),
             Parsed)
  {
    NoDataIsNoPayload();
    assert Packet(kind, "", number) == Packet(kind, NO_DATA, number);
    RoundTrip(r, kind, NO_PAYLOAD, number);
  }

  /** A heartbeat changes nothing that packets carry, not even the last sequence number. */
  lemma HeartbeatIsIgnored(r: Reader, number: int)
    ensures Parse(r, Packet(HEARTBEAT, "", number)) == (r, Heartbeat)
  {
    NoDataIsNoPayload();
    assert Packet(HEARTBEAT, "", number) == Packet(HEARTBEAT, NO_DATA, number);
    PayloadIsClean(NO_PAYLOAD);
    PacketParses(r, HEARTBEAT, PayloadFields(NO_PAYLOAD), number);
  }
}
