/** The part of the client that reads server packets, assigning its fields one after the other. */
module ClientReader {
  import opened Collections
  import opened Protocol
  import opened Numerals
  import opened Wire

  class PacketReader {
    var action: int
    var serverId: int
    var newX: real
    var newY: real
    var newVx: real
    var newVy: real
    var lastPacketNb: int
    var packetsLost: int

    function View(): Reader
      reads this
    {
      Reader(action, serverId, newX, newY, newVx, newVy, lastPacketNb, packetsLost)
    }

    /** One successful std::getline(ss, segment, ';'): `rest` is what the stream still holds, `left` what remains. */
    method GetLine(rest: string) returns (segment: string, left: string)
      requires rest != ""
      ensures segment == rest[..FieldLength(rest)]
      ensures [segment] + Split(left) == Split(rest) && |left| < |rest|
    {
      var k := 0;
      while k < |rest| && rest[k] != ';'
        invariant k <= |rest|
        invariant FieldLength(rest) == k + FieldLength(rest[k..])
      {
        assert rest[k..][1..] == rest[k + 1..];
        k := k + 1;
      }
      assert FieldLength(rest) == k;
      segment := rest[..k];
      assert k == |rest| ==> segment == rest;
      left := if k < |rest| then rest[k + 1..] else "";
    }

    method DeserialisePacket(packetInside: string) returns (elements: seq<string>)
      ensures elements == Deserialise(packetInside)
    {
      elements := [];
      var stream := packetInside;
      while stream != ""
        invariant elements + Split(stream) == Split(packetInside)
        decreases |stream|
      {
        var segment, left := GetLine(stream);
        ConcatAssociates(elements, [segment], Split(left));
        elements := elements + [segment];
        stream := left;
      }
      assert elements == Split(packetInside);
      if |elements| != 6 {
        return [];
      }
    }

    method ParseMessage(received: string) returns (outcome: Outcome)
      modifies this
      ensures (View(), outcome) == Parse(old(View()), received)
    {
      if received == "" {
        return Empty;
      }
      if |received| == 1 {
        return Uncaught;
      }
      var packetType := received[0] as int;
      var elements := DeserialisePacket(received[2..]);
      if elements == [] {
        return BadFormat;
      }
      if packetType == Code(HEARTBEAT) {
        return Heartbeat;
      }
      outcome := StoreFields(packetType, elements);
    }

    /** The assignments inside the try block; a number that does not parse ends it. */
    method StoreFields(packetType: int, elements: seq<string>) returns (outcome: Outcome)
      requires |elements| == 6
      modifies this
      ensures (View(), outcome) == ReadFields(old(View()), packetType, elements)
    {
      var ok := StorePlace(packetType, elements);
      if ok {
        ok := StoreVelocity(elements);
      }
      if ok {
        ok := StoreNumber(elements);
      }
      outcome := if ok then Parsed else Malformed;
    }

    method StorePlace(packetType: int, elements: seq<string>) returns (ok: bool)
      requires |elements| == 6
      modifies this`action, this`serverId, this`newX, this`newY
      ensures (View(), ok) == ReadPlace(old(View()), packetType, elements)
    {
      action := packetType;
      var id := Stoi(elements[0]);
      if id.None? {
        return false;
      }
      serverId := id.value;
      var x := Stof(elements[1]);
      if x.None? {
        return false;
      }
      newX := x.value;
      var y := Stof(elements[2]);
      if y.None? {
        return false;
      }
      newY := y.value;
      ok := true;
    }

    method StoreVelocity(elements: seq<string>) returns (ok: bool)
      requires |elements| == 6
      modifies this`newVx, this`newVy
      ensures (View(), ok) == ReadVelocity(old(View()), elements)
    {
      var vx := Stof(elements[3]);
      if vx.None? {
        return false;
      }
      newVx := vx.value;
      var vy := Stof(elements[4]);
      if vy.None? {
        return false;
      }
      newVy := vy.value;
      ok := true;
    }

    method StoreNumber(elements: seq<string>) returns (ok: bool)
      requires |elements| == 6
      modifies this`lastPacketNb, this`packetsLost
      ensures (View(), ok) == ReadNumber(old(View()), elements)
    {
      var number := Stoi(elements[5]);
      if number.None? {
        return false;
      }
      if number.value - lastPacketNb != 1 {
        packetsLost := number.value - lastPacketNb - 1;
      }
      lastPacketNb := number.value;
      ok := true;
    }
  }
}
