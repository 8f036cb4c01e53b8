/**
  From the server's log to the client's sprites through the text format: a client that receives every packet of a
  game in order, and draws a frame after each, shows what the server holds.
 */
module EndToEnd {
  import opened Protocol
  import opened Numerals
  import opened Wire
  import opened GameRuns
  import opened Replica
  import opened PlayerPlaces
  import opened Printing
  import opened BroadcastRuns
  import opened DeltaUpdates
  import opened WholePositions

  /** The client's packet_data_ with its counters, and its sprites. */
  datatype Client = Client(reader: Reader, scene: Scene)

  const NEW_CLIENT: Client := Client(Reader(0, 0, 0.0, 0.0, 0.0, 0.0, 0, 0), EMPTY_SCENE)

  /** The cases of handleServerAction by number; every other number is its default. */
  function Decoded(action: int): PacketType {
    match action
    case 22 => CREATE_ENEMY
    case 23 => CREATE_BOSS
    case 24 => CREATE_PLAYER
    case 25 => CREATE_BULLET
    case 29 => CHANGE
    case 34 => UI_UPDATE
    case 35 => DESTROY_PLAYER
    case 36 => DESTROY_ENEMY
    case 37 => DESTROY_BOSS
    case 38 => DESTROY_BULLET
    case _ => NONE
  }

  function Reset(r: Reader): Reader {
    r.(action := 0, serverId := 0, x := 0.0, y := 0.0, vx := 0.0, vy := 0.0)
  }

  /** One datagram and then one frame: parseMessage, handleServerAction and resetValues. */
  function Consume(c: Client, text: string): Client {
    var r := Parse(c.reader, text).0;
    Client(Reset(r), Receive(c.scene, Message(Decoded(r.action), r.serverId, r.x, r.y, r.vx, r.vy)))
  }

  function ReadAll(texts: seq<string>): Client {
    if texts == [] then NEW_CLIENT else Consume(ReadAll(texts[..|texts| - 1]), texts[|texts| - 1])
  }

  // ---- LogTexts of a log ----

  /** The payload carries the message's id, and its coordinates exactly where they are whole. */
  ghost predicate Renders(p: Payload, m: Message) {
    && Representable(p)
    && p.id == m.id
    && (Whole(m.x) ==> Value(p.x) == m.x)
    && (Whole(m.y) ==> Value(p.y) == m.y)
  }

  ghost predicate AllRendered(log: seq<Message>, ps: seq<Payload>, numbers: seq<int>) {
    && |ps| == |numbers| == |log|
    && (forall i | 0 <= i < |log| :: Renders(ps[i], log[i]))
    && (forall i | 0 <= i < |numbers| :: INT_MIN <= numbers[i] <= INT_MAX)
  }

  function LogTexts(log: seq<Message>, ps: seq<Payload>, numbers: seq<int>): (r: seq<string>)
    requires |ps| == |numbers| == |log|
    ensures |r| == |log|
  {
    seq(|log|, i requires 0 <= i < |log| => Packet(log[i].kind, Join(PayloadFields(ps[i])), numbers[i]))
  }

  // ---- The printer is such a rendering ----

  ghost predicate AllInRange(log: seq<Message>, numbers: seq<int>) {
    && |numbers| == |log|
    && (forall i | 0 <= i < |log| :: InRange(log[i]))
    && (forall i | 0 <= i < |numbers| :: INT_MIN <= numbers[i] <= INT_MAX)
  }

  function AllPrinted(log: seq<Message>): (r: seq<Payload>)
    ensures |r| == |log|
  {
    seq(|log|, i requires 0 <= i < |log| => Printed(log[i]))
  }

  lemma PrintedRenders(m: Message)
    requires InRange(m)
    ensures Renders(Printed(m), m)
  {
    PrintedIsReadable(m);
  }

  /** What the server prints of a log whose numbers fit their types meets the requirement on renderings. */
  lemma PrintedLogIsRendered(log: seq<Message>, numbers: seq<int>)
    requires AllInRange(log, numbers)
    ensures AllRendered(log, AllPrinted(log), numbers)
  {
    forall i | 0 <= i < |log| ensures Renders(AllPrinted(log)[i], log[i]) {
      PrintedRenders(log[i]);
    }
  }

  // ---- One packet ----

  /** The message as the client reads it. */
  function Seen(m: Message, p: Payload): Message
    requires Representable(p)
  {
    Message(m.kind, p.id, Value(p.x), Value(p.y), Value(p.vx), Value(p.vy))
  }

  /** The packets with a case of their own in handleServerAction. */
  predicate IsDrawn(kind: PacketType) {
    || kind == CREATE_ENEMY || kind == CREATE_BOSS || kind == CREATE_PLAYER || kind == CREATE_BULLET
    || kind == CHANGE || kind == UI_UPDATE
    || kind == DESTROY_PLAYER || kind == DESTROY_ENEMY || kind == DESTROY_BOSS || kind == DESTROY_BULLET
  }

  lemma DecodedKind(kind: PacketType)
    ensures Decoded(Code(kind)) == if IsDrawn(kind) then kind else NONE
  {
  }

  lemma UndrawnIsIgnored(c: Scene, m: Message)
    requires !IsDrawn(m.kind)
    ensures Receive(c, m) == c
  {
  }

  lemma DecodedActs(c: Scene, m: Message)
    ensures Receive(c, m.(kind := Decoded(Code(m.kind)))) == Receive(c, m)
  {
    DecodedKind(m.kind);
    if !IsDrawn(m.kind) {
      UndrawnIsIgnored(c, m);
      UndrawnIsIgnored(c, m.(kind := NONE));
    }
  }

  lemma ConsumeOne(c: Client, m: Message, p: Payload, number: int)
    requires Representable(p) && INT_MIN <= number <= INT_MAX && c.reader == Reset(c.reader)
    ensures var v := Consume(c, Packet(m.kind, Join(PayloadFields(p)), number));
      v.scene == Receive(c.scene, Seen(m, p)) && v.reader == Reset(v.reader)
  {
    if m.kind == HEARTBEAT {
      DataIsNotEmpty(p);
      PayloadIsClean(p);
      PacketParses(c.reader, HEARTBEAT, PayloadFields(p), number);
    } else {
      RoundTrip(c.reader, m.kind, p, number);
      DecodedActs(c.scene, Seen(m, p));
    }
  }

  function AllSeen(log: seq<Message>, ps: seq<Payload>): (r: seq<Message>)
    requires |ps| == |log| && forall i | 0 <= i < |ps| :: Representable(ps[i])
    ensures |r| == |log|
  {
    seq(|log|, i requires 0 <= i < |log| => Seen(log[i], ps[i]))
  }

  lemma DropLast(log: seq<Message>, ps: seq<Payload>, numbers: seq<int>)
    requires log != [] && AllRendered(log, ps, numbers)
    ensures var k := |log| - 1;
      && AllRendered(log[..k], ps[..k], numbers[..k])
      && LogTexts(log, ps, numbers)[..k] == LogTexts(log[..k], ps[..k], numbers[..k])
      && AllSeen(log, ps)[..k] == AllSeen(log[..k], ps[..k])
  {
  }

  /** The client has drawn these messages and waits for more. */
  ghost predicate HasDrawn(c: Client, seen: seq<Message>) {
    c.scene == Replay(seen) && c.reader == Reset(c.reader)
  }

  lemma DrawOne(c: Client, seen: seq<Message>, m: Message, p: Payload, number: int)
    requires seen != [] && HasDrawn(c, seen[..|seen| - 1])
    requires Representable(p) && INT_MIN <= number <= INT_MAX && seen[|seen| - 1] == Seen(m, p)
    ensures HasDrawn(Consume(c, Packet(m.kind, Join(PayloadFields(p)), number)), seen)
  {
    ConsumeOne(c, m, p, number);
  }

  lemma {:induction false} ReadAllReplays(log: seq<Message>, ps: seq<Payload>, numbers: seq<int>)
    requires AllRendered(log, ps, numbers)
    ensures HasDrawn(ReadAll(LogTexts(log, ps, numbers)), AllSeen(log, ps))
    decreases |log|
  {
    if log != [] {
      var k := |log| - 1;
      DropLast(log, ps, numbers);
      ReadAllReplays(log[..k], ps[..k], numbers[..k]);
      DrawOne(ReadAll(LogTexts(log, ps, numbers)[..k]), AllSeen(log, ps), log[k], ps[k], numbers[k]);
    }
  }

  // ---- What rounding keeps ----

  /** The same packets in the same order, up to coordinates. */
  ghost predicate SameIds(log: seq<Message>, seen: seq<Message>) {
    && |seen| == |log|
    && forall i | 0 <= i < |log| :: seen[i].kind == log[i].kind && seen[i].id == log[i].id
  }

  lemma SameKeysOne(c: Scene, d: Scene, m: Message, seen: Message, f: Family)
    requires seen.kind == m.kind && seen.id == m.id && Sprites(c, f) == Sprites(d, f)
    ensures Sprites(Receive(c, seen), f) == Sprites(Receive(d, m), f)
  {
    ReceiveKeys(c, seen, f);
    ReceiveKeys(d, m, f);
  }

  lemma {:induction false} SameKeys(log: seq<Message>, seen: seq<Message>, f: Family)
    requires SameIds(log, seen)
    ensures Sprites(Replay(seen), f) == Sprites(Replay(log), f)
    decreases |log|
  {
    if log != [] {
      var k := |log| - 1;
      SameKeys(log[..k], seen[..k], f);
      SameKeysOne(Replay(seen[..k]), Replay(log[..k]), log[k], seen[k], f);
    }
  }

  lemma WholeLogsAreSeen(log: seq<Message>, ps: seq<Payload>, numbers: seq<int>)
    requires AllRendered(log, ps, numbers) && WholeLog(log)
    ensures SamePlacings(log, AllSeen(log, ps))
  {
  }

  /** The sprites of a family after reading a log's text are those after the log itself. */
  lemma ReadKeys(log: seq<Message>, ps: seq<Payload>, numbers: seq<int>, f: Family)
    requires AllRendered(log, ps, numbers)
    ensures Sprites(ReadAll(LogTexts(log, ps, numbers)).scene, f) == Sprites(Replay(log), f)
  {
    ReadAllReplays(log, ps, numbers);
    SameKeys(log, AllSeen(log, ps), f);
  }

  /** A player's place after reading a log's text is the one after the log itself, if that names whole coordinates. */
  lemma ReadPlaceOf(log: seq<Message>, ps: seq<Payload>, numbers: seq<int>, id: int)
    requires AllRendered(log, ps, numbers) && WholeLog(log)
    ensures SamePlace(ReadAll(LogTexts(log, ps, numbers)).scene, Replay(log), id)
  {
    ReadAllReplays(log, ps, numbers);
    WholeLogsAreSeen(log, ps, numbers);
    SamePlaceAfter(log, AllSeen(log, ps), id);
  }

  // ---- Whole games ----

  /**
    At every point of every run of one game, a client that has read the text of the whole log has exactly the server's
    players, enemies and bosses, whatever the printer does to fractions.
   */
  lemma EntitiesSurviveTheWire(n: nat, events: seq<Event>, ps: seq<Payload>, numbers: seq<int>)
    requires AllRendered(Run(Start(n), events).w.log, ps, numbers)
    ensures var w := Run(Start(n), events).w; var c := ReadAll(LogTexts(w.log, ps, numbers)).scene;
      c.players.Keys == w.players.Keys && c.enemies.Keys == w.enemies.Keys && c.bosses.Keys == w.bosses.Keys
  {
    var log := Run(Start(n), events).w.log;
    ReadKeys(log, ps, numbers, PLAYERS);
    ReadKeys(log, ps, numbers, ENEMIES);
    ReadKeys(log, ps, numbers, BOSSES);
    ReplicaAgrees(n, events);
  }

  /** While nobody has died, it also shows every player exactly where the server has that player. */
  lemma PositionsSurviveTheWire(n: nat, events: seq<Event>, ps: seq<Payload>, numbers: seq<int>)
    requires AllRendered(Run(Start(n), events).w.log, ps, numbers)
    requires |Run(Start(n), events).w.players| == n
    ensures var w := Run(Start(n), events).w; var c := ReadAll(LogTexts(w.log, ps, numbers)).scene;
      forall id | id in w.players :: id in c.players && c.players[id].at == w.players[id].pos
  {
    var w := Run(Start(n), events).w;
    RunsStayWhole(n, events);
    DeltaIsLossless(n, events);
    forall id | id in w.players
      ensures var c := ReadAll(LogTexts(w.log, ps, numbers)).scene;
        id in c.players && c.players[id].at == w.players[id].pos
    {
      ReadPlaceOf(w.log, ps, numbers, id);
      assert ShownAt(w, id, w.players[id].pos);
    }
  }

  /**
    The same for the text that the server prints, as long as ids, coordinates and sequence numbers fit int and float:
    the client has exactly the server's entities, and while nobody has died every player exactly in place.
   */
  lemma PrintedGamesAreSeen(n: nat, events: seq<Event>, numbers: seq<int>)
    requires AllInRange(Run(Start(n), events).w.log, numbers)
    ensures var w := Run(Start(n), events).w; var c := ReadAll(LogTexts(w.log, AllPrinted(w.log), numbers)).scene;
      && c.players.Keys == w.players.Keys && c.enemies.Keys == w.enemies.Keys && c.bosses.Keys == w.bosses.Keys
      && (|w.players| == n ==> forall id | id in w.players :: c.players[id].at == w.players[id].pos)
  {
    var log := Run(Start(n), events).w.log;
    PrintedLogIsRendered(log, numbers);
    EntitiesSurviveTheWire(n, events, AllPrinted(log), numbers);
    if |Run(Start(n), events).w.players| == n {
      PositionsSurviveTheWire(n, events, AllPrinted(log), numbers);
    }
  }
}
