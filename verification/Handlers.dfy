/** What the packet handlers do for the clients: which packets they cause, who gets them and how they read. */
module Handlers {
  import opened Collections
  import opened Protocol
  import opened Numerals
  import opened Wire
  import opened GameState
  import opened Clients
  import opened ServerState
  import opened Deliveries
  import opened Sessions

  /** The session after one event; both kinds of runs have a Step. */
  function Next(s: Session, ev: Sessions.Event): Session {
    Sessions.Step(s, ev)
  }

  // ---- Packets that wait in the queue ----

  /** One more packet waits, under the next number; nothing else of the server has changed but perhaps its game. */
  ghost predicate QueuesOne(s: State, u: State) {
    && |u.queue| == |s.queue| + 1 && u.queue[..|s.queue|] == s.queue
    && u.number == s.number + 1
    && u.outbox == s.outbox && u.table == s.table
  }

  /** A client that reads the packet learns of a start, and counts the packet. */
  ghost predicate ReadsAs(packet: string, action: int, number: int) {
    forall r: Reader :: ReadByAs(r, packet, action, number)
  }

  ghost predicate ReadByAs(r: Reader, packet: string, action: int, number: int) {
    var (v, outcome) := Parse(r, packet);
    outcome == Parsed && v.action == action && v.last == number && v.serverId == -1
  }

  lemma EmptyPacketReadsAs(kind: PacketType, number: int)
    requires kind != HEARTBEAT && INT_MIN <= number <= INT_MAX
    ensures ReadsAs(Packet(kind, "", number), Code(kind), number)
  {
    forall r: Reader ensures ReadByAs(r, Packet(kind, "", number), Code(kind), number) {
      EmptyPayloadRoundTrip(r, kind, number);
    }
  }

  /** An accepted GAME_START queues exactly one packet, which every client reads as action 3. */
  lemma StartIsAnnounced(s: Session, ep: Endpoint)
    requires !s.server.running && INT_MIN <= s.server.number + 1 <= INT_MAX
    ensures var u := Next(s, Receive(GAME_START, ep)).server;
      && u.running && QueuesOne(s.server, u)
      && ReadsAs(u.queue[|s.server.queue|], 3, u.number)
  {
    EmptyPacketReadsAs(GAME_START, s.server.number + 1);
  }

  /** A start while a game runs is refused, without a packet. */
  lemma SecondStartIsRefused(s: Session, ep: Endpoint)
    requires s.server.running
    ensures Next(s, Receive(GAME_START, ep)) == s
  {
  }

  /** A ping queues exactly one packet, which every client reads as a heartbeat and nothing more. */
  lemma PingIsAnswered(s: Session, ep: Endpoint)
    ensures var u := Next(s, Receive(HEARTBEAT, ep)).server;
      && QueuesOne(s.server, u) && u.running == s.server.running
      && forall r: Reader :: Parse(r, u.queue[|s.server.queue|]) == (r, Heartbeat)
  {
    forall r: Reader ensures Parse(r, Packet(HEARTBEAT, "", s.server.number + 1)) == (r, Heartbeat) {
      HeartbeatIsIgnored(r, s.server.number + 1);
    }
  }

  // ---- Emptying the queue ----

  function Timers(k: nat): seq<Sessions.Event> {
    if k == 0 then [] else Timers(k - 1) + [Sessions.SendTimer]
  }

  lemma SnocRun(s: Session, events: seq<Sessions.Event>, ev: Sessions.Event)
    ensures Sessions.Run(s, events + [ev]) == Next(Sessions.Run(s, events), ev)
  {
    assert (events + [ev])[..|events|] == events;
  }

  /** t is s after the k oldest queued packets have gone out, to me if I am registered. */
  ghost predicate HasSent(s: State, t: State, k: nat, me: Endpoint) {
    && k <= |s.queue|
    && t.table == s.table && t.queue == s.queue[k..]
    && Addressed(t.outbox, me) == Addressed(s.outbox, me) + if Find(s.table, me).Some? then s.queue[..k] else []
  }

  lemma TickSendsOne(s: State, t: State, k: nat, me: Endpoint)
    requires Partition(s.table) && HasSent(s, t, k, me) && k < |s.queue|
    ensures HasSent(s, SendTick(t), k + 1, me)
  {
    TickAddresses(t, me);
    var sent := Addressed(s.outbox, me);
    if Find(s.table, me).Some? {
      assert s.queue[..k + 1] == s.queue[..k] + [s.queue[k]];
      ConcatAssociates(sent, s.queue[..k], [s.queue[k]]);
    }
  }

  /** After k ticks of the send timer each registered endpoint has been sent the k oldest packets, once and in order. */
  lemma {:induction false} TimersSend(s: Session, k: nat, me: Endpoint)
    requires Partition(s.server.table) && k <= |s.server.queue|
    ensures HasSent(s.server, Sessions.Run(s, Timers(k)).server, k, me)
  {
    if k > 0 {
      TimersSend(s, k - 1, me);
      SnocRun(s, Timers(k - 1), Sessions.SendTimer);
      TickSendsOne(s.server, Sessions.Run(s, Timers(k - 1)).server, k - 1, me);
    }
  }

  /**
    An accepted GAME_START reaches everybody: after as many ticks as packets wait, each registered endpoint was sent
    the packets that waited before and then one more, which it reads as action 3.
   */
  lemma StartReachesClients(s: Session, ep: Endpoint, me: Endpoint)
    requires !s.server.running && INT_MIN <= s.server.number + 1 <= INT_MAX
    requires Partition(s.server.table) && Find(s.server.table, me).Some?
    ensures var k := |s.server.queue| + 1;
      var t := Sessions.Run(Next(s, Receive(GAME_START, ep)), Timers(k)).server;
      exists packet ::
        && t.queue == []
        && Addressed(t.outbox, me) == Addressed(s.server.outbox, me) + s.server.queue + [packet]
        && ReadsAs(packet, 3, s.server.number + 1)
  {
    StartIsAnnounced(s, ep);
    var u := Next(s, Receive(GAME_START, ep));
    var k := |s.server.queue| + 1;
    TimersSend(u, k, me);
    var packet := u.server.queue[k - 1];
    AllSent(s.server, u.server, Sessions.Run(u, Timers(k)).server, me, packet);
    assert ReadsAs(packet, 3, s.server.number + 1);
  }

  lemma AllSent(s: State, u: State, t: State, me: Endpoint, packet: string)
    requires QueuesOne(s, u) && HasSent(u, t, |u.queue|, me) && Find(s.table, me).Some?
    requires packet == u.queue[|s.queue|]
    ensures t.queue == [] && Addressed(t.outbox, me) == Addressed(s.outbox, me) + s.queue + [packet]
  {
    assert u.queue[..|u.queue|] == s.queue + [packet];
    ConcatAssociates(Addressed(s.outbox, me), s.queue, [packet]);
  }

  // ---- Replies ----

  /** One reply has gone to the endpoint at once, past the queue. */
  ghost predicate Replies(s: State, u: State, ep: Endpoint, action: int) {
    && u.queue == s.queue && u.number == s.number + 1
    && |u.outbox| == |s.outbox| + 1 && u.outbox[..|s.outbox|] == s.outbox
    && u.outbox[|s.outbox|].1 == ep && ReadsAs(u.outbox[|s.outbox|].0, action, u.number)
  }

  lemma ReplyReads(s: State, kind: PacketType, ep: Endpoint)
    requires kind != HEARTBEAT && INT_MIN <= s.number + 1 <= INT_MAX
    ensures Replies(s, Reply(s, kind, ep), ep, Code(kind))
  {
    EmptyPacketReadsAs(kind, s.number + 1);
  }

  /** A connecting client is told at once whether a game runs: 30 if it does and 31 if not. */
  lemma ConnectIsAnswered(s: Session, ep: Endpoint)
    requires INT_MIN <= s.server.number + 1 <= INT_MAX
    ensures var u := Next(s, Receive(REQCONNECT, ep)).server;
      u.running == s.server.running && Replies(s.server, u, ep, if s.server.running then 30 else 31)
  {
    var registered := s.server.(table := Create(s.server.table, ep).0);
    var kind := if s.server.running then GAME_STARTED else GAME_NOT_STARTED;
    ReplyReads(registered, kind, ep);
    RepliesInAnyTable(s.server, registered.table, Reply(registered, kind, ep), ep, Code(kind));
  }

  lemma RepliesInAnyTable(s: State, t: Table, u: State, ep: Endpoint, action: int)
    requires Replies(s.(table := t), u, ep, action)
    ensures Replies(s, u, ep, action)
  {
  }

  /** A client that disconnects is not answered; an endpoint that was not registered is, with 0. */
  lemma DisconnectIsAnswered(s: Session, ep: Endpoint)
    requires INT_MIN <= s.server.number + 1 <= INT_MAX
    ensures var u := Next(s, Receive(DISCONNECTED, ep)).server;
      if Find(s.server.table, ep).Some? then
        u.outbox == s.server.outbox && u.queue == s.server.queue && u.number == s.server.number
      else
        Replies(s.server, u, ep, 0) && u.table == s.server.table
  {
    ReplyReads(s.server, NONE, ep);
  }

  // ---- Shots, and what is ignored ----

  /** A shot by a living player: a new bullet 50 right of it and 25 below, its shooter on record, and a packet. */
  lemma ShotAppears(s: Session, ep: Endpoint, id: int)
    requires Find(s.server.table, ep) == Some(id) && id in s.world.players
    requires s.world.nextBulletId !in s.world.bullets
    ensures var w := s.world; var v := Next(s, Receive(PLAYER_SHOOT, ep)).world; var b := w.nextBulletId;
      var x, y := w.players[id].pos.x + 50.0, w.players[id].pos.y + 25.0;
      && v.bullets == w.bullets[b := Pos(x, y)]
      && v.shooters == w.shooters[b := id]
      && v.nextBulletId == b + 1
      && v.log == w.log + [Message(CREATE_BULLET, b, x, y, 5.0, 0.0)]
      && v.players == w.players
  {
  }

  /** A shot or a key from an endpoint that is not registered, and a key while no game runs, change nothing. */
  lemma StrangersAreIgnored(s: Session, kind: PacketType, ep: Endpoint)
    requires kind in {PLAYER_LEFT, PLAYER_RIGHT, PLAYER_UP, PLAYER_DOWN, PLAYER_SHOOT}
    requires Find(s.server.table, ep).None? || (!s.server.running && kind != PLAYER_SHOOT)
    ensures Next(s, Receive(kind, ep)) == s
  {
  }

  /** The ten kinds of packets that a handler is registered for. */
  predicate IsHandledKind(kind: PacketType) {
    || kind in {REQCONNECT, DISCONNECTED, GAME_START, GAME_END, HEARTBEAT}
    || kind in {PLAYER_LEFT, PLAYER_RIGHT, PLAYER_UP, PLAYER_DOWN, PLAYER_SHOOT}
  }

  lemma OtherKindsAreIgnored(s: Session, kind: PacketType, ep: Endpoint)
    requires !IsHandledKind(kind)
    ensures Next(s, Receive(kind, ep)) == s
  {
  }

  // ---- The end of a game ----

  /** Nothing is on the field and nothing is to be removed. */
  ghost predicate Deserted(w: World) {
    && w.players == map[] && w.bullets == map[] && w.enemies == map[] && w.bosses == map[]
    && w.deadPlayers == [] && w.deadBullets == [] && w.deadEnemies == [] && w.deadBosses == []
  }

  /** An accepted GAME_END deserts the field, and leaves counters, cached positions, queued actions and log alone. */
  lemma EndDeserts(s: Session, ep: Endpoint)
    requires s.server.running
    ensures var u := Next(s, Receive(GAME_END, ep)); var w := s.world;
      && !u.server.running && u.server.table == s.server.table && u.server.queue == s.server.queue
      && Deserted(u.world)
      && u.world == w.(players := map[], bullets := map[], enemies := map[], bosses := map[], deadPlayers := [],
                       deadBullets := [], deadEnemies := [], deadBosses := [])
  {
  }

  lemma SecondEndIsRefused(s: Session, ep: Endpoint)
    requires !s.server.running
    ensures Next(s, Receive(GAME_END, ep)) == s
  {
  }

  lemma NoHitsWithoutTargets(movers: map<int, Pos>)
    ensures Hits(map[], movers) == []
  {
  }

  lemma DesertedMarksNothing(w: World)
    requires Deserted(w)
    ensures MarkCasualties(w) == w
  {
    NoHitsWithoutTargets(map[]);
    assert Positions(w.players) == map[];
    assert BulletsHitEnemies(w) == w;
    assert BulletsHitBosses(w) == w;
    assert PlayersHitEnemies(w) == w;
    assert PlayersHitBosses(w) == w;
  }

  lemma DesertedRemovesNothing(w: World)
    requires Deserted(w)
    ensures RemoveCasualties(w) == w
  {
    assert RemoveBullets(w) == w;
    assert RemoveEnemies(w) == w;
    assert RemovePlayers(w) == w;
    assert RemoveBosses(w) == w;
  }

  /** Until the next wave, the game threads that go on after GAME_END change nothing and announce nothing. */
  lemma DesertedIsStill(w: World, due: bool)
    requires Deserted(w)
    ensures CheckCollisions(w) == w
    ensures UpdateBullets(w, due) == w && UpdateEnemies(w, due) == w && UpdateUI(w, due) == w
  {
    DesertedMarksNothing(w);
    DesertedRemovesNothing(w);
    assert Shift(map[], 5.0) == map[] && Shift(map[], -1.0) == map[] && Shift(map[], -0.1) == map[];
  }
}
