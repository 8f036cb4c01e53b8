/** What one endpoint is sent over a run of the server: broadcasts through the send queue, replies past it. */
module Deliveries {
  import opened Collections
  import opened Protocol
  import opened Wire
  import opened Clients
  import opened ServerState
  import opened Gaps

  datatype Event =
    | Connects(ep: Endpoint)
    | Disconnects(ep: Endpoint)
    | Broadcasts(kind: PacketType, payload: Option<Payload>)
    | SendTimer

  /**
    The server, and for stating properties: the packets made so far, the indices of those still queued and of those sent
    to the endpoint in question, and whether some reply to it left while packets were queued.
   */
  datatype Watch = Watch(s: State, made: seq<Sent>, queued: seq<nat>, got: seq<nat>, overtaken: bool)

  const NOTHING_YET: Watch := Watch(NEW_SERVER, [], [], [], false)

  function Replied(w: Watch, s: State, kind: PacketType, ep: Endpoint, me: Endpoint): Watch {
    var v := w.(s := s, made := w.made + [Sent(kind, None)]);
    if ep == me then v.(got := w.got + [|w.made|], overtaken := w.overtaken || w.queued != []) else v
  }

  function Step(w: Watch, me: Endpoint, ev: Event): Watch {
    match ev
    case Connects(ep) =>
      Replied(w, Connect(w.s, ep), if w.s.running then GAME_STARTED else GAME_NOT_STARTED, ep, me)
    case Disconnects(ep) =>
      var s := ServerState.Disconnect(w.s, ep);
      if Find(w.s.table, ep).Some? then w.(s := s) else Replied(w, s, NONE, ep, me)
    case Broadcasts(kind, payload) =>
      w.(s := Queue(w.s, kind, Data(payload)), made := w.made + [Sent(kind, payload)], queued := w.queued + [|w.made|])
    case SendTimer =>
      if w.queued == [] then w.(s := SendTick(w.s))
      else w.(s := SendTick(w.s), queued := w.queued[1..],
              got := if Find(w.s.table, me).Some? then w.got + [w.queued[0]] else w.got)
  }

  function Run(me: Endpoint, events: seq<Event>): Watch {
    if events == [] then NOTHING_YET else Step(Run(me, events[..|events| - 1]), me, events[|events| - 1])
  }

  /** Fewer than 2^32 clients are registered at every point of the run. */
  ghost predicate Bounded(me: Endpoint, events: seq<Event>) {
    && |Run(me, events).s.table.clients| < WIDTH
    && (events != [] ==> Bounded(me, events[..|events| - 1]))
  }

  // ---- The datagrams for one endpoint ----

  function Addressed(outbox: seq<(string, Endpoint)>, me: Endpoint): seq<string> {
    if outbox == [] then []
    else
      var last := outbox[|outbox| - 1];
      Addressed(outbox[..|outbox| - 1], me) + if last.1 == me then [last.0] else []
  }

  function Texts(made: seq<Sent>, got: seq<nat>): seq<string>
    requires forall i | 0 <= i < |got| :: got[i] < |made|
  {
    seq(|got|, i requires 0 <= i < |got| => Text(made, got[i]))
  }

  lemma {:induction false} AddressedConcat(a: seq<(string, Endpoint)>, b: seq<(string, Endpoint)>, me: Endpoint)
    ensures Addressed(a + b, me) == Addressed(a, me) + Addressed(b, me)
  {
    if b == [] {
      assert a + b == a;
    } else {
      assert (a + b)[..|a + b| - 1] == a + b[..|b| - 1];
      AddressedConcat(a, b[..|b| - 1], me);
    }
  }

  lemma AddressedOne(message: string, ep: Endpoint, me: Endpoint)
    ensures Addressed([(message, ep)], me) == if ep == me then [message] else []
  {
    assert [(message, ep)][..0] == [];
    assert Addressed([], me) == [];
  }

  ghost predicate DistinctEndpoints(clients: map<int, Endpoint>) {
    forall i, j | i in clients && j in clients && i != j :: clients[i] != clients[j]
  }

  /** One pass over the clients sends the message to the endpoint once if it is registered, and otherwise not. */
  lemma {:induction false} OneCopyEach(message: string, clients: map<int, Endpoint>, left: set<int>, me: Endpoint)
    requires left <= clients.Keys && DistinctEndpoints(clients)
    ensures Addressed(ToClients(message, clients, left), me) ==
            if FindFrom(clients, me, left).Some? then [message] else []
    decreases |left|
  {
    if left != {} {
      var id := Least(left);
      var rest := left - {id};
      OneCopyEach(message, clients, rest, me);
      AddressedConcat([(message, clients[id])], ToClients(message, clients, rest), me);
      AddressedOne(message, clients[id], me);
      FindFromExact(clients, me, rest);
    }
  }

  // ---- The invariant ----

  ghost predicate Numbered(w: Watch) {
    && w.s.number == |w.made|
    && (forall i | 0 <= i < |w.queued| :: w.queued[i] < |w.made|)
    && (forall i | 0 <= i < |w.got| :: w.got[i] < |w.made|)
  }

  ghost predicate Traced(w: Watch, me: Endpoint) {
    && Numbered(w)
    && w.s.queue == Texts(w.made, w.queued)
    && Addressed(w.s.outbox, me) == Texts(w.made, w.got)
    && Ascending(w.queued)
  }

  lemma TextsGrow(made: seq<Sent>, one: Sent, got: seq<nat>)
    requires forall i | 0 <= i < |got| :: got[i] < |made|
    ensures Texts(made + [one], got) == Texts(made, got)
    ensures Texts(made + [one], got + [|made|]) == Texts(made, got) + [Packet(one.kind, Data(one.payload), |made| + 1)]
  {
  }

  lemma AscendingGrows(s: seq<nat>, n: nat)
    requires Ascending(s) && forall i | 0 <= i < |s| :: s[i] < n
    ensures Ascending(s + [n])
  {
  }

  lemma ReplyKeepsTracked(w: Watch, s: State, kind: PacketType, ep: Endpoint, me: Endpoint)
    requires Traced(w, me)
    requires s.queue == w.s.queue && s.number == w.s.number + 1
    requires s.outbox == w.s.outbox + [(Packet(kind, "", w.s.number + 1), ep)]
    ensures Traced(Replied(w, s, kind, ep, me), me)
  {
    var packet := Packet(kind, "", w.s.number + 1);
    TextsGrow(w.made, Sent(kind, None), w.queued);
    TextsGrow(w.made, Sent(kind, None), w.got);
    AddressedConcat(w.s.outbox, [(packet, ep)], me);
    AddressedOne(packet, ep, me);
  }

  lemma BroadcastKeepsTracked(w: Watch, me: Endpoint, kind: PacketType, payload: Option<Payload>)
    requires Traced(w, me)
    ensures Traced(Step(w, me, Broadcasts(kind, payload)), me)
  {
    TextsGrow(w.made, Sent(kind, payload), w.queued);
    TextsGrow(w.made, Sent(kind, payload), w.got);
    AscendingGrows(w.queued, |w.made|);
  }

  lemma TextsShift(made: seq<Sent>, queued: seq<nat>, got: seq<nat>)
    requires forall i | 0 <= i < |got| :: got[i] < |made|
    requires queued != [] && forall i | 0 <= i < |queued| :: queued[i] < |made|
    ensures Texts(made, queued)[0] == Text(made, queued[0])
    ensures Texts(made, queued)[1..] == Texts(made, queued[1..])
    ensures Texts(made, got + [queued[0]]) == Texts(made, got) + [Text(made, queued[0])]
  {
  }

  lemma TickAddresses(s: State, me: Endpoint)
    requires s.queue != [] && DistinctEndpoints(s.table.clients)
    ensures Addressed(SendTick(s).outbox, me) ==
            Addressed(s.outbox, me) + if Find(s.table, me).Some? then [s.queue[0]] else []
  {
    var message, clients := s.queue[0], s.table.clients;
    OneCopyEach(message, clients, clients.Keys, me);
    AddressedConcat(s.outbox, ToClients(message, clients, clients.Keys), me);
  }

  lemma TickKeepsTracked(w: Watch, me: Endpoint)
    requires Traced(w, me) && DistinctEndpoints(w.s.table.clients)
    ensures Traced(Step(w, me, SendTimer), me)
  {
    if w.queued != [] {
      TextsShift(w.made, w.queued, w.got);
      TickAddresses(w.s, me);
    }
  }

  lemma StepKeepsTracked(w: Watch, me: Endpoint, ev: Event)
    requires Traced(w, me) && Partition(w.s.table)
    ensures Traced(Step(w, me, ev), me)
  {
    match ev
    case Connects(ep) =>
      ReplyKeepsTracked(w, Connect(w.s, ep), if w.s.running then GAME_STARTED else GAME_NOT_STARTED, ep, me);
    case Disconnects(ep) =>
      if Find(w.s.table, ep).None? {
        ReplyKeepsTracked(w, ServerState.Disconnect(w.s, ep), NONE, ep, me);
      }
    case Broadcasts(kind, payload) => BroadcastKeepsTracked(w, me, kind, payload);
    case SendTimer => TickKeepsTracked(w, me);
  }

  /** What an event means for the client table. */
  function Change(ev: Event): Option<Clients.Event> {
    match ev
    case Connects(ep) => Some(Clients.Event.Connects(ep))
    case Disconnects(ep) => Some(Clients.Event.Disconnects(ep))
    case _ => None
  }

  lemma StepTable(w: Watch, me: Endpoint, ev: Event)
    ensures Step(w, me, ev).s.table == AfterMaybe(w.s.table, Change(ev))
  {
  }

  /** In every run, the datagrams for an endpoint are exactly the packets sent to it, each as printed when made. */
  lemma {:induction false} RunsAreTracked(me: Endpoint, events: seq<Event>)
    requires Bounded(me, events)
    ensures Traced(Run(me, events), me) && Partition(Run(me, events).s.table)
  {
    if events == [] {
      RunsKeepPartition([]);
    } else {
      var before, ev := events[..|events| - 1], events[|events| - 1];
      RunsAreTracked(me, before);
      StepKeepsTracked(Run(me, before), me, ev);
      StepTable(Run(me, before), me, ev);
      ChangeKeepsPartition(Run(me, before).s.table, Change(ev));
    }
  }

  // ---- Order ----

  /** Every packet sent to the endpoint is older than the packets still to come. */
  ghost predicate InOrder(w: Watch) {
    Ascending(w.got + w.queued)
  }

  /** An endpoint that is not registered has been sent nothing. */
  ghost predicate Ordered(w: Watch, me: Endpoint) {
    && Numbered(w) && Ascending(w.queued)
    && (InOrder(w) <==> !w.overtaken)
    && (Find(w.s.table, me).None? ==> w.got == [] && !w.overtaken)
  }

  lemma NewestIsInOrder(s: seq<nat>, n: nat)
    requires forall i | 0 <= i < |s| :: s[i] < n
    ensures Ascending(s + [n]) <==> Ascending(s)
  {
    assert forall i | 0 <= i < |s| :: (s + [n])[i] == s[i];
  }

  lemma BroadcastKeepsOrdered(w: Watch, me: Endpoint, kind: PacketType, payload: Option<Payload>)
    requires Ordered(w, me)
    ensures Ordered(Step(w, me, Broadcasts(kind, payload)), me)
  {
    var n := |w.made|;
    NewestIsInOrder(w.got + w.queued, n);
    NewestIsInOrder(w.queued, n);
    ConcatAssociates(w.got, w.queued, [n]);
  }

  lemma ShiftKeepsOrder(got: seq<nat>, queued: seq<nat>)
    requires queued != [] && Ascending(queued)
    ensures got + [queued[0]] + queued[1..] == got + queued
    ensures Ascending(queued[1..]) && [] + queued[1..] == queued[1..]
  {
  }

  /** v is w after its oldest queued packet has left, for the endpoint if that is registered. */
  ghost predicate Moved(w: Watch, v: Watch, me: Endpoint) {
    && w.queued != []
    && v.s.table == w.s.table && v.s.number == w.s.number && v.made == w.made && v.overtaken == w.overtaken
    && v.queued == w.queued[1..]
    && v.got == if Find(w.s.table, me).Some? then w.got + [w.queued[0]] else w.got
  }

  lemma TickMoves(w: Watch, me: Endpoint)
    requires w.queued != []
    ensures Moved(w, Step(w, me, SendTimer), me)
  {
  }

  lemma MovedKeepsOrdered(w: Watch, v: Watch, me: Endpoint)
    requires Ordered(w, me) && Moved(w, v, me)
    ensures Ordered(v, me)
  {
    ShiftKeepsOrder(w.got, w.queued);
  }

  lemma TickKeepsOrdered(w: Watch, me: Endpoint)
    requires Ordered(w, me)
    ensures Ordered(Step(w, me, SendTimer), me)
  {
    if w.queued != [] {
      TickMoves(w, me);
      MovedKeepsOrdered(w, Step(w, me, SendTimer), me);
    }
  }

  /** A reply that leaves while packets are queued is out of order for good. */
  lemma OvertakingIsOutOfOrder(got: seq<nat>, queued: seq<nat>, n: nat)
    requires queued != [] && queued[0] < n
    ensures !Ascending(got + [n] + queued)
  {
    var s := got + [n] + queued;
    assert s[|got|] == n && s[|got| + 1] == queued[0];
  }

  lemma ReplyOrder(w: Watch, me: Endpoint)
    requires Ordered(w, me)
    ensures Ascending(w.got + [|w.made|] + w.queued) <==> !w.overtaken && w.queued == []
  {
    var n := |w.made|;
    if w.queued != [] {
      OvertakingIsOutOfOrder(w.got, w.queued, n);
    } else {
      NewestIsInOrder(w.got, n);
      assert w.got + w.queued == w.got;
      assert w.got + [n] + w.queued == w.got + [n];
    }
  }

  lemma ConnectKeepsOrdered(w: Watch, me: Endpoint, ep: Endpoint)
    requires Ordered(w, me) && Partition(w.s.table)
    ensures Ordered(Step(w, me, Event.Connects(ep)), me)
  {
    if ep == me {
      ReplyOrder(w, me);
    }
    ConnectedIsFound(w.s.table, ep, me);
  }

  lemma ConnectedIsFound(t: Table, ep: Endpoint, me: Endpoint)
    requires Partition(t)
    ensures Find(Create(t, ep).0, me).None? ==> ep != me && Find(t, me).None?
  {
    var v := Create(t, ep).0;
    FindFromExact(t.clients, me, t.clients.Keys);
    FindFromExact(v.clients, me, v.clients.Keys);
    CreateRegisters(t, ep);
  }

  lemma OthersKeepFound(t: Table, ep: Endpoint, me: Endpoint)
    requires Partition(t) && ep != me
    ensures Find(Clients.Disconnect(t, ep).0, me).None? ==> Find(t, me).None?
  {
    var v := Clients.Disconnect(t, ep).0;
    FindFromExact(t.clients, ep, t.clients.Keys);
    FindFromExact(t.clients, me, t.clients.Keys);
    FindFromExact(v.clients, me, v.clients.Keys);
    if Find(t, me).Some? && Find(t, ep).Some? {
      assert Find(t, me).value in v.clients;
    }
  }

  lemma DisconnectKeepsOrdered(w: Watch, me: Endpoint, ep: Endpoint)
    requires Ordered(w, me) && Partition(w.s.table) && ep != me
    ensures Ordered(Step(w, me, Event.Disconnects(ep)), me)
  {
    OthersKeepFound(w.s.table, ep, me);
  }

  lemma {:induction false} RunsAreOrdered(me: Endpoint, events: seq<Event>)
    requires Bounded(me, events) && Event.Disconnects(me) !in events
    ensures Ordered(Run(me, events), me)
  {
    if events != [] {
      var before, ev := events[..|events| - 1], events[|events| - 1];
      RunsAreOrdered(me, before);
      RunsAreTracked(me, before);
      var w := Run(me, before);
      match ev
      case Connects(ep) => ConnectKeepsOrdered(w, me, ep);
      case Disconnects(ep) => DisconnectKeepsOrdered(w, me, ep);
      case Broadcasts(kind, payload) => BroadcastKeepsOrdered(w, me, kind, payload);
      case SendTimer => TickKeepsOrdered(w, me);
    }
  }

  /**
    For an endpoint that never disconnects: the packets sent to it, and those it will still be sent from the queue, go
    out in the order in which they were made exactly when no reply to it left while packets were queued.
   */
  lemma InOrderIffNotOvertaken(me: Endpoint, events: seq<Event>)
    requires Bounded(me, events) && Event.Disconnects(me) !in events
    ensures InOrder(Run(me, events)) <==> !Run(me, events).overtaken
  {
    RunsAreOrdered(me, events);
  }

  /** What is left of the packets when the channel loses those not marked. */
  function Arrivals(got: seq<nat>, arrives: seq<bool>): (r: seq<nat>)
    requires |arrives| == |got|
    ensures forall k | k in r :: k in got
  {
    if got == [] then []
    else
      var earlier := Arrivals(got[..|got| - 1], arrives[..|got| - 1]);
      if arrives[|got| - 1] then earlier + [got[|got| - 1]] else earlier
  }

  lemma {:induction false} ArrivalsAscend(got: seq<nat>, arrives: seq<bool>)
    requires |arrives| == |got| && Ascending(got)
    ensures Ascending(Arrivals(got, arrives))
  {
    if got != [] {
      var before := got[..|got| - 1];
      var earlier := Arrivals(before, arrives[..|got| - 1]);
      ArrivalsAscend(before, arrives[..|got| - 1]);
      forall i | 0 <= i < |earlier| ensures earlier[i] < got[|got| - 1] {
        assert earlier[i] in before;
      }
      AscendingGrows(earlier, got[|got| - 1]);
    }
  }

  /**
    A client that never disconnects, and is never answered past a waiting queue, counts as lost exactly the packets
    that the server made and that it did not process, whichever packets the channel loses.
   */
  lemma LossesAreCounted(me: Endpoint, events: seq<Event>, arrives: seq<bool>)
    requires Bounded(me, events) && Event.Disconnects(me) !in events
    requires var w := Run(me, events); !w.overtaken && |arrives| == |w.got| && Sendable(w.made)
    ensures var w := Run(me, events); var order := Arrivals(w.got, arrives);
      && (forall i | 0 <= i < |order| :: order[i] < |w.made|)
      && var t := Deliver(UNCONNECTED, w.made, order);
         AllCounts(t.gaps) && TotalGap(t.gaps) == |Skipped(Processed(w.made, order), t.reader.last)|
  {
    RunsAreOrdered(me, events);
    var w := Run(me, events);
    var order := Arrivals(w.got, arrives);
    PrefixAscends(w.got, w.queued);
    ArrivalsAscend(w.got, arrives);
    forall i | 0 <= i < |order| ensures order[i] < |w.made| {
      assert order[i] in w.got;
    }
    GapsCountSkipped(w.made, order);
  }

  lemma PrefixAscends(a: seq<nat>, b: seq<nat>)
    requires Ascending(a + b)
    ensures Ascending(a)
  {
    forall i, j | 0 <= i < j < |a| ensures a[i] < a[j] {
      assert (a + b)[i] == a[i] && (a + b)[j] == a[j];
    }
  }

  lemma RunSnoc(me: Endpoint, events: seq<Event>, ev: Event)
    ensures Run(me, events + [ev]) == Step(Run(me, events), me, ev)
  {
    assert (events + [ev])[..|events|] == events;
  }

  lemma RunOfThree(me: Endpoint, a: Event, b: Event, c: Event)
    ensures Run(me, [a, b, c]) == Step(Step(Step(NOTHING_YET, me, a), me, b), me, c)
  {
    RunSnoc(me, [], a);
    RunSnoc(me, [a], b);
    RunSnoc(me, [a, b], c);
    assert [] + [a] == [a] && [a] + [b] == [a, b] && [a, b] + [c] == [a, b, c];
  }

  lemma SwappedAreProcessed(made: seq<Sent>)
    requires |made| == 2 && made[0].kind != HEARTBEAT && made[1].kind != HEARTBEAT
    ensures Processed(made, [1, 0]) == [2, 1]
  {
    var first, both := [1], [1, 0];
    assert first[..0] == [] && both[..1] == first;
    assert Processed(made, []) == [];
    assert Processed(made, first) == [2];
  }

  /** Two packets that are not heartbeats, the second one arriving first. */
  lemma SwappedGaps(made: seq<Sent>)
    requires Sendable(made) && |made| == 2 && made[0].kind != HEARTBEAT && made[1].kind != HEARTBEAT
    ensures Deliver(UNCONNECTED, made, [1, 0]).gaps == [1, -2]
  {
    DeliveriesBalance(made, [1, 0]);
    SwappedAreProcessed(made);
    MeasuredGaps(Deliver(UNCONNECTED, made, [1, 0]));
  }

  lemma MeasuredGaps(t: Tally)
    requires Measured(t) && t.numbers == [2, 1]
    ensures t.gaps == [1, -2]
  {
  }

  lemma ConnectsDuringQueue(me: Endpoint)
    ensures var w := Step(Step(NOTHING_YET, me, Broadcasts(GAME_START, None)), me, Event.Connects(me));
      && w.made == [Sent(GAME_START, None), Sent(GAME_NOT_STARTED, None)]
      && w.queued == [0] && w.got == [1] && Find(w.s.table, me).Some?
  {
    var s := Queue(NEW_SERVER, GAME_START, "");
    assert Partition(NO_CLIENTS) by { RunsKeepPartition([]); }
    CreateRegisters(s.table, me);
    var t := Create(s.table, me).0;
    FindFromExact(t.clients, me, t.clients.Keys);
  }

  lemma OvertakingRun(me: Endpoint)
    ensures var w := Run(me, [Broadcasts(GAME_START, None), Event.Connects(me), SendTimer]);
      w.got == [1, 0] && w.made == [Sent(GAME_START, None), Sent(GAME_NOT_STARTED, None)]
  {
    RunOfThree(me, Broadcasts(GAME_START, None), Event.Connects(me), SendTimer);
    ConnectsDuringQueue(me);
    TickMoves(Step(Step(NOTHING_YET, me, Broadcasts(GAME_START, None)), me, Event.Connects(me)), me);
  }

  /** A client that connects while a broadcast is queued is answered first, and then counts a negative loss. */
  lemma ReplyCanOvertakeQueue(me: Endpoint)
    ensures var w := Run(me, [Broadcasts(GAME_START, None), Event.Connects(me), SendTimer]);
      && w.got == [1, 0] && |w.made| == 2 && Sendable(w.made)
      && Deliver(UNCONNECTED, w.made, w.got).gaps == [1, -2]
  {
    OvertakingRun(me);
    SwappedGaps([Sent(GAME_START, None), Sent(GAME_NOT_STARTED, None)]);
  }
}
