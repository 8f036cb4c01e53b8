/** Client registration: ids recycled through a queue, keyed by endpoint. */
module Clients {
  import opened Collections

  datatype Endpoint = Endpoint(address: nat, port: nat)

  datatype Table = Table(clients: map<int, Endpoint>, available: seq<int>, nbClients: int)

  const NO_CLIENTS: Table := Table(map[], [], 0)

  /** _nbClients is a uint32_t. */
  const WIDTH: int := 0x1_0000_0000

  /** The search loop over clients_ in id order, from the ids that are left. */
  function FindFrom(clients: map<int, Endpoint>, ep: Endpoint, left: set<int>): Option<int>
    requires left <= clients.Keys
    decreases |left|
  {
    if left == {} then None
    else
      var id := Least(left);
      if clients[id] == ep then Some(id) else FindFrom(clients, ep, left - {id})
  }

  function Find(t: Table, ep: Endpoint): Option<int> {
    FindFrom(t.clients, ep, t.clients.Keys)
  }

  /** createClient: the new table and the id that is returned. */
  function Create(t: Table, ep: Endpoint): (Table, int) {
    match Find(t, ep)
    case Some(id) => (t, id)
    case None =>
      if t.available != [] then
        var id := t.available[0];
        (Table(WithClient(t.clients, id, ep), t.available[1..], t.nbClients), id)
      else
        var id := t.nbClients;
        (Table(WithClient(t.clients, id, ep), [], (t.nbClients + 1) % WIDTH), id)
  }

  /** std::map::insert does not overwrite. */
  function WithClient(clients: map<int, Endpoint>, id: int, ep: Endpoint): map<int, Endpoint> {
    if id in clients then clients else clients[id := ep]
  }

  /** disconnectData: the new table and the id that was freed; None is the "client not found" answer. */
  function Disconnect(t: Table, ep: Endpoint): (Table, Option<int>) {
    match Find(t, ep)
    case Some(id) => (Table(t.clients - {id}, t.available + [id], t.nbClients), Some(id))
    case None => (t, None)
  }

  // ---- Invariant ----

  /** The ids in use and the ids to recycle split 0, ..., nbClients - 1, without repeats, and endpoints are distinct. */
  ghost predicate Partition(t: Table) {
    && t.clients.Keys + Elements(t.available) == Below(t.nbClients)
    && t.clients.Keys !! Elements(t.available)
    && NoDuplicates(t.available)
    && (forall i, j | i in t.clients && j in t.clients && i != j :: t.clients[i] != t.clients[j])
    && 0 <= t.nbClients
  }

  lemma {:induction false} FindFromExact(clients: map<int, Endpoint>, ep: Endpoint, left: set<int>)
    requires left <= clients.Keys
    ensures match FindFrom(clients, ep, left)
      case Some(id) => id in left && clients[id] == ep
      case None => forall id | id in left :: clients[id] != ep
    decreases |left|
  {
    if left != {} {
      FindFromExact(clients, ep, left - {Least(left)});
    }
  }

  /** With distinct endpoints, the search finds the one id registered for the endpoint, if there is one. */
  lemma FindIff(t: Table, ep: Endpoint, id: int)
    requires Partition(t)
    ensures Find(t, ep) == Some(id) <==> id in t.clients && t.clients[id] == ep
  {
    FindFromExact(t.clients, ep, t.clients.Keys);
  }

  lemma PartitionCount(t: Table)
    requires Partition(t)
    ensures |t.clients| + |t.available| == t.nbClients
  {
    NoDuplicatesCardinality(t.available);
    BelowCardinality(t.nbClients);
    assert |t.clients.Keys + Elements(t.available)| == |t.clients.Keys| + |Elements(t.available)|;
    assert |t.clients| == |t.clients.Keys|;
  }

  lemma RecyclingKeepsPartition(t: Table, ep: Endpoint)
    requires Partition(t) && t.available != [] && Find(t, ep).None?
    ensures Partition(Create(t, ep).0)
    ensures t.available[0] !in t.clients
  {
    var id, rest := t.available[0], t.available[1..];
    FindFromExact(t.clients, ep, t.clients.Keys);
    assert id in Elements(t.available) && id !in t.clients.Keys;
    assert t.available == [id] + rest;
    assert Elements(t.available) == {id} + Elements(rest);
    assert id !in Elements(rest);
    assert (t.clients[id := ep]).Keys == t.clients.Keys + {id};
  }

  /** A fresh id keeps the partition exactly while the 32-bit counter does not wrap. */
  lemma FreshIdKeepsPartitionIff(t: Table, ep: Endpoint)
    requires Partition(t) && t.available == [] && Find(t, ep).None? && t.nbClients < WIDTH
    ensures t.nbClients !in t.clients
    ensures Partition(Create(t, ep).0) <==> t.nbClients + 1 < WIDTH
  {
    var id := t.nbClients;
    FindFromExact(t.clients, ep, t.clients.Keys);
    assert t.clients.Keys == Below(id);
    var u := Create(t, ep).0;
    assert u.clients.Keys == Below(id) + {id} == Below(id + 1);
    if id + 1 == WIDTH {
      assert id in u.clients.Keys && id !in Below(0);
    } else {
      assert (id + 1) % WIDTH == id + 1;
    }
  }

  /** createClient registers the endpoint and leaves every other entry alone. */
  lemma CreateRegisters(t: Table, ep: Endpoint)
    requires Partition(t)
    ensures var (v, id) := Create(t, ep); id in v.clients && v.clients[id] == ep
    ensures forall i | i in t.clients :: i in Create(t, ep).0.clients && Create(t, ep).0.clients[i] == t.clients[i]
  {
    FindFromExact(t.clients, ep, t.clients.Keys);
    if Find(t, ep).None? {
      if t.available != [] {
        assert t.available[0] in Elements(t.available);
      } else {
        assert t.nbClients !in Below(t.nbClients) && t.nbClients !in t.clients.Keys;
      }
    }
  }

  lemma CreateKeepsPartition(t: Table, ep: Endpoint)
    requires Partition(t) && |Create(t, ep).0.clients| < WIDTH
    ensures Partition(Create(t, ep).0)
  {
    if Find(t, ep).None? {
      if t.available != [] {
        RecyclingKeepsPartition(t, ep);
      } else {
        PartitionCount(t);
        assert t.nbClients !in Below(t.nbClients) && t.nbClients !in t.clients.Keys;
        assert |Create(t, ep).0.clients| == |t.clients| + 1;
        FreshIdKeepsPartitionIff(t, ep);
      }
    }
  }

  lemma DisconnectKeepsPartition(t: Table, ep: Endpoint)
    requires Partition(t)
    ensures Partition(Disconnect(t, ep).0)
    ensures forall id | id in Disconnect(t, ep).0.clients :: Disconnect(t, ep).0.clients[id] != ep
  {
    FindFromExact(t.clients, ep, t.clients.Keys);
    if Find(t, ep).Some? {
      var id := Find(t, ep).value;
      assert (t.clients - {id}).Keys == t.clients.Keys - {id};
      assert Elements(t.available + [id]) == Elements(t.available) + {id};
      assert id !in Elements(t.available);
    }
  }

  // ---- Runs ----

  datatype Event = Connects(ep: Endpoint) | Disconnects(ep: Endpoint)

  /** The table, and the largest number of clients registered at one time. */
  datatype Registry = Registry(table: Table, peak: int)

  function After(t: Table, ev: Event): Table {
    match ev
    case Connects(ep) => Create(t, ep).0
    case Disconnects(ep) => Disconnect(t, ep).0
  }

  /** The table after a step that may or may not concern it. */
  function AfterMaybe(t: Table, change: Option<Event>): Table {
    if change.Some? then After(t, change.value) else t
  }

  lemma ChangeKeepsPartition(t: Table, change: Option<Event>)
    requires Partition(t) && |AfterMaybe(t, change).clients| < WIDTH
    ensures Partition(AfterMaybe(t, change))
  {
    match change
    case Some(Connects(ep)) => CreateKeepsPartition(t, ep);
    case Some(Disconnects(ep)) => DisconnectKeepsPartition(t, ep);
    case None =>
  }

  function Step(r: Registry, ev: Event): Registry {
    var t := After(r.table, ev);
    Registry(t, if |t.clients| > r.peak then |t.clients| else r.peak)
  }

  function Run(events: seq<Event>): Registry {
    if events == [] then Registry(NO_CLIENTS, 0) else Step(Run(events[..|events| - 1]), events[|events| - 1])
  }

  lemma StepKeepsPeak(r: Registry, ev: Event)
    requires Partition(r.table) && r.table.nbClients == r.peak && Step(r, ev).peak < WIDTH
    ensures Partition(Step(r, ev).table) && Step(r, ev).table.nbClients == Step(r, ev).peak
  {
    PartitionCount(r.table);
    match ev
    case Connects(ep) =>
      CreateKeepsPartition(r.table, ep);
      PartitionCount(Step(r, ev).table);
    case Disconnects(ep) =>
      DisconnectKeepsPartition(r.table, ep);
      PartitionCount(Step(r, ev).table);
  }

  /**
    As long as fewer than 2^32 clients are registered at one time: used and recycled ids partition 0.._nbClients-1,
    endpoints are distinct, and _nbClients is the largest number of clients ever registered at one time.
   */
  lemma {:induction false} RunsKeepPartition(events: seq<Event>)
    requires Run(events).peak < WIDTH
    ensures Partition(Run(events).table)
    ensures Run(events).table.nbClients == Run(events).peak
  {
    if events == [] {
      assert Elements(NO_CLIENTS.available) == {} && Below(0) == {};
    } else {
      RunsKeepPartition(events[..|events| - 1]);
      StepKeepsPeak(Run(events[..|events| - 1]), events[|events| - 1]);
    }
  }

  lemma RunSnoc(events: seq<Event>, ev: Event)
    ensures Run(events + [ev]) == Step(Run(events), ev)
    ensures Run(events).peak <= Run(events + [ev]).peak
  {
    assert (events + [ev])[..|events|] == events;
  }

  lemma OneEventKeepsId(t: Table, ev: Event, id: int, ep: Endpoint)
    requires Partition(t) && id in t.clients && t.clients[id] == ep && ev != Disconnects(ep)
    ensures var v := After(t, ev); id in v.clients && v.clients[id] == ep
  {
    FindFromExact(t.clients, ev.ep, t.clients.Keys);
    if ev.Connects? {
      CreateRegisters(t, ev.ep);
    }
  }

  /**
    An endpoint keeps its id until it disconnects itself, whoever else comes and goes; and connecting again before that
    returns the same id and changes nothing.
   */
  lemma {:induction false} EndpointKeepsId(events: seq<Event>, more: seq<Event>, id: int, ep: Endpoint)
    requires Run(events + more).peak < WIDTH
    requires id in Run(events).table.clients && Run(events).table.clients[id] == ep
    requires Disconnects(ep) !in more
    ensures var t := Run(events + more).table;
      && id in t.clients && t.clients[id] == ep
      && Create(t, ep) == (t, id)
    decreases |more|
  {
    if more == [] {
      assert events + more == events;
    } else {
      var before, ev := more[..|more| - 1], more[|more| - 1];
      assert events + more == (events + before) + [ev];
      RunSnoc(events + before, ev);
      EndpointKeepsId(events, before, id, ep);
      RunsKeepPartition(events + before);
      OneEventKeepsId(Run(events + before).table, ev, id, ep);
    }
    RunsKeepPartition(events + more);
    FindIff(Run(events + more).table, ep, id);
  }

  // ---- Player numbering ----

  /**
    A game started with n clients numbers its players 0, ..., n-1. These are the registered client ids exactly when
    every id waiting to be recycled is n or more.
   */
  lemma NumberingMatchesIff(t: Table)
    requires Partition(t)
    ensures t.clients.Keys == Below(|t.clients|) <==> forall id | id in t.available :: id >= |t.clients|
  {
    var n := |t.clients|;
    PartitionCount(t);
    BelowCardinality(n);
    assert |t.clients.Keys| == n;
    if forall id | id in t.available :: id >= n {
      forall id | id in Below(n) ensures id in t.clients.Keys {
        assert id in Below(t.nbClients) && id !in Elements(t.available);
      }
      SubsetCardinality(Below(n), t.clients.Keys);
    } else {
      var id :| id in t.available && id < n;
      assert id in Elements(t.available) && id in Below(t.nbClients);
      assert id in Below(n) && id !in t.clients.Keys;
    }
  }
}
