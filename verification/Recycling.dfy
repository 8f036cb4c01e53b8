/** Client ids come back in the order in which they were freed. */
module Recycling {
  import opened Collections
  import opened Clients

  function AfterAll(t: Table, events: seq<Event>): Table {
    if events == [] then t else After(AfterAll(t, events[..|events| - 1]), events[|events| - 1])
  }

  /** The id that an event frees. */
  function FreedBy(t: Table, ev: Event): seq<int> {
    match ev
    case Disconnects(ep) =>
      var id := Disconnect(t, ep).1;
      if id.Some? then [id.value] else []
    case Connects(_) => []
  }

  /** The id that an event hands out again: that of a new endpoint while ids wait to be recycled. */
  function TakenBy(t: Table, ev: Event): seq<int> {
    match ev
    case Connects(ep) => if Find(t, ep).None? && t.available != [] then [Create(t, ep).1] else []
    case Disconnects(_) => []
  }

  function Freed(t: Table, events: seq<Event>): seq<int> {
    if events == [] then []
    else
      var before := events[..|events| - 1];
      Freed(t, before) + FreedBy(AfterAll(t, before), events[|events| - 1])
  }

  function Taken(t: Table, events: seq<Event>): seq<int> {
    if events == [] then []
    else
      var before := events[..|events| - 1];
      Taken(t, before) + TakenBy(AfterAll(t, before), events[|events| - 1])
  }

  lemma OneEventKeepsOrder(t: Table, ev: Event)
    ensures t.available + FreedBy(t, ev) == TakenBy(t, ev) + After(t, ev).available
  {
    match ev
    case Connects(ep) =>
      if Find(t, ep).None? && t.available != [] {
        assert t.available == [t.available[0]] + t.available[1..];
      }
    case Disconnects(_) =>
  }

  /**
    Whatever connects and disconnects in between: the ids that waited at first, then the ids freed, are the ids handed
    out again, then the ids that wait at the end, in this order.
   */
  lemma {:induction false} IdsComeBackInOrder(t: Table, events: seq<Event>)
    ensures t.available + Freed(t, events) == Taken(t, events) + AfterAll(t, events).available
  {
    if events != [] {
      var before, ev := events[..|events| - 1], events[|events| - 1];
      var u := AfterAll(t, before);
      IdsComeBackInOrder(t, before);
      OneEventKeepsOrder(u, ev);
      ConcatAssociates(t.available, Freed(t, before), FreedBy(u, ev));
      ConcatAssociates(Taken(t, before), u.available, FreedBy(u, ev));
      ConcatAssociates(Taken(t, before), TakenBy(u, ev), After(u, ev).available);
    }
  }

  /** So, from a table with nothing to recycle, the j-th id handed out again is the j-th id freed. */
  lemma RecycledInOrder(t: Table, events: seq<Event>, j: nat)
    requires t.available == [] && j < |Taken(t, events)|
    ensures j < |Freed(t, events)| && Taken(t, events)[j] == Freed(t, events)[j]
  {
    IdsComeBackInOrder(t, events);
    assert Freed(t, events) == [] + Freed(t, events);
    assert (Taken(t, events) + AfterAll(t, events).available)[j] == Taken(t, events)[j];
  }

  // ---- Some leave, and then others come ----

  function AllDisconnect(eps: seq<Endpoint>): (r: seq<Event>)
    ensures |r| == |eps|
  {
    seq(|eps|, i requires 0 <= i < |eps| => Disconnects(eps[i]))
  }

  function AllConnect(eps: seq<Endpoint>): (r: seq<Event>)
    ensures |r| == |eps|
  {
    seq(|eps|, i requires 0 <= i < |eps| => Connects(eps[i]))
  }

  lemma AllUpTo(eps: seq<Endpoint>, i: nat)
    requires 0 < i <= |eps|
    ensures AllDisconnect(eps[..i]) == AllDisconnect(eps[..i - 1]) + [Disconnects(eps[i - 1])]
    ensures AllConnect(eps[..i]) == AllConnect(eps[..i - 1]) + [Connects(eps[i - 1])]
  {
  }

  /** The endpoint is registered under this id. */
  predicate Has(t: Table, ep: Endpoint, id: int) {
    id in t.clients && t.clients[id] == ep
  }

  lemma AfterSnoc(t: Table, events: seq<Event>, ev: Event)
    ensures AfterAll(t, events + [ev]) == After(AfterAll(t, events), ev)
  {
    assert (events + [ev])[..|events|] == events;
  }

  /** The last i of the k endpoints are still registered, and the others' ids wait behind those that did before. */
  ghost predicate Gone(t: Table, u: Table, eps: seq<Endpoint>, ids: seq<int>, i: nat)
    requires i <= |eps| == |ids|
  {
    && Partition(u)
    && u.nbClients == t.nbClients
    && u.available == t.available + ids[..i]
    && (forall j | i <= j < |eps| :: Has(u, eps[j], ids[j]))
  }

  lemma OneGoes(t: Table, u: Table, eps: seq<Endpoint>, ids: seq<int>, i: nat)
    requires i < |eps| == |ids| && NoDuplicates(eps) && Gone(t, u, eps, ids, i)
    ensures Gone(t, After(u, Disconnects(eps[i])), eps, ids, i + 1)
  {
    var v := After(u, Disconnects(eps[i]));
    FindIff(u, eps[i], ids[i]);
    DisconnectKeepsPartition(u, eps[i]);
    assert ids[..i + 1] == ids[..i] + [ids[i]];
    ConcatAssociates(t.available, ids[..i], [ids[i]]);
    forall j | i + 1 <= j < |eps| ensures Has(v, eps[j], ids[j]) {
      assert eps[j] != eps[i] && Has(u, eps[j], ids[j]) && Has(u, eps[i], ids[i]);
    }
  }

  lemma {:induction false} SomeGo(t: Table, eps: seq<Endpoint>, ids: seq<int>, i: nat)
    requires i <= |eps| == |ids| && NoDuplicates(eps) && Gone(t, t, eps, ids, 0)
    ensures Gone(t, AfterAll(t, AllDisconnect(eps[..i])), eps, ids, i)
  {
    if i > 0 {
      SomeGo(t, eps, ids, i - 1);
      OneGoes(t, AfterAll(t, AllDisconnect(eps[..i - 1])), eps, ids, i - 1);
      AllUpTo(eps, i);
      AfterSnoc(t, AllDisconnect(eps[..i - 1]), Disconnects(eps[i - 1]));
    }
  }

  /** The first i newcomers have the first i ids that waited, and the other newcomers are not registered. */
  ghost predicate Come(t: Table, u: Table, eps: seq<Endpoint>, i: nat)
    requires i <= |eps| <= |t.available|
  {
    && Partition(u)
    && u.available == t.available[i..]
    && (forall j | 0 <= j < i :: Has(u, eps[j], t.available[j]))
    && (forall j, id | i <= j < |eps| && id in u.clients :: u.clients[id] != eps[j])
  }

  lemma OneComes(t: Table, u: Table, eps: seq<Endpoint>, i: nat)
    requires i < |eps| <= |t.available| && NoDuplicates(eps) && Come(t, u, eps, i)
    ensures Come(t, After(u, Connects(eps[i])), eps, i + 1)
  {
    FindFromExact(u.clients, eps[i], u.clients.Keys);
    RecyclingKeepsPartition(u, eps[i]);
    assert u.available[1..] == t.available[i + 1..];
    assert u.available[0] == t.available[i];
  }

  lemma {:induction false} SomeCome(t: Table, eps: seq<Endpoint>, i: nat)
    requires i <= |eps| <= |t.available| && NoDuplicates(eps) && Come(t, t, eps, 0)
    ensures Come(t, AfterAll(t, AllConnect(eps[..i])), eps, i)
  {
    if i > 0 {
      SomeCome(t, eps, i - 1);
      OneComes(t, AfterAll(t, AllConnect(eps[..i - 1])), eps, i - 1);
      AllUpTo(eps, i);
      AfterSnoc(t, AllConnect(eps[..i - 1]), Connects(eps[i - 1]));
    }
  }

  /**
    From a table with nothing to recycle, registered endpoints disconnect one after the other, and then as many new ones
    connect: the j-th newcomer gets the id of the j-th one that left.
   */
  lemma NewcomersInheritInOrder(t: Table, gone: seq<Endpoint>, ids: seq<int>, come: seq<Endpoint>, j: nat)
    requires Partition(t) && t.available == []
    requires |gone| == |ids| == |come| && j < |come| && NoDuplicates(gone) && NoDuplicates(come)
    requires forall i | 0 <= i < |gone| :: Has(t, gone[i], ids[i])
    requires forall i, id | 0 <= i < |come| && id in AfterAll(t, AllDisconnect(gone)).clients ::
               AfterAll(t, AllDisconnect(gone)).clients[id] != come[i]
    ensures Has(AfterAll(AfterAll(t, AllDisconnect(gone)), AllConnect(come)), come[j], ids[j])
  {
    assert gone[..|gone|] == gone && come[..|come|] == come && t.available + ids[..0] == t.available;
    SomeGo(t, gone, ids, |gone|);
    var u := AfterAll(t, AllDisconnect(gone));
    assert u.available == ids;
    SomeCome(u, come, |come|);
  }
}
