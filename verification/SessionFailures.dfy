/** Runs of the server in which client ids and player ids part, as inputs on which the matching of ids fails. */
module SessionFailures {
  import opened Collections
  import opened Protocol
  import opened GameState
  import opened Clients
  import opened ActionRuns
  import opened Sessions
  import GameRuns

  /** Two clients have connected, and nobody has started a game. */
  function TwoClients(a: Endpoint, b: Endpoint): Table {
    Table(map[0 := a, 1 := b], [], 2)
  }

  function OneClient(a: Endpoint): Table {
    Table(map[0 := a], [], 1)
  }

  lemma OneConnects(a: Endpoint)
    ensures Create(NO_CLIENTS, a) == (OneClient(a), 0)
    ensures Partition(OneClient(a))
  {
    RunsKeepPartition([]);
    FindFromExact(map[], a, {});
    assert Below(1) == {0};
    assert Elements(OneClient(a).available) == {};
  }

  lemma SecondConnects(a: Endpoint, b: Endpoint)
    requires a != b
    ensures Create(OneClient(a), b) == (TwoClients(a, b), 1)
    ensures Partition(TwoClients(a, b))
    ensures Find(TwoClients(a, b), b) == Some(1)
  {
    OneConnects(a);
    FindIff(OneClient(a), b, 0);
    FindFromExact(OneClient(a).clients, b, OneClient(a).clients.Keys);
    CreateKeepsPartition(OneClient(a), b);
    CreateRegisters(OneClient(a), b);
    FindIff(TwoClients(a, b), b, 1);
  }

  lemma SecondDisconnects(a: Endpoint, b: Endpoint)
    requires a != b
    ensures Clients.Disconnect(TwoClients(a, b), b).0 == Table(map[0 := a], [1], 2)
  {
    SecondConnects(a, b);
    assert map[0 := a, 1 := b] - {1} == map[0 := a];
  }

  // ---- Runs, as far as ids go ----

  /** What a run has come to. */
  ghost predicate Reaches(e: seq<Sessions.Event>, t: Table, running: bool, players: set<int>, threads: seq<Thread>) {
    var s := Sessions.Run(NO_GAME, e);
    && s.server.table == t && s.server.running == running
    && s.world.players.Keys == players && s.world.actions == []
    && s.threads == threads
  }

  lemma RunSnoc(e: seq<Sessions.Event>, ev: Sessions.Event)
    ensures Sessions.Run(NO_GAME, e + [ev]) == Sessions.Step(Sessions.Run(NO_GAME, e), ev)
  {
    assert (e + [ev])[..|e|] == e;
  }

  lemma Connected(e: seq<Sessions.Event>, ep: Endpoint, t: Table, running: bool, players: set<int>,
                  threads: seq<Thread>)
    requires Reaches(e, t, running, players, threads)
    ensures Reaches(e + [Receive(REQCONNECT, ep)], Create(t, ep).0, running, players, threads)
  {
    RunSnoc(e, Receive(REQCONNECT, ep));
  }

  lemma Disconnected(e: seq<Sessions.Event>, ep: Endpoint, t: Table, running: bool, players: set<int>,
                     threads: seq<Thread>)
    requires Reaches(e, t, running, players, threads)
    ensures Reaches(e + [Receive(DISCONNECTED, ep)], Clients.Disconnect(t, ep).0, running, players, threads)
  {
    RunSnoc(e, Receive(DISCONNECTED, ep));
  }

  lemma GameStarted(e: seq<Sessions.Event>, ep: Endpoint, t: Table, players: set<int>)
    requires Reaches(e, t, false, players, [])
    ensures Reaches(e + [Receive(GAME_START, ep)], t, true, players, [Starting(|t.clients|)])
  {
    RunSnoc(e, Receive(GAME_START, ep));
  }

  lemma GameEnded(e: seq<Sessions.Event>, ep: Endpoint, t: Table, players: set<int>, threads: seq<Thread>)
    requires Reaches(e, t, true, players, threads)
    ensures Reaches(e + [Receive(GAME_END, ep)], t, false, {}, threads)
  {
    RunSnoc(e, Receive(GAME_END, ep));
  }

  lemma Booted(e: seq<Sessions.Event>, n: nat, t: Table, running: bool, players: set<int>)
    requires Reaches(e, t, running, players, [Starting(n)])
    ensures Reaches(e + [Boot(0)], t, running, players + Below(n), [Playing(GameRuns.Waiting)])
  {
    RunSnoc(e, Boot(0));
    var w := Sessions.Run(NO_GAME, e).world.(totalPlayers := n);
    assert Below(n) - Below(0) == Below(n);
    SpawnsAddKeys(w, 0, n);
    StartHasNoActions(w, 0, n);
  }

  lemma FirstConnected(a: Endpoint)
    ensures Reaches([Receive(REQCONNECT, a)], OneClient(a), false, {}, [])
  {
    OneConnects(a);
    assert Reaches([], NO_CLIENTS, false, {}, []);
    Connected([], a, NO_CLIENTS, false, {}, []);
    assert [] + [Receive(REQCONNECT, a)] == [Receive(REQCONNECT, a)];
  }

  // ---- A game that ends before its thread has set up the players ----

  function TwoClientsStart(a: Endpoint, b: Endpoint): seq<Sessions.Event> {
    [Receive(REQCONNECT, a)] + [Receive(REQCONNECT, b)] + [Receive(GAME_START, a)]
  }

  function LateBoot(a: Endpoint, b: Endpoint): seq<Sessions.Event> {
    TwoClientsStart(a, b) + [Receive(GAME_END, a)] + [Boot(0)] + [Receive(DISCONNECTED, b)]
  }

  lemma SecondConnected(a: Endpoint, b: Endpoint)
    requires a != b
    ensures Reaches([Receive(REQCONNECT, a)] + [Receive(REQCONNECT, b)], TwoClients(a, b), false, {}, [])
  {
    FirstConnected(a);
    SecondConnects(a, b);
    Connected([Receive(REQCONNECT, a)], b, OneClient(a), false, {}, []);
  }

  lemma TwoClientsStarted(a: Endpoint, b: Endpoint)
    requires a != b
    ensures Reaches(TwoClientsStart(a, b), TwoClients(a, b), true, {}, [Starting(2)])
  {
    SecondConnected(a, b);
    assert |TwoClients(a, b).clients| == 2;
    GameStarted([Receive(REQCONNECT, a)] + [Receive(REQCONNECT, b)], a, TwoClients(a, b), {});
  }

  lemma LateBootReaches(a: Endpoint, b: Endpoint)
    requires a != b
    ensures Reaches(LateBoot(a, b), Table(map[0 := a], [1], 2), false, {0, 1}, [Playing(GameRuns.Waiting)])
  {
    var e, t := TwoClientsStart(a, b), TwoClients(a, b);
    TwoClientsStarted(a, b);
    GameEnded(e, a, t, {}, [Starting(2)]);
    Booted(e + [Receive(GAME_END, a)], 2, t, false, {});
    assert {} + Below(2) == {0, 1};
    SecondDisconnects(a, b);
    Disconnected(e + [Receive(GAME_END, a)] + [Boot(0)], b, t, false, {0, 1}, [Playing(GameRuns.Waiting)]);
  }

  /**
    GAME_END is handled before the new thread sets up its players, and then a client leaves: the next start has client 0
    and players 0 and 1, although the only id to recycle is not below the number of clients.
   */
  lemma LateBootMismatches(a: Endpoint, b: Endpoint)
    requires a != b
    ensures var s := Sessions.Run(NO_GAME, LateBoot(a, b)); var u := Started(s, a);
      && !s.server.running
      && (forall id | id in s.server.table.available :: id >= |s.server.table.clients|)
      && u.world.players.Keys == {0, 1} && u.server.table.clients.Keys == {0}
  {
    LateBootReaches(a, b);
    StartedState(Sessions.Run(NO_GAME, LateBoot(a, b)), a);
    assert {0, 1} + Below(1) == {0, 1};
  }

  // ---- A client that connects during a game ----

  function LateClient(a: Endpoint, b: Endpoint): seq<Sessions.Event> {
    [Receive(REQCONNECT, a)] + [Receive(GAME_START, a)] + [Boot(0)] + [Receive(REQCONNECT, b)]
  }

  lemma LateClientReaches(a: Endpoint, b: Endpoint)
    requires a != b
    ensures Reaches(LateClient(a, b), TwoClients(a, b), true, {0}, [Playing(GameRuns.Waiting)])
  {
    FirstConnected(a);
    GameStarted([Receive(REQCONNECT, a)], a, OneClient(a), {});
    Booted([Receive(REQCONNECT, a)] + [Receive(GAME_START, a)], 1, OneClient(a), true, {});
    assert {} + Below(1) == {0};
    SecondConnects(a, b);
    Connected([Receive(REQCONNECT, a)] + [Receive(GAME_START, a)] + [Boot(0)], b, OneClient(a), true, {0},
              [Playing(GameRuns.Waiting)]);
  }

  /** A client connects during a game and presses a key: the game thread's next pass throws. */
  lemma LateClientMoveThrows(a: Endpoint, b: Endpoint)
    requires a != b
    ensures var s := Sessions.Run(NO_GAME, LateClient(a, b) + [Receive(PLAYER_LEFT, b)]);
      s.threads == [Playing(GameRuns.Waiting)] && ProcessActions(s.world).None?
  {
    LateClientReaches(a, b);
    SecondConnects(a, b);
    RunSnoc(LateClient(a, b), Receive(PLAYER_LEFT, b));
    MoveThrowsIff(Sessions.Run(NO_GAME, LateClient(a, b)), b, 1, 1);
  }
}
