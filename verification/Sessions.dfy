/**
  The packet handlers over the server and the game: starting and ending games, and mapping the endpoint of a packet to
  a player. Handlers, send timer and game threads interleave; a handler's endpoint is the one read at dispatch.
 */
module Sessions {
  import opened Collections
  import opened Protocol
  import opened GameState
  import opened Clients
  import opened ServerState
  import opened Casualties
  import opened ActionRuns
  import GameRuns

  /** A thread running Game::run: before initializePlayers, or inside update(). */
  datatype Thread = Starting(n: nat) | Playing(phase: GameRuns.Phase)

  datatype Session = Session(server: State, world: World, threads: seq<Thread>)

  const NO_GAME: Session := Session(NEW_SERVER, NEW_GAME, [])

  datatype Event =
    | Receive(kind: PacketType, ep: Endpoint)
    | SendTimer
    | Boot(booting: nat)
    | Play(thread: nat, ev: GameRuns.Event)

  // ---- Handlers ----

  function HandleGameStart(s: Session): Session {
    if s.server.running then s
    else s.(server := Queue(s.server.(running := true), GAME_START, ""),
            threads := s.threads + [Starting(|s.server.table.clients|)])
  }

  function HandleGameEnd(s: Session): Session {
    if !s.server.running then s else s.(server := s.server.(running := false), world := Stop(s.world))
  }

  /** handlePlayerAction: the id found for the endpoint is taken for a player id. */
  function HandlePlayerAction(s: Session, ep: Endpoint, code: int): Session {
    if !s.server.running then s
    else match Find(s.server.table, ep)
      case Some(id) => s.(world := AddAction(s.world, id, code))
      case None => s
  }

  /** handlePlayerShoot does not look at game_running. */
  function HandlePlayerShoot(s: Session, ep: Endpoint): Session {
    match Find(s.server.table, ep)
    case Some(id) => s.(world := SpawnBullet(s.world, id))
    case None => s
  }

  function HandlePacket(s: Session, kind: PacketType, ep: Endpoint): Session {
    match kind
    case REQCONNECT => s.(server := Connect(s.server, ep))
    case DISCONNECTED => s.(server := ServerState.Disconnect(s.server, ep))
    case GAME_START => HandleGameStart(s)
    case GAME_END => HandleGameEnd(s)
    case PLAYER_LEFT => HandlePlayerAction(s, ep, 1)
    case PLAYER_RIGHT => HandlePlayerAction(s, ep, 2)
    case PLAYER_UP => HandlePlayerAction(s, ep, 3)
    case PLAYER_DOWN => HandlePlayerAction(s, ep, 4)
    case PLAYER_SHOOT => HandlePlayerShoot(s, ep)
    case HEARTBEAT => s.(server := Queue(s.server, HEARTBEAT, ""))
    case _ => s
  }

  // ---- Runs ----

  /** The game as one of its threads sees it; no step reads the history. */
  function GameOf(s: Session, i: nat): GameRuns.System
    requires i < |s.threads| && s.threads[i].Playing?
  {
    GameRuns.System(s.world, s.threads[i].phase, GameRuns.NO_HISTORY)
  }

  function Step(s: Session, ev: Event): Session {
    match ev
    case Receive(kind, ep) => HandlePacket(s, kind, ep)
    case SendTimer => s.(server := SendTick(s.server))
    case Boot(i) =>
      if i < |s.threads| && s.threads[i].Starting? then
        s.(world := InitializePlayers(s.world, s.threads[i].n), threads := s.threads[i := Playing(GameRuns.Waiting)])
      else s
    case Play(i, game) =>
      if i < |s.threads| && s.threads[i].Playing? && !game.NetShoot? && !game.NetAct? then
        var t := GameRuns.Step(GameOf(s, i), game);
        s.(world := t.w, threads := s.threads[i := Playing(t.phase)])
      else s
  }

  function Run(s: Session, events: seq<Event>): Session {
    if events == [] then s else Step(Run(s, events[..|events| - 1]), events[|events| - 1])
  }

  // ---- Game start ----

  /** Nobody has started a game yet. */
  ghost predicate Idle(s: Session) {
    s.threads == [] ==> !s.server.running && s.world.players == map[]
  }

  ghost predicate Bounded(s: Session, events: seq<Event>) {
    && |Run(s, events).server.table.clients| < WIDTH
    && (events != [] ==> Bounded(s, events[..|events| - 1]))
  }

  lemma StepKeepsIdle(s: Session, ev: Event)
    requires Idle(s)
    ensures Idle(Step(s, ev))
  {
  }

  /** What an event means for the client table. */
  function Change(ev: Event): Option<Clients.Event> {
    match ev
    case Receive(REQCONNECT, ep) => Some(Connects(ep))
    case Receive(DISCONNECTED, ep) => Some(Disconnects(ep))
    case _ => None
  }

  lemma StepTable(s: Session, ev: Event)
    ensures Step(s, ev).server.table == AfterMaybe(s.server.table, Change(ev))
  {
  }

  lemma {:induction false} RunsKeepTable(events: seq<Event>)
    requires Bounded(NO_GAME, events)
    ensures Partition(Run(NO_GAME, events).server.table) && Idle(Run(NO_GAME, events))
  {
    if events == [] {
      RunsKeepPartition([]);
    } else {
      var s, ev := Run(NO_GAME, events[..|events| - 1]), events[|events| - 1];
      RunsKeepTable(events[..|events| - 1]);
      StepKeepsIdle(s, ev);
      StepTable(s, ev);
      ChangeKeepsPartition(s.server.table, Change(ev));
    }
  }

  /** The state after GAME_START is received and its thread has set up the players. */
  function Started(s: Session, ep: Endpoint): Session {
    Step(Step(s, Receive(GAME_START, ep)), Boot(|s.threads|))
  }

  lemma SpawnAddsOneKey(w: World, i: nat)
    ensures SpawnPlayer(w, i, SpawnPoint(i)).players.Keys == w.players.Keys + {i}
  {
  }

  lemma {:induction false} SpawnsAddKeys(w: World, i: nat, n: nat)
    requires i <= n
    ensures SpawnPlayersFrom(w, i, n).players.Keys == w.players.Keys + (Below(n) - Below(i))
    decreases n - i
  {
    if i < n {
      SpawnAddsOneKey(w, i);
      SpawnsAddKeys(SpawnPlayer(w, i, SpawnPoint(i)), i + 1, n);
      assert Below(n) - Below(i) == {i} + (Below(n) - Below(i + 1));
    }
  }

  /** Players left over from before stay; the others are numbered from 0. */
  lemma StartedState(s: Session, ep: Endpoint)
    requires !s.server.running
    ensures var u := Started(s, ep);
      && u.server.table == s.server.table && u.server.running && u.world.actions == s.world.actions
      && u.world.players.Keys == s.world.players.Keys + Below(|s.server.table.clients|)
  {
    var n := |s.server.table.clients|;
    var w := s.world.(totalPlayers := n);
    assert Below(n) - Below(0) == Below(n);
    SpawnsAddKeys(w, 0, n);
    StartHasNoActions(w, 0, n);
  }

  /** When n clients have exactly the ids of the players already there and of 0, ..., n-1. */
  lemma LeftoversMatchIff(t: Table, players: set<int>)
    requires Partition(t)
    ensures players + Below(|t.clients|) == t.clients.Keys <==>
            (forall id | id in t.available :: id >= |t.clients|) && players <= Below(|t.clients|)
  {
    var n := |t.clients|;
    NumberingMatchesIff(t);
    BelowCardinality(n);
    if players + Below(n) == t.clients.Keys {
      assert |t.clients.Keys| == n;
      SubsetCardinality(Below(n), t.clients.Keys);
    } else if players <= Below(n) {
      assert players + Below(n) == Below(n);
    }
  }

  /**
    An accepted GAME_START, once its thread has set up the players, leaves every registered client with a player of its
    own id, and no other player, exactly when every id waiting to be recycled is at least the number of clients and no
    player with such an id is left over in the map.
   */
  lemma StartMatchesIff(s: Session, ep: Endpoint)
    requires Partition(s.server.table) && !s.server.running
    ensures var u := Started(s, ep);
      u.world.players.Keys == u.server.table.clients.Keys <==>
      && (forall id | id in s.server.table.available :: id >= |s.server.table.clients|)
      && s.world.players.Keys <= Below(|s.server.table.clients|)
  {
    StartedState(s, ep);
    LeftoversMatchIff(s.server.table, s.world.players.Keys);
  }

  /** In the first game of any run of the server nobody is left over. */
  lemma FirstGameMatchesIff(events: seq<Event>, ep: Endpoint)
    requires Bounded(NO_GAME, events) && Run(NO_GAME, events).threads == []
    ensures var s := Run(NO_GAME, events); var u := Started(s, ep);
      u.world.players.Keys == u.server.table.clients.Keys <==>
      forall id | id in s.server.table.available :: id >= |s.server.table.clients|
  {
    RunsKeepTable(events);
    StartMatchesIff(Run(NO_GAME, events), ep);
  }

  // ---- Lookups during a game ----

  /** Nobody connects or disconnects, no game ends, and no further game sets up its players. */
  predicate Quiet(ev: Event) {
    match ev
    case Receive(kind, _) => kind != REQCONNECT && kind != DISCONNECTED && kind != GAME_END
    case Boot(_) => false
    case _ => true
  }

  predicate MovesNamePlayers(w: World) {
    forall i | 0 <= i < |w.actions| :: IsMove(w.actions[i].code) ==> w.actions[i].player in w.players
  }

  /** Client ids are player ids, and every queued move names a player. */
  ghost predicate Ready(s: Session) {
    && Partition(s.server.table)
    && s.world.players.Keys == s.server.table.clients.Keys
    && MovesNamePlayers(s.world)
  }

  lemma {:induction false} SpawnsKeepPlayers(w: World, ys: seq<real>)
    ensures SpawnEnemies(w, ys).players == w.players
    decreases |ys|
  {
    if ys != [] {
      SpawnsKeepPlayers(SpawnEnemy(w, ys[0]), ys[1..]);
    }
  }

  lemma WaveKeepsPlayers(w: World, ys: seq<real>)
    requires |ys| == WaveSize(w)
    ensures NextWave(w, ys).players == w.players
  {
    var v := w.(currentWave := w.currentWave + 1);
    if v.currentWave % 3 == 0 {
      SpawnsKeepPlayers(SpawnBoss(v, ys[0]), ys[1..]);
    } else {
      SpawnsKeepPlayers(v.(currentWave := v.currentWave + 1), ys);
    }
  }

  lemma CheckRemovesPlayers(w: World)
    ensures CheckCollisions(w).players.Keys <= w.players.Keys
  {
    MarkedFrame(w);
    RemovedWorld(MarkCasualties(w));
  }

  /** A step of a game adds no player and queues nothing. */
  ghost predicate Shrinks(w: World, v: World) {
    && v.players.Keys <= w.players.Keys
    && forall a | a in v.actions :: exists b :: b in w.actions && a.player == b.player && a.code == b.code
  }

  lemma ActionShrinks(w: World, i: nat)
    requires i < |w.actions| && !Throws(w, w.actions[i])
    ensures Shrinks(w, Mark(Execute(w, w.actions[i]), i))
  {
    MovesKeepActions(w, w.actions[i]);
    var v := Mark(Execute(w, w.actions[i]), i);
    forall a | a in v.actions ensures exists b :: b in w.actions && a.player == b.player && a.code == b.code {
      var j :| 0 <= j < |v.actions| && v.actions[j] == a;
      assert w.actions[j] in w.actions;
    }
  }

  lemma CompactionShrinks(w: World)
    ensures Shrinks(w, w.(actions := Filter(Unprocessed, w.actions)))
  {
    var kept := Filter(Unprocessed, w.actions);
    forall a | a in kept ensures a in w.actions {
      assert a in Elements(kept);
    }
  }

  lemma OtherStepsShrink(s: GameRuns.System, ev: GameRuns.Event)
    requires GameRuns.Enabled(s, ev) && !ev.RunAction? && !ev.NetAct? && !ev.EndActions?
    ensures Shrinks(s.w, GameRuns.Apply(s, ev))
  {
    OthersKeepActions(s, ev);
    match ev
    case Collide => CheckRemovesPlayers(s.w);
    case Wave(due, ys) =>
      if due {
        WaveKeepsPlayers(s.w, ys);
      }
    case _ =>
  }

  lemma GameStepShrinks(s: GameRuns.System, ev: GameRuns.Event)
    requires !ev.NetAct?
    ensures Shrinks(s.w, GameRuns.Step(s, ev).w)
  {
    if GameRuns.Enabled(s, ev) {
      match ev
      case RunAction => ActionShrinks(s.w, s.phase.next);
      case EndActions => CompactionShrinks(s.w);
      case _ => OtherStepsShrink(s, ev);
    }
  }

  lemma ShrinkingKeepsMoves(w: World, v: World)
    requires MovesNamePlayers(w) && Shrinks(w, v) && v.players.Keys == w.players.Keys
    ensures MovesNamePlayers(v)
  {
    forall i | 0 <= i < |v.actions| && IsMove(v.actions[i].code) ensures v.actions[i].player in v.players {
      var a := v.actions[i];
      assert a in v.actions;
      var b :| b in w.actions && a.player == b.player && a.code == b.code;
      assert b.player in w.players.Keys;
    }
  }

  lemma PlayEffect(s: Session, i: nat, game: GameRuns.Event)
    ensures var v := Step(s, Play(i, game));
      && v.server == s.server
      && (v.world == s.world ||
          (i < |s.threads| && s.threads[i].Playing? && !game.NetAct? && v.world == GameRuns.Step(GameOf(s, i), game).w))
  {
  }

  lemma PlayShrinks(s: Session, i: nat, game: GameRuns.Event)
    ensures Shrinks(s.world, Step(s, Play(i, game)).world)
    ensures Step(s, Play(i, game)).server == s.server
  {
    PlayEffect(s, i, game);
    if Step(s, Play(i, game)).world != s.world {
      GameStepShrinks(GameOf(s, i), game);
    }
  }

  /** What a packet does during a game, once connections and GAME_END are set aside. */
  lemma PacketEffects(s: Session, kind: PacketType, ep: Endpoint)
    requires kind != REQCONNECT && kind != DISCONNECTED && kind != GAME_END
    ensures var v := HandlePacket(s, kind, ep);
      && v.server.table == s.server.table
      && v.world.players == s.world.players
      && (v.world.actions == s.world.actions ||
          exists id, code :: Find(s.server.table, ep) == Some(id) &&
                             v.world.actions == s.world.actions + [Action(id, code, false)])
  {
    match kind
    case PLAYER_LEFT => ActionEffects(s, ep, 1);
    case PLAYER_RIGHT => ActionEffects(s, ep, 2);
    case PLAYER_UP => ActionEffects(s, ep, 3);
    case PLAYER_DOWN => ActionEffects(s, ep, 4);
    case _ =>
  }

  lemma ActionEffects(s: Session, ep: Endpoint, code: int)
    ensures var v := HandlePlayerAction(s, ep, code);
      && v.server == s.server && v.world.players == s.world.players
      && (v.world.actions == s.world.actions ||
          (Find(s.server.table, ep).Some? &&
           v.world.actions == s.world.actions + [Action(Find(s.server.table, ep).value, code, false)]))
  {
  }

  /** A quiet step keeps the session ready for as long as it kills nobody. */
  lemma QuietStep(s: Session, ev: Event)
    requires Ready(s) && Quiet(ev)
    ensures var v := Step(s, ev);
      && v.server.table == s.server.table
      && v.world.players.Keys <= s.world.players.Keys
      && (v.world.players.Keys == s.world.players.Keys ==> Ready(v))
  {
    match ev
    case Receive(kind, ep) => PacketKeepsReady(s, kind, ep);
    case SendTimer =>
    case Play(i, game) =>
      PlayShrinks(s, i, game);
      if Step(s, ev).world.players.Keys == s.world.players.Keys {
        ShrinkingKeepsMoves(s.world, Step(s, ev).world);
      }
  }

  lemma PacketKeepsReady(s: Session, kind: PacketType, ep: Endpoint)
    requires Ready(s) && Quiet(Receive(kind, ep))
    ensures var v := HandlePacket(s, kind, ep);
      v.server.table == s.server.table && v.world.players == s.world.players && Ready(v)
  {
    PacketEffects(s, kind, ep);
    var v := HandlePacket(s, kind, ep);
    if v.world.actions != s.world.actions {
      var id, code :| Find(s.server.table, ep) == Some(id) &&
                      v.world.actions == s.world.actions + [Action(id, code, false)];
      FindIff(s.server.table, ep, id);
      assert id in s.server.table.clients.Keys;
    }
  }

  lemma QuietShrinks(s: Session, ev: Event)
    requires Quiet(ev)
    ensures Step(s, ev).world.players.Keys <= s.world.players.Keys
  {
    match ev
    case Receive(kind, ep) => PacketEffects(s, kind, ep);
    case SendTimer =>
    case Play(i, game) => PlayShrinks(s, i, game);
  }

  ghost predicate AllQuiet(events: seq<Event>) {
    forall i | 0 <= i < |events| :: Quiet(events[i])
  }

  lemma {:induction false} QuietRunShrinks(s: Session, events: seq<Event>)
    requires AllQuiet(events)
    ensures Run(s, events).world.players.Keys <= s.world.players.Keys
  {
    if events != [] {
      QuietRunShrinks(s, events[..|events| - 1]);
      QuietShrinks(Run(s, events[..|events| - 1]), events[|events| - 1]);
    }
  }

  /**
    From a start with matching ids, until a player dies or somebody connects or disconnects: the session stays ready,
    whatever is received and however the game threads advance.
   */
  lemma {:induction false} QuietRunsStayReady(s: Session, events: seq<Event>)
    requires Ready(s) && AllQuiet(events)
    requires |Run(s, events).world.players| == |s.world.players|
    ensures Ready(Run(s, events))
    ensures Run(s, events).server.table == s.server.table
    ensures Run(s, events).world.players.Keys == s.world.players.Keys
  {
    QuietRunShrinks(s, events);
    SubsetCardinality(Run(s, events).world.players.Keys, s.world.players.Keys);
    if events != [] {
      var before, ev := events[..|events| - 1], events[|events| - 1];
      var u := Run(s, before);
      QuietRunShrinks(s, before);
      QuietShrinks(u, ev);
      assert u.world.players.Keys == s.world.players.Keys;
      QuietRunsStayReady(s, before);
      QuietStep(u, ev);
    }
  }

  /** In a ready session every lookup finds a player, and no thread is about to throw. */
  lemma LookupsFindPlayers(s: Session, events: seq<Event>, ep: Endpoint, i: nat)
    requires Ready(s) && AllQuiet(events)
    requires |Run(s, events).world.players| == |s.world.players|
    ensures var u := Run(s, events);
      && (Find(u.server.table, ep).Some? ==> Find(u.server.table, ep).value in u.world.players)
      && (i < |u.world.actions| ==> !Throws(u.world, u.world.actions[i]))
  {
    QuietRunsStayReady(s, events);
    var t := Run(s, events).server.table;
    if Find(t, ep).Some? {
      FindIff(t, ep, Find(t, ep).value);
      assert Find(t, ep).value in t.clients.Keys;
    }
  }

  /** A start is ready exactly when its ids match and every move left over from before names a client. */
  lemma StartIsReadyIff(s: Session, ep: Endpoint)
    requires Partition(s.server.table) && !s.server.running
    ensures Ready(Started(s, ep)) <==>
            && (forall id | id in s.server.table.available :: id >= |s.server.table.clients|)
            && s.world.players.Keys <= Below(|s.server.table.clients|)
            && (forall i | 0 <= i < |s.world.actions| && IsMove(s.world.actions[i].code) ::
                  s.world.actions[i].player in s.server.table.clients)
  {
    StartedState(s, ep);
    StartMatchesIff(s, ep);
    var u := Started(s, ep);
    if u.world.players.Keys == u.server.table.clients.Keys {
      assert forall id :: id in u.world.players <==> id in s.server.table.clients;
    }
  }

  /**
    Past that point the guard is missing: a move by a registered client ends in an exception that nothing catches,
    exactly when the client's id is not that of a living player.
   */
  lemma MoveThrowsIff(s: Session, ep: Endpoint, code: int, id: int)
    requires s.server.running && Find(s.server.table, ep) == Some(id) && IsMove(code)
    requires MovesNamePlayers(s.world)
    ensures ProcessActions(HandlePlayerAction(s, ep, code).world).None? <==> id !in s.world.players
  {
    var w := HandlePlayerAction(s, ep, code).world;
    var k := |s.world.actions|;
    assert w.actions[k] == Action(id, code, false);
    assert forall j | 0 <= j < k :: w.actions[j] == s.world.actions[j];
    ThrowsIff(w, 0);
  }
}
