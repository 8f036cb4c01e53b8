/** A run of the server with one game is a run of that game: the theorems about one carry over to the other. */
module SessionGames {
  import opened Protocol
  import opened GameState
  import opened Clients
  import opened Sessions
  import opened Replica
  import opened ActionRuns
  import Accounts
  import BroadcastRuns
  import GameRuns

  // ---- A game under way ----

  /** The session's one game thread stands where the run of the game stands. */
  ghost predicate Follows(s: Session, g: GameRuns.System) {
    && s.server.running
    && s.threads == [Playing(g.phase)]
    && s.world == g.w
  }

  predicate EndsGame(ev: Sessions.Event) {
    ev.Receive? && ev.kind == GAME_END
  }

  lemma HistoryIsNotRead(a: GameRuns.System, b: GameRuns.System, ev: GameRuns.Event)
    requires a.w == b.w && a.phase == b.phase
    ensures GameRuns.Enabled(a, ev) <==> GameRuns.Enabled(b, ev)
    ensures GameRuns.Step(a, ev).w == GameRuns.Step(b, ev).w && GameRuns.Step(a, ev).phase == GameRuns.Step(b, ev).phase
  {
  }

  /** The events of the game that a session event amounts to: one or none. */
  function GameEvents(s: Session, ev: Sessions.Event): seq<GameRuns.Event> {
    match ev
    case Receive(PLAYER_LEFT, ep) => Queued(s, ep, 1)
    case Receive(PLAYER_RIGHT, ep) => Queued(s, ep, 2)
    case Receive(PLAYER_UP, ep) => Queued(s, ep, 3)
    case Receive(PLAYER_DOWN, ep) => Queued(s, ep, 4)
    case Receive(PLAYER_SHOOT, ep) =>
      var found := Find(s.server.table, ep);
      if found.Some? then [GameRuns.NetShoot(found.value)] else []
    case Play(0, game) => if game.NetShoot? || game.NetAct? then [] else [game]
    case _ => []
  }

  function Queued(s: Session, ep: Endpoint, code: int): seq<GameRuns.Event> {
    var found := Find(s.server.table, ep);
    if found.Some? then [GameRuns.NetAct(found.value, code)] else []
  }

  /** One step of the game. */
  function Taken(g: GameRuns.System, events: seq<GameRuns.Event>): GameRuns.System
    requires |events| <= 1
  {
    if events == [] then g else GameRuns.Step(g, events[0])
  }

  lemma MoveFollows(s: Session, g: GameRuns.System, ep: Endpoint, code: int)
    requires Follows(s, g)
    ensures Follows(HandlePlayerAction(s, ep, code), Taken(g, Queued(s, ep, code)))
  {
  }

  lemma ShotFollows(s: Session, g: GameRuns.System, ep: Endpoint)
    requires Follows(s, g)
    ensures Follows(HandlePlayerShoot(s, ep), Taken(g, GameEvents(s, Receive(PLAYER_SHOOT, ep))))
  {
  }

  lemma PacketFollows(s: Session, g: GameRuns.System, kind: PacketType, ep: Endpoint)
    requires Follows(s, g) && kind != GAME_END
    ensures Follows(HandlePacket(s, kind, ep), Taken(g, GameEvents(s, Receive(kind, ep))))
  {
    match kind
    case PLAYER_LEFT => MoveFollows(s, g, ep, 1);
    case PLAYER_RIGHT => MoveFollows(s, g, ep, 2);
    case PLAYER_UP => MoveFollows(s, g, ep, 3);
    case PLAYER_DOWN => MoveFollows(s, g, ep, 4);
    case PLAYER_SHOOT => ShotFollows(s, g, ep);
    case _ =>
  }

  lemma PlayFollows(s: Session, g: GameRuns.System, game: GameRuns.Event)
    requires Follows(s, g) && !game.NetShoot? && !game.NetAct?
    ensures Follows(Sessions.Step(s, Play(0, game)), GameRuns.Step(g, game))
  {
    HistoryIsNotRead(GameOf(s, 0), g, game);
  }

  /** Every event of the session other than GAME_END is at most one event of its game. */
  lemma StepFollows(s: Session, g: GameRuns.System, ev: Sessions.Event)
    requires Follows(s, g) && !EndsGame(ev)
    ensures Follows(Sessions.Step(s, ev), Taken(g, GameEvents(s, ev)))
  {
    match ev
    case Receive(kind, ep) => PacketFollows(s, g, kind, ep);
    case SendTimer =>
    case Boot(_) =>
    case Play(i, game) =>
      if i == 0 && !game.NetShoot? && !game.NetAct? {
        PlayFollows(s, g, game);
      }
  }

  // ---- Before the game ----

  function AsQueued(moves: seq<(int, int)>): seq<Action> {
    seq(|moves|, i requires 0 <= i < |moves| => Action(moves[i].0, moves[i].1, false))
  }

  /** The game has been started, its thread has not yet set up the players, and these moves have been queued. */
  ghost predicate Waits(s: Session, n: nat, moves: seq<(int, int)>) {
    && s.server.running
    && s.threads == [Starting(n)]
    && s.world == NEW_GAME.(actions := AsQueued(moves))
  }

  lemma OneMoreMove(moves: seq<(int, int)>, id: int, code: int)
    ensures AsQueued(moves + [(id, code)]) == AsQueued(moves) + [Action(id, code, false)]
  {
  }

  lemma MoveWaits(s: Session, n: nat, moves: seq<(int, int)>, ep: Endpoint, code: int) returns (more: seq<(int, int)>)
    requires Waits(s, n, moves)
    ensures Waits(HandlePlayerAction(s, ep, code), n, more)
  {
    more := moves;
    if Find(s.server.table, ep).Some? {
      more := moves + [(Find(s.server.table, ep).value, code)];
      OneMoreMove(moves, Find(s.server.table, ep).value, code);
    }
  }

  lemma PacketWaits(s: Session, n: nat, moves: seq<(int, int)>, kind: PacketType, ep: Endpoint)
    returns (more: seq<(int, int)>)
    requires Waits(s, n, moves) && kind != GAME_END
    ensures Waits(HandlePacket(s, kind, ep), n, more)
  {
    more := moves;
    match kind
    case PLAYER_LEFT => more := MoveWaits(s, n, moves, ep, 1);
    case PLAYER_RIGHT => more := MoveWaits(s, n, moves, ep, 2);
    case PLAYER_UP => more := MoveWaits(s, n, moves, ep, 3);
    case PLAYER_DOWN => more := MoveWaits(s, n, moves, ep, 4);
    case _ =>
  }

  lemma {:induction false} SpawnsKeepBuffer(w: World, actions: seq<Action>, i: nat, n: nat)
    ensures SpawnPlayersFrom(w.(actions := actions), i, n) == SpawnPlayersFrom(w, i, n).(actions := actions)
    decreases n - i
  {
    if i < n {
      SpawnsKeepBuffer(SpawnPlayer(w, i, SpawnPoint(i)), actions, i + 1, n);
    }
  }

  function NetActs(moves: seq<(int, int)>): seq<GameRuns.Event> {
    seq(|moves|, i requires 0 <= i < |moves| => GameRuns.NetAct(moves[i].0, moves[i].1))
  }

  lemma {:induction false} QueuedRun(n: nat, moves: seq<(int, int)>)
    ensures var g := GameRuns.Run(GameRuns.Start(n), NetActs(moves));
      g.phase.Waiting? && g.w == GameRuns.Start(n).w.(actions := AsQueued(moves))
  {
    if moves == [] {
      StartHasNoActions(NEW_GAME.(totalPlayers := n), 0, n);
    } else {
      var before, last := moves[..|moves| - 1], moves[|moves| - 1];
      QueuedRun(n, before);
      assert NetActs(moves)[..|moves| - 1] == NetActs(before);
      OneMoreMove(before, last.0, last.1);
      assert moves == before + [last];
    }
  }

  /** Setting up the players after moves have been queued comes to queueing the moves after setting up the players. */
  lemma BootFollows(s: Session, n: nat, moves: seq<(int, int)>)
    requires Waits(s, n, moves)
    ensures Follows(Sessions.Step(s, Boot(0)), GameRuns.Run(GameRuns.Start(n), NetActs(moves)))
  {
    SpawnsKeepBuffer(NEW_GAME.(totalPlayers := n), AsQueued(moves), 0, n);
    QueuedRun(n, moves);
  }

  /** Nobody has started a game. */
  ghost predicate Untouched(s: Session) {
    !s.server.running && s.threads == [] && s.world == NEW_GAME
  }

  lemma PacketLeavesUntouched(s: Session, kind: PacketType, ep: Endpoint)
    requires Untouched(s)
    ensures var v := HandlePacket(s, kind, ep); Untouched(v) || Waits(v, |s.server.table.clients|, [])
  {
  }

  // ---- Whole runs ----

  ghost predicate NoGameEnds(events: seq<Sessions.Event>) {
    forall i | 0 <= i < |events| :: !EndsGame(events[i])
  }

  /** Where a run of the server without GAME_END can stand. */
  datatype Stage = Before | Pending(n: nat, moves: seq<(int, int)>) | During(players: nat, past: seq<GameRuns.Event>)

  ghost predicate Stands(s: Session, stage: Stage) {
    match stage
    case Before => Untouched(s)
    case Pending(n, moves) => Waits(s, n, moves)
    case During(n, past) => Follows(s, GameRuns.Run(GameRuns.Start(n), past))
  }

  lemma DuringSteps(s: Session, n: nat, past: seq<GameRuns.Event>, ev: Sessions.Event) returns (next: Stage)
    requires Stands(s, During(n, past)) && !EndsGame(ev)
    ensures Stands(Sessions.Step(s, ev), next)
  {
    var g, more := GameRuns.Run(GameRuns.Start(n), past), GameEvents(s, ev);
    StepFollows(s, g, ev);
    next := During(n, past + more);
    if more == [] {
      assert past + more == past;
    } else {
      assert past + more == past + [more[0]];
      ActionRuns.RunSnoc(GameRuns.Start(n), past, more[0]);
    }
  }

  lemma PendingSteps(s: Session, n: nat, moves: seq<(int, int)>, ev: Sessions.Event) returns (next: Stage)
    requires Stands(s, Pending(n, moves)) && !EndsGame(ev)
    ensures Stands(Sessions.Step(s, ev), next)
  {
    next := Pending(n, moves);
    match ev
    case Receive(kind, ep) =>
      var more := PacketWaits(s, n, moves, kind, ep);
      next := Pending(n, more);
    case Boot(i) =>
      if i == 0 {
        BootFollows(s, n, moves);
        next := During(n, NetActs(moves));
      }
    case _ =>
  }

  lemma StageSteps(s: Session, stage: Stage, ev: Sessions.Event) returns (next: Stage)
    requires Stands(s, stage) && !EndsGame(ev)
    ensures Stands(Sessions.Step(s, ev), next)
  {
    match stage
    case Before =>
      next := Before;
      if ev.Receive? {
        PacketLeavesUntouched(s, ev.kind, ev.ep);
        if !Untouched(Sessions.Step(s, ev)) {
          next := Pending(|s.server.table.clients|, []);
        }
      }
    case Pending(n, moves) => next := PendingSteps(s, n, moves, ev);
    case During(n, past) => next := DuringSteps(s, n, past, ev);
  }

  lemma {:induction false} RunsHaveStages(events: seq<Sessions.Event>) returns (stage: Stage)
    requires NoGameEnds(events)
    ensures Stands(Sessions.Run(NO_GAME, events), stage)
  {
    if events == [] {
      stage := Before;
    } else {
      var before := RunsHaveStages(events[..|events| - 1]);
      stage := StageSteps(Sessions.Run(NO_GAME, events[..|events| - 1]), before, events[|events| - 1]);
    }
  }

  /**
    While a game is being played in a run of the server in which none has ended, the server's world and game thread are
    those of a run of that game alone.
   */
  lemma ServerRunsAreGameRuns(events: seq<Sessions.Event>) returns (n: nat, past: seq<GameRuns.Event>)
    requires NoGameEnds(events)
    requires var s := Sessions.Run(NO_GAME, events); |s.threads| == 1 && s.threads[0].Playing?
    ensures Follows(Sessions.Run(NO_GAME, events), GameRuns.Run(GameRuns.Start(n), past))
  {
    var stage := RunsHaveStages(events);
    n, past := stage.players, stage.past;
  }

  /** So the client's replica agrees with the server in every run of the server up to the end of its first game. */
  lemma ServerKeepsReplica(events: seq<Sessions.Event>)
    requires NoGameEnds(events)
    ensures var w := Sessions.Run(NO_GAME, events).world; var c := Replay(w.log);
      c.players.Keys == w.players.Keys && c.enemies.Keys == w.enemies.Keys && c.bosses.Keys == w.bosses.Keys
  {
    var stage := RunsHaveStages(events);
    if stage.During? {
      BroadcastRuns.ReplicaAgrees(stage.players, stage.past);
    }
  }

  /** And health stays within bounds, and all live players have the same score. */
  lemma ServerKeepsAccounts(events: seq<Sessions.Event>, id: int, other: int)
    requires NoGameEnds(events)
    requires id in Sessions.Run(NO_GAME, events).world.players && other in Sessions.Run(NO_GAME, events).world.players
    ensures var players := Sessions.Run(NO_GAME, events).world.players;
      0 < players[id].hp <= 100 && players[id].score == players[other].score
  {
    var stage := RunsHaveStages(events);
    Accounts.HealthAndScore(stage.players, stage.past, id);
    Accounts.HealthAndScore(stage.players, stage.past, other);
  }
}
