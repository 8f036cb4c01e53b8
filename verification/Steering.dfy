/** Where players go, in numbers: single moves, whole runs, and from a key's packet to the new position. */
module Steering {
  import opened Collections
  import opened Protocol
  import opened GameState
  import opened Casualties
  import opened FreshIds
  import opened ActionRuns
  import opened Clients
  import opened Sessions
  import GameRuns

  function Min(a: real, b: real): real {
    if a < b then a else b
  }

  predicate OnScreen(p: Pos) {
    0.0 <= p.x <= 1195.0 && 0.0 <= p.y <= 630.0
  }

  /** Left, right, up and down by 20, or by what is left to the edge; y grows downwards. */
  function Steered(p: Pos, kind: PacketType): Pos {
    match kind
    case PLAYER_LEFT => Pos(p.x - Min(20.0, p.x), p.y)
    case PLAYER_RIGHT => Pos(p.x + Min(20.0, 1195.0 - p.x), p.y)
    case PLAYER_UP => Pos(p.x, p.y - Min(20.0, p.y))
    case PLAYER_DOWN => Pos(p.x, p.y + Min(20.0, 630.0 - p.y))
    case _ => p
  }

  // ---- Single moves ----

  lemma MoveChangesOnePlayer(w: World, id: int, code: int)
    requires id in w.players
    ensures var at := ClampToBounds(Displaced(w.players[id].pos, code));
      HandlePlayerMove(w, id, code).players == w.players[id := w.players[id].(pos := at)]
  {
  }

  /** From a place on the screen, an action moves its player as far as the screen allows, and nobody else. */
  lemma MoveInNumbers(w: World, id: int, code: int)
    requires id in w.players && OnScreen(w.players[id].pos)
    ensures var p := w.players[id]; var x, y := p.pos.x, p.pos.y; var v := HandlePlayerMove(w, id, code).players;
      && (code == 1 ==> v == w.players[id := p.(pos := Pos(x - Min(20.0, x), y))])
      && (code == 2 ==> v == w.players[id := p.(pos := Pos(x + Min(20.0, 1195.0 - x), y))])
      && (code == 3 ==> v == w.players[id := p.(pos := Pos(x, y - Min(20.0, y)))])
      && (code == 4 ==> v == w.players[id := p.(pos := Pos(x, y + Min(20.0, 630.0 - y)))])
  {
    MoveChangesOnePlayer(w, id, code);
  }

  /** From anywhere, a move ends on the screen. */
  lemma MoveEndsOnScreen(w: World, id: int, code: int)
    requires id in w.players
    ensures OnScreen(HandlePlayerMove(w, id, code).players[id].pos)
  {
    MoveChangesOnePlayer(w, id, code);
  }

  // ---- Whole runs ----

  /** A player has not moved yet, or is on the screen. */
  ghost predicate InPlace(players: map<int, Player>) {
    forall id | id in players ::
      players[id].pos == Pos(100.0 * (id as real + 1.0), 100.0) || OnScreen(players[id].pos)
  }

  lemma StepKeepsInPlace(s: GameRuns.System, ev: GameRuns.Event, n: nat)
    requires Fresh(s.w, n) && InPlace(s.w.players)
    ensures InPlace(GameRuns.Step(s, ev).w.players)
  {
    if GameRuns.Enabled(s, ev) {
      match ev
      case RunAction => ActionKeepsInPlace(s.w, s.phase.next);
      case Collide => CheckKeepsInPlace(s.w, n);
      case Wave(due, ys) =>
        if due {
          WaveSpawns(s.w, ys);
        }
      case _ =>
    }
  }

  lemma ActionKeepsInPlace(w: World, i: nat)
    requires InPlace(w.players) && i < |w.actions| && !Throws(w, w.actions[i])
    ensures |Execute(w, w.actions[i]).actions| == |w.actions|
    ensures InPlace(Mark(Execute(w, w.actions[i]), i).players)
  {
    var a := w.actions[i];
    MovesKeepActions(w, a);
    if IsMove(a.code) {
      MoveChangesOnePlayer(w, a.player, a.code);
      MoveEndsOnScreen(w, a.player, a.code);
    }
  }

  lemma CheckKeepsInPlace(w: World, n: nat)
    requires Fresh(w, n) && InPlace(w.players)
    ensures InPlace(CheckCollisions(w).players)
  {
    forall id | id in CheckCollisions(w).players
      ensures id in w.players && CheckCollisions(w).players[id].pos == w.players[id].pos
    {
      SurvivingPlayers(w, id);
    }
  }

  lemma {:induction false} RunsKeepInPlace(n: nat, events: seq<GameRuns.Event>)
    ensures InPlace(GameRuns.Run(GameRuns.Start(n), events).w.players)
  {
    if events == [] {
      SpawnedPlayers(NEW_GAME.(totalPlayers := n), 0, n);
    } else {
      var before := events[..|events| - 1];
      RunsKeepInPlace(n, before);
      RunsStayFresh(n, before);
      StepKeepsInPlace(GameRuns.Run(GameRuns.Start(n), before), events[|events| - 1], n);
    }
  }

  /**
    In every reachable state a player stands at its spawn point or on the screen; the first eleven, whose spawn points
    are on the screen, never leave it.
   */
  lemma PlayersStayOnScreen(n: nat, events: seq<GameRuns.Event>, id: int)
    requires id in GameRuns.Run(GameRuns.Start(n), events).w.players
    ensures var p := GameRuns.Run(GameRuns.Start(n), events).w.players[id].pos;
      && (p == Pos(100.0 * (id as real + 1.0), 100.0) || OnScreen(p))
      && (id <= 10 ==> 0.0 <= p.x <= 1195.0 && 0.0 <= p.y <= 630.0)
  {
    RunsKeepInPlace(n, events);
    RunsStayFresh(n, events);
  }

  // ---- From key to position ----

  lemma {:induction false} AnnounceIgnoresBuffer(w: World, actions: seq<Action>, i: nat)
    ensures AnnounceFrom(w.(actions := actions), i) == AnnounceFrom(w, i).(actions := actions)
    decreases |w.players| - i
  {
    if i < |w.players| {
      AnnounceIgnoresBuffer(Announce(w, i), actions, i + 1);
    }
  }

  lemma ExecuteIgnoresBuffer(w: World, actions: seq<Action>, a: Action)
    requires !Throws(w, a)
    ensures Execute(w.(actions := actions), a) == Execute(w, a).(actions := actions)
  {
    if IsMove(a.code) {
      var p := w.players[a.player];
      var moved := w.(players := w.players[a.player := p.(pos := ClampToBounds(Displaced(p.pos, a.code)))]);
      AnnounceIgnoresBuffer(moved, actions, 0);
    }
  }

  /** An action at the end of the buffer waits for those before it, and they do not notice it. */
  lemma {:induction false} AppendedWaits(w: World, a: Action, i: nat)
    requires i <= |w.actions| && ExecuteFrom(w, i).Some?
    ensures var r := ExecuteFrom(w, i).value;
      && |r.actions| == |w.actions|
      && ExecuteFrom(w.(actions := w.actions + [a]), i) == ExecuteFrom(r.(actions := r.actions + [a]), |w.actions|)
    decreases |w.actions| - i
  {
    if i < |w.actions| {
      var b := w.actions[i];
      var x := w.(actions := w.actions + [a]);
      MovesKeepActions(w, b);
      ExecuteIgnoresBuffer(w, x.actions, b);
      var v := Mark(Execute(w, b), i);
      assert Mark(Execute(x, b), i) == v.(actions := v.actions + [a]);
      AppendedWaits(v, a, i + 1);
    }
  }

  /** Running the buffer with one more move is running it without, and then making the move. */
  lemma LastMoveIsMadeLast(w: World, id: int, code: int)
    requires ProcessActions(w).Some? && id in ProcessActions(w).value.players && IsMove(code)
    ensures var r := ProcessActions(AddAction(w, id, code));
      r.Some? && r.value.players == HandlePlayerMove(ProcessActions(w).value, id, code).players
  {
    var a := Action(id, code, false);
    AppendedWaits(w, a, 0);
    var r := ExecuteFrom(w, 0).value;
    var x, k := r.(actions := r.actions + [a]), |w.actions|;
    assert x.actions[k] == a;
    MovesKeepActions(x, a);
    MoveChangesOnePlayer(x, id, code);
    MoveChangesOnePlayer(ProcessActions(w).value, id, code);
    assert ExecuteFrom(x, k) == Some(Mark(Execute(x, a), k));
  }

  function ActionCode(kind: PacketType): int {
    match kind
    case PLAYER_LEFT => 1
    case PLAYER_RIGHT => 2
    case PLAYER_UP => 3
    case PLAYER_DOWN => 4
    case _ => 0
  }

  predicate IsKey(kind: PacketType) {
    kind == PLAYER_LEFT || kind == PLAYER_RIGHT || kind == PLAYER_UP || kind == PLAYER_DOWN
  }

  lemma KeyIsQueued(s: Session, ep: Endpoint, kind: PacketType, id: int)
    requires s.server.running && Find(s.server.table, ep) == Some(id) && IsKey(kind)
    ensures Sessions.Step(s, Receive(kind, ep)).world == AddAction(s.world, id, ActionCode(kind))
  {
  }

  lemma KeySteers(w: World, id: int, kind: PacketType)
    requires IsKey(kind) && id in w.players && OnScreen(w.players[id].pos)
    ensures HandlePlayerMove(w, id, ActionCode(kind)).players ==
            w.players[id := w.players[id].(pos := Steered(w.players[id].pos, kind))]
  {
    MoveInNumbers(w, id, ActionCode(kind));
  }

  /**
    A key's packet, received during a game from the client of a living player: once the buffer is run that player is
    where it would have been, and then 20 further in the key's direction or at the edge; everybody else is unmoved.
   */
  lemma KeyMovesItsPlayer(s: Session, ep: Endpoint, kind: PacketType, id: int)
    requires s.server.running && Find(s.server.table, ep) == Some(id) && IsKey(kind)
    requires ProcessActions(s.world).Some? && id in ProcessActions(s.world).value.players
    requires OnScreen(ProcessActions(s.world).value.players[id].pos)
    ensures var before := ProcessActions(s.world).value.players;
      var after := ProcessActions(Sessions.Step(s, Receive(kind, ep)).world);
      && after.Some?
      && after.value.players == before[id := before[id].(pos := Steered(before[id].pos, kind))]
  {
    KeyIsQueued(s, ep, kind, id);
    LastMoveIsMadeLast(s.world, id, ActionCode(kind));
    KeySteers(ProcessActions(s.world).value, id, kind);
  }
}
