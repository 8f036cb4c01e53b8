/**
  Survivors that the server stops announcing. playerPacketFactory asks for the ids below the number of players, so once
  that number has fallen to a survivor's id, the survivor is never announced again.
 */
module HiddenMoves {
  import opened Collections
  import opened Protocol
  import opened GameState
  import opened Casualties
  import opened GameRuns
  import opened FreshIds
  import opened Ledger
  import opened Replica
  import opened BroadcastRuns
  import opened DeltaUpdates

  /** The player lives, its id is not below the number of players, and the replica shows it at p. */
  ghost predicate Hidden(w: World, id: int, p: Pos) {
    && id in w.players
    && |w.players| <= id
    && ShownAt(w, id, p)
  }

  /** No player has joined, and the one in question is still hidden at p if it lives. */
  ghost predicate StaysHidden(w: World, v: World, id: int, p: Pos) {
    && v.players.Keys <= w.players.Keys
    && (id in v.players ==> Hidden(v, id, p))
  }

  lemma {:induction false} FactoryKeepsPlace(w: World, i: nat, id: int, p: Pos)
    requires Hidden(w, id, p)
    ensures AnnounceFrom(w, i).players == w.players && ShownAt(AnnounceFrom(w, i), id, p)
    decreases |w.players| - i
  {
    if i < |w.players| {
      AnnounceShows(w, i, id, p);
      FactoryKeepsPlace(Announce(w, i), i + 1, id, p);
    }
  }

  lemma MoveKeepsHidden(w: World, who: int, code: int, id: int, p: Pos)
    requires Hidden(w, id, p) && who in w.players
    ensures StaysHidden(w, HandlePlayerMove(w, who, code), id, p)
  {
    var q := w.players[who];
    var moved := w.(players := w.players[who := q.(pos := ClampToBounds(Displaced(q.pos, code)))]);
    assert moved.players.Keys == w.players.Keys;
    assert |moved.players| == |moved.players.Keys| && |w.players| == |w.players.Keys|;
    FactoryKeepsPlace(moved, 0, id, p);
  }

  lemma UnrelatedKeepsHidden(w: World, v: World, kinds: set<PacketType>, id: int, p: Pos)
    requires Hidden(w, id, p) && v.players.Keys == w.players.Keys
    requires OnlyAdds(w.log, v.log, kinds) && kinds !! {CREATE_PLAYER, CHANGE, DESTROY_PLAYER}
    ensures StaysHidden(w, v, id, p)
  {
    OtherPacketsKeepPlayers(w.log, v.log, kinds);
    assert |v.players| == |v.players.Keys| && |w.players| == |w.players.Keys|;
  }

  lemma ShotKeepsHidden(w: World, who: int, id: int, p: Pos)
    requires Hidden(w, id, p)
    ensures StaysHidden(w, SpawnBullet(w, who), id, p)
  {
    UnrelatedKeepsHidden(w, SpawnBullet(w, who), {CREATE_BULLET}, id, p);
  }

  lemma ActionKeepsHidden(w: World, i: nat, id: int, p: Pos)
    requires Hidden(w, id, p) && i < |w.actions| && !Throws(w, w.actions[i])
    ensures |Execute(w, w.actions[i]).actions| == |w.actions|
    ensures StaysHidden(w, Mark(Execute(w, w.actions[i]), i), id, p)
  {
    var a := w.actions[i];
    if IsMove(a.code) {
      MoveKeepsHidden(w, a.player, a.code, id, p);
    } else if a.code == 5 {
      ShotKeepsHidden(w, a.player, id, p);
    }
  }

  /** A check moves no sprite of a player who survives it. */
  lemma CheckKeepsPlace(w: World, id: int, p: Pos)
    requires ShownAt(w, id, p) && id in CheckCollisions(w).players
    ensures ShownAt(CheckCollisions(w), id, p)
  {
    var m := MarkCasualties(w);
    MarkedFrame(w);
    RemovedWorld(m);
    RemovalPackets(w.log, Removed(m.bullets, m.deadBullets), Removed(m.enemies, m.deadEnemies),
                   Removed(m.players, m.deadPlayers), Removed(m.bosses, m.deadBosses));
  }

  lemma CheckAddsNoPlayer(w: World)
    ensures CheckCollisions(w).players.Keys <= w.players.Keys
    ensures |CheckCollisions(w).players| <= |w.players|
  {
    MarkedFrame(w);
    RemovedWorld(MarkCasualties(w));
    var v := CheckCollisions(w);
    SubsetCardinality(v.players.Keys, w.players.Keys);
    assert |v.players| == |v.players.Keys| && |w.players| == |w.players.Keys|;
  }

  lemma CheckKeepsHidden(w: World, id: int, p: Pos)
    requires Hidden(w, id, p)
    ensures StaysHidden(w, CheckCollisions(w), id, p)
  {
    CheckAddsNoPlayer(w);
    if id in CheckCollisions(w).players {
      CheckKeepsPlace(w, id, p);
    }
  }

  lemma WaveKeepsHidden(w: World, ys: seq<real>, n: nat, id: int, p: Pos)
    requires Fresh(w, n) && Hidden(w, id, p) && |ys| == WaveSize(w)
    ensures StaysHidden(w, NextWave(w, ys), id, p)
  {
    WaveSpawns(w, ys);
    WaveAddsPackets(w, ys);
    UnrelatedKeepsHidden(w, NextWave(w, ys), {CREATE_ENEMY, CREATE_BOSS}, id, p);
  }

  lemma ReportKeepsHidden(w: World, due: bool, id: int, p: Pos)
    requires Hidden(w, id, p)
    ensures StaysHidden(w, UpdateUI(w, due), id, p)
  {
    UiAddsStatus(w.players, w.players.Keys);
    UnrelatedKeepsHidden(w, UpdateUI(w, due), {UI_UPDATE}, id, p);
  }

  lemma StepKeepsHidden(s: System, ev: Event, n: nat, id: int, p: Pos)
    requires Fresh(s.w, n) && Hidden(s.w, id, p)
    ensures StaysHidden(s.w, Step(s, ev).w, id, p)
  {
    if Enabled(s, ev) {
      match ev
      case RunAction => ActionKeepsHidden(s.w, s.phase.next, id, p);
      case Collide => CheckKeepsHidden(s.w, id, p);
      case Wave(due, ys) =>
        if due {
          WaveKeepsHidden(s.w, ys, n, id, p);
        }
      case Report(due) => ReportKeepsHidden(s.w, due, id, p);
      case NetShoot(who) => ShotKeepsHidden(s.w, who, id, p);
      case _ =>
    }
  }

  // ---- Players never join a game ----

  lemma StepAddsNoPlayer(s: System, ev: Event, n: nat)
    requires Fresh(s.w, n)
    ensures Step(s, ev).w.players.Keys <= s.w.players.Keys
  {
    if Enabled(s, ev) {
      match ev
      case Collide => CheckAddsNoPlayer(s.w);
      case Wave(due, ys) =>
        if due {
          WaveSpawns(s.w, ys);
        }
      case _ =>
    }
  }

  /**
    Once the number of players has fallen to a survivor's id, the replica shows it at the same place for as long as it
    lives, however it moves and whatever else happens.
   */
  lemma {:induction false} HiddenForLife(n: nat, past: seq<Event>, more: seq<Event>, id: int, p: Pos)
    requires Hidden(Run(Start(n), past).w, id, p)
    requires id in Run(Run(Start(n), past), more).w.players
    ensures Hidden(Run(Run(Start(n), past), more).w, id, p)
    decreases |more|
  {
    if more != [] {
      var s, before, ev := Run(Start(n), past), more[..|more| - 1], more[|more| - 1];
      RunConcat(Start(n), past, before);
      RunsStayFresh(n, past + before);
      StepAddsNoPlayer(Run(s, before), ev, n);
      HiddenForLife(n, past, before, id, p);
      StepKeepsHidden(Run(s, before), ev, n, id, p);
    }
  }

  /** In every reachable state a living player whose id is not below the number of players is hidden somewhere. */
  lemma LivingIsHiddenSomewhere(n: nat, past: seq<Event>, id: int) returns (p: Pos)
    requires id in Run(Start(n), past).w.players && |Run(Start(n), past).w.players| <= id
    ensures Hidden(Run(Start(n), past).w, id, p)
  {
    RunsStayTracked(n, past);
    p := Replay(Run(Start(n), past).w.log).players[id].at;
  }
}
