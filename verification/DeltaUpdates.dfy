/** Player positions on the replica, when the server suppresses the CHANGE of a position it believes already known. */
module DeltaUpdates {
  import opened Collections
  import opened Protocol
  import opened GameState
  import opened Casualties
  import opened GameRuns
  import opened FreshIds
  import opened Ledger
  import opened Replica
  import opened BroadcastRuns

  /** The replica shows player `id` at p. */
  ghost predicate ShownAt(w: World, id: int, p: Pos) {
    id in Replay(w.log).players && Replay(w.log).players[id].at == p
  }

  /** The condition under which playerPacketFactory queues a CHANGE for a player standing at p. */
  predicate Uncached(w: World, id: int, p: Pos) {
    id !in w.lastKnown || w.lastKnown[id] != p
  }

  // ---- One call of playerPacketFactory ----

  lemma ReplayAppend(log: seq<Message>, m: Message)
    ensures Replay(log + [m]) == Receive(Replay(log), m)
  {
    assert (log + [m])[..|log|] == log;
  }

  lemma AnnounceShows(w: World, i: int, id: int, p: Pos)
    requires id in w.players && id in Replay(w.log).players
    ensures var v := Announce(w, i);
      && v.players == w.players
      && id in Replay(v.log).players
      && (i != id ==> (ShownAt(v, id, p) <==> ShownAt(w, id, p)) && (Uncached(v, id, p) <==> Uncached(w, id, p)))
      && (i == id ==> (ShownAt(v, id, w.players[id].pos) <==>
                         ShownAt(w, id, w.players[id].pos) || Uncached(w, id, w.players[id].pos)))
  {
    if i in w.players && Uncached(w, i, w.players[i].pos) {
      ReplayAppend(w.log, PlaceMessage(CHANGE, i, w.players[i].pos, 0.0));
    }
  }

  /** The factory reaches the ids below the number of players, and shows those whose cache entry differs. */
  lemma {:induction false} FactoryShowsIff(w: World, i: nat, id: int)
    requires id in w.players && id in Replay(w.log).players
    ensures var v := AnnounceFrom(w, i); var p := w.players[id].pos;
      && id in Replay(v.log).players
      && (ShownAt(v, id, p) <==> ShownAt(w, id, p) || (i <= id < |w.players| && Uncached(w, id, p)))
    decreases |w.players| - i
  {
    if i < |w.players| {
      AnnounceShows(w, i, id, w.players[id].pos);
      FactoryShowsIff(Announce(w, i), i + 1, id);
    }
  }

  /**
    Exactly when a move reaches the replica, from any state: the id must lie below the number of players still alive
    and the cache must not already hold the new position, unless the sprite happens to be there anyway.
   */
  lemma MoveIsShownIff(w: World, id: int, code: int)
    requires id in w.players && id in Replay(w.log).players && 0 <= id
    ensures var v := HandlePlayerMove(w, id, code); var p := v.players[id].pos;
      && p == ClampToBounds(Displaced(w.players[id].pos, code))
      && (ShownAt(v, id, p) <==> ShownAt(w, id, p) || (id < |w.players| && Uncached(w, id, p)))
  {
    var q := w.players[id];
    var moved := w.(players := w.players[id := q.(pos := ClampToBounds(Displaced(q.pos, code)))]);
    assert moved.players.Keys == w.players.Keys;
    assert |moved.players| == |w.players|;
    FactoryShowsIff(moved, 0, id);
  }

  // ---- Whole runs ----

  /** Within one game the cache holds what the replica shows, and every announced id is shown where it stands. */
  ghost predicate Tracked(w: World) {
    forall id | id in w.players ::
      && id in Replay(w.log).players
      && (id in w.lastKnown ==> ShownAt(w, id, w.lastKnown[id]))
      && (id < |w.players| ==> ShownAt(w, id, w.players[id].pos))
  }

  lemma AnnounceKeepsCache(w: World, i: int, id: int)
    requires id in w.players && id in Replay(w.log).players
    requires id in w.lastKnown ==> ShownAt(w, id, w.lastKnown[id])
    ensures var v := Announce(w, i);
      && id in Replay(v.log).players
      && (id in v.lastKnown ==> ShownAt(v, id, v.lastKnown[id]))
  {
    if i in w.players && Uncached(w, i, w.players[i].pos) {
      ReplayAppend(w.log, PlaceMessage(CHANGE, i, w.players[i].pos, 0.0));
    }
  }

  lemma {:induction false} FactoryKeepsCache(w: World, i: nat, id: int)
    requires id in w.players && id in Replay(w.log).players
    requires id in w.lastKnown ==> ShownAt(w, id, w.lastKnown[id])
    ensures var v := AnnounceFrom(w, i);
      && id in Replay(v.log).players
      && (id in v.lastKnown ==> ShownAt(v, id, v.lastKnown[id]))
    decreases |w.players| - i
  {
    if i < |w.players| {
      AnnounceKeepsCache(w, i, id);
      FactoryKeepsCache(Announce(w, i), i + 1, id);
    }
  }

  lemma MoveKeepsTracked(w: World, id: int, code: int, n: nat)
    requires id in w.players && Tracked(w) && forall p | p in w.players :: 0 <= p < n
    ensures Tracked(HandlePlayerMove(w, id, code))
  {
    var q := w.players[id];
    var moved := w.(players := w.players[id := q.(pos := ClampToBounds(Displaced(q.pos, code)))]);
    assert moved.players.Keys == w.players.Keys && |moved.players| == |w.players|;
    var v := HandlePlayerMove(w, id, code);
    forall p | p in v.players
      ensures p in Replay(v.log).players
      ensures p in v.lastKnown ==> ShownAt(v, p, v.lastKnown[p])
      ensures p < |v.players| ==> ShownAt(v, p, v.players[p].pos)
    {
      FactoryKeepsCache(moved, 0, p);
      FactoryShowsIff(moved, 0, p);
    }
  }

  lemma CreationsKeepPlayers(c: Scene, m: Message)
    requires m.kind == CREATE_ENEMY || m.kind == CREATE_BOSS || m.kind == CREATE_BULLET
    ensures Receive(c, m).players == c.players
  {
  }

  lemma DestructionsKeepPlayers(c: Scene, m: Message)
    requires m.kind == DESTROY_ENEMY || m.kind == DESTROY_BOSS || m.kind == DESTROY_BULLET
    ensures Receive(c, m).players == c.players
  {
  }

  predicate ChangesNoSprite(kind: PacketType) {
    && kind != CREATE_ENEMY && kind != CREATE_BOSS && kind != CREATE_BULLET && kind != CREATE_PLAYER && kind != CHANGE
    && kind != DESTROY_ENEMY && kind != DESTROY_BOSS && kind != DESTROY_BULLET && kind != DESTROY_PLAYER
  }

  lemma OthersKeepPlayers(c: Scene, m: Message)
    requires ChangesNoSprite(m.kind)
    ensures Receive(c, m).players == c.players
  {
  }

  lemma OtherPacketKeepsPlayers(log: seq<Message>, m: Message)
    requires m.kind !in {CREATE_PLAYER, CHANGE, DESTROY_PLAYER}
    ensures Replay(log + [m]).players == Replay(log).players
  {
    ReplayAppend(log, m);
    if m.kind == CREATE_ENEMY || m.kind == CREATE_BOSS || m.kind == CREATE_BULLET {
      CreationsKeepPlayers(Replay(log), m);
    } else if m.kind == DESTROY_ENEMY || m.kind == DESTROY_BOSS || m.kind == DESTROY_BULLET {
      DestructionsKeepPlayers(Replay(log), m);
    } else {
      OthersKeepPlayers(Replay(log), m);
    }
  }

  lemma {:induction false} OtherPacketsKeepPlayers(a: seq<Message>, b: seq<Message>, kinds: set<PacketType>)
    requires OnlyAdds(a, b, kinds) && kinds !! {CREATE_PLAYER, CHANGE, DESTROY_PLAYER}
    ensures Replay(b).players == Replay(a).players
    decreases |b|
  {
    if |a| == |b| {
      assert a == b;
    } else {
      var init := b[..|b| - 1];
      assert init[..|a|] == b[..|a|];
      OtherPacketsKeepPlayers(a, init, kinds);
      OtherPacketKeepsPlayers(init, b[|b| - 1]);
      assert b == init + [b[|b| - 1]];
    }
  }

  lemma UnrelatedKeepsTracked(w: World, v: World, kinds: set<PacketType>)
    requires Tracked(w) && v.players.Keys == w.players.Keys && v.lastKnown == w.lastKnown
    requires forall id | id in v.players :: v.players[id].pos == w.players[id].pos
    requires OnlyAdds(w.log, v.log, kinds) && kinds !! {CREATE_PLAYER, CHANGE, DESTROY_PLAYER}
    ensures Tracked(v)
  {
    OtherPacketsKeepPlayers(w.log, v.log, kinds);
    assert |v.players| == |v.players.Keys| && |w.players| == |w.players.Keys|;
  }

  lemma {:induction false} DestroyedPlayersGo(log: seq<Message>, ids: seq<int>)
    ensures Replay(log + Notices(DESTROY_PLAYER, ids)).players == Replay(log).players - Elements(ids)
    decreases |ids|
  {
    if ids == [] {
      assert log + Notices(DESTROY_PLAYER, ids) == log;
    } else {
      var init, id := ids[..|ids| - 1], ids[|ids| - 1];
      DestroyedPlayersGo(log, init);
      assert log + Notices(DESTROY_PLAYER, ids) ==
             (log + Notices(DESTROY_PLAYER, init)) + [GameState.Destroyed(DESTROY_PLAYER, id)];
      ReplayAppend(log + Notices(DESTROY_PLAYER, init), GameState.Destroyed(DESTROY_PLAYER, id));
      assert Elements(ids) == Elements(init) + {id};
      assert Replay(log).players - Elements(ids) == Replay(log).players - Elements(init) - {id};
    }
  }

  lemma RemovalPackets(log: seq<Message>, b: seq<int>, e: seq<int>, p: seq<int>, o: seq<int>)
    ensures Replay(log + Notices(DESTROY_BULLET, b) + Notices(DESTROY_ENEMY, e) + Notices(DESTROY_PLAYER, p) +
                   Notices(DESTROY_BOSS, o)).players == Replay(log).players - Elements(p)
  {
    var l1 := log + Notices(DESTROY_BULLET, b);
    var l2 := l1 + Notices(DESTROY_ENEMY, e);
    var l3 := l2 + Notices(DESTROY_PLAYER, p);
    NoticesAddOnly(log, DESTROY_BULLET, b);
    OtherPacketsKeepPlayers(log, l1, {DESTROY_BULLET});
    NoticesAddOnly(l1, DESTROY_ENEMY, e);
    OtherPacketsKeepPlayers(l1, l2, {DESTROY_ENEMY});
    DestroyedPlayersGo(l2, p);
    NoticesAddOnly(l3, DESTROY_BOSS, o);
    OtherPacketsKeepPlayers(l3, l3 + Notices(DESTROY_BOSS, o), {DESTROY_BOSS});
  }

  lemma FewerPlayersStayTracked(w: World, v: World, gone: set<int>)
    requires Tracked(w) && v.lastKnown == w.lastKnown
    requires v.players.Keys == w.players.Keys - gone
    requires forall id | id in v.players :: v.players[id].pos == w.players[id].pos
    requires Replay(v.log).players == Replay(w.log).players - gone
    ensures Tracked(v)
  {
    SubsetCardinality(v.players.Keys, w.players.Keys);
    assert |v.players| == |v.players.Keys| && |w.players| == |w.players.Keys|;
  }

  lemma CheckKeepsTracked(w: World, n: nat)
    requires Fresh(w, n) && Tracked(w)
    ensures Tracked(CheckCollisions(w))
  {
    var m, v := MarkCasualties(w), CheckCollisions(w);
    MarkedFrame(w);
    RemovedWorld(m);
    var p := Removed(m.players, m.deadPlayers);
    RemovalPackets(w.log, Removed(m.bullets, m.deadBullets), Removed(m.enemies, m.deadEnemies), p,
                   Removed(m.bosses, m.deadBosses));
    forall id | id in v.players ensures v.players[id].pos == w.players[id].pos {
      SurvivingPlayers(w, id);
    }
    RemovedAreLive(m.players, m.deadPlayers);
    FewerPlayersStayTracked(w, v, Elements(p));
  }

  lemma {:induction false} EnemiesAddPackets(w: World, ys: seq<real>)
    ensures OnlyAdds(w.log, SpawnEnemies(w, ys).log, {CREATE_ENEMY, CREATE_BOSS})
    decreases |ys|
  {
    if ys != [] {
      var v := SpawnEnemy(w, ys[0]);
      EnemiesAddPackets(v, ys[1..]);
      OnlyAddsTwice(w.log, v.log, SpawnEnemies(v, ys[1..]).log, {CREATE_ENEMY, CREATE_BOSS});
    }
  }

  lemma WaveAddsPackets(w: World, ys: seq<real>)
    requires |ys| == WaveSize(w)
    ensures OnlyAdds(w.log, NextWave(w, ys).log, {CREATE_ENEMY, CREATE_BOSS})
  {
    var v := w.(currentWave := w.currentWave + 1);
    if v.currentWave % 3 == 0 {
      var u := SpawnBoss(v, ys[0]);
      EnemiesAddPackets(u, ys[1..]);
      OnlyAddsTwice(w.log, u.log, SpawnEnemies(u, ys[1..]).log, {CREATE_ENEMY, CREATE_BOSS});
    } else {
      EnemiesAddPackets(v.(currentWave := v.currentWave + 1), ys);
    }
  }

  lemma ShotKeepsTracked(w: World, id: int)
    requires Tracked(w)
    ensures Tracked(SpawnBullet(w, id))
  {
    UnrelatedKeepsTracked(w, SpawnBullet(w, id), {CREATE_BULLET});
  }

  lemma MarkKeepsTracked(w: World, i: nat)
    requires Tracked(w) && i < |w.actions|
    ensures Tracked(Mark(w, i))
  {
    UnrelatedKeepsTracked(w, Mark(w, i), {});
  }

  lemma ActionKeepsTracked(w: World, i: nat, n: nat)
    requires i < |w.actions| && !Throws(w, w.actions[i])
    requires Tracked(w) && forall p | p in w.players :: 0 <= p < n
    ensures |Execute(w, w.actions[i]).actions| == |w.actions|
    ensures Tracked(Mark(Execute(w, w.actions[i]), i))
  {
    var a := w.actions[i];
    if IsMove(a.code) {
      MoveKeepsTracked(w, a.player, a.code, n);
    } else if a.code == 5 {
      ShotKeepsTracked(w, a.player);
    }
    MarkKeepsTracked(Execute(w, a), i);
  }

  lemma WaveKeepsTracked(w: World, ys: seq<real>, n: nat)
    requires Fresh(w, n) && Tracked(w) && |ys| == WaveSize(w)
    ensures Tracked(NextWave(w, ys))
  {
    WaveAddsPackets(w, ys);
    WaveSpawns(w, ys);
    UnrelatedKeepsTracked(w, NextWave(w, ys), {CREATE_ENEMY, CREATE_BOSS});
  }

  lemma StepKeepsTracked(s: System, ev: Event, n: nat)
    requires Fresh(s.w, n) && Tracked(s.w)
    ensures Tracked(Step(s, ev).w)
  {
    if Enabled(s, ev) {
      match ev
      case RunAction => ActionKeepsTracked(s.w, s.phase.next, n);
      case Collide => CheckKeepsTracked(s.w, n);
      case Wave(due, ys) =>
        if due {
          WaveKeepsTracked(s.w, ys, n);
        }
      case Report(due) =>
        if due {
          UiAddsStatus(s.w.players, s.w.players.Keys);
          UnrelatedKeepsTracked(s.w, UpdateUI(s.w, due), {UI_UPDATE});
        }
      case NetShoot(id) => ShotKeepsTracked(s.w, id);
      case _ =>
    }
  }

  ghost predicate ShownUpTo(w: World, i: nat) {
    && w.players.Keys == Below(i)
    && forall id | 0 <= id < i :: ShownAt(w, id, w.players[id].pos)
  }

  lemma SpawnShows(w: World, i: nat)
    ensures Replay(SpawnPlayer(w, i, SpawnPoint(i)).log).players ==
            Replay(w.log).players[i := Sprite(SpawnPoint(i), 0.0, 0.0)]
  {
    var v := SpawnPlayer(w, i, SpawnPoint(i));
    var create, ui := PlaceMessage(CREATE_PLAYER, i, SpawnPoint(i), 0.0), UiMessage(i, v.players[i]);
    ReplayAppend(w.log, create);
    ReplayAppend(w.log + [create], ui);
    assert v.log == (w.log + [create]) + [ui];
  }

  lemma PlayerShown(w: World, i: nat)
    requires ShownUpTo(w, i)
    ensures ShownUpTo(SpawnPlayer(w, i, SpawnPoint(i)), i + 1)
  {
    SpawnShows(w, i);
    assert SpawnPlayer(w, i, SpawnPoint(i)).players.Keys == Below(i + 1);
  }

  lemma {:induction false} StartShown(w: World, i: nat, n: nat)
    requires i <= n && ShownUpTo(w, i)
    ensures ShownUpTo(SpawnPlayersFrom(w, i, n), n)
    decreases n - i
  {
    if i < n {
      PlayerShown(w, i);
      StartShown(SpawnPlayer(w, i, SpawnPoint(i)), i + 1, n);
    }
  }

  lemma {:induction false} RunsStayTracked(n: nat, events: seq<Event>)
    ensures Tracked(Run(Start(n), events).w)
  {
    if events == [] {
      StartShown(NEW_GAME.(totalPlayers := n), 0, n);
      SpawnedPlayers(NEW_GAME.(totalPlayers := n), 0, n);
    } else {
      var prefix := events[..|events| - 1];
      RunsStayTracked(n, prefix);
      RunsStayFresh(n, prefix);
      StepKeepsTracked(Run(Start(n), prefix), events[|events| - 1], n);
    }
  }

  /**
    Suppressing unchanged positions loses nothing while nobody has been removed: at every point of the run the replica
    shows every player exactly where the server has it.
   */
  lemma DeltaIsLossless(n: nat, events: seq<Event>)
    requires |Run(Start(n), events).w.players| == n
    ensures var w := Run(Start(n), events).w;
      forall id | id in w.players :: ShownAt(w, id, w.players[id].pos)
  {
    RunsStayTracked(n, events);
    RunsStayFresh(n, events);
  }

  lemma OnlyPlayerMoves(w: World, code: int)
    requires w.players.Keys == {0}
    ensures var p := ClampToBounds(Displaced(w.players[0].pos, code)); var v := HandlePlayerMove(w, 0, code);
      && v.players[0].pos == p
      && 0 in v.lastKnown && v.lastKnown[0] == p
  {
    var q := w.players[0];
    var moved := w.(players := w.players[0 := q.(pos := ClampToBounds(Displaced(q.pos, code)))]);
    assert moved.players.Keys == {0};
    assert |moved.players| == |moved.players.Keys| == 1;
    assert AnnounceFrom(moved, 0) == AnnounceFrom(Announce(moved, 0), 1) == Announce(moved, 0);
  }

  lemma RestartForgetsNoPosition(w: World)
    requires 0 in w.lastKnown
    ensures var again := InitializePlayers(Stop(w), 1);
      && again.players.Keys == {0} && again.players[0].pos == SpawnPoint(0)
      && again.lastKnown == w.lastKnown
      && ShownAt(again, 0, SpawnPoint(0))
  {
    SpawnedPlayers(Stop(w).(totalPlayers := 1), 0, 1);
    StartShown(Stop(w).(totalPlayers := 1), 0, 1);
    assert Below(1) == {0};
  }

  /**
    The cache is static and outlives a game. One player who moves right, a new game, and the same move again: the second
    move is suppressed and the replica keeps showing the spawn point.
   */
  lemma SecondGameCanHideAMove()
    ensures var first := HandlePlayerMove(InitializePlayers(NEW_GAME, 1), 0, 2);
      var again := InitializePlayers(Stop(first), 1);
      && 0 in again.players
      && ShownAt(again, 0, again.players[0].pos)
      && var w := HandlePlayerMove(again, 0, 2); !ShownAt(w, 0, w.players[0].pos)
  {
    SpawnedPlayers(NEW_GAME.(totalPlayers := 1), 0, 1);
    assert Below(1) == {0};
    var game := InitializePlayers(NEW_GAME, 1);
    OnlyPlayerMoves(game, 2);
    var first := HandlePlayerMove(game, 0, 2);
    RestartForgetsNoPosition(first);
    var again := InitializePlayers(Stop(first), 1);
    MoveIsShownIff(again, 0, 2);
    assert Displaced(SpawnPoint(0), 2) == Pos(120.0, 100.0);
  }
}
