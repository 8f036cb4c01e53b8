/** Identifiers over whole runs: the counters stay ahead of every id in use or in a dead list. */
module FreshIds {
  import opened Collections
  import opened GameState
  import opened Contacts
  import opened Casualties
  import opened GameRuns

  /** Ids in use and ids in the dead list lie below the next fresh id, and no listed id is in use. */
  ghost predicate Kept(keys: set<int>, dead: seq<int>, bound: int) {
    && 0 <= bound
    && (forall id | id in keys :: 0 <= id < bound)
    && (forall id | id in dead :: 0 <= id < bound && id !in keys)
  }

  ghost predicate IdsKept(w: World, n: nat) {
    && Kept(w.players.Keys, w.deadPlayers, n)
    && Kept(w.bullets.Keys, w.deadBullets, w.nextBulletId)
    && Kept(w.enemies.Keys, w.deadEnemies, w.enemyId)
    && Kept(w.bosses.Keys, w.deadBosses, w.bossId)
    && AllStanding(w)
    && w.totalPlayers == |w.players|
  }

  /** The invariant of a game that started with n players. */
  ghost predicate Fresh(w: World, n: nat) {
    && IdsKept(w, n)
    && w.shooters.Keys == w.bullets.Keys
    && w.enemiesPerWave >= 0
  }

  lemma {:induction false} SpawnedPlayers(w: World, i: nat, n: nat)
    requires i <= n && w.players.Keys == Below(i)
    ensures var v := SpawnPlayersFrom(w, i, n);
      && v == w.(players := v.players, log := v.log)
      && v.players.Keys == Below(n)
      && (forall id | 0 <= id < i :: v.players[id] == w.players[id])
      && (forall id | i <= id < n :: v.players[id] == Player(SpawnPoint(id), 100, 0))
    decreases n - i
  {
    if i < n {
      SpawnedPlayers(SpawnPlayer(w, i, SpawnPoint(i)), i + 1, n);
    }
  }

  lemma StartIsFresh(n: nat)
    ensures Fresh(Start(n).w, n)
    ensures Start(n).w.players.Keys == Below(n)
  {
    SpawnedPlayers(NEW_GAME.(totalPlayers := n), 0, n);
    BelowCardinality(n);
  }

  lemma KeptAfterSweep<T>(live: map<int, T>, dead: seq<int>, bound: int)
    requires 0 <= bound
    requires forall id | id in live.Keys :: 0 <= id < bound
    requires forall id | id in dead :: 0 <= id < bound
    ensures Kept((live - Elements(Removed(live, dead))).Keys, Sweep(live.Keys, dead).0, bound)
  {
    forall id | id in Sweep(live.Keys, dead).0
      ensures id in dead && id !in live - Elements(Removed(live, dead))
    {
      Leftovers(live, dead, id);
      Survivors(live, dead, id);
    }
  }

  lemma MarkedAreKnown(w: World, id: int)
    requires id in MarkCasualties(w).deadPlayers
    ensures id in w.deadPlayers || id in w.players
  {
    var at := Positions(w.players);
    var w2 := BulletsHitBosses(BulletsHitEnemies(w));
    var w3 := PlayersHitEnemies(w2);
    assert MarkCasualties(w).deadPlayers ==
           w.deadPlayers + Marked(w2.players, Hits(Positions(w2.players), w.enemies), 10) +
                                            Marked(w3.players, Hits(Positions(w3.players), w.bosses), 20);
    MarkedExact(w2.players, Hits(Positions(w2.players), w.enemies), 10, id);
    MarkedExact(w3.players, Hits(Positions(w3.players), w.bosses), 20, id);
  }

  lemma PlayersKept(w: World, bound: int)
    requires Kept(w.players.Keys, w.deadPlayers, bound)
    ensures Kept(CheckCollisions(w).players.Keys, CheckCollisions(w).deadPlayers, bound)
  {
    var m := MarkCasualties(w);
    forall id | id in m.deadPlayers ensures 0 <= id < bound {
      MarkedAreKnown(w, id);
      assert id in w.deadPlayers || id in w.players.Keys;
    }
    MarkedFrame(w);
    RemovedWorld(m);
    RemovedLists(m);
    KeptAfterSweep(m.players, m.deadPlayers, bound);
  }

  lemma BulletsKept(w: World, bound: int)
    requires Kept(w.bullets.Keys, w.deadBullets, bound)
    ensures Kept(CheckCollisions(w).bullets.Keys, CheckCollisions(w).deadBullets, bound)
  {
    var m := MarkCasualties(w);
    assert m.deadBullets == w.deadBullets + Firsts(Hits(w.bullets, w.enemies)) +
                            Firsts(Hits(w.bullets, w.bosses)) + OutOfBoundsKeys(w.bullets, w.bullets.Keys);
    forall id | id in m.deadBullets ensures 0 <= id < bound {
      HitMovers(w.bullets, w.enemies, id);
      HitMovers(w.bullets, w.bosses, id);
      OutOfBoundsKeysExact(w.bullets, w.bullets.Keys, id);
      assert id in w.deadBullets || id in w.bullets.Keys;
    }
    MarkedFrame(w);
    RemovedWorld(m);
    RemovedLists(m);
    KeptAfterSweep(m.bullets, m.deadBullets, bound);
  }

  lemma EnemiesKept(w: World, bound: int)
    requires Kept(w.enemies.Keys, w.deadEnemies, bound)
    ensures Kept(CheckCollisions(w).enemies.Keys, CheckCollisions(w).deadEnemies, bound)
  {
    var m := MarkCasualties(w);
    var at := Positions(w.players);
    assert Positions(BulletsHitBosses(BulletsHitEnemies(w)).players) == at;
    assert m.deadEnemies == w.deadEnemies + Seconds(Hits(w.bullets, w.enemies)) +
                            Seconds(Hits(at, w.enemies)) + OutOfBoundsKeys(w.enemies, w.enemies.Keys);
    forall id | id in m.deadEnemies ensures 0 <= id < bound {
      HitTargets(w.bullets, w.enemies, id);
      HitTargets(at, w.enemies, id);
      OutOfBoundsKeysExact(w.enemies, w.enemies.Keys, id);
      assert id in w.deadEnemies || id in w.enemies.Keys;
    }
    MarkedFrame(w);
    RemovedWorld(m);
    RemovedLists(m);
    KeptAfterSweep(m.enemies, m.deadEnemies, bound);
  }

  lemma BossesKept(w: World, bound: int)
    requires Kept(w.bosses.Keys, w.deadBosses, bound)
    ensures Kept(CheckCollisions(w).bosses.Keys, CheckCollisions(w).deadBosses, bound)
  {
    var m := MarkCasualties(w);
    var at := Positions(w.players);
    var w2 := BulletsHitBosses(BulletsHitEnemies(w));
    assert Positions(w2.players) == at && Positions(PlayersHitEnemies(w2).players) == at;
    assert m.deadBosses == w.deadBosses + Seconds(Hits(w.bullets, w.bosses)) +
                           Seconds(Hits(at, w.bosses)) + OutOfBoundsKeys(w.bosses, w.bosses.Keys);
    forall id | id in m.deadBosses ensures 0 <= id < bound {
      HitTargets(w.bullets, w.bosses, id);
      HitTargets(at, w.bosses, id);
      OutOfBoundsKeysExact(w.bosses, w.bosses.Keys, id);
      assert id in w.deadBosses || id in w.bosses.Keys;
    }
    MarkedFrame(w);
    RemovedWorld(m);
    RemovedLists(m);
    KeptAfterSweep(m.bosses, m.deadBosses, bound);
  }

  lemma CheckFrame(w: World)
    ensures var v := CheckCollisions(w);
      v == w.(players := v.players, bullets := v.bullets, enemies := v.enemies, bosses := v.bosses,
              deadPlayers := v.deadPlayers, deadBullets := v.deadBullets, deadEnemies := v.deadEnemies,
              deadBosses := v.deadBosses, shooters := v.shooters, totalPlayers := v.totalPlayers, log := v.log)
  {
    MarkedFrame(w);
    RemovedWorld(MarkCasualties(w));
  }

  lemma RemovedCount<T>(live: map<int, T>, dead: seq<int>)
    ensures |live - Elements(Removed(live, dead))| == |live| - |Removed(live, dead)|
  {
    var gone := Elements(Removed(live, dead));
    SweepExact(live.Keys, dead);
    NoDuplicatesCardinality(Removed(live, dead));
    assert (live - gone).Keys == live.Keys - gone;
    assert gone <= live.Keys;
  }

  lemma CheckKeepsTotal(w: World)
    requires w.totalPlayers == |w.players|
    ensures CheckCollisions(w).totalPlayers == |CheckCollisions(w).players|
  {
    var m := MarkCasualties(w);
    MarkedFrame(w);
    RemovedWorld(m);
    RemovedCount(m.players, m.deadPlayers);
    assert |m.players.Keys| == |w.players.Keys|;
  }

  lemma CheckKeepsShooters(w: World)
    requires w.shooters.Keys == w.bullets.Keys
    ensures CheckCollisions(w).shooters.Keys == CheckCollisions(w).bullets.Keys
  {
    MarkedFrame(w);
    RemovedWorld(MarkCasualties(w));
  }

  lemma CheckKeepsFresh(w: World, n: nat)
    requires Fresh(w, n)
    ensures Fresh(CheckCollisions(w), n)
  {
    PlayersKept(w, n);
    BulletsKept(w, w.nextBulletId);
    EnemiesKept(w, w.enemyId);
    BossesKept(w, w.bossId);
    CheckFrame(w);
    CheckKeepsTotal(w);
    CheckKeepsShooters(w);
    forall id | id in CheckCollisions(w).players ensures CheckCollisions(w).players[id].hp > 0 {
      SurvivingPlayers(w, id);
    }
  }

  lemma {:induction false} SpawnedEnemies(w: World, ys: seq<real>)
    requires forall id | id in w.enemies :: id < w.enemyId
    ensures var v := SpawnEnemies(w, ys);
      && v == w.(enemies := v.enemies, enemyId := w.enemyId + |ys|, log := v.log)
      && (forall id :: id in v.enemies <==> id in w.enemies || w.enemyId <= id < w.enemyId + |ys|)
      && (forall id | id in w.enemies :: v.enemies[id] == w.enemies[id])
      && (forall id | w.enemyId <= id < w.enemyId + |ys| :: v.enemies[id].x == SPAWN_X)
    decreases |ys|
  {
    if ys != [] {
      SpawnedEnemies(SpawnEnemy(w, ys[0]), ys[1..]);
    }
  }

  /** A wave adds exactly the ids between the old and the new counters. */
  ghost predicate Spawned(before: map<int, Pos>, after: map<int, Pos>, first: int, next: int) {
    && first <= next
    && (forall id :: id in after <==> id in before || first <= id < next)
    && (forall id | id in before :: after[id] == before[id])
    && (forall id | first <= id < next :: after[id].x == SPAWN_X)
  }

  ghost predicate WaveResult(w: World, v: World) {
    && v == w.(enemies := v.enemies, bosses := v.bosses, enemyId := v.enemyId, bossId := v.bossId,
               currentWave := v.currentWave, enemiesPerWave := v.enemiesPerWave, log := v.log)
    && w.enemiesPerWave <= v.enemiesPerWave
    && Spawned(w.enemies, v.enemies, w.enemyId, v.enemyId)
    && Spawned(w.bosses, v.bosses, w.bossId, v.bossId)
  }

  lemma BossWaveSpawns(w: World, y: real, ys: seq<real>)
    requires forall id | id in w.enemies :: id < w.enemyId
    requires forall id | id in w.bosses :: id < w.bossId
    ensures WaveResult(w, SpawnEnemies(SpawnBoss(w, y), ys))
  {
    SpawnedEnemies(SpawnBoss(w, y), ys);
  }

  lemma PlainWaveSpawns(w: World, ys: seq<real>)
    requires forall id | id in w.enemies :: id < w.enemyId
    ensures WaveResult(w, SpawnEnemies(w, ys))
  {
    SpawnedEnemies(w, ys);
  }

  lemma WaveSpawns(w: World, ys: seq<real>)
    requires |ys| == WaveSize(w)
    requires forall id | id in w.enemies :: id < w.enemyId
    requires forall id | id in w.bosses :: id < w.bossId
    ensures WaveResult(w, NextWave(w, ys))
  {
    var next := w.(currentWave := w.currentWave + 1);
    if next.currentWave % 3 == 0 {
      BossWaveSpawns(next, ys[0], ys[1..]);
    } else {
      PlainWaveSpawns(next.(currentWave := next.currentWave + 1), ys);
    }
  }

  lemma ExecuteKeepsFresh(w: World, i: nat, n: nat)
    requires Fresh(w, n) && i < |w.actions| && !Throws(w, w.actions[i])
    ensures |Execute(w, w.actions[i]).actions| == |w.actions|
    ensures Fresh(Mark(Execute(w, w.actions[i]), i), n)
  {
    var a := w.actions[i];
    if a.code == 5 {
      ShotKeepsFresh(w, a.player, n);
    }
  }

  lemma ShotKeepsFresh(w: World, id: int, n: nat)
    requires Fresh(w, n)
    ensures Fresh(SpawnBullet(w, id), n)
  {
  }

  lemma WaveKeepsFresh(w: World, ys: seq<real>, n: nat)
    requires Fresh(w, n) && |ys| == WaveSize(w)
    ensures Fresh(NextWave(w, ys), n)
  {
    WaveSpawns(w, ys);
  }

  lemma StepKeepsFresh(s: System, ev: Event, n: nat)
    requires Fresh(s.w, n)
    ensures Fresh(Step(s, ev).w, n)
  {
    if Enabled(s, ev) {
      match ev
      case RunAction => ExecuteKeepsFresh(s.w, s.phase.next, n);
      case Collide => CheckKeepsFresh(s.w, n);
      case Wave(due, ys) =>
        if due {
          WaveKeepsFresh(s.w, ys, n);
        }
      case NetShoot(id) => ShotKeepsFresh(s.w, id, n);
      case _ =>
    }
  }

  /**
    In every reachable state no dead list names a live entity, so that by KillsAreJustified a stale entry never removes
    anything; nobody alive is without hp; and totalPlayers counts the players.
   */
  lemma {:induction false} RunsStayFresh(n: nat, events: seq<Event>)
    ensures Fresh(Run(Start(n), events).w, n)
  {
    if events == [] {
      StartIsFresh(n);
    } else {
      RunsStayFresh(n, events[..|events| - 1]);
      StepKeepsFresh(Run(Start(n), events[..|events| - 1]), events[|events| - 1], n);
    }
  }

  /**
    Ids of enemies, bosses and bullets are not reset between games and the dead lists are: a new game after stop()
    starts with no dead list naming a live entity, whatever was left over from the previous one.
   */
  lemma RestartKeepsIds(w: World, m: nat, n: nat)
    requires IdsKept(w, m)
    ensures IdsKept(InitializePlayers(Stop(w), n), n)
    ensures InitializePlayers(Stop(w), n).players.Keys == Below(n)
  {
    SpawnedPlayers(Stop(w).(totalPlayers := n), 0, n);
    BelowCardinality(n);
    var v := InitializePlayers(Stop(w), n);
    assert forall id | id in v.players :: 0 <= id < n;
  }
}
