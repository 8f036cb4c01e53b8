/** The broadcast log over whole runs, and the agreement between server and replica that follows. */
module BroadcastRuns {
  import opened Collections
  import opened Protocol
  import opened GameState
  import opened Contacts
  import opened Casualties
  import opened GameRuns
  import opened FreshIds
  import opened Ledger
  import opened Replica

  function LiveIds(w: World, f: Family): set<int> {
    match f
    case PLAYERS => w.players.Keys
    case ENEMIES => w.enemies.Keys
    case BOSSES => w.bosses.Keys
    case BULLETS => w.bullets.Keys
  }

  /** How many ids of a family have been handed out in a game of n players. */
  function Issued(w: World, f: Family, n: nat): int {
    match f
    case PLAYERS => n
    case ENEMIES => w.enemyId
    case BOSSES => w.bossId
    case BULLETS => w.nextBulletId
  }

  ghost predicate Announced(w: World, f: Family, n: nat) {
    Balanced(w.log, CreateKind(f), DestroyKind(f), LiveIds(w, f), Issued(w, f, n))
  }

  /** v differs from w, for this family, only by log entries of other kinds. */
  ghost predicate Unaffected(w: World, v: World, f: Family, kinds: set<PacketType>) {
    && LiveIds(v, f) == LiveIds(w, f)
    && Issued(v, f, 0) == Issued(w, f, 0)
    && OnlyAdds(w.log, v.log, kinds)
    && CreateKind(f) !in kinds && DestroyKind(f) !in kinds
  }

  lemma UnaffectedKeepsAnnounced(w: World, v: World, f: Family, n: nat, kinds: set<PacketType>)
    requires Announced(w, f, n) && Unaffected(w, v, f, kinds)
    ensures Announced(v, f, n)
  {
    OthersKeepBalance(w.log, v.log, kinds, CreateKind(f), DestroyKind(f), LiveIds(w, f), Issued(w, f, n));
  }

  // ---- Single operations ----

  lemma {:induction false} AnnounceAddsChanges(w: World, i: nat)
    ensures OnlyAdds(w.log, AnnounceFrom(w, i).log, {CHANGE})
    decreases |w.players| - i
  {
    if i < |w.players| {
      var v := Announce(w, i);
      AnnounceAddsChanges(v, i + 1);
      OnlyAddsTwice(w.log, v.log, AnnounceFrom(v, i + 1).log, {CHANGE});
    }
  }

  lemma MoveUnaffected(w: World, id: int, code: int, f: Family)
    requires id in w.players
    ensures Unaffected(w, HandlePlayerMove(w, id, code), f, {CHANGE})
  {
    var p := w.players[id];
    AnnounceAddsChanges(w.(players := w.players[id := p.(pos := ClampToBounds(Displaced(p.pos, code)))]), 0);
  }

  lemma BulletAnnounced(w: World, id: int, n: nat)
    requires id in w.players && w.nextBulletId !in w.bullets
    requires Announced(w, BULLETS, n)
    ensures Announced(SpawnBullet(w, id), BULLETS, n)
  {
    var at := Pos(w.players[id].pos.x + 50.0, w.players[id].pos.y + 25.0);
    var m := PlaceMessage(CREATE_BULLET, w.nextBulletId, at, 5.0);
    var v := SpawnBullet(w, id);
    assert v.log == w.log + [m] && v.nextBulletId == w.nextBulletId + 1;
    assert v.bullets.Keys == w.bullets.Keys + {w.nextBulletId};
    AppendCreation(w.log, m, DESTROY_BULLET, w.bullets.Keys, w.nextBulletId);
  }

  lemma ShotAnnounced(w: World, id: int, f: Family, n: nat)
    requires Announced(w, f, n) && w.nextBulletId !in w.bullets
    ensures Announced(SpawnBullet(w, id), f, n)
  {
    if id in w.players {
      if f == BULLETS {
        BulletAnnounced(w, id, n);
      } else {
        UnaffectedKeepsAnnounced(w, SpawnBullet(w, id), f, n, {CREATE_BULLET});
      }
    }
  }

  lemma {:induction false} UiAddsStatus(players: map<int, Player>, left: set<int>)
    requires left <= players.Keys
    ensures forall i | 0 <= i < |UiMessages(players, left)| :: UiMessages(players, left)[i].kind == UI_UPDATE
    decreases |left|
  {
    if left != {} {
      UiAddsStatus(players, left - {Least(left)});
    }
  }

  lemma EnemyAnnounced(w: World, y: real, f: Family, n: nat)
    requires Announced(w, f, n)
    requires forall id | id in w.enemies :: id < w.enemyId
    ensures Announced(SpawnEnemy(w, y), f, n)
  {
    var v := SpawnEnemy(w, y);
    if f == ENEMIES {
      AppendCreation(w.log, PlaceMessage(CREATE_ENEMY, w.enemyId, Pos(SPAWN_X, y), -1.0), DESTROY_ENEMY, w.enemies.Keys,
                     w.enemyId);
      assert v.enemies.Keys == w.enemies.Keys + {w.enemyId};
    } else {
      assert Unaffected(w, v, f, {CREATE_ENEMY});
      UnaffectedKeepsAnnounced(w, v, f, n, {CREATE_ENEMY});
    }
  }

  lemma {:induction false} EnemiesAnnounced(w: World, ys: seq<real>, f: Family, n: nat)
    requires Announced(w, f, n)
    requires forall id | id in w.enemies :: id < w.enemyId
    ensures Announced(SpawnEnemies(w, ys), f, n)
    decreases |ys|
  {
    if ys != [] {
      EnemyAnnounced(w, ys[0], f, n);
      EnemiesAnnounced(SpawnEnemy(w, ys[0]), ys[1..], f, n);
    }
  }

  lemma BossAnnounced(w: World, y: real, f: Family, n: nat)
    requires Announced(w, f, n)
    requires forall id | id in w.bosses :: id < w.bossId
    ensures Announced(SpawnBoss(w, y), f, n)
  {
    var v := SpawnBoss(w, y);
    if f == BOSSES {
      AppendCreation(w.log, PlaceMessage(CREATE_BOSS, w.bossId, Pos(SPAWN_X, y), -0.1), DESTROY_BOSS, w.bosses.Keys,
                     w.bossId);
      assert v.bosses.Keys == w.bosses.Keys + {w.bossId};
    } else {
      assert Unaffected(w, v, f, {CREATE_BOSS});
      UnaffectedKeepsAnnounced(w, v, f, n, {CREATE_BOSS});
    }
  }

  lemma WaveAnnounced(w: World, ys: seq<real>, f: Family, n: nat)
    requires Announced(w, f, n) && |ys| == WaveSize(w)
    requires forall id | id in w.enemies :: id < w.enemyId
    requires forall id | id in w.bosses :: id < w.bossId
    ensures Announced(NextWave(w, ys), f, n)
  {
    var v := w.(currentWave := w.currentWave + 1);
    if v.currentWave % 3 == 0 {
      BossAnnounced(v, ys[0], f, n);
      EnemiesAnnounced(SpawnBoss(v, ys[0]), ys[1..], f, n);
    } else {
      EnemiesAnnounced(v.(currentWave := v.currentWave + 1), ys, f, n);
    }
  }

  // ---- The check ----

  lemma BatchAnnounced(log: seq<Message>, kind: PacketType, ids: seq<int>, f: Family, live: set<int>, issued: int)
    requires Balanced(log, CreateKind(f), DestroyKind(f), live, issued)
    requires kind in {DESTROY_BULLET, DESTROY_ENEMY, DESTROY_PLAYER, DESTROY_BOSS}
    requires kind == DestroyKind(f) ==> NoDuplicates(ids) && Elements(ids) <= live
    ensures Balanced(log + Notices(kind, ids), CreateKind(f), DestroyKind(f),
                     if kind == DestroyKind(f) then live - Elements(ids) else live, issued)
  {
    if kind == DestroyKind(f) {
      NoticesKeepBalance(log, ids, CreateKind(f), DestroyKind(f), live, issued);
    } else {
      NoticesAddOnly(log, kind, ids);
      OthersKeepBalance(log, log + Notices(kind, ids), {kind}, CreateKind(f), DestroyKind(f), live, issued);
    }
  }

  lemma RemovedAreLive<T>(live: map<int, T>, dead: seq<int>)
    ensures NoDuplicates(Removed(live, dead)) && Elements(Removed(live, dead)) <= live.Keys
    ensures (live - Elements(Removed(live, dead))).Keys == live.Keys - Elements(Removed(live, dead))
  {
    SweepExact(live.Keys, dead);
  }

  lemma FourBatches(log: seq<Message>, b: seq<int>, e: seq<int>, p: seq<int>, o: seq<int>, f: Family,
                    live: set<int>, issued: int)
    requires Balanced(log, CreateKind(f), DestroyKind(f), live, issued)
    requires var ids := match f case BULLETS => b case ENEMIES => e case PLAYERS => p case BOSSES => o;
      NoDuplicates(ids) && Elements(ids) <= live
    ensures var ids := match f case BULLETS => b case ENEMIES => e case PLAYERS => p case BOSSES => o;
      Balanced(log + Notices(DESTROY_BULLET, b) + Notices(DESTROY_ENEMY, e) + Notices(DESTROY_PLAYER, p) +
               Notices(DESTROY_BOSS, o), CreateKind(f), DestroyKind(f), live - Elements(ids), issued)
  {
    var l1 := log + Notices(DESTROY_BULLET, b);
    var l2 := l1 + Notices(DESTROY_ENEMY, e);
    var l3 := l2 + Notices(DESTROY_PLAYER, p);
    BatchAnnounced(log, DESTROY_BULLET, b, f, live, issued);
    var live1 := if f == BULLETS then live - Elements(b) else live;
    BatchAnnounced(l1, DESTROY_ENEMY, e, f, live1, issued);
    var live2 := if f == ENEMIES then live1 - Elements(e) else live1;
    BatchAnnounced(l2, DESTROY_PLAYER, p, f, live2, issued);
    var live3 := if f == PLAYERS then live2 - Elements(p) else live2;
    BatchAnnounced(l3, DESTROY_BOSS, o, f, live3, issued);
  }

  lemma CheckAnnounced(w: World, f: Family, n: nat)
    requires Announced(w, f, n)
    ensures Announced(CheckCollisions(w), f, n)
  {
    var m := MarkCasualties(w);
    MarkedFrame(w);
    RemovedWorld(m);
    RemovedAreLive(m.bullets, m.deadBullets);
    RemovedAreLive(m.enemies, m.deadEnemies);
    RemovedAreLive(m.players, m.deadPlayers);
    RemovedAreLive(m.bosses, m.deadBosses);
    FourBatches(w.log, Removed(m.bullets, m.deadBullets), Removed(m.enemies, m.deadEnemies),
                Removed(m.players, m.deadPlayers), Removed(m.bosses, m.deadBosses), f, LiveIds(w, f), Issued(w, f, n));
  }

  // ---- Runs ----

  lemma MoveAnnounced(w: World, id: int, code: int, f: Family, n: nat)
    requires id in w.players && Announced(w, f, n)
    ensures Announced(HandlePlayerMove(w, id, code), f, n)
  {
    MoveUnaffected(w, id, code, f);
    UnaffectedKeepsAnnounced(w, HandlePlayerMove(w, id, code), f, n, {CHANGE});
  }

  lemma MarkAnnounced(w: World, i: nat, f: Family, n: nat)
    requires Announced(w, f, n) && i < |w.actions|
    ensures Announced(Mark(w, i), f, n)
  {
  }

  lemma ActionAnnounced(w: World, i: nat, f: Family, n: nat)
    requires i < |w.actions| && !Throws(w, w.actions[i])
    requires Announced(w, f, n) && w.nextBulletId !in w.bullets
    ensures |Execute(w, w.actions[i]).actions| == |w.actions|
    ensures Announced(Mark(Execute(w, w.actions[i]), i), f, n)
  {
    var a := w.actions[i];
    if IsMove(a.code) {
      MoveAnnounced(w, a.player, a.code, f, n);
    } else if a.code == 5 {
      ShotAnnounced(w, a.player, f, n);
    }
    MarkAnnounced(Execute(w, a), i, f, n);
  }

  lemma StepKeepsAnnounced(s: System, ev: Event, f: Family, n: nat)
    requires Fresh(s.w, n) && Announced(s.w, f, n)
    ensures Announced(Step(s, ev).w, f, n)
  {
    if Enabled(s, ev) {
      match ev
      case RunAction => ActionAnnounced(s.w, s.phase.next, f, n);
      case Collide => CheckAnnounced(s.w, f, n);
      case Wave(due, ys) =>
        if due {
          WaveAnnounced(s.w, ys, f, n);
        }
      case Report(due) =>
        if due {
          UiAddsStatus(s.w.players, s.w.players.Keys);
          UnaffectedKeepsAnnounced(s.w, UpdateUI(s.w, due), f, n, {UI_UPDATE});
        }
      case NetShoot(id) => ShotAnnounced(s.w, id, f, n);
      case MoveBullets(due) => assert LiveIds(UpdateBullets(s.w, due), f) == LiveIds(s.w, f);
      case MoveEnemies(due) => assert LiveIds(UpdateEnemies(s.w, due), f) == LiveIds(s.w, f);
      case _ =>
    }
  }

  lemma PlayerLedger(log: seq<Message>, create: Message, ui: Message, live: set<int>, i: int)
    requires Balanced(log, CREATE_PLAYER, DESTROY_PLAYER, live, i)
    requires create.kind == CREATE_PLAYER && create.id == i && ui.kind == UI_UPDATE
    ensures Balanced(log + [create, ui], CREATE_PLAYER, DESTROY_PLAYER, live + {i}, i + 1)
  {
    AppendCreation(log, create, DESTROY_PLAYER, live, i);
    AppendOther(log + [create], ui, CREATE_PLAYER, DESTROY_PLAYER, live + {i}, i + 1);
    assert log + [create, ui] == (log + [create]) + [ui];
  }

  lemma NewPlayerAnnounced(w: World, i: nat)
    requires w.players.Keys == Below(i) && Announced(w, PLAYERS, i)
    ensures Announced(SpawnPlayer(w, i, SpawnPoint(i)), PLAYERS, i + 1)
  {
    var v := SpawnPlayer(w, i, SpawnPoint(i));
    PlayerLedger(w.log, PlaceMessage(CREATE_PLAYER, i, SpawnPoint(i), 0.0), UiMessage(i, v.players[i]), w.players.Keys,
                 i);
    assert v.players.Keys == w.players.Keys + {i};
  }

  lemma PlayerAnnounced(w: World, i: nat, f: Family)
    requires w.players.Keys == Below(i) && Announced(w, f, i)
    ensures Announced(SpawnPlayer(w, i, SpawnPoint(i)), f, i + 1)
  {
    if f == PLAYERS {
      NewPlayerAnnounced(w, i);
    } else {
      UnaffectedKeepsAnnounced(w, SpawnPlayer(w, i, SpawnPoint(i)), f, i, {CREATE_PLAYER, UI_UPDATE});
    }
  }

  /** The first i players have been spawned and announced. */
  ghost predicate FirstPlayers(v: World, i: nat, f: Family) {
    v.players.Keys == Below(i) && Announced(v, f, i)
  }

  lemma SpawnKeepsFirstPlayers(w: World, i: nat, f: Family)
    requires FirstPlayers(w, i, f)
    ensures FirstPlayers(SpawnPlayer(w, i, SpawnPoint(i)), i + 1, f)
  {
    PlayerAnnounced(w, i, f);
    SpawnAddsKey(w, i);
  }

  lemma SpawnAddsKey(w: World, i: nat)
    requires w.players.Keys == Below(i)
    ensures SpawnPlayer(w, i, SpawnPoint(i)).players.Keys == Below(i + 1)
  {
  }

  /** next is w after player i has been spawned, and v after all of them have. */
  ghost predicate SpawnsNext(w: World, i: nat, n: nat, next: World, v: World) {
    && next == SpawnPlayer(w, i, SpawnPoint(i))
    && v == SpawnPlayersFrom(next, i + 1, n)
  }

  lemma SpawnsStepByStep(w: World, i: nat, n: nat, v: World) returns (next: World)
    requires i < n && v == SpawnPlayersFrom(w, i, n)
    ensures SpawnsNext(w, i, n, next, v)
  {
    next := SpawnPlayer(w, i, SpawnPoint(i));
  }

  lemma {:induction false} StartAnnounced(w: World, i: nat, n: nat, f: Family, v: World)
    requires i <= n && FirstPlayers(w, i, f) && v == SpawnPlayersFrom(w, i, n)
    ensures FirstPlayers(v, n, f)
    decreases n - i
  {
    if i < n {
      var next := SpawnsStepByStep(w, i, n, v);
      SpawnKeepsFirstPlayers(w, i, f);
      StartAnnounced(next, i + 1, n, f, v);
    }
  }

  /** In every reachable state each family's ledger balances. */
  lemma {:induction false} RunsStayAnnounced(n: nat, events: seq<Event>, f: Family)
    ensures Announced(Run(Start(n), events).w, f, n)
  {
    if events == [] {
      var w := NEW_GAME.(totalPlayers := n);
      assert Elements(Ids(w.log, DestroyKind(f))) == {};
      StartAnnounced(w, 0, n, f, Start(n).w);
    } else {
      var prefix := events[..|events| - 1];
      RunsStayAnnounced(n, prefix, f);
      RunsStayFresh(n, prefix);
      StepKeepsAnnounced(Run(Start(n), prefix), events[|events| - 1], f, n);
    }
  }

  lemma {:induction false} UpToNoDuplicates(n: int)
    requires 0 <= n
    ensures NoDuplicates(UpTo(n))
  {
    if n > 0 {
      UpToNoDuplicates(n - 1);
      assert n - 1 !in Elements(UpTo(n - 1));
    }
  }

  /**
    At every point of every run of one game, the replica that has applied the log holds exactly the server's players,
    enemies and bosses, and its alive flags name exactly the server's players.
   */
  lemma ReplicaAgrees(n: nat, events: seq<Event>)
    ensures var w := Run(Start(n), events).w; var c := Replay(w.log);
      && c.players.Keys == w.players.Keys
      && c.enemies.Keys == w.enemies.Keys
      && c.bosses.Keys == w.bosses.Keys
      && c.alive.Keys == Below(n)
      && (forall id | 0 <= id < n :: c.alive[id] <==> id in w.players)
  {
    var w := Run(Start(n), events).w;
    SpritesAgree(n, events, PLAYERS);
    SpritesAgree(n, events, ENEMIES);
    SpritesAgree(n, events, BOSSES);
    RunsStayAnnounced(n, events, PLAYERS);
    ReplayAlive(w.log);
  }

  lemma SpritesAgree(n: nat, events: seq<Event>, f: Family)
    requires f != BULLETS
    ensures var w := Run(Start(n), events).w; Sprites(Replay(w.log), f) == LiveIds(w, f)
  {
    var w := Run(Start(n), events).w;
    RunsStayAnnounced(n, events, f);
    UpToNoDuplicates(Issued(w, f, n));
    ReplayKeys(w.log, f);
  }

  lemma AllLiveIff(gone: seq<int>, live: set<int>, all: set<int>)
    requires live <= all && Elements(gone) == all - live
    ensures live == all <==> gone == []
  {
    if gone == [] {
      assert Elements(gone) == {};
      assert all == live + (all - live);
    } else {
      assert gone[0] in Elements(gone);
    }
  }

  /** The bullet sprites agree with the server exactly as long as no bullet has been removed. */
  lemma BulletReplicaAgreesIff(n: nat, events: seq<Event>)
    ensures var w := Run(Start(n), events).w; var c := Replay(w.log);
      && c.bullets.Keys == Below(w.nextBulletId)
      && (c.bullets.Keys == w.bullets.Keys <==> Ids(w.log, DESTROY_BULLET) == [])
  {
    var w := Run(Start(n), events).w;
    RunsStayAnnounced(n, events, BULLETS);
    ReplayBullets(w.log);
    assert Elements(Ids(w.log, CREATE_BULLET)) == Elements(UpTo(w.nextBulletId));
    assert Sprites(Replay(w.log), BULLETS) == Replay(w.log).bullets.Keys;
    AllLiveIff(Ids(w.log, DESTROY_BULLET), w.bullets.Keys, Below(w.nextBulletId));
  }
}
