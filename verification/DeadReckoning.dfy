/**
  Dead reckoning over whole runs: at every point the server has a live bullet, enemy or boss exactly where the replica's
  sprite gets by moving on with its velocity since the entity appeared.
 */
module DeadReckoning {
  import opened Collections
  import opened Protocol
  import opened GameState
  import opened Casualties
  import opened GameRuns
  import opened FreshIds
  import opened Ledger
  import opened Replica
  import opened BroadcastRuns
  import opened Lifetimes
  import opened Sprites

  // ---- One family ----

  function Places(w: World, f: Family): map<int, Pos> {
    match f
    case PLAYERS => Positions(w.players)
    case ENEMIES => w.enemies
    case BOSSES => w.bosses
    case BULLETS => w.bullets
  }

  function Born(h: History, f: Family): map<int, nat> {
    match f
    case PLAYERS => map[]
    case ENEMIES => h.enemyBorn
    case BOSSES => h.bossBorn
    case BULLETS => h.bulletBorn
  }

  /** The moves of the family so far. */
  function Now(h: History, f: Family): nat {
    if f == BULLETS then h.bulletMoves else h.enemyMoves
  }

  /** The velocity along x that a family's CREATE packets carry. */
  function Speed(f: Family): real {
    match f
    case PLAYERS => 0.0
    case ENEMIES => -1.0
    case BOSSES => -0.1
    case BULLETS => 5.0
  }

  /** How far a family's velocity takes an entity in this many moves. */
  function Travelled(f: Family, moves: int): real {
    match f
    case PLAYERS => 0.0
    case ENEMIES => -(moves as real)
    case BOSSES => -0.1 * moves as real
    case BULLETS => 5.0 * moves as real
  }

  ghost predicate Reckoned(d: map<int, Sprite>, at: map<int, Pos>, born: map<int, nat>, now: nat, f: Family) {
    && born.Keys == at.Keys
    && forall id | id in at ::
         && id in d
         && d[id] == Sprite(Pos(at[id].x - Travelled(f, now - born[id]), at[id].y), Speed(f), 0.0)
  }

  /** Entities that stay keep place and sprite, and new ones have sprites where they are. */
  ghost predicate Carried(d: map<int, Sprite>, at: map<int, Pos>, e: map<int, Sprite>, to: map<int, Pos>, f: Family) {
    forall id | id in to ::
      if id in at then to[id] == at[id] && (id in d ==> id in e && e[id] == d[id])
      else id in e && e[id] == Sprite(to[id], Speed(f), 0.0)
  }

  lemma CarriedIsReckoned(d: map<int, Sprite>, at: map<int, Pos>, born: map<int, nat>, now: nat, e: map<int, Sprite>,
                          to: map<int, Pos>, f: Family)
    requires Reckoned(d, at, born, now, f) && Carried(d, at, e, to, f)
    ensures Reckoned(e, to, Births(born, to.Keys, now), now, f)
  {
  }

  lemma MovedIsReckoned(d: map<int, Sprite>, at: map<int, Pos>, born: map<int, nat>, now: nat, f: Family)
    requires Reckoned(d, at, born, now, f) && f != PLAYERS
    ensures Reckoned(d, Shift(at, Speed(f)), Births(born, at.Keys, now), now + 1, f)
  {
  }

  // ---- Steps that move nothing ----

  ghost predicate Carries(w: World, v: World, f: Family) {
    Carried(DrawnFrom(w.log, f), Places(w, f), DrawnFrom(v.log, f), Places(v, f), f)
  }

  lemma UnrelatedCarries(w: World, v: World, kinds: set<PacketType>, f: Family)
    requires Places(v, f) == Places(w, f)
    requires OnlyAdds(w.log, v.log, kinds) && CreateKind(f) !in kinds && (f != BULLETS ==> DestroyKind(f) !in kinds)
    ensures Carries(w, v, f)
  {
    OthersKeepDrawn(w.log, v.log, kinds, f);
  }

  lemma MoveCarries(w: World, id: int, code: int, f: Family)
    requires id in w.players && f != PLAYERS
    ensures Carries(w, HandlePlayerMove(w, id, code), f)
  {
    MoveUnaffected(w, id, code, f);
    UnrelatedCarries(w, HandlePlayerMove(w, id, code), {CHANGE}, f);
  }

  lemma CreatedCarries(w: World, v: World, m: Message, f: Family)
    requires m.kind == CreateKind(f) && m.vx == Speed(f) && m.vy == 0.0 && v.log == w.log + [m]
    requires m.id !in Places(w, f) && Places(v, f) == Places(w, f)[m.id := Pos(m.x, m.y)]
    ensures Carries(w, v, f)
  {
    DrawnAppend(w.log, m, f);
  }

  lemma ShotCarries(w: World, id: int, f: Family)
    requires w.nextBulletId !in w.bullets && f != PLAYERS
    ensures Carries(w, SpawnBullet(w, id), f)
  {
    var v := SpawnBullet(w, id);
    if f == BULLETS && id in w.players {
      var p := w.players[id].pos;
      CreatedCarries(w, v, PlaceMessage(CREATE_BULLET, w.nextBulletId, Pos(p.x + 50.0, p.y + 25.0), 5.0), f);
    } else {
      UnrelatedCarries(w, v, {CREATE_BULLET} - {CreateKind(f)}, f);
    }
  }

  lemma ActionCarries(w: World, i: nat, f: Family)
    requires i < |w.actions| && !Throws(w, w.actions[i])
    requires w.nextBulletId !in w.bullets && f != PLAYERS
    ensures |Execute(w, w.actions[i]).actions| == |w.actions|
    ensures Carries(w, Mark(Execute(w, w.actions[i]), i), f)
  {
    var a := w.actions[i];
    if IsMove(a.code) {
      MoveCarries(w, a.player, a.code, f);
    } else if a.code == 5 {
      ShotCarries(w, a.player, f);
    }
  }

  lemma ReportCarries(w: World, due: bool, f: Family)
    requires f != PLAYERS
    ensures Carries(w, UpdateUI(w, due), f)
  {
    UiAddsStatus(w.players, w.players.Keys);
    UnrelatedCarries(w, UpdateUI(w, due), {UI_UPDATE}, f);
  }

  // ---- Waves ----

  lemma CarriesTwice(u: World, v: World, w: World, f: Family)
    requires Carries(u, v, f) && Carries(v, w, f) && Places(u, f).Keys <= Places(v, f).Keys
    ensures Carries(u, w, f)
  {
  }

  lemma EnemyCarries(w: World, y: real, f: Family)
    requires f != PLAYERS && w.enemyId !in w.enemies
    ensures Carries(w, SpawnEnemy(w, y), f) && Places(w, f).Keys <= Places(SpawnEnemy(w, y), f).Keys
  {
    if f == ENEMIES {
      CreatedCarries(w, SpawnEnemy(w, y), PlaceMessage(CREATE_ENEMY, w.enemyId, Pos(SPAWN_X, y), -1.0), f);
    } else {
      UnrelatedCarries(w, SpawnEnemy(w, y), {CREATE_ENEMY}, f);
    }
  }

  lemma {:induction false} EnemiesCarry(w: World, ys: seq<real>, f: Family)
    requires f != PLAYERS && forall id | id in w.enemies :: id < w.enemyId
    ensures Carries(w, SpawnEnemies(w, ys), f)
    decreases |ys|
  {
    if ys != [] {
      var next := SpawnEnemy(w, ys[0]);
      EnemyCarries(w, ys[0], f);
      EnemiesCarry(next, ys[1..], f);
      CarriesTwice(w, next, SpawnEnemies(next, ys[1..]), f);
    }
  }

  lemma BossCarries(w: World, y: real, f: Family)
    requires f != PLAYERS && w.bossId !in w.bosses
    ensures Carries(w, SpawnBoss(w, y), f) && Places(w, f).Keys <= Places(SpawnBoss(w, y), f).Keys
  {
    if f == BOSSES {
      CreatedCarries(w, SpawnBoss(w, y), PlaceMessage(CREATE_BOSS, w.bossId, Pos(SPAWN_X, y), -0.1), f);
    } else {
      UnrelatedCarries(w, SpawnBoss(w, y), {CREATE_BOSS}, f);
    }
  }

  lemma WaveCarries(w: World, ys: seq<real>, f: Family)
    requires f != PLAYERS && |ys| == WaveSize(w)
    requires forall id | id in w.enemies :: id < w.enemyId
    requires forall id | id in w.bosses :: id < w.bossId
    ensures Carries(w, NextWave(w, ys), f)
  {
    var v := w.(currentWave := w.currentWave + 1);
    if v.currentWave % 3 == 0 {
      var next := SpawnBoss(v, ys[0]);
      BossCarries(v, ys[0], f);
      EnemiesCarry(next, ys[1..], f);
      CarriesTwice(v, next, SpawnEnemies(next, ys[1..]), f);
    } else {
      EnemiesCarry(v.(currentWave := v.currentWave + 1), ys, f);
    }
  }

  // ---- The check ----

  lemma BatchDrawn(log: seq<Message>, kind: PacketType, ids: seq<int>, f: Family)
    requires kind != CreateKind(f)
    ensures DrawnFrom(log + Notices(kind, ids), f) ==
            if kind == DestroyKind(f) && f != BULLETS then DrawnFrom(log, f) - Elements(ids) else DrawnFrom(log, f)
  {
    if kind == DestroyKind(f) && f != BULLETS {
      DestroyedAreGone(log, ids, f);
    } else {
      NoticesAddOnly(log, kind, ids);
      OthersKeepDrawn(log, log + Notices(kind, ids), {kind}, f);
    }
  }

  /** The ids of a family among those that a check removes. */
  function Gone(b: seq<int>, e: seq<int>, p: seq<int>, o: seq<int>, f: Family): seq<int> {
    match f
    case PLAYERS => p
    case ENEMIES => e
    case BOSSES => o
    case BULLETS => b
  }

  lemma FourBatchesDrawn(log: seq<Message>, b: seq<int>, e: seq<int>, p: seq<int>, o: seq<int>, f: Family)
    requires f != PLAYERS
    ensures DrawnFrom(log + Notices(DESTROY_BULLET, b) + Notices(DESTROY_ENEMY, e) + Notices(DESTROY_PLAYER, p) +
                      Notices(DESTROY_BOSS, o), f) ==
            if f == BULLETS then DrawnFrom(log, f) else DrawnFrom(log, f) - Elements(Gone(b, e, p, o, f))
  {
    var l1 := log + Notices(DESTROY_BULLET, b);
    var l2 := l1 + Notices(DESTROY_ENEMY, e);
    var l3 := l2 + Notices(DESTROY_PLAYER, p);
    BatchDrawn(log, DESTROY_BULLET, b, f);
    BatchDrawn(l1, DESTROY_ENEMY, e, f);
    BatchDrawn(l2, DESTROY_PLAYER, p, f);
    BatchDrawn(l3, DESTROY_BOSS, o, f);
  }

  lemma RemovalCarries(d: map<int, Sprite>, at: map<int, Pos>, e: map<int, Sprite>, to: map<int, Pos>, gone: seq<int>,
                       f: Family)
    requires to == at - Elements(gone) && (e == d || e == d - Elements(gone))
    ensures Carried(d, at, e, to, f)
  {
  }

  lemma CheckCarries(w: World, f: Family)
    requires f != PLAYERS
    ensures Carries(w, CheckCollisions(w), f)
  {
    var m, v := MarkCasualties(w), CheckCollisions(w);
    MarkedFrame(w);
    RemovedWorld(m);
    var b, e := Removed(m.bullets, m.deadBullets), Removed(m.enemies, m.deadEnemies);
    var p, o := Removed(m.players, m.deadPlayers), Removed(m.bosses, m.deadBosses);
    FourBatchesDrawn(w.log, b, e, p, o, f);
    RemovalCarries(DrawnFrom(w.log, f), Places(w, f), DrawnFrom(v.log, f), Places(v, f), Gone(b, e, p, o, f), f);
  }

  // ---- Runs ----

  lemma StandingCarries(s: System, ev: Event, n: nat, f: Family)
    requires Fresh(s.w, n) && Enabled(s, ev) && f != PLAYERS
    requires f == BULLETS ==> !ev.MoveBullets?
    requires f != BULLETS ==> !ev.MoveEnemies?
    ensures Carries(s.w, Apply(s, ev), f)
  {
    match ev
    case RunAction => ActionCarries(s.w, s.phase.next, f);
    case Collide => CheckCarries(s.w, f);
    case Wave(due, ys) =>
      if due {
        WaveCarries(s.w, ys, f);
      }
    case Report(due) => ReportCarries(s.w, due, f);
    case NetShoot(id) => ShotCarries(s.w, id, f);
    case _ =>
  }

  ghost predicate OnCourse(s: System, f: Family) {
    Reckoned(DrawnFrom(s.w.log, f), Places(s.w, f), Born(s.h, f), Now(s.h, f), f)
  }

  lemma StandingStaysOnCourse(s: System, t: System, f: Family)
    requires OnCourse(s, f) && Carries(s.w, t.w, f)
    requires Born(t.h, f) == Births(Born(s.h, f), Places(t.w, f).Keys, Now(s.h, f)) && Now(t.h, f) == Now(s.h, f)
    ensures OnCourse(t, f)
  {
    CarriedIsReckoned(DrawnFrom(s.w.log, f), Places(s.w, f), Born(s.h, f), Now(s.h, f), DrawnFrom(t.w.log, f),
                      Places(t.w, f), f);
  }

  lemma MovingStaysOnCourse(s: System, t: System, f: Family)
    requires OnCourse(s, f) && f != PLAYERS
    requires t.w.log == s.w.log && Places(t.w, f) == Shift(Places(s.w, f), Speed(f))
    requires Born(t.h, f) == Births(Born(s.h, f), Places(t.w, f).Keys, Now(s.h, f)) && Now(t.h, f) == Now(s.h, f) + 1
    ensures OnCourse(t, f)
  {
    assert Places(t.w, f).Keys == Places(s.w, f).Keys;
    MovedIsReckoned(DrawnFrom(s.w.log, f), Places(s.w, f), Born(s.h, f), Now(s.h, f), f);
  }

  lemma StepRecords(s: System, ev: Event, f: Family)
    requires Enabled(s, ev) && f != PLAYERS
    ensures var t := Step(s, ev);
      && Born(t.h, f) == Births(Born(s.h, f), Places(t.w, f).Keys, Now(s.h, f))
      && Now(t.h, f) == Now(s.h, f) + if ev == MoveBullets(true) && f == BULLETS then 1
                                      else if ev == MoveEnemies(true) && f != BULLETS then 1 else 0
  {
    NoteKeepsBirths(s, ev, WithBirths(s.h, Step(s, ev).w));
  }

  lemma StepStaysOnCourse(s: System, ev: Event, n: nat, f: Family)
    requires Fresh(s.w, n) && OnCourse(s, f) && f != PLAYERS
    ensures OnCourse(Step(s, ev), f)
  {
    if Enabled(s, ev) {
      var t := Step(s, ev);
      StepRecords(s, ev, f);
      if (ev == MoveBullets(true) && f == BULLETS) || (ev == MoveEnemies(true) && f != BULLETS) {
        MovingStaysOnCourse(s, t, f);
      } else if (ev == MoveBullets(false) && f == BULLETS) || (ev == MoveEnemies(false) && f != BULLETS) {
        assert t.w == s.w;
        StandingStaysOnCourse(s, t, f);
      } else {
        StandingCarries(s, ev, n, f);
        StandingStaysOnCourse(s, t, f);
      }
    }
  }

  lemma {:induction false} RunsStayOnCourse(n: nat, events: seq<Event>, f: Family)
    requires f != PLAYERS
    ensures OnCourse(Run(Start(n), events), f)
  {
    if events == [] {
      SpawnedPlayers(NEW_GAME.(totalPlayers := n), 0, n);
    } else {
      var prefix := events[..|events| - 1];
      RunsStayOnCourse(n, prefix, f);
      RunsStayFresh(n, prefix);
      StepStaysOnCourse(Run(Start(n), prefix), events[|events| - 1], n, f);
    }
  }

  lemma EnemySpriteIsOnCourse(n: nat, events: seq<Event>, id: int)
    requires id in Run(Start(n), events).w.enemies
    ensures var w := Run(Start(n), events).w; var c := Replay(w.log);
      id in c.enemies && c.enemies[id] == Sprite(Pos(1000.0, w.enemies[id].y), -1.0, 0.0)
  {
    RunsStayOnCourse(n, events, ENEMIES);
    RunsKeepTime(n, events);
    DrawnFromReplay(Run(Start(n), events).w.log, ENEMIES);
  }

  lemma BossSpriteIsOnCourse(n: nat, events: seq<Event>, id: int)
    requires id in Run(Start(n), events).w.bosses
    ensures var w := Run(Start(n), events).w; var c := Replay(w.log);
      id in c.bosses && c.bosses[id] == Sprite(Pos(1000.0, w.bosses[id].y), -0.1, 0.0)
  {
    RunsStayOnCourse(n, events, BOSSES);
    RunsKeepTime(n, events);
    DrawnFromReplay(Run(Start(n), events).w.log, BOSSES);
  }

  lemma BulletSpriteIsOnCourse(n: nat, events: seq<Event>, id: int)
    requires id in Run(Start(n), events).w.bullets
    ensures var s := Run(Start(n), events); var c := Replay(s.w.log);
      && id in c.bullets && id in s.h.bulletBorn
      && c.bullets[id] ==
         Sprite(Pos(s.w.bullets[id].x - 5.0 * Age(s.h.bulletBorn, id, s.h.bulletMoves) as real, s.w.bullets[id].y),
                5.0, 0.0)
  {
    RunsStayOnCourse(n, events, BULLETS);
    DrawnFromReplay(Run(Start(n), events).w.log, BULLETS);
  }

  /**
    In every reachable state the replica has each live enemy and boss at x = 1000 and at the height at which the server
    has it, and each live bullet at the bullet's height and as far back as it has flown, all with the velocity at which
    the server moves them.
   */
  lemma SpritesAreOnCourse(n: nat, events: seq<Event>, id: int)
    ensures var s := Run(Start(n), events); var c := Replay(s.w.log);
      && (id in s.w.enemies ==> id in c.enemies && c.enemies[id] == Sprite(Pos(1000.0, s.w.enemies[id].y), -1.0, 0.0))
      && (id in s.w.bosses ==> id in c.bosses && c.bosses[id] == Sprite(Pos(1000.0, s.w.bosses[id].y), -0.1, 0.0))
      && (id in s.w.bullets ==>
            && id in c.bullets && id in s.h.bulletBorn
            && c.bullets[id] ==
               Sprite(Pos(s.w.bullets[id].x - 5.0 * Age(s.h.bulletBorn, id, s.h.bulletMoves) as real,
                          s.w.bullets[id].y), 5.0, 0.0))
  {
    var w := Run(Start(n), events).w;
    if id in w.enemies {
      EnemySpriteIsOnCourse(n, events, id);
    }
    if id in w.bosses {
      BossSpriteIsOnCourse(n, events, id);
    }
    if id in w.bullets {
      BulletSpriteIsOnCourse(n, events, id);
    }
  }
}
