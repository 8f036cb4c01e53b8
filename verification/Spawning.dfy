/** What appears, in numbers: the players of a new game, the targets of a wave, and who a bullet is on record for. */
module Spawning {
  import opened Collections
  import opened Protocol
  import opened GameState
  import opened Casualties
  import opened GameRuns
  import opened FreshIds

  // ---- Players ----

  /** Player `id` is announced by its place and then its health and score. */
  ghost predicate Introduced(log: seq<Message>, id: nat) {
    && 2 * id + 1 < |log|
    && log[2 * id] == Message(CREATE_PLAYER, id, 100.0 * (id as real + 1.0), 100.0, 0.0, 0.0)
    && log[2 * id + 1] == Message(UI_UPDATE, id, 100.0, 0.0, 0.0, 0.0)
  }

  ghost predicate IntroducedBelow(w: World, i: nat) {
    && w.players.Keys == Below(i)
    && |w.log| == 2 * i
    && forall id: nat | id < i :: Introduced(w.log, id)
  }

  lemma SpawnIntroduces(w: World, i: nat)
    requires IntroducedBelow(w, i)
    ensures IntroducedBelow(SpawnPlayer(w, i, SpawnPoint(i)), i + 1)
  {
    var v := SpawnPlayer(w, i, SpawnPoint(i));
    assert v.players.Keys == w.players.Keys + {i};
    forall id: nat | id < i ensures Introduced(v.log, id) {
      assert Introduced(w.log, id);
    }
  }

  lemma {:induction false} SpawnsIntroduce(w: World, i: nat, n: nat)
    requires i <= n && IntroducedBelow(w, i)
    ensures IntroducedBelow(SpawnPlayersFrom(w, i, n), n)
    decreases n - i
  {
    if i < n {
      SpawnIntroduces(w, i);
      SpawnsIntroduce(SpawnPlayer(w, i, SpawnPoint(i)), i + 1, n);
    }
  }

  /** A game of n players starts with each at (100 (id + 1), 100), with 100 hp and no score, and announces just that. */
  lemma StartInNumbers(n: nat)
    ensures var w := Start(n).w;
      && w.players.Keys == Below(n)
      && (forall id: nat | id < n :: w.players[id] == Player(Pos(100.0 * (id as real + 1.0), 100.0), 100, 0))
      && |w.log| == 2 * n && (forall id: nat | id < n :: Introduced(w.log, id))
      && w == NEW_GAME.(players := w.players, log := w.log, totalPlayers := n)
  {
    var empty := NEW_GAME.(totalPlayers := n);
    SpawnedPlayers(empty, 0, n);
    SpawnsIntroduce(empty, 0, n);
  }

  // ---- Waves ----

  ghost predicate StandsAt(enemies: map<int, Pos>, id: int, y: real) {
    id in enemies && enemies[id] == Pos(1000.0, y)
  }

  /** Consecutive ids from `first` on stand at x = 1000, at these heights. */
  ghost predicate StandAt(enemies: map<int, Pos>, first: int, ys: seq<real>) {
    forall i | 0 <= i < |ys| :: StandsAt(enemies, first + i, ys[i])
  }

  lemma StandAtCons(enemies: map<int, Pos>, first: int, ys: seq<real>)
    requires ys != [] && StandsAt(enemies, first, ys[0]) && StandAt(enemies, first + 1, ys[1..])
    ensures StandAt(enemies, first, ys)
  {
    forall i | 0 <= i < |ys| ensures StandsAt(enemies, first + i, ys[i]) {
      if i > 0 {
        assert StandsAt(enemies, first + 1 + (i - 1), ys[1..][i - 1]);
      }
    }
  }

  lemma {:induction false} EnemyHeights(w: World, ys: seq<real>)
    requires forall id | id in w.enemies :: id < w.enemyId
    ensures StandAt(SpawnEnemies(w, ys).enemies, w.enemyId, ys)
    decreases |ys|
  {
    if ys != [] {
      var next := SpawnEnemy(w, ys[0]);
      SpawnedEnemies(next, ys[1..]);
      EnemyHeights(next, ys[1..]);
      StandAtCons(SpawnEnemies(w, ys).enemies, w.enemyId, ys);
    }
  }

  lemma EnemiesOnly(w: World, ys: seq<real>)
    requires forall id | id in w.enemies :: id < w.enemyId
    ensures SpawnEnemies(w, ys).bosses == w.bosses
  {
    SpawnedEnemies(w, ys);
  }

  /** The targets of a wave stand at x = 1000, each at the height drawn for it; in a boss wave the boss comes first. */
  lemma WaveHeights(w: World, ys: seq<real>)
    requires |ys| == WaveSize(w)
    requires forall id | id in w.enemies :: id < w.enemyId
    requires forall id | id in w.bosses :: id < w.bossId
    ensures var v := NextWave(w, ys);
      if (w.currentWave + 1) % 3 == 0 then
        v.bosses == w.bosses[w.bossId := Pos(1000.0, ys[0])] && StandAt(v.enemies, w.enemyId, ys[1..])
      else
        v.bosses == w.bosses && StandAt(v.enemies, w.enemyId, ys)
  {
    var next := w.(currentWave := w.currentWave + 1);
    if next.currentWave % 3 == 0 {
      EnemiesOnly(SpawnBoss(next, ys[0]), ys[1..]);
      EnemyHeights(SpawnBoss(next, ys[0]), ys[1..]);
    } else {
      EnemiesOnly(next.(currentWave := next.currentWave + 1), ys);
      EnemyHeights(next.(currentWave := next.currentWave + 1), ys);
    }
  }

  // ---- Shooters ----

  /** Bullets that stay keep their shooter, and a new one has an id never used before. */
  ghost predicate KeepsShooters(w: World, v: World) {
    && w.nextBulletId <= v.nextBulletId
    && (w.shooters.Keys == w.bullets.Keys ==> v.shooters.Keys == v.bullets.Keys)
    && (forall id | id in v.bullets :: id in w.bullets || w.nextBulletId <= id)
    && (forall id | id in w.shooters && id in v.shooters && id < w.nextBulletId :: v.shooters[id] == w.shooters[id])
  }

  lemma ShotKeepsShooters(w: World, id: int)
    ensures KeepsShooters(w, SpawnBullet(w, id))
  {
  }

  lemma ActionKeepsShooters(w: World, i: nat)
    requires i < |w.actions| && !Throws(w, w.actions[i])
    ensures |Execute(w, w.actions[i]).actions| == |w.actions|
    ensures KeepsShooters(w, Mark(Execute(w, w.actions[i]), i))
  {
    if w.actions[i].code == 5 {
      ShotKeepsShooters(w, w.actions[i].player);
    }
  }

  lemma CheckKeepsShootersOf(w: World)
    ensures KeepsShooters(w, CheckCollisions(w))
  {
    MarkedFrame(w);
    RemovedWorld(MarkCasualties(w));
  }

  lemma StepKeepsShooters(s: System, ev: Event, n: nat)
    requires Fresh(s.w, n)
    ensures KeepsShooters(s.w, Step(s, ev).w)
  {
    if Enabled(s, ev) {
      match ev
      case RunAction => ActionKeepsShooters(s.w, s.phase.next);
      case Collide => CheckKeepsShootersOf(s.w);
      case Wave(due, ys) =>
        if due {
          WaveSpawns(s.w, ys);
        }
      case NetShoot(id) => ShotKeepsShooters(s.w, id);
      case _ =>
    }
  }

  ghost predicate OnRecord(w: World) {
    && w.shooters.Keys == w.bullets.Keys
    && forall id | id in w.bullets :: id < w.nextBulletId
  }

  /** If bullet `id` is still live in v, then under the shooter that it has in w. */
  ghost predicate SameShooter(w: World, v: World, id: int) {
    && id in w.shooters && id < w.nextBulletId <= v.nextBulletId
    && (id in v.shooters ==> v.shooters[id] == w.shooters[id])
  }

  lemma SameShooterNext(w: World, v: World, t: World, id: int)
    requires OnRecord(v) && OnRecord(t) && SameShooter(w, v, id) && KeepsShooters(v, t)
    ensures SameShooter(w, t, id)
  {
    if id in t.bullets {
      assert id in v.bullets;
    }
  }

  lemma FreshIsOnRecord(w: World, n: nat)
    requires Fresh(w, n)
    ensures OnRecord(w)
  {
  }

  lemma StepKeepsShooter(w: World, s: System, ev: Event, n: nat, id: int)
    requires Fresh(s.w, n) && SameShooter(w, s.w, id)
    ensures SameShooter(w, Step(s, ev).w, id)
  {
    StepKeepsShooters(s, ev, n);
    StepKeepsFresh(s, ev, n);
    FreshIsOnRecord(s.w, n);
    FreshIsOnRecord(Step(s, ev).w, n);
    SameShooterNext(w, s.w, Step(s, ev).w, id);
  }

  lemma {:induction false} ShooterStays(w: World, s: System, b: seq<Event>, n: nat, id: int)
    requires Fresh(s.w, n) && SameShooter(w, s.w, id)
    ensures Fresh(Run(s, b).w, n) && SameShooter(w, Run(s, b).w, id)
  {
    if b != [] {
      var init := b[..|b| - 1];
      ShooterStays(w, s, init, n, id);
      StepKeepsShooter(w, Run(s, init), b[|b| - 1], n, id);
      StepKeepsFresh(Run(s, init), b[|b| - 1], n);
    }
  }

  /** A bullet is on record for as long as it is live, and always under the same shooter. */
  lemma ShooterNeverChanges(n: nat, a: seq<Event>, b: seq<Event>, id: int)
    requires id in Run(Start(n), a).w.bullets && id in Run(Start(n), a + b).w.bullets
    ensures var w, v := Run(Start(n), a).w, Run(Start(n), a + b).w;
      id in w.shooters && id in v.shooters && v.shooters[id] == w.shooters[id]
  {
    var s := Run(Start(n), a);
    RunsStayFresh(n, a);
    FreshIsOnRecord(s.w, n);
    ShooterStays(s.w, s, b, n, id);
    RunConcat(Start(n), a, b);
    FreshIsOnRecord(Run(s, b).w, n);
  }
}
