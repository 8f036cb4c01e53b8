/** Concrete games: players where they spawned, and waves that come in along one line. */
module Lines {
  import opened Collections
  import opened GameState
  import opened Contacts
  import opened Casualties
  import opened GameRuns
  import opened Ticks

  /** Where every enemy and boss of these games appears: 50 below the spawn point of player 9. */
  const LINE: Pos := Pos(1000.0, 150.0)

  ghost predicate OnLine(targets: map<int, Pos>) {
    forall id | id in targets :: targets[id] == LINE
  }

  /** Players 0 to n-1 where they spawned, with 100 hp except for player 9. */
  ghost predicate Standing(w: World, players: set<int>, hp: int) {
    && w.players.Keys == players
    && (forall id | id in players :: w.players[id].pos == SpawnPoint(id))
    && (9 in players ==> w.players[9].hp == hp)
    && w.actions == []
  }

  /** Only player 9 is within reach of the line. */
  lemma OnlyNineTouches(id: int)
    ensures Collides(SpawnPoint(id), LINE) <==> id == 9
  {
  }

  lemma TouchedByNine(targets: map<int, Pos>)
    requires OnLine(targets)
    ensures |Touched(SpawnPoint(9), targets)| == |targets|
  {
    OnlyNineTouches(9);
    forall b | b in targets ensures Collides(SpawnPoint(9), targets[b]) {
      assert targets[b] == LINE;
    }
    assert Touched(SpawnPoint(9), targets) == targets.Keys;
    assert |targets| == |targets.Keys|;
  }

  lemma TouchedByOthers(targets: map<int, Pos>, id: int)
    requires OnLine(targets) && id != 9
    ensures Touched(SpawnPoint(id), targets) == {}
  {
    OnlyNineTouches(id);
    forall b | b in targets ensures !Collides(SpawnPoint(id), targets[b]) {
      assert targets[b] == LINE;
    }
  }

  lemma NineMeetsAll(w: World, players: set<int>, hp: int, target: Pos)
    requires Standing(w, players, hp) && 9 in players && target == LINE
    ensures Touching(Positions(w.players), target) != {}
  {
    OnlyNineTouches(9);
    assert Collides(Positions(w.players)[9], target);
    assert 9 in Touching(Positions(w.players), target);
  }

  /** What player 9 has left after meeting everything on the line. */
  function Left(w: World, hp: int): int {
    hp - 10 * |w.enemies| - 20 * |w.bosses|
  }

  /** After a check player 9 has met everything on the line, and nobody else has met anything. */
  lemma PlayersOfLine(w: World, v: World, players: set<int>, hp: int)
    requires AllStanding(w) && Standing(w, players, hp) && OnLine(w.enemies) && OnLine(w.bosses)
    requires JustKilled(w, v) && v.actions == w.actions
    ensures Standing(v, if Left(w, hp) > 0 then players else players - {9}, Left(w, hp))
  {
    TouchedByNine(w.enemies);
    TouchedByNine(w.bosses);
    forall id | id in players && id != 9 ensures HpAfter(w, id) > 0 {
      TouchedByOthers(w.enemies, id);
      TouchedByOthers(w.bosses, id);
    }
    var left := Left(w, hp);
    assert 9 in players ==> w.players[9].pos == SpawnPoint(9) && HpAfter(w, 9) == left;
    forall id ensures id in v.players.Keys <==> id in (if left > 0 then players else players - {9}) {
      assert id in v.players <==> id in w.players && HpAfter(w, id) > 0;
      assert id in w.players <==> id in players;
    }
  }

  lemma TargetsOfLine(w: World, v: World, players: set<int>, hp: int)
    requires Standing(w, players, hp) && OnLine(w.enemies) && OnLine(w.bosses) && 9 in players
    requires JustKilled(w, v)
    ensures v.enemies == map[] && v.bosses == map[]
  {
    forall id | id in v.enemies ensures false {
      NineMeetsAll(w, players, hp, w.enemies[id]);
    }
    forall id | id in v.bosses ensures false {
      NineMeetsAll(w, players, hp, w.bosses[id]);
    }
  }

  // ---- Waves along the line ----

  ghost predicate AllOnLine(ys: seq<real>) {
    forall i | 0 <= i < |ys| :: ys[i] == LINE.y
  }

  lemma {:induction false} EnemiesOnLine(w: World, ys: seq<real>)
    requires OnLine(w.enemies) && AllOnLine(ys) && forall id | id in w.enemies :: id < w.enemyId
    ensures var v := SpawnEnemies(w, ys);
      && OnLine(v.enemies) && |v.enemies| == |w.enemies| + |ys|
      && v == w.(enemies := v.enemies, enemyId := v.enemyId, log := v.log)
    decreases |ys|
  {
    if ys != [] {
      EnemiesOnLine(SpawnEnemy(w, ys[0]), ys[1..]);
    }
  }

  /** What the wave after this one brings to an empty field: a plain one five enemies, a boss one four and the boss. */
  ghost predicate WaveCounts(wave: int, v: World) {
    if (wave + 1) % 3 == 0 then
      |v.enemies| == 4 && |v.bosses| == 1 && v.currentWave == wave + 1
    else
      |v.enemies| == 5 && v.bosses == map[] && v.currentWave == wave + 2
  }

  ghost predicate WaveArrived(w: World, v: World) {
    && OnLine(v.enemies) && OnLine(v.bosses)
    && v.players == w.players && v.actions == w.actions && v.bullets == w.bullets
    && WaveCounts(w.currentWave, v)
  }

  ghost predicate EmptyField(w: World) {
    w.enemies == map[] && w.bosses == map[]
  }

  lemma BossOnLine(w: World, y: real, ys: seq<real>)
    requires EmptyField(w) && (w.currentWave + 1) % 3 == 0 && y == LINE.y && |ys| == 4 && AllOnLine(ys)
    ensures WaveArrived(w, SpawnEnemies(SpawnBoss(w.(currentWave := w.currentWave + 1), y), ys))
  {
    EnemiesOnLine(SpawnBoss(w.(currentWave := w.currentWave + 1), y), ys);
  }

  lemma PlainWaveOnLine(w: World, ys: seq<real>)
    requires EmptyField(w) && (w.currentWave + 1) % 3 != 0 && |ys| == 5 && AllOnLine(ys)
    ensures var v := SpawnEnemies(w.(currentWave := w.currentWave + 1 + 1), ys);
      WaveArrived(w, v.(enemiesPerWave := v.enemiesPerWave + 5))
  {
    EnemiesOnLine(w.(currentWave := w.currentWave + 1 + 1), ys);
  }

  lemma WaveOnLine(w: World, ys: seq<real>)
    requires EmptyField(w) && |ys| == WaveSize(w) == 5 && AllOnLine(ys)
    ensures WaveArrived(w, NextWave(w, ys))
  {
    if (w.currentWave + 1) % 3 == 0 {
      BossOnLine(w, ys[0], ys[1..]);
    } else {
      PlainWaveOnLine(w, ys);
    }
  }

  // ---- Whole ticks ----

  function Wait(wave: bool): Timers {
    Timers(false, false, wave, if wave then [LINE.y, LINE.y, LINE.y, LINE.y, LINE.y] else [], false)
  }

  lemma WaitIsOnLine()
    ensures AllOnLine(Wait(true).ys) && |Wait(true).ys| == 5
  {
  }

  /** A tick with nothing queued and nothing moving is a check and perhaps a wave. */
  lemma WaitingTick(s: System, wave: bool)
    requires s.phase.Waiting? && s.w.actions == [] && (wave ==> WaveSize(s.w) == 5)
    ensures WaveSize(CheckCollisions(s.w)) == WaveSize(s.w)
    ensures var u := Run(s, TickEvents(0, Wait(wave))); var v := CheckCollisions(s.w);
      u.phase.Waiting? && u.w == if wave then NextWave(v, Wait(wave).ys) else v
  {
    assert Filter(Unprocessed, s.w.actions) == [];
    assert ProcessActions(s.w) == Some(s.w);
    TickIsARun(s, Wait(wave));
  }
}
