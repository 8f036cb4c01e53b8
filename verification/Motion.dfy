/** Moving bullets, enemies and bosses: no shot passes through its target, and everything that moves leaves in time. */
module Motion {
  import opened GameState
  import opened Contacts
  import opened Casualties
  import opened GameRuns
  import opened FreshIds

  // ---- No tunnelling ----

  /**
    How far left of a target a bullet must be in each phase: 60 once the check has been made, 5 less after the bullets
    have moved, and `step` less again after the targets have moved.
   */
  function Margin(phase: Phase, step: real): real {
    match phase
    case Advancing => 55.0
    case Colliding => 55.0 - step
    case _ => 60.0
  }

  ghost predicate LeftOf(bullets: map<int, Pos>, targets: map<int, Pos>, b: int, t: int, margin: real) {
    b in bullets && t in targets ==>
      targets[t].x - bullets[b].x >= margin && -80.0 < targets[t].y - bullets[b].y < 80.0
  }

  /** Both ids have been handed out, so that either one is live now or it never will be again. */
  ghost predicate BothIssued(w: World, b: int, nextTarget: int, t: int) {
    b < w.nextBulletId && t < nextTarget
  }

  /** For a pair more than 10 apart in the same lane the check fires exactly within the last 60. */
  lemma CheckFiresIff(bullet: Pos, target: Pos)
    requires 10.0 < target.x - bullet.x
    requires -80.0 < target.y - bullet.y < 80.0
    ensures Collides(bullet, target) <==> target.x - bullet.x < 60.0
  {
    var dx, dy := bullet.x - target.x, bullet.y - target.y;
    Square(target.x - bullet.x, 10.0);
    Square(dy, 0.0);
    assert dx * dx == (target.x - bullet.x) * (target.x - bullet.x);
  }

  lemma Square(x: real, least: real)
    requires 0.0 <= least < x || least == 0.0
    ensures x * x >= least * least
    ensures 0.0 < least ==> x * x > least * least
  {
    if 0.0 < least {
      assert x * x > x * least;
      assert x * least > least * least;
    }
  }

  ghost predicate EnemyLane(s: System, b: int, e: int) {
    && BothIssued(s.w, b, s.w.enemyId, e)
    && LeftOf(s.w.bullets, s.w.enemies, b, e, Margin(s.phase, 1.0))
  }

  ghost predicate BossLane(s: System, b: int, o: int) {
    && BothIssued(s.w, b, s.w.bossId, o)
    && LeftOf(s.w.bullets, s.w.bosses, b, o, Margin(s.phase, 0.1))
  }

  /** Existing entries of the moving maps are untouched and only unissued ids are added. */
  ghost predicate Grows(before: map<int, Pos>, after: map<int, Pos>, next: int, next': int) {
    && next <= next'
    && (forall id | id in after && id < next :: id in before && after[id] == before[id])
  }

  ghost predicate Still(w: World, v: World) {
    && Grows(w.bullets, v.bullets, w.nextBulletId, v.nextBulletId)
    && Grows(w.enemies, v.enemies, w.enemyId, v.enemyId)
    && Grows(w.bosses, v.bosses, w.bossId, v.bossId)
  }

  lemma ShotIsStill(w: World, id: int)
    ensures Still(w, SpawnBullet(w, id))
  {
  }

  lemma MoveIsStill(w: World, id: int, code: int)
    requires id in w.players
    ensures Still(w, HandlePlayerMove(w, id, code))
  {
  }

  lemma ActionIsStill(w: World, i: nat)
    requires i < |w.actions| && !Throws(w, w.actions[i])
    ensures |Execute(w, w.actions[i]).actions| == |w.actions|
    ensures Still(w, Mark(Execute(w, w.actions[i]), i))
  {
    var a := w.actions[i];
    if IsMove(a.code) {
      MoveIsStill(w, a.player, a.code);
    } else if a.code == 5 {
      ShotIsStill(w, a.player);
    }
  }

  lemma WaveIsStill(w: World, ys: seq<real>)
    requires |ys| == WaveSize(w)
    requires forall id | id in w.enemies :: id < w.enemyId
    requires forall id | id in w.bosses :: id < w.bossId
    ensures Still(w, NextWave(w, ys))
  {
    WaveSpawns(w, ys);
  }

  lemma OthersAreStill(s: System, ev: Event, n: nat)
    requires Fresh(s.w, n) && Enabled(s, ev)
    requires !ev.MoveBullets? && !ev.MoveEnemies? && !ev.Collide?
    ensures Still(s.w, Apply(s, ev))
  {
    match ev
    case RunAction => ActionIsStill(s.w, s.phase.next);
    case Wave(due, ys) =>
      if due {
        WaveIsStill(s.w, ys);
      }
    case NetShoot(id) => ShotIsStill(s.w, id);
    case _ =>
  }

  lemma CheckClearsLane(w: World, v: World, targets: map<int, Pos>, after: map<int, Pos>, b: int, t: int, margin: real)
    requires 10.0 < margin && LeftOf(w.bullets, targets, b, t, margin)
    requires forall id | id in v.bullets ::
        id in w.bullets && v.bullets[id] == w.bullets[id] && Touched(w.bullets[id], targets) == {}
    requires forall id | id in after :: id in targets && after[id] == targets[id]
    ensures LeftOf(v.bullets, after, b, t, 60.0)
  {
    if b in v.bullets && t in after {
      CheckFiresIff(w.bullets[b], targets[t]);
      assert t !in Touched(w.bullets[b], targets);
    }
  }

  lemma CheckKeepsLanes(s: System, t: System, b: int, e: int)
    requires s.phase.Colliding? && t.phase.Spawning? && JustKilled(s.w, t.w)
    requires t.w.nextBulletId == s.w.nextBulletId && t.w.enemyId == s.w.enemyId && t.w.bossId == s.w.bossId
    ensures EnemyLane(s, b, e) ==> EnemyLane(t, b, e)
    ensures BossLane(s, b, e) ==> BossLane(t, b, e)
  {
    if EnemyLane(s, b, e) {
      CheckClearsLane(s.w, t.w, s.w.enemies, t.w.enemies, b, e, 54.0);
    }
    if BossLane(s, b, e) {
      CheckClearsLane(s.w, t.w, s.w.bosses, t.w.bosses, b, e, 54.9);
    }
  }

  lemma StillKeepsLanes(s: System, t: System, b: int, e: int)
    requires Still(s.w, t.w)
    requires Margin(t.phase, 1.0) <= Margin(s.phase, 1.0) && Margin(t.phase, 0.1) <= Margin(s.phase, 0.1)
    ensures EnemyLane(s, b, e) ==> EnemyLane(t, b, e)
    ensures BossLane(s, b, e) ==> BossLane(t, b, e)
  {
  }

  lemma StepKeepsLanes(s: System, ev: Event, n: nat, b: int, e: int)
    requires Fresh(s.w, n)
    ensures EnemyLane(s, b, e) ==> EnemyLane(Step(s, ev), b, e)
    ensures BossLane(s, b, e) ==> BossLane(Step(s, ev), b, e)
  {
    if Enabled(s, ev) {
      match ev
      case MoveBullets(_) =>
      case MoveEnemies(_) =>
      case Collide =>
        KillsAreJustified(s.w);
        CheckFrame(s.w);
        CheckKeepsLanes(s, Step(s, ev), b, e);
      case _ =>
        OthersAreStill(s, ev, n);
        StillKeepsLanes(s, Step(s, ev), b, e);
    }
  }

  lemma {:induction false} RunKeepsLanes(n: nat, past: seq<Event>, more: seq<Event>, b: int, e: int)
    ensures EnemyLane(Run(Start(n), past), b, e) ==> EnemyLane(Run(Run(Start(n), past), more), b, e)
    ensures BossLane(Run(Start(n), past), b, e) ==> BossLane(Run(Run(Start(n), past), more), b, e)
  {
    if more != [] {
      var init := more[..|more| - 1];
      RunKeepsLanes(n, past, init, b, e);
      RunConcat(Start(n), past, init);
      RunsStayFresh(n, past + init);
      StepKeepsLanes(Run(Run(Start(n), past), init), more[|more| - 1], n, b, e);
    }
  }

  /** The phases in which every move so far has been followed by a check. */
  predicate IsChecked(phase: Phase) {
    !phase.Advancing? && !phase.Colliding?
  }

  /**
    No tunnelling: whatever happens after any moment, in the middle of a tick or not, at which a bullet is at least 60
    left of an enemy in its lane, while both live it is still at least 60 left of it after every later check, and at
    least 54 left of it in between.
   */
  lemma NoTunnelling(n: nat, past: seq<Event>, more: seq<Event>, b: int, e: int)
    requires var s := Run(Start(n), past);
      && b in s.w.bullets && e in s.w.enemies
      && s.w.enemies[e].x - s.w.bullets[b].x >= 60.0
      && -80.0 < s.w.enemies[e].y - s.w.bullets[b].y < 80.0
    ensures var t := Run(Run(Start(n), past), more);
      b in t.w.bullets && e in t.w.enemies ==>
        && t.w.enemies[e].x - t.w.bullets[b].x >= 54.0
        && (IsChecked(t.phase) ==> t.w.enemies[e].x - t.w.bullets[b].x >= 60.0)
  {
    RunsStayFresh(n, past);
    RunKeepsLanes(n, past, more, b, e);
  }

  /** The same for bosses, which are slower. */
  lemma NoTunnellingThroughBosses(n: nat, past: seq<Event>, more: seq<Event>, b: int, o: int)
    requires var s := Run(Start(n), past);
      && b in s.w.bullets && o in s.w.bosses
      && s.w.bosses[o].x - s.w.bullets[b].x >= 60.0
      && -80.0 < s.w.bosses[o].y - s.w.bullets[b].y < 80.0
    ensures var t := Run(Run(Start(n), past), more);
      b in t.w.bullets && o in t.w.bosses ==>
        && t.w.bosses[o].x - t.w.bullets[b].x >= 54.9
        && (IsChecked(t.phase) ==> t.w.bosses[o].x - t.w.bullets[b].x >= 60.0)
  {
    RunsStayFresh(n, past);
    RunKeepsLanes(n, past, more, b, o);
  }
}
