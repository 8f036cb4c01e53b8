/** How long moving entities live, counted in moves of their own kind, and a measure that every move lowers. */
module Lifetimes {
  import opened GameState
  import opened Casualties
  import opened GameRuns
  import opened FreshIds

  /** Moves made since an entity was recorded. */
  function Age(born: map<int, nat>, id: int, now: nat): int
    requires id in born
  {
    now - born[id]
  }

  /** Players never stand left of the screen. */
  ghost predicate PlayersInside(w: World) {
    forall id | id in w.players :: w.players[id].pos.x >= 0.0
  }

  /**
    A bullet starts at x >= 50 and gains 5 per move. One that has been through a check is at most at 1280, and at most
    one move further until the next check.
   */
  ghost predicate BulletsOnTime(s: System) {
    && s.h.bulletBorn.Keys == s.w.bullets.Keys
    && forall id | id in s.w.bullets ::
         var age := Age(s.h.bulletBorn, id, s.h.bulletMoves); var x := s.w.bullets[id].x;
         && 0 <= age
         && x >= 50.0 + 5.0 * age as real
         && if s.phase.Advancing? || s.phase.Colliding? then age <= 1 || x <= 1285.0 else age == 0 || x <= 1280.0
  }

  /** A target starts at 1000 and loses `step` per move; only until the next check can it be left of -50. */
  ghost predicate TargetsOnTime(targets: map<int, Pos>, born: map<int, nat>, now: nat, step: real, moved: bool) {
    && born.Keys == targets.Keys
    && forall id | id in targets ::
         && 0 <= Age(born, id, now)
         && targets[id].x == SPAWN_X - step * Age(born, id, now) as real
         && targets[id].x >= -50.0 - if moved then step else 0.0
  }

  ghost predicate OnTime(s: System) {
    && PlayersInside(s.w)
    && BulletsOnTime(s)
    && TargetsOnTime(s.w.enemies, s.h.enemyBorn, s.h.enemyMoves, 1.0, s.phase.Colliding?)
    && TargetsOnTime(s.w.bosses, s.h.bossBorn, s.h.enemyMoves, 0.1, s.phase.Colliding?)
  }

  // ---- Steps that do not move anything ----

  /** Old bullets stay where they are; new ones start at x >= 50. */
  ghost predicate BulletsAdded(before: map<int, Pos>, after: map<int, Pos>) {
    && before.Keys <= after.Keys
    && (forall id | id in before :: after[id] == before[id])
    && (forall id | id in after && id !in before :: after[id].x >= 50.0)
  }

  ghost predicate TargetsAdded(before: map<int, Pos>, after: map<int, Pos>) {
    && before.Keys <= after.Keys
    && (forall id | id in before :: after[id] == before[id])
    && (forall id | id in after && id !in before :: after[id].x == SPAWN_X)
  }

  ghost predicate Motionless(w: World, v: World) {
    && (PlayersInside(w) ==> PlayersInside(v))
    && (PlayersInside(w) ==> BulletsAdded(w.bullets, v.bullets))
    && TargetsAdded(w.enemies, v.enemies)
    && TargetsAdded(w.bosses, v.bosses)
  }

  lemma ShotIsMotionless(w: World, id: int)
    ensures Motionless(w, SpawnBullet(w, id))
  {
  }

  lemma MoveIsMotionless(w: World, id: int, code: int)
    requires id in w.players
    ensures Motionless(w, HandlePlayerMove(w, id, code))
  {
  }

  lemma ActionIsMotionless(w: World, i: nat)
    requires i < |w.actions| && !Throws(w, w.actions[i])
    ensures |Execute(w, w.actions[i]).actions| == |w.actions|
    ensures Motionless(w, Mark(Execute(w, w.actions[i]), i))
  {
    var a := w.actions[i];
    if IsMove(a.code) {
      MoveIsMotionless(w, a.player, a.code);
    } else if a.code == 5 {
      ShotIsMotionless(w, a.player);
    }
  }

  lemma WaveIsMotionless(w: World, ys: seq<real>)
    requires |ys| == WaveSize(w)
    requires forall id | id in w.enemies :: id < w.enemyId
    requires forall id | id in w.bosses :: id < w.bossId
    ensures Motionless(w, NextWave(w, ys))
  {
    WaveSpawns(w, ys);
  }

  lemma OthersAreMotionless(s: System, ev: Event, n: nat)
    requires Fresh(s.w, n) && Enabled(s, ev)
    requires !ev.MoveBullets? && !ev.MoveEnemies? && !ev.Collide?
    ensures Motionless(s.w, Apply(s, ev))
  {
    match ev
    case RunAction => ActionIsMotionless(s.w, s.phase.next);
    case Wave(due, ys) =>
      if due {
        WaveIsMotionless(s.w, ys);
      }
    case NetShoot(id) => ShotIsMotionless(s.w, id);
    case _ =>
  }

  // ---- What a step records ----

  lemma NoteKeepsBirths(s: System, ev: Event, h: History)
    requires Enabled(s, ev)
    ensures var r := Note(s, ev, h);
      && r.bulletBorn == h.bulletBorn && r.enemyBorn == h.enemyBorn && r.bossBorn == h.bossBorn
      && r.bulletMoves == h.bulletMoves + (if ev == MoveBullets(true) then 1 else 0)
      && r.enemyMoves == h.enemyMoves + (if ev == MoveEnemies(true) then 1 else 0)
  {
  }

  ghost predicate TimesFollow(s: System, t: System) {
    && t.h.bulletBorn == Births(s.h.bulletBorn, t.w.bullets.Keys, s.h.bulletMoves)
    && t.h.enemyBorn == Births(s.h.enemyBorn, t.w.enemies.Keys, s.h.enemyMoves)
    && t.h.bossBorn == Births(s.h.bossBorn, t.w.bosses.Keys, s.h.enemyMoves)
  }

  lemma MotionlessKeepsTime(s: System, t: System)
    requires OnTime(s) && Motionless(s.w, t.w) && TimesFollow(s, t)
    requires t.h.bulletMoves == s.h.bulletMoves && t.h.enemyMoves == s.h.enemyMoves
    requires t.phase.Advancing? <==> s.phase.Advancing?
    requires t.phase.Colliding? <==> s.phase.Colliding?
    ensures OnTime(t)
  {
  }

  lemma MovingBulletsKeepsTime(s: System, t: System, due: bool)
    requires OnTime(s) && s.phase.Firing? && t.phase.Advancing?
    requires t.w == UpdateBullets(s.w, due) && TimesFollow(s, t)
    requires t.h.bulletMoves == s.h.bulletMoves + (if due then 1 else 0) && t.h.enemyMoves == s.h.enemyMoves
    ensures OnTime(t)
  {
  }

  lemma MovingTargetsKeepsTime(before: map<int, Pos>, born: map<int, nat>, now: nat, step: real, due: bool)
    requires TargetsOnTime(before, born, now, step, false) && step >= 0.0
    ensures var after := if due then Shift(before, -step) else before;
      TargetsOnTime(after, Births(born, after.Keys, now), now + (if due then 1 else 0), step, true)
  {
  }

  lemma MovingEnemiesKeepsTime(s: System, t: System, due: bool)
    requires OnTime(s) && s.phase.Advancing? && t.phase.Colliding?
    requires t.w == UpdateEnemies(s.w, due) && TimesFollow(s, t)
    requires t.h.enemyMoves == s.h.enemyMoves + (if due then 1 else 0) && t.h.bulletMoves == s.h.bulletMoves
    ensures OnTime(t)
  {
    MovingTargetsKeepsTime(s.w.enemies, s.h.enemyBorn, s.h.enemyMoves, 1.0, due);
    MovingTargetsKeepsTime(s.w.bosses, s.h.bossBorn, s.h.enemyMoves, 0.1, due);
  }

  lemma CheckKeepsTime(s: System, t: System)
    requires OnTime(s) && JustKilled(s.w, t.w) && TimesFollow(s, t) && t.phase.Spawning?
    requires t.h.bulletMoves == s.h.bulletMoves && t.h.enemyMoves == s.h.enemyMoves
    ensures OnTime(t)
  {
  }

  lemma StepKeepsTime(s: System, ev: Event, n: nat)
    requires Fresh(s.w, n) && OnTime(s)
    ensures OnTime(Step(s, ev))
  {
    if Enabled(s, ev) {
      var t := Step(s, ev);
      NoteKeepsBirths(s, ev, WithBirths(s.h, t.w));
      match ev
      case MoveBullets(due) => MovingBulletsKeepsTime(s, t, due);
      case MoveEnemies(due) => MovingEnemiesKeepsTime(s, t, due);
      case Collide =>
        KillsAreJustified(s.w);
        CheckKeepsTime(s, t);
      case _ =>
        OthersAreMotionless(s, ev, n);
        MotionlessKeepsTime(s, t);
    }
  }

  lemma {:induction false} RunsKeepTime(n: nat, events: seq<Event>)
    ensures OnTime(Run(Start(n), events))
  {
    if events == [] {
      SpawnedPlayers(NEW_GAME.(totalPlayers := n), 0, n);
      forall id | id in Start(n).w.players ensures Start(n).w.players[id].pos.x >= 0.0 {
        assert 0 <= id < n;
      }
    } else {
      var prefix := events[..|events| - 1];
      RunsKeepTime(n, prefix);
      RunsStayFresh(n, prefix);
      StepKeepsTime(Run(Start(n), prefix), events[|events| - 1], n);
    }
  }

  /**
    In every reachable state a bullet has made at most 247 moves, an enemy 1051 and a boss 10501; once the check of the
    tick has been made the bounds are 246, 1050 and 10500.
   */
  lemma LivesAreShort(n: nat, events: seq<Event>, id: int)
    ensures var s := Run(Start(n), events);
      && (id in s.w.bullets ==>
            && id in s.h.bulletBorn
            && Age(s.h.bulletBorn, id, s.h.bulletMoves) <=
               if s.phase.Advancing? || s.phase.Colliding? then 247 else 246)
      && (id in s.w.enemies ==>
            && id in s.h.enemyBorn
            && Age(s.h.enemyBorn, id, s.h.enemyMoves) <= if s.phase.Colliding? then 1051 else 1050)
      && (id in s.w.bosses ==>
            && id in s.h.bossBorn
            && Age(s.h.bossBorn, id, s.h.enemyMoves) <= if s.phase.Colliding? then 10501 else 10500)
  {
    RunsKeepTime(n, events);
  }
}
