/** A measure on the moving entities: the moves each has left. Without new spawns every move uses it up. */
module Draining {
  import opened Collections
  import opened GameState
  import opened Casualties
  import opened GameRuns
  import opened FreshIds
  import opened Lifetimes

  function BulletMovesLeft(x: real): nat {
    if x > 1280.0 then 0 else ((1280.0 - x) / 5.0).Floor + 1
  }

  function EnemyMovesLeft(x: real): nat {
    if x < -50.0 then 0 else (x + 50.0).Floor + 1
  }

  function BossMovesLeft(x: real): nat {
    if x < -50.0 then 0 else ((x + 50.0) * 10.0).Floor + 1
  }

  function Sum(m: map<int, nat>): nat
    decreases |m|
  {
    if m == map[] then 0
    else
      LeastOfMap(m);
      var id := Least(m.Keys);
      m[id] + Sum(m - {id})
  }

  lemma LeastOfMap(m: map<int, nat>)
    requires m != map[]
    ensures m.Keys != {}
    ensures |m - {Least(m.Keys)}| == |m| - 1
  {
    assert m.Keys != {};
    var id := Least(m.Keys);
    assert (m - {id}).Keys == m.Keys - {id};
  }

  /** The least entry can be taken off a sum. */
  lemma SumFromLeast(m: map<int, nat>, id: int)
    requires id in m && forall k | k in m :: id <= k
    ensures Sum(m) == m[id] + Sum(m - {id})
  {
    LeastOfMap(m);
    assert Least(m.Keys) == id;
  }

  function MovesLeft(w: World): nat {
    Sum(map id | id in w.bullets :: BulletMovesLeft(w.bullets[id].x)) +
    Sum(map id | id in w.enemies :: EnemyMovesLeft(w.enemies[id].x)) +
    Sum(map id | id in w.bosses :: BossMovesLeft(w.bosses[id].x))
  }

  /** If a is pointwise at most b, and smaller at the ids in d, its sum is smaller by at least |d|. */
  lemma {:induction false} SumDrops(a: map<int, nat>, b: map<int, nat>, d: set<int>)
    requires d <= a.Keys <= b.Keys
    requires forall id | id in a :: a[id] <= b[id]
    requires forall id | id in d :: a[id] < b[id]
    ensures Sum(a) + |d| <= Sum(b)
    decreases |b|
  {
    if b == map[] {
      assert a == map[] && d == {};
    } else {
      LeastOfMap(b);
      var id := Least(b.Keys);
      SumDrops(a - {id}, b - {id}, d - {id});
      if id in a {
        SumFromLeast(a, id);
      } else {
        assert a - {id} == a && d - {id} == d;
      }
    }
  }

  /** The entities that a due move brings closer to the edge. */
  function Drained(s: System, ev: Event): nat {
    match ev
    case MoveBullets(due) =>
      if due && s.phase.Firing? then |set id | id in s.w.bullets && s.w.bullets[id].x <= 1280.0| else 0
    case MoveEnemies(due) => if due && s.phase.Advancing? then |s.w.enemies| + |s.w.bosses| else 0
    case _ => 0
  }

  lemma BulletMovesDrain(before: map<int, Pos>)
    ensures Sum(map id | id in Shift(before, 5.0) :: BulletMovesLeft(Shift(before, 5.0)[id].x)) +
            |set id | id in before && before[id].x <= 1280.0| <=
            Sum(map id | id in before :: BulletMovesLeft(before[id].x))
  {
    var after := Shift(before, 5.0);
    SumDrops(map id | id in after :: BulletMovesLeft(after[id].x),
             map id | id in before :: BulletMovesLeft(before[id].x),
             set id | id in before && before[id].x <= 1280.0);
  }

  lemma EnemyMovesDrain(before: map<int, Pos>)
    requires forall id | id in before :: before[id].x >= -50.0
    ensures Sum(map id | id in Shift(before, -1.0) :: EnemyMovesLeft(Shift(before, -1.0)[id].x)) + |before| <=
            Sum(map id | id in before :: EnemyMovesLeft(before[id].x))
  {
    var after := Shift(before, -1.0);
    SumDrops(map id | id in after :: EnemyMovesLeft(after[id].x), map id | id in before :: EnemyMovesLeft(before[id].x),
             before.Keys);
  }

  lemma BossMovesDrain(before: map<int, Pos>)
    requires forall id | id in before :: before[id].x >= -50.0
    ensures Sum(map id | id in Shift(before, -0.1) :: BossMovesLeft(Shift(before, -0.1)[id].x)) + |before| <=
            Sum(map id | id in before :: BossMovesLeft(before[id].x))
  {
    var after := Shift(before, -0.1);
    SumDrops(map id | id in after :: BossMovesLeft(after[id].x), map id | id in before :: BossMovesLeft(before[id].x),
             before.Keys);
  }

  lemma FewerMovesLeft(w: World, v: World)
    requires v.bullets.Keys <= w.bullets.Keys && forall id | id in v.bullets :: v.bullets[id] == w.bullets[id]
    requires v.enemies.Keys <= w.enemies.Keys && forall id | id in v.enemies :: v.enemies[id] == w.enemies[id]
    requires v.bosses.Keys <= w.bosses.Keys && forall id | id in v.bosses :: v.bosses[id] == w.bosses[id]
    ensures MovesLeft(v) <= MovesLeft(w)
  {
    SumDrops(map id | id in v.bullets :: BulletMovesLeft(v.bullets[id].x),
             map id | id in w.bullets :: BulletMovesLeft(w.bullets[id].x), {});
    SumDrops(map id | id in v.enemies :: EnemyMovesLeft(v.enemies[id].x),
             map id | id in w.enemies :: EnemyMovesLeft(w.enemies[id].x), {});
    SumDrops(map id | id in v.bosses :: BossMovesLeft(v.bosses[id].x),
             map id | id in w.bosses :: BossMovesLeft(w.bosses[id].x), {});
  }

  ghost predicate SpawnsNothing(s: System, ev: Event) {
    var v := Step(s, ev).w;
    v.bullets.Keys <= s.w.bullets.Keys && v.enemies.Keys <= s.w.enemies.Keys && v.bosses.Keys <= s.w.bosses.Keys
  }

  lemma StepDrains(s: System, ev: Event, n: nat)
    requires Fresh(s.w, n) && OnTime(s) && SpawnsNothing(s, ev)
    ensures MovesLeft(Step(s, ev).w) + Drained(s, ev) <= MovesLeft(s.w)
  {
    if Enabled(s, ev) {
      match ev
      case MoveBullets(due) =>
        if due {
          BulletMovesDrain(s.w.bullets);
        }
      case MoveEnemies(due) =>
        if due {
          EnemyMovesDrain(s.w.enemies);
          BossMovesDrain(s.w.bosses);
        }
      case Collide =>
        KillsAreJustified(s.w);
        FewerMovesLeft(s.w, Step(s, ev).w);
      case _ =>
        OthersAreMotionless(s, ev, n);
        FewerMovesLeft(s.w, Step(s, ev).w);
    }
  }

  function TotalDrained(s: System, events: seq<Event>): nat {
    if events == [] then 0
    else TotalDrained(s, events[..|events| - 1]) + Drained(Run(s, events[..|events| - 1]), events[|events| - 1])
  }

  ghost predicate SpawnFree(s: System, events: seq<Event>) {
    forall i | 0 <= i < |events| :: SpawnsNothing(Run(s, events[..i]), events[i])
  }

  /**
    While nothing is spawned, the moves made by all entities together are bounded by the moves they had left at the
    start, so every group of moving entities runs dry.
   */
  lemma {:induction false} MovesRunOut(n: nat, past: seq<Event>, more: seq<Event>)
    requires SpawnFree(Run(Start(n), past), more)
    ensures var s := Run(Start(n), past);
      MovesLeft(Run(s, more).w) + TotalDrained(s, more) <= MovesLeft(s.w)
  {
    if more != [] {
      var s, init, last := Run(Start(n), past), more[..|more| - 1], more[|more| - 1];
      forall i | 0 <= i < |init| ensures SpawnsNothing(Run(s, init[..i]), init[i]) {
        assert init[..i] == more[..i];
      }
      MovesRunOut(n, past, init);
      RunConcat(Start(n), past, init);
      RunsStayFresh(n, past + init);
      RunsKeepTime(n, past + init);
      StepDrains(Run(s, init), last, n);
    }
  }
}
