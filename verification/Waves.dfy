/** The wave counters in closed form. */
module Waves {
  import opened GameState
  import opened GameRuns
  import opened FreshIds

  /** After k triggers: bosses come exactly on the even ones, and each plain wave is five enemies larger. */
  ghost predicate ClosedForm(w: World, k: nat) {
    var m := k / 2;
    && w.bossId == m
    && if k % 2 == 0 then
         && w.currentWave == 3 * m
         && w.enemiesPerWave == 5 + 5 * m
         && 2 * w.enemyId == 8 * m + 5 * m * (m + 1)
       else
         && w.currentWave == 3 * m + 2
         && w.enemiesPerWave == 5 * (m + 2)
         && 2 * w.enemyId == 8 * m + 5 * (m + 1) * (m + 2)
  }

  /** What one trigger does to the counters. */
  ghost predicate Triggered(w: World, v: World) {
    if (w.currentWave + 1) % 3 == 0 then
      && v.currentWave == w.currentWave + 1 && v.bossId == w.bossId + 1
      && v.enemyId == w.enemyId + 4 && v.enemiesPerWave == w.enemiesPerWave
    else
      && v.currentWave == w.currentWave + 2 && v.bossId == w.bossId
      && v.enemyId == w.enemyId + w.enemiesPerWave && v.enemiesPerWave == w.enemiesPerWave + 5
  }

  ghost predicate SameCounters(w: World, v: World) {
    && v.currentWave == w.currentWave && v.enemiesPerWave == w.enemiesPerWave
    && v.enemyId == w.enemyId && v.bossId == w.bossId
  }

  lemma WaveTriggers(w: World, ys: seq<real>)
    requires |ys| == WaveSize(w)
    requires forall id | id in w.enemies :: id < w.enemyId
    ensures Triggered(w, NextWave(w, ys))
  {
    var next := w.(currentWave := w.currentWave + 1);
    if next.currentWave % 3 == 0 {
      SpawnedEnemies(SpawnBoss(next, ys[0]), ys[1..]);
    } else {
      SpawnedEnemies(next.(currentWave := next.currentWave + 1), ys);
    }
  }

  lemma TriggerKeepsClosedForm(w: World, v: World, k: nat)
    requires ClosedForm(w, k) && Triggered(w, v)
    ensures ClosedForm(v, k + 1)
  {
    var m := k / 2;
    if k % 2 == 0 {
      assert k == 2 * m && (k + 1) / 2 == m && (3 * m + 1) % 3 == 1;
      assert 5 * m * (m + 1) + 2 * (5 + 5 * m) == 5 * (m + 1) * (m + 2);
    } else {
      assert k == 2 * m + 1 && (k + 1) / 2 == m + 1 && (3 * m + 3) % 3 == 0;
    }
  }

  lemma MoveKeepsCounters(w: World, id: int, code: int)
    requires id in w.players
    ensures SameCounters(w, HandlePlayerMove(w, id, code))
  {
  }

  lemma ActionsKeepCounters(w: World, i: nat)
    requires i < |w.actions| && !Throws(w, w.actions[i])
    ensures |Execute(w, w.actions[i]).actions| == |w.actions|
    ensures SameCounters(w, Mark(Execute(w, w.actions[i]), i))
  {
    if IsMove(w.actions[i].code) {
      MoveKeepsCounters(w, w.actions[i].player, w.actions[i].code);
    }
  }

  /** Steps other than a due wave leave the counters alone. */
  lemma OthersKeepCounters(s: System, ev: Event)
    requires Enabled(s, ev) && !(ev.Wave? && ev.waveDue)
    ensures SameCounters(s.w, Apply(s, ev))
  {
    match ev
    case RunAction => ActionsKeepCounters(s.w, s.phase.next);
    case Collide => CheckFrame(s.w);
    case _ =>
  }

  lemma OthersKeepWaveCount(s: System, ev: Event)
    requires Enabled(s, ev)
    ensures Record(s, ev).waves == s.h.waves + if ev.Wave? && ev.waveDue then 1 else 0
  {
  }

  lemma SameClosedForm(w: World, v: World, k: nat)
    requires ClosedForm(w, k) && SameCounters(w, v)
    ensures ClosedForm(v, k)
  {
  }

  lemma StepKeepsClosedForm(s: System, ev: Event, n: nat)
    requires Fresh(s.w, n) && ClosedForm(s.w, s.h.waves)
    ensures ClosedForm(Step(s, ev).w, Step(s, ev).h.waves)
  {
    if Enabled(s, ev) {
      OthersKeepWaveCount(s, ev);
      if ev.Wave? && ev.waveDue {
        WaveTriggers(s.w, ev.ys);
        TriggerKeepsClosedForm(s.w, Apply(s, ev), s.h.waves);
      } else {
        OthersKeepCounters(s, ev);
        SameClosedForm(s.w, Apply(s, ev), s.h.waves);
      }
    }
  }

  /** In every reachable state the counters are the closed form of the number of triggers so far. */
  lemma {:induction false} WavesFollowClosedForm(n: nat, events: seq<Event>)
    ensures ClosedForm(Run(Start(n), events).w, Run(Start(n), events).h.waves)
  {
    if events == [] {
      SpawnedPlayers(NEW_GAME.(totalPlayers := n), 0, n);
    } else {
      var prefix, ev := events[..|events| - 1], events[|events| - 1];
      WavesFollowClosedForm(n, prefix);
      RunsStayFresh(n, prefix);
      StepKeepsClosedForm(Run(Start(n), prefix), ev, n);
    }
  }
}
