/** One pass of the body of Game::update as a single operation, and as a run of the interleaved model. */
module Ticks {
  import opened GameState
  import opened GameRuns
  import opened FreshIds
  import opened Waves
  import opened ActionRuns

  /** Which timers have expired in this pass, and the heights the wave draws. */
  datatype Timers = Timers(bullets: bool, enemies: bool, wave: bool, ys: seq<real>, ui: bool)

  function UntilCheck(w: World, t: Timers): World {
    CheckCollisions(UpdateEnemies(UpdateBullets(w, t.bullets), t.enemies))
  }

  /** The calls after processPlayerActions. */
  function Tick(w: World, t: Timers): World
    requires t.wave ==> |t.ys| == WaveSize(UntilCheck(w, t))
  {
    var v := UntilCheck(w, t);
    UpdateUI(if t.wave then NextWave(v, t.ys) else v, t.ui)
  }

  lemma WaveSizeIsKept(w: World, t: Timers)
    ensures WaveSize(UntilCheck(w, t)) == WaveSize(w)
  {
    CheckFrame(UpdateEnemies(UpdateBullets(w, t.bullets), t.enemies));
  }

  lemma {:induction false} ActionsKeepWaveSize(w: World, i: nat)
    requires ExecuteFrom(w, i).Some?
    ensures SameCounters(w, ExecuteFrom(w, i).value)
    decreases |w.actions| - i
  {
    if i < |w.actions| {
      ActionsKeepCounters(w, i);
      MovesKeepActions(w, w.actions[i]);
      ActionsKeepWaveSize(Mark(Execute(w, w.actions[i]), i), i + 1);
    }
  }

  function CallsUntilCheck(t: Timers): seq<Event> {
    [MoveBullets(t.bullets)] + [MoveEnemies(t.enemies)] + [Collide]
  }

  function CallsAfterActions(t: Timers): seq<Event> {
    CallsUntilCheck(t) + [Wave(t.wave, t.ys)] + [Report(t.ui)]
  }

  lemma MovesStep(s: System, t: Timers)
    requires s.phase.Firing?
    ensures var u := Step(Step(s, MoveBullets(t.bullets)), MoveEnemies(t.enemies));
      u.phase.Colliding? && u.w == UpdateEnemies(UpdateBullets(s.w, t.bullets), t.enemies)
  {
  }

  lemma CollideStep(s: System)
    requires s.phase.Colliding?
    ensures var u := Step(s, Collide); u.phase.Spawning? && u.w == CheckCollisions(s.w)
  {
  }

  lemma CallsUntilCheckRun(s: System, t: Timers)
    requires s.phase.Firing?
    ensures var u := Run(s, CallsUntilCheck(t)); u.phase.Spawning? && u.w == UntilCheck(s.w, t)
  {
    RunOne(s, MoveBullets(t.bullets));
    RunSnoc(s, [MoveBullets(t.bullets)], MoveEnemies(t.enemies));
    RunSnoc(s, [MoveBullets(t.bullets)] + [MoveEnemies(t.enemies)], Collide);
    MovesStep(s, t);
    CollideStep(Step(Step(s, MoveBullets(t.bullets)), MoveEnemies(t.enemies)));
  }

  lemma CallsAfterCheckRun(s: System, t: Timers)
    requires s.phase.Spawning? && (t.wave ==> |t.ys| == WaveSize(s.w))
    ensures var u := Step(Step(s, Wave(t.wave, t.ys)), Report(t.ui));
      u.phase.Waiting? && u.w == UpdateUI(if t.wave then NextWave(s.w, t.ys) else s.w, t.ui)
  {
  }

  lemma CallsAfterActionsRun(s: System, t: Timers)
    requires s.phase.Firing? && (t.wave ==> |t.ys| == WaveSize(s.w))
    ensures WaveSize(UntilCheck(s.w, t)) == WaveSize(s.w)
    ensures var u := Run(s, CallsAfterActions(t)); u.phase.Waiting? && u.w == Tick(s.w, t)
  {
    WaveSizeIsKept(s.w, t);
    CallsUntilCheckRun(s, t);
    var u := Run(s, CallsUntilCheck(t));
    CallsAfterCheckRun(u, t);
    RunSnoc(s, CallsUntilCheck(t), Wave(t.wave, t.ys));
    RunSnoc(s, CallsUntilCheck(t) + [Wave(t.wave, t.ys)], Report(t.ui));
  }

  function TickEvents(actions: nat, t: Timers): seq<Event> {
    [BeginActions] + RunActions(actions) + [EndActions] + CallsAfterActions(t)
  }

  lemma CallsFollowLoop(s: System, loop: seq<Event>, t: Timers)
    requires Run(s, loop).phase.Firing? && (t.wave ==> |t.ys| == WaveSize(Run(s, loop).w))
    ensures var u := Run(s, loop); var v := Run(s, loop + CallsAfterActions(t));
      && WaveSize(UntilCheck(u.w, t)) == WaveSize(u.w)
      && v.phase.Waiting? && v.w == Tick(u.w, t)
  {
    CallsAfterActionsRun(Run(s, loop), t);
    RunConcat(s, loop, CallsAfterActions(t));
  }

  lemma SameWaveSize(w: World)
    requires ProcessActions(w).Some?
    ensures WaveSize(ProcessActions(w).value) == WaveSize(w)
  {
    ActionsKeepWaveSize(w, 0);
  }

  /** A pass that throws nothing is a run from one Waiting phase to the next. */
  lemma TickIsARun(s: System, t: Timers)
    requires s.phase.Waiting? && ProcessActions(s.w).Some?
    requires t.wave ==> |t.ys| == WaveSize(s.w)
    ensures WaveSize(UntilCheck(ProcessActions(s.w).value, t)) == WaveSize(s.w)
    ensures var u := Run(s, TickEvents(|s.w.actions|, t));
      u.phase.Waiting? && u.w == Tick(ProcessActions(s.w).value, t)
  {
    SameWaveSize(s.w);
    UninterruptedActions(s);
    CallsFollowLoop(s, [BeginActions] + RunActions(|s.w.actions|) + [EndActions], t);
  }
}
