/** The action buffer over whole runs: every queued action is run exactly once and in order. */
module ActionRuns {
  import opened Collections
  import opened GameState
  import opened GameRuns

  /** The handled actions still to be run, in buffer order. */
  function Pending(actions: seq<Action>): seq<(int, int)> {
    if actions == [] then []
    else
      var a := actions[0];
      (if IsHandled(a.code) && !a.processed then [(a.player, a.code)] else []) + Pending(actions[1..])
  }

  /** The actions that no handler wants; they stay in the buffer for good. */
  function Ignored(actions: seq<Action>): seq<(int, int)> {
    if actions == [] then []
    else
      var a := actions[0];
      (if IsHandled(a.code) then [] else [(a.player, a.code)]) + Ignored(actions[1..])
  }

  predicate Wanted(added: (int, int)) { IsHandled(added.1) }

  predicate Unwanted(added: (int, int)) { !IsHandled(added.1) }

  ghost predicate MarksMatch(s: System) {
    match s.phase
    case Acting(next, end) =>
      && next <= end <= |s.w.actions|
      && forall i | 0 <= i < |s.w.actions| ::
           s.w.actions[i].processed <==> i < next && IsHandled(s.w.actions[i].code)
    case _ => forall i | 0 <= i < |s.w.actions| :: !s.w.actions[i].processed
  }

  ghost predicate Exact(s: System) {
    && s.h.executed + Pending(s.w.actions) == Filter(Wanted, s.h.added)
    && Ignored(s.w.actions) == Filter(Unwanted, s.h.added)
  }

  // ---- The two readings of the buffer ----

  lemma {:induction false} PendingConcat(a: seq<Action>, b: seq<Action>)
    ensures Pending(a + b) == Pending(a) + Pending(b)
  {
    if a == [] {
      assert a + b == b;
    } else {
      assert (a + b)[1..] == a[1..] + b;
      PendingConcat(a[1..], b);
    }
  }

  lemma {:induction false} IgnoredConcat(a: seq<Action>, b: seq<Action>)
    ensures Ignored(a + b) == Ignored(a) + Ignored(b)
  {
    if a == [] {
      assert a + b == b;
    } else {
      assert (a + b)[1..] == a[1..] + b;
      IgnoredConcat(a[1..], b);
    }
  }

  lemma {:induction false} NonePending(actions: seq<Action>)
    requires forall i | 0 <= i < |actions| :: IsHandled(actions[i].code) ==> actions[i].processed
    ensures Pending(actions) == []
  {
    if actions != [] {
      NonePending(actions[1..]);
    }
  }

  lemma {:induction false} CompactionKeepsReadings(actions: seq<Action>)
    requires forall i | 0 <= i < |actions| :: actions[i].processed ==> IsHandled(actions[i].code)
    ensures Pending(Filter(Unprocessed, actions)) == Pending(actions)
    ensures Ignored(Filter(Unprocessed, actions)) == Ignored(actions)
  {
    if actions != [] {
      CompactionKeepsReadings(actions[1..]);
      var rest := Filter(Unprocessed, actions[1..]);
      assert ([actions[0]] + rest)[1..] == rest;
    }
  }

  lemma FilteredAreUnprocessed(actions: seq<Action>)
    ensures forall i | 0 <= i < |Filter(Unprocessed, actions)| :: !Filter(Unprocessed, actions)[i].processed
  {
    var kept := Filter(Unprocessed, actions);
    forall i | 0 <= i < |kept| ensures !kept[i].processed {
      assert kept[i] in Elements(kept);
    }
  }

  // ---- Steps ----

  lemma MovesKeepActions(w: World, a: Action)
    requires !Throws(w, a)
    ensures Execute(w, a).actions == w.actions
  {
  }

  /** Marking the entry at the loop index takes the first pending action off the buffer. */
  lemma MarkTakesFirst(actions: seq<Action>, i: nat)
    requires i < |actions| && IsHandled(actions[i].code) && !actions[i].processed
    requires forall j | 0 <= j < i :: IsHandled(actions[j].code) ==> actions[j].processed
    ensures var marked := actions[i := actions[i].(processed := true)];
      && Pending(actions) == [(actions[i].player, actions[i].code)] + Pending(marked)
      && Ignored(actions) == Ignored(marked)
  {
    var before, after := actions[..i], actions[i + 1..];
    var a := actions[i];
    var done := a.(processed := true);
    assert actions == before + ([a] + after);
    assert actions[i := done] == before + ([done] + after);
    PendingConcat(before, [a] + after);
    PendingConcat(before, [done] + after);
    IgnoredConcat(before, [a] + after);
    IgnoredConcat(before, [done] + after);
    NonePending(before);
    assert ([a] + after)[1..] == after && ([done] + after)[1..] == after;
  }

  lemma RunKeepsExact(s: System)
    requires MarksMatch(s) && Exact(s) && Enabled(s, RunAction)
    ensures MarksMatch(Step(s, RunAction)) && Exact(Step(s, RunAction))
  {
    var i := s.phase.next;
    var a := s.w.actions[i];
    MovesKeepActions(s.w, a);
    if IsHandled(a.code) {
      MarkTakesFirst(s.w.actions, i);
      ConcatAssociates(s.h.executed, [(a.player, a.code)], Pending(s.w.actions[i := a.(processed := true)]));
    }
  }

  lemma AddReadings(actions: seq<Action>, added: seq<(int, int)>, id: int, code: int)
    ensures var a := Action(id, code, false); var one := if IsHandled(code) then [(id, code)] else [];
      && Pending(actions + [a]) == Pending(actions) + one
      && Filter(Wanted, added + [(id, code)]) == Filter(Wanted, added) + one
    ensures var a := Action(id, code, false); var one := if IsHandled(code) then [] else [(id, code)];
      && Ignored(actions + [a]) == Ignored(actions) + one
      && Filter(Unwanted, added + [(id, code)]) == Filter(Unwanted, added) + one
  {
    var a := Action(id, code, false);
    PendingConcat(actions, [a]);
    IgnoredConcat(actions, [a]);
    FilterConcat(Wanted, added, [(id, code)]);
    FilterConcat(Unwanted, added, [(id, code)]);
  }

  lemma AddKeepsExact(s: System, id: int, code: int)
    requires MarksMatch(s) && Exact(s)
    ensures MarksMatch(Step(s, NetAct(id, code))) && Exact(Step(s, NetAct(id, code)))
  {
    AddReadings(s.w.actions, s.h.added, id, code);
    ConcatAssociates(s.h.executed, Pending(s.w.actions), if IsHandled(code) then [(id, code)] else []);
  }

  lemma EndKeepsExact(s: System)
    requires MarksMatch(s) && Exact(s) && Enabled(s, EndActions)
    ensures MarksMatch(Step(s, EndActions)) && Exact(Step(s, EndActions))
  {
    CompactionKeepsReadings(s.w.actions);
    FilteredAreUnprocessed(s.w.actions);
  }

  lemma OtherNotesKeepActions(s: System, ev: Event, h: History)
    requires Enabled(s, ev) && !ev.RunAction? && !ev.NetAct?
    ensures Note(s, ev, h).added == h.added && Note(s, ev, h).executed == h.executed
  {
  }

  lemma OthersKeepActions(s: System, ev: Event)
    requires Enabled(s, ev) && !ev.RunAction? && !ev.NetAct? && !ev.EndActions?
    ensures Apply(s, ev).actions == s.w.actions
  {
    match ev
    case Collide => CheckKeepsActions(s.w);
    case Wave(due, ys) =>
      if due {
        WaveKeepsActions(s.w, ys);
      }
    case _ =>
  }

  lemma CheckKeepsActions(w: World)
    ensures CheckCollisions(w).actions == w.actions
  {
  }

  lemma {:induction false} SpawnsKeepActions(w: World, ys: seq<real>)
    ensures SpawnEnemies(w, ys).actions == w.actions
    decreases |ys|
  {
    if ys != [] {
      SpawnsKeepActions(SpawnEnemy(w, ys[0]), ys[1..]);
    }
  }

  lemma WaveKeepsActions(w: World, ys: seq<real>)
    requires |ys| == WaveSize(w)
    ensures NextWave(w, ys).actions == w.actions
  {
    var v := w.(currentWave := w.currentWave + 1);
    if v.currentWave % 3 == 0 {
      SpawnsKeepActions(SpawnBoss(v, ys[0]), ys[1..]);
    } else {
      SpawnsKeepActions(v.(currentWave := v.currentWave + 1), ys);
    }
  }

  lemma StepKeepsExact(s: System, ev: Event)
    requires MarksMatch(s) && Exact(s)
    ensures MarksMatch(Step(s, ev)) && Exact(Step(s, ev))
  {
    if Enabled(s, ev) {
      match ev
      case RunAction => RunKeepsExact(s);
      case NetAct(id, code) => AddKeepsExact(s, id, code);
      case EndActions => EndKeepsExact(s);
      case _ =>
        OthersKeepActions(s, ev);
        OtherNotesKeepActions(s, ev, WithBirths(s.h, Apply(s, ev)));
    }
  }

  lemma {:induction false} StartHasNoActions(w: World, i: nat, n: nat)
    ensures SpawnPlayersFrom(w, i, n).actions == w.actions
    decreases n - i
  {
    if i < n {
      StartHasNoActions(SpawnPlayer(w, i, SpawnPoint(i)), i + 1, n);
    }
  }

  /**
    Exactly once and in order, however the network thread interleaves: the actions run so far, followed by the ones
    still pending in the buffer, are the actions 1 to 5 as they were added; all others stay, in order.
   */
  lemma {:induction false} ActionsRunExactlyOnce(n: nat, events: seq<Event>)
    ensures MarksMatch(Run(Start(n), events))
    ensures Exact(Run(Start(n), events))
  {
    if events == [] {
      StartHasNoActions(NEW_GAME.(totalPlayers := n), 0, n);
    } else {
      var prefix := events[..|events| - 1];
      ActionsRunExactlyOnce(n, prefix);
      StepKeepsExact(Run(Start(n), prefix), events[|events| - 1]);
    }
  }

  // ---- The uninterrupted loop ----

  function RunActions(k: nat): seq<Event> {
    if k == 0 then [] else RunActions(k - 1) + [RunAction]
  }

  /** The loop is at index i and will end with the world r. */
  ghost predicate LoopAt(t: System, i: nat, end: nat, r: World) {
    && t.phase == Acting(i, end)
    && i <= end == |t.w.actions|
    && ExecuteFrom(t.w, i) == Some(r)
  }

  lemma LoopStep(t: System, i: nat, end: nat, r: World)
    requires LoopAt(t, i, end, r) && i < end
    ensures LoopAt(Step(t, RunAction), i + 1, end, r)
  {
    MovesKeepActions(t.w, t.w.actions[i]);
  }

  lemma RunSnoc(s: System, events: seq<Event>, ev: Event)
    ensures Run(s, events + [ev]) == Step(Run(s, events), ev)
  {
    assert (events + [ev])[..|events|] == events;
  }

  /** The loop of processPlayerActions run up to index i without interruption. */
  lemma {:induction false} LoopPrefix(t: System, i: nat, end: nat, r: World)
    requires LoopAt(t, 0, end, r) && i <= end
    ensures LoopAt(Run(t, RunActions(i)), i, end, r)
  {
    if i > 0 {
      LoopPrefix(t, i - 1, end, r);
      RunSnoc(t, RunActions(i - 1), RunAction);
      LoopStep(Run(t, RunActions(i - 1)), i - 1, end, r);
    }
  }

  lemma RunOne(s: System, ev: Event)
    ensures Run(s, [ev]) == Step(s, ev)
  {
    assert [ev][..0] == [];
    assert Run(s, []) == s;
  }

  /** processPlayerActions as one call is the run of its steps with nothing in between. */
  lemma UninterruptedActions(s: System)
    requires s.phase.Waiting? && ProcessActions(s.w).Some?
    ensures var t := Run(s, [BeginActions] + RunActions(|s.w.actions|) + [EndActions]);
      t.phase.Firing? && t.w == ProcessActions(s.w).value
  {
    var k := |s.w.actions|;
    var t := Step(s, BeginActions);
    RunOne(s, BeginActions);
    LoopPrefix(t, k, k, ExecuteFrom(s.w, 0).value);
    var u := Run(t, RunActions(k));
    RunConcat(s, [BeginActions], RunActions(k));
    RunConcat(s, [BeginActions] + RunActions(k), [EndActions]);
    RunOne(u, EndActions);
  }

  /** The call throws exactly when some queued move names a player who is not in the map. */
  lemma {:induction false} ThrowsIff(w: World, i: nat)
    requires i <= |w.actions|
    ensures ExecuteFrom(w, i).None? <==>
            exists j :: i <= j < |w.actions| && IsMove(w.actions[j].code) && w.actions[j].player !in w.players
    decreases |w.actions| - i
  {
    if i < |w.actions| && !Throws(w, w.actions[i]) {
      MovesKeepActions(w, w.actions[i]);
      var v := Mark(Execute(w, w.actions[i]), i);
      assert v.players.Keys == w.players.Keys;
      assert forall j | i < j < |w.actions| :: v.actions[j] == w.actions[j];
      ThrowsIff(v, i + 1);
    }
  }
}
