/** Health and score of every live player as counts of distinct contacts over the whole run. */
module Accounts {
  import opened GameState
  import opened Contacts
  import opened Casualties
  import opened GameRuns
  import opened FreshIds

  /** The targets that player `id` has run into. */
  function Met(contacts: set<(int, int)>, id: int): set<int> {
    set c | c in contacts && c.0 == id :: c.1
  }

  /** Every target in a recorded contact has been issued and is gone. */
  ghost predicate TargetsGone(contacts: set<(int, int)>, live: map<int, Pos>, next: int) {
    forall c | c in contacts :: c.1 < next && c.1 !in live
  }

  ghost predicate TargetsSettled(s: System) {
    && TargetsGone(s.h.bulletEnemy, s.w.enemies, s.w.enemyId)
    && TargetsGone(s.h.playerEnemy, s.w.enemies, s.w.enemyId)
    && TargetsGone(s.h.bulletBoss, s.w.bosses, s.w.bossId)
    && TargetsGone(s.h.playerBoss, s.w.bosses, s.w.bossId)
  }

  function HealthDue(h: History, id: int): int {
    100 - 10 * |Met(h.playerEnemy, id)| - 20 * |Met(h.playerBoss, id)|
  }

  function ScoreDue(h: History): int {
    5 * (|h.bulletEnemy| + |h.playerEnemy|) + 20 * (|h.bulletBoss| + |h.playerBoss|)
  }

  ghost predicate AccountsBalance(s: System) {
    forall id | id in s.w.players ::
      s.w.players[id].hp == HealthDue(s.h, id) && s.w.players[id].score == ScoreDue(s.h)
  }

  // ---- Steps without collisions ----

  ghost predicate OnlyFresh(before: map<int, Pos>, next: int, after: map<int, Pos>, next': int) {
    && next <= next'
    && (forall id | id in after :: id in before || id >= next)
  }

  /** Everything but a check leaves health and score alone and adds only recent ids. */
  ghost predicate Collisionless(w: World, v: World) {
    && v.players.Keys == w.players.Keys
    && (forall id | id in v.players ::
          v.players[id].hp == w.players[id].hp && v.players[id].score == w.players[id].score)
    && OnlyFresh(w.bullets, w.nextBulletId, v.bullets, v.nextBulletId)
    && OnlyFresh(w.enemies, w.enemyId, v.enemies, v.enemyId)
    && OnlyFresh(w.bosses, w.bossId, v.bosses, v.bossId)
  }

  lemma MoveIsQuiet(w: World, id: int, code: int)
    requires id in w.players
    ensures Collisionless(w, HandlePlayerMove(w, id, code))
  {
  }

  lemma ShotIsQuiet(w: World, id: int)
    ensures Collisionless(w, SpawnBullet(w, id))
  {
  }

  lemma ActionsAreQuiet(w: World, i: nat)
    requires i < |w.actions| && !Throws(w, w.actions[i])
    ensures |Execute(w, w.actions[i]).actions| == |w.actions|
    ensures Collisionless(w, Mark(Execute(w, w.actions[i]), i))
  {
    var a := w.actions[i];
    if IsMove(a.code) {
      MoveIsQuiet(w, a.player, a.code);
    } else if a.code == 5 {
      ShotIsQuiet(w, a.player);
    }
  }

  lemma WavesAreQuiet(w: World, ys: seq<real>, n: nat)
    requires Fresh(w, n) && |ys| == WaveSize(w)
    ensures Collisionless(w, NextWave(w, ys))
  {
    WaveSpawns(w, ys);
  }

  lemma OtherStepsAreQuiet(s: System, ev: Event, n: nat)
    requires Fresh(s.w, n) && Enabled(s, ev) && !ev.Collide?
    ensures Collisionless(s.w, Apply(s, ev))
  {
    match ev
    case RunAction => ActionsAreQuiet(s.w, s.phase.next);
    case Wave(due, ys) =>
      if due {
        WavesAreQuiet(s.w, ys, n);
      }
    case _ =>
  }

  /** Only a check changes the recorded contacts. */
  lemma OtherNotesKeepContacts(s: System, ev: Event, h: History)
    requires Enabled(s, ev) && !ev.Collide?
    ensures var r := Note(s, ev, h);
      && r.bulletEnemy == h.bulletEnemy && r.bulletBoss == h.bulletBoss
      && r.playerEnemy == h.playerEnemy && r.playerBoss == h.playerBoss
  {
  }

  // ---- The check ----

  lemma NewContacts(past: set<(int, int)>, movers: map<int, Pos>, targets: map<int, Pos>, next: int)
    requires TargetsGone(past, targets, next)
    ensures |past + Pairs(movers, targets)| == |past| + |Pairs(movers, targets)|
    ensures forall id | id in movers ::
              |Met(past + Pairs(movers, targets), id)| == |Met(past, id)| + |Touched(movers[id], targets)|
  {
    var recent := Pairs(movers, targets);
    assert past !! recent;
    forall id | id in movers
      ensures |Met(past + recent, id)| == |Met(past, id)| + |Touched(movers[id], targets)|
    {
      var touched := Touched(movers[id], targets);
      forall b | b in touched ensures b in Met(past + recent, id) {
        assert (id, b) in recent;
      }
      assert Met(past + recent, id) == Met(past, id) + touched;
      assert Met(past, id) !! touched;
    }
  }

  ghost predicate Recorded(s: System, h: History) {
    && h.bulletEnemy == s.h.bulletEnemy + Pairs(s.w.bullets, s.w.enemies)
    && h.bulletBoss == s.h.bulletBoss + Pairs(s.w.bullets, s.w.bosses)
    && h.playerEnemy == s.h.playerEnemy + Pairs(Positions(s.w.players), s.w.enemies)
    && h.playerBoss == s.h.playerBoss + Pairs(Positions(s.w.players), s.w.bosses)
  }

  lemma CheckRecords(s: System)
    requires s.phase.Colliding?
    ensures Recorded(s, Record(s, Collide))
  {
  }

  lemma CheckCharges(s: System, h: History)
    requires TargetsSettled(s) && Recorded(s, h)
    ensures ScoreDue(h) == ScoreDue(s.h) + Gain(s.w)
    ensures forall id | id in s.w.players ::
              HealthDue(h, id) - HealthDue(s.h, id) == HpAfter(s.w, id) - s.w.players[id].hp
  {
    var w, at := s.w, Positions(s.w.players);
    NewContacts(s.h.bulletEnemy, w.bullets, w.enemies, w.enemyId);
    NewContacts(s.h.bulletBoss, w.bullets, w.bosses, w.bossId);
    NewContacts(s.h.playerEnemy, at, w.enemies, w.enemyId);
    NewContacts(s.h.playerBoss, at, w.bosses, w.bossId);
    forall id | id in w.players
      ensures HealthDue(h, id) - HealthDue(s.h, id) == HpAfter(w, id) - w.players[id].hp
    {
      assert id in at && at[id] == w.players[id].pos;
    }
  }

  lemma CheckKeepsBalance(s: System, t: System)
    requires TargetsSettled(s) && AccountsBalance(s)
    requires JustKilled(s.w, t.w) && Recorded(s, t.h)
    ensures AccountsBalance(t)
  {
    CheckCharges(s, t.h);
  }

  lemma GoneAfterCheck(movers: map<int, Pos>, targets: map<int, Pos>, after: map<int, Pos>, next: int,
                       gone: set<(int, int)>)
    requires TargetsGone(gone, targets, next)
    requires forall id | id in targets :: id < next
    requires forall id | id in after :: id in targets && Touching(movers, targets[id]) == {}
    ensures TargetsGone(gone + Pairs(movers, targets), after, next)
  {
    forall c | c in Pairs(movers, targets) ensures c.1 < next && c.1 !in after {
      assert c.0 in Touching(movers, targets[c.1]);
    }
  }

  lemma CheckSettles(s: System, t: System, n: nat)
    requires Fresh(s.w, n) && TargetsSettled(s)
    requires JustKilled(s.w, t.w) && Recorded(s, t.h)
    requires t.w.enemyId == s.w.enemyId && t.w.bossId == s.w.bossId
    ensures TargetsSettled(t)
  {
    var w, at := s.w, Positions(s.w.players);
    GoneAfterCheck(w.bullets, w.enemies, t.w.enemies, w.enemyId, s.h.bulletEnemy);
    GoneAfterCheck(at, w.enemies, t.w.enemies, w.enemyId, s.h.playerEnemy);
    GoneAfterCheck(w.bullets, w.bosses, t.w.bosses, w.bossId, s.h.bulletBoss);
    GoneAfterCheck(at, w.bosses, t.w.bosses, w.bossId, s.h.playerBoss);
  }

  lemma OthersSettle(s: System, ev: Event, n: nat)
    requires Fresh(s.w, n) && TargetsSettled(s) && Enabled(s, ev) && !ev.Collide?
    ensures TargetsSettled(Step(s, ev))
  {
    OtherStepsAreQuiet(s, ev, n);
    OtherNotesKeepContacts(s, ev, WithBirths(s.h, Apply(s, ev)));
    var v := Apply(s, ev);
    assert forall id | id in v.enemies.Keys :: id in s.w.enemies.Keys || id >= s.w.enemyId;
  }

  lemma OthersKeepAccounts(s: System, ev: Event, n: nat)
    requires Fresh(s.w, n) && AccountsBalance(s) && Enabled(s, ev) && !ev.Collide?
    ensures AccountsBalance(Step(s, ev))
  {
    OtherStepsAreQuiet(s, ev, n);
    OtherNotesKeepContacts(s, ev, WithBirths(s.h, Apply(s, ev)));
  }

  lemma StepKeepsAccounts(s: System, ev: Event, n: nat)
    requires Fresh(s.w, n) && TargetsSettled(s) && AccountsBalance(s)
    ensures TargetsSettled(Step(s, ev)) && AccountsBalance(Step(s, ev))
  {
    if Enabled(s, ev) {
      if ev.Collide? {
        KillsAreJustified(s.w);
        CheckFrame(s.w);
        CheckRecords(s);
        CheckSettles(s, Step(s, ev), n);
        CheckKeepsBalance(s, Step(s, ev));
      } else {
        OthersSettle(s, ev, n);
        OthersKeepAccounts(s, ev, n);
      }
    }
  }

  lemma StartBalances(n: nat)
    ensures TargetsSettled(Start(n)) && AccountsBalance(Start(n))
  {
    SpawnedPlayers(NEW_GAME.(totalPlayers := n), 0, n);
    forall id | id in Start(n).w.players
      ensures Start(n).w.players[id].hp == 100 && Start(n).w.players[id].score == 0
      ensures Met({}, id) == {}
    {
      assert 0 <= id < n;
    }
  }

  lemma {:induction false} RunsKeepAccounts(n: nat, events: seq<Event>)
    ensures TargetsSettled(Run(Start(n), events)) && AccountsBalance(Run(Start(n), events))
  {
    if events == [] {
      StartBalances(n);
    } else {
      var prefix := events[..|events| - 1];
      RunsKeepAccounts(n, prefix);
      RunsStayFresh(n, prefix);
      StepKeepsAccounts(Run(Start(n), prefix), events[|events| - 1], n);
    }
  }

  /**
    In every reachable state each live player has lost 10 hp per distinct enemy and 20 per distinct boss it ran into,
    and all live players have the same score, 5 per enemy contact and 20 per boss contact of bullets and players.
   */
  lemma HealthAndScore(n: nat, events: seq<Event>, id: int)
    requires id in Run(Start(n), events).w.players
    ensures var s := Run(Start(n), events);
      && s.w.players[id].hp == 100 - 10 * |Met(s.h.playerEnemy, id)| - 20 * |Met(s.h.playerBoss, id)|
      && 0 < s.w.players[id].hp <= 100
      && s.w.players[id].score ==
           5 * (|s.h.bulletEnemy| + |s.h.playerEnemy|) + 20 * (|s.h.bulletBoss| + |s.h.playerBoss|)
  {
    RunsKeepAccounts(n, events);
    RunsStayFresh(n, events);
  }
}
