/** Runs of one game that leave the replica behind: a survivor who is no longer announced, and a bullet that stays. */
module LostMoves {
  import opened Collections
  import opened GameState
  import opened Casualties
  import opened GameRuns
  import opened FreshIds
  import opened Replica
  import opened BroadcastRuns
  import opened DeltaUpdates
  import opened HiddenMoves
  import opened Ticks
  import opened Lines
  import ActionRuns
  import Contacts

  // ---- Ticks along the line ----

  /** v is w after a check in which player 9 has met everything on the line. */
  ghost predicate Cleared(w: World, v: World, players: set<int>, hp: int) {
    && Standing(v, if Left(w, hp) > 0 then players else players - {9}, Left(w, hp))
    && EmptyField(v)
    && v.currentWave == w.currentWave && WaveSize(v) == WaveSize(w)
  }

  lemma CheckOfLine(w: World, n: nat, players: set<int>, hp: int)
    requires Fresh(w, n) && Standing(w, players, hp) && OnLine(w.enemies) && OnLine(w.bosses) && 9 in players
    ensures Cleared(w, CheckCollisions(w), players, hp)
  {
    var v := CheckCollisions(w);
    assert JustKilled(w, v) by { KillsAreJustified(w); }
    assert v.actions == w.actions && v.currentWave == w.currentWave && v.enemiesPerWave == w.enemiesPerWave by {
      CheckFrame(w);
    }
    KilledIsCleared(w, v, players, hp);
  }

  lemma KilledIsCleared(w: World, v: World, players: set<int>, hp: int)
    requires AllStanding(w) && Standing(w, players, hp) && OnLine(w.enemies) && OnLine(w.bosses) && 9 in players
    requires JustKilled(w, v)
    requires v.actions == w.actions && v.currentWave == w.currentWave && v.enemiesPerWave == w.enemiesPerWave
    ensures Cleared(w, v, players, hp)
  {
    PlayersOfLine(w, v, players, hp);
    assert EmptyField(v) by { TargetsOfLine(w, v, players, hp); }
    assert WaveSize(v) == WaveSize(w);
  }

  /** Where a run of waiting ticks stands. */
  ghost predicate OnTheLine(s: System, players: set<int>, hp: int) {
    && s.phase.Waiting?
    && Standing(s.w, players, hp) && OnLine(s.w.enemies) && OnLine(s.w.bosses)
  }

  /** u is a world w after a tick that ended with a wave, player 9 having survived. */
  ghost predicate WaveTicked(w: World, u: World, players: set<int>, hp: int) {
    && Standing(u, players, Left(w, hp)) && OnLine(u.enemies) && OnLine(u.bosses)
    && WaveCounts(w.currentWave, u)
  }

  lemma WaveOnCleared(w: World, v: World, ys: seq<real>, players: set<int>, hp: int)
    requires Cleared(w, v, players, hp) && Left(w, hp) > 0
    requires WaveSize(v) == |ys| == 5 && AllOnLine(ys)
    ensures WaveTicked(w, NextWave(v, ys), players, hp)
  {
    WaveOnLine(v, ys);
    ArrivedIsTicked(w, v, NextWave(v, ys), players, hp);
  }

  lemma ArrivedIsTicked(w: World, v: World, u: World, players: set<int>, hp: int)
    requires Cleared(w, v, players, hp) && Left(w, hp) > 0 && WaveArrived(v, u)
    ensures WaveTicked(w, u, players, hp)
  {
    StandingStays(v, u, players, Left(w, hp));
  }

  lemma StandingStays(v: World, u: World, players: set<int>, hp: int)
    requires Standing(v, players, hp) && u.players == v.players && u.actions == v.actions
    ensures Standing(u, players, hp)
  {
  }

  lemma WaveTick(s: System, n: nat, players: set<int>, hp: int)
    requires Fresh(s.w, n) && OnTheLine(s, players, hp) && 9 in players && Left(s.w, hp) > 0 && WaveSize(s.w) == 5
    ensures var u := Run(s, TickEvents(0, Wait(true)));
      u.phase.Waiting? && WaveTicked(s.w, u.w, players, hp)
  {
    WaitingTick(s, true);
    CheckOfLine(s.w, n, players, hp);
    WaitIsOnLine();
    WaveOnCleared(s.w, CheckCollisions(s.w), Wait(true).ys, players, hp);
  }

  lemma LastTick(s: System, n: nat, players: set<int>, hp: int)
    requires Fresh(s.w, n) && OnTheLine(s, players, hp) && 9 in players && Left(s.w, hp) <= 0
    ensures var u := Run(s, TickEvents(0, Wait(false)));
      u.phase.Waiting? && u.w == CheckCollisions(s.w) && Standing(u.w, players - {9}, Left(s.w, hp))
  {
    WaitingTick(s, false);
    CheckOfLine(s.w, n, players, hp);
  }

  lemma StartOnLine(n: nat)
    ensures OnTheLine(Start(n), Below(n), 100) && EmptyField(Start(n).w)
    ensures Start(n).w.currentWave == 0 && WaveSize(Start(n).w) == 5
  {
    SpawnedPlayers(NEW_GAME.(totalPlayers := n), 0, n);
    ActionRuns.StartHasNoActions(NEW_GAME.(totalPlayers := n), 0, n);
  }

  // ---- The survivor ----

  function TwoWaves(): seq<Event> {
    TickEvents(0, Wait(true)) + TickEvents(0, Wait(true))
  }

  function NineDies(): seq<Event> {
    TwoWaves() + TickEvents(0, Wait(false))
  }

  function TenMoves(): seq<Event> {
    [NetAct(10, 2)] + [BeginActions] + [RunAction]
  }

  lemma FirstWave(w: World, u: World, players: set<int>)
    requires w.currentWave == 0 && EmptyField(w) && WaveTicked(w, u, players, 100)
    ensures u.enemies != map[]
    ensures Standing(u, players, 100) && Left(u, 100) == 50 && u.currentWave == 2 && WaveSize(u) == 5
  {
    assert Left(w, 100) == 100;
  }

  lemma SecondWave(w: World, u: World, players: set<int>)
    requires w.currentWave == 2 && Left(w, 100) == 50 && WaveTicked(w, u, players, 100)
    ensures Standing(u, players, 50) && Left(u, 50) == -10
  {
  }

  lemma AfterOneWave()
    ensures var s := Run(Start(11), TickEvents(0, Wait(true)));
      && OnTheLine(s, Below(11), 100) && Fresh(s.w, 11) && s.w.enemies != map[]
      && Left(s.w, 100) == 50 && s.w.currentWave == 2 && WaveSize(s.w) == 5
  {
    StartOnLine(11);
    StartIsFresh(11);
    WaveTick(Start(11), 11, Below(11), 100);
    RunsStayFresh(11, TickEvents(0, Wait(true)));
    FirstWave(Start(11).w, Run(Start(11), TickEvents(0, Wait(true))).w, Below(11));
  }

  /** After two waves player 9 has 50 hp left, and four enemies and a boss stand before it. */
  lemma AfterTwoWaves()
    ensures var s := Run(Start(11), TwoWaves());
      OnTheLine(s, Below(11), 50) && Fresh(s.w, 11) && Left(s.w, 50) == -10
  {
    AfterOneWave();
    var s := Run(Start(11), TickEvents(0, Wait(true)));
    WaveTick(s, 11, Below(11), 100);
    RunConcat(Start(11), TickEvents(0, Wait(true)), TickEvents(0, Wait(true)));
    RunsStayFresh(11, TwoWaves());
    SecondWave(s.w, Run(Start(11), TwoWaves()).w, Below(11));
  }

  /** The check that kills player 9 leaves player 10's sprite alone. */
  lemma NineDiesInCheck(w: World, v: World)
    requires Standing(w, Below(11), 50) && v == CheckCollisions(w) && Standing(v, Below(11) - {9}, -10)
    requires ShownAt(w, 10, SpawnPoint(10))
    ensures Hidden(v, 10, SpawnPoint(10))
  {
    CheckKeepsPlace(w, 10, SpawnPoint(10));
    OneIsMissing(v, 11, 9);
  }

  lemma OneIsMissing(v: World, n: nat, id: int)
    requires v.players.Keys == Below(n) - {id} && 0 <= id < n
    ensures |v.players| == n - 1
  {
    BelowCardinality(n);
    assert |v.players| == |v.players.Keys|;
  }

  /** Exactly player 9 dies, and player 10's id is no longer below the number of players. */
  lemma AfterNineDies()
    ensures var s := Run(Start(11), NineDies());
      && s.phase.Waiting? && Standing(s.w, Below(11) - {9}, -10)
      && Hidden(s.w, 10, SpawnPoint(10))
  {
    AfterTwoWaves();
    var s := Run(Start(11), TwoWaves());
    LastTick(s, 11, Below(11), 50);
    RunConcat(Start(11), TwoWaves(), TickEvents(0, Wait(false)));
    EverybodyIsShown(TwoWaves());
    NineDiesInCheck(s.w, CheckCollisions(s.w));
  }

  lemma EverybodyIsShown(events: seq<Event>)
    requires var w := Run(Start(11), events).w; w.players.Keys == Below(11) && w.players[10].pos == SpawnPoint(10)
    ensures ShownAt(Run(Start(11), events).w, 10, SpawnPoint(10))
  {
    var w := Run(Start(11), events).w;
    BelowCardinality(11);
    assert |w.players| == |w.players.Keys|;
    DeltaIsLossless(11, events);
  }

  lemma TenHasMoved(s: System)
    requires s.phase.Waiting? && Standing(s.w, Below(11) - {9}, -10)
    ensures var t := Run(s, TenMoves());
      t.w.players.Keys == Below(11) - {9} && t.w.players[10].pos == Pos(1120.0, 100.0)
  {
    var t1 := Step(s, NetAct(10, 2));
    var t2 := Step(t1, BeginActions);
    ActionRuns.RunOne(s, NetAct(10, 2));
    ActionRuns.RunSnoc(s, [NetAct(10, 2)], BeginActions);
    ActionRuns.RunSnoc(s, [NetAct(10, 2)] + [BeginActions], RunAction);
    assert t2.w.players[10].pos == SpawnPoint(10) == Pos(1100.0, 100.0);
    MovedTo(t2, 10, 2);
  }

  lemma MovedTo(t: System, id: int, code: int)
    requires t.phase == Acting(0, 1) && t.w.actions == [Action(id, code, false)] && IsMove(code) && id in t.w.players
    ensures var v := Step(t, RunAction).w;
      v.players.Keys == t.w.players.Keys && v.players[id].pos == ClampToBounds(Displaced(t.w.players[id].pos, code))
  {
  }

  /**
    A game of eleven. Two waves kill player 9 alone; then player 10 moves right. The server has it at 1120, the replica
    shows it at 1100, and whatever happens from then on the replica goes on showing it there while it lives.
   */
  lemma SurvivorCanBeHidden(more: seq<Event>)
    ensures var s := Run(Start(11), NineDies() + TenMoves());
      && s.w.players.Keys == Below(11) - {9}
      && s.w.players[10].pos == Pos(1120.0, 100.0) && ShownAt(s.w, 10, Pos(1100.0, 100.0))
      && (10 in Run(s, more).w.players ==> ShownAt(Run(s, more).w, 10, Pos(1100.0, 100.0)))
  {
    AfterNineDies();
    TenHasMoved(Run(Start(11), NineDies()));
    RunConcat(Start(11), NineDies(), TenMoves());
    assert SpawnPoint(10) == Pos(1100.0, 100.0);
    HiddenForLife(11, NineDies(), TenMoves(), 10, SpawnPoint(10));
    if 10 in Run(Run(Start(11), NineDies() + TenMoves()), more).w.players {
      HiddenForLife(11, NineDies() + TenMoves(), more, 10, SpawnPoint(10));
    }
  }

  // ---- The bullet ----

  function ShootsAfter(e: seq<Event>): seq<Event> {
    e + [NetShoot(8)] + TickEvents(0, Wait(false))
  }

  function EightShoots(): seq<Event> {
    ShootsAfter(TickEvents(0, Wait(true)))
  }

  /** A bullet fired from the spawn point of player 8 hits whatever stands on the line. */
  lemma ShotHitsLine(w: World, id: int)
    requires id in w.bullets && w.bullets[id] == Pos(950.0, 125.0)
    requires OnLine(w.enemies) && w.enemies != map[]
    ensures !BulletSurvives(w, id)
  {
    assert w.enemies.Keys != {};
    var e := Inhabited(w.enemies.Keys);
    assert Collides(Pos(950.0, 125.0), LINE);
    assert w.enemies[e] == LINE;
    assert e in Contacts.Touched(w.bullets[id], w.enemies);
  }

  lemma BulletIsGone(s: System, n: nat, id: int)
    requires Fresh(s.w, n) && s.phase.Waiting? && s.w.actions == []
    requires id in s.w.bullets && !BulletSurvives(s.w, id)
    ensures var u := Run(s, TickEvents(0, Wait(false))).w; id !in u.bullets && u.nextBulletId == s.w.nextBulletId
  {
    WaitingTick(s, false);
    KillsAreJustified(s.w);
    CheckFrame(s.w);
  }

  lemma EightHasShot(s: System, n: nat, players: set<int>)
    requires Fresh(s.w, n) && OnTheLine(s, players, 100) && 8 in players && s.w.enemies != map[]
    ensures var u := Step(s, NetShoot(8)); var id := s.w.nextBulletId;
      && u.phase.Waiting? && u.w.actions == [] && u.w.nextBulletId == id + 1
      && id in u.w.bullets && !BulletSurvives(u.w, id)
  {
    var u := Step(s, NetShoot(8));
    assert s.w.players[8].pos == SpawnPoint(8) == Pos(900.0, 100.0);
    ShotHitsLine(u.w, s.w.nextBulletId);
  }

  lemma ShotComesAndGoes(e: seq<Event>, n: nat, players: set<int>)
    requires OnTheLine(Run(Start(n), e), players, 100) && 8 in players && Run(Start(n), e).w.enemies != map[]
    ensures var w := Run(Start(n), ShootsAfter(e)).w;
      exists id :: 0 <= id < w.nextBulletId && id !in w.bullets
  {
    var s := Run(Start(n), e);
    RunsStayFresh(n, e);
    EightHasShot(s, n, players);
    ActionRuns.RunSnoc(Start(n), e, NetShoot(8));
    RunsStayFresh(n, e + [NetShoot(8)]);
    BulletIsGone(Step(s, NetShoot(8)), n, s.w.nextBulletId);
    RunConcat(Start(n), e + [NetShoot(8)], TickEvents(0, Wait(false)));
  }

  lemma GoneBulletIsShown(n: nat, events: seq<Event>)
    requires var w := Run(Start(n), events).w; exists id :: 0 <= id < w.nextBulletId && id !in w.bullets
    ensures var w := Run(Start(n), events).w; Replay(w.log).bullets.Keys != w.bullets.Keys
  {
    BulletReplicaAgreesIff(n, events);
    var w := Run(Start(n), events).w;
    var id :| 0 <= id < w.nextBulletId && id !in w.bullets;
    assert id in Replay(w.log).bullets.Keys;
  }

  lemma SpriteStaysAfter(e: seq<Event>, n: nat, players: set<int>)
    requires OnTheLine(Run(Start(n), e), players, 100) && 8 in players && Run(Start(n), e).w.enemies != map[]
    ensures var w := Run(Start(n), ShootsAfter(e)).w; Replay(w.log).bullets.Keys != w.bullets.Keys
  {
    ShotComesAndGoes(e, n, players);
    GoneBulletIsShown(n, ShootsAfter(e));
  }

  /** A game in which a bullet has hit and gone, and its sprite is still there. */
  lemma BulletSpriteStays()
    ensures var w := Run(Start(11), EightShoots()).w; Replay(w.log).bullets.Keys != w.bullets.Keys
  {
    AfterOneWave();
    SpriteStaysAfter(TickEvents(0, Wait(true)), 11, Below(11));
  }
}
