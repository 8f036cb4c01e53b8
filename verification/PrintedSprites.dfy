/**
  The sprites of bullets, enemies and bosses on a client that reads the text the server prints: coordinates to half a
  millionth, and exactly where they are whole; velocities exactly.
 */
module PrintedSprites {
  import opened Protocol
  import opened GameState
  import opened Wire
  import opened Casualties
  import opened GameRuns
  import opened FreshIds
  import opened Replica
  import opened Printing
  import opened WholePositions
  import opened EndToEnd
  import opened Lifetimes
  import opened Sprites
  import opened DeadReckoning

  /** b is what is left of the coordinate a after printing and reading. */
  ghost predicate Near(a: real, b: real) {
    && a - 0.0000005 <= b <= a + 0.0000005
    && (a.Floor as real == a ==> b == a)
  }

  /** Velocities that the game uses come through unchanged. */
  ghost predicate SameSpeed(a: real, b: real) {
    a == 5.0 || a == -1.0 || a == -0.1 || a == 0.0 ==> b == a
  }

  ghost predicate NearMessage(m: Message, seen: Message) {
    && seen.kind == m.kind && seen.id == m.id
    && Near(m.x, seen.x) && Near(m.y, seen.y)
    && SameSpeed(m.vx, seen.vx) && SameSpeed(m.vy, seen.vy)
  }

  ghost predicate NearSprite(a: Sprite, b: Sprite) {
    && Near(a.at.x, b.at.x) && Near(a.at.y, b.at.y)
    && SameSpeed(a.vx, b.vx) && SameSpeed(a.vy, b.vy)
  }

  ghost predicate NearSprites(d: map<int, Sprite>, e: map<int, Sprite>) {
    && e.Keys == d.Keys
    && forall id | id in d :: NearSprite(d[id], e[id])
  }

  ghost predicate NearLog(log: seq<Message>, seen: seq<Message>) {
    && |seen| == |log|
    && forall i | 0 <= i < |log| :: NearMessage(log[i], seen[i])
  }

  lemma NearAfter(d: map<int, Sprite>, e: map<int, Sprite>, m: Message, seen: Message, f: Family)
    requires NearSprites(d, e) && NearMessage(m, seen)
    ensures NearSprites(DrawnAfter(d, m, f), DrawnAfter(e, seen, f))
  {
  }

  lemma {:induction false} NearLogsDrawNear(log: seq<Message>, seen: seq<Message>, f: Family)
    requires NearLog(log, seen)
    ensures NearSprites(DrawnFrom(log, f), DrawnFrom(seen, f))
    decreases |log|
  {
    if log != [] {
      var k := |log| - 1;
      NearLogsDrawNear(log[..k], seen[..k], f);
      NearAfter(DrawnFrom(log[..k], f), DrawnFrom(seen[..k], f), log[k], seen[k], f);
    }
  }

  lemma PrintedIsNear(m: Message)
    requires InRange(m)
    ensures Representable(Printed(m)) && NearMessage(m, Seen(m, Printed(m)))
  {
    PrintedIsReadable(m);
  }

  lemma PrintedLogIsNear(log: seq<Message>, numbers: seq<int>)
    requires AllInRange(log, numbers)
    ensures AllRendered(log, AllPrinted(log), numbers)
    ensures NearLog(log, AllSeen(log, AllPrinted(log)))
  {
    PrintedLogIsRendered(log, numbers);
    forall i | 0 <= i < |log| ensures NearMessage(log[i], AllSeen(log, AllPrinted(log))[i]) {
      PrintedIsNear(log[i]);
    }
  }

  /** The scene of a client that has read every packet of a log as the server prints it. */
  function ShownScene(log: seq<Message>, numbers: seq<int>): Scene
    requires |numbers| == |log|
  {
    ReadAll(LogTexts(log, AllPrinted(log), numbers)).scene
  }

  lemma ReadSprites(log: seq<Message>, ps: seq<Payload>, numbers: seq<int>, f: Family)
    requires AllRendered(log, ps, numbers) && f != PLAYERS
    ensures Drawn(ReadAll(LogTexts(log, ps, numbers)).scene, f) == DrawnFrom(AllSeen(log, ps), f)
  {
    ReadAllReplays(log, ps, numbers);
    DrawnFromReplay(AllSeen(log, ps), f);
  }

  lemma PrintedLogIsDrawn(log: seq<Message>, numbers: seq<int>, f: Family)
    requires AllInRange(log, numbers) && f != PLAYERS
    ensures NearSprites(Drawn(Replay(log), f), Drawn(ShownScene(log, numbers), f))
  {
    PrintedLogIsNear(log, numbers);
    ReadSprites(log, AllPrinted(log), numbers, f);
    NearLogsDrawNear(log, AllSeen(log, AllPrinted(log)), f);
    DrawnFromReplay(log, f);
  }

  /** How far off a sprite's height may be. */
  predicate AtHeight(y: real, shown: real) {
    y - 0.0000005 <= shown <= y + 0.0000005
  }

  /** A live enemy is drawn at x = 1000, at its height to half a millionth, moving left by 1. */
  lemma EnemyIsShown(n: nat, events: seq<Event>, numbers: seq<int>, id: int)
    requires AllInRange(Run(Start(n), events).w.log, numbers) && id in Run(Start(n), events).w.enemies
    ensures var w := Run(Start(n), events).w; var c := ShownScene(w.log, numbers);
      && id in c.enemies && AtHeight(w.enemies[id].y, c.enemies[id].at.y)
      && c.enemies[id] == Sprite(Pos(1000.0, c.enemies[id].at.y), -1.0, 0.0)
  {
    var w := Run(Start(n), events).w;
    EnemySpriteIsOnCourse(n, events, id);
    PrintedLogIsDrawn(w.log, numbers, ENEMIES);
    assert NearSprite(Replay(w.log).enemies[id], ShownScene(w.log, numbers).enemies[id]);
  }

  /** And a live boss the same, moving left by a tenth. */
  lemma BossIsShown(n: nat, events: seq<Event>, numbers: seq<int>, id: int)
    requires AllInRange(Run(Start(n), events).w.log, numbers) && id in Run(Start(n), events).w.bosses
    ensures var w := Run(Start(n), events).w; var c := ShownScene(w.log, numbers);
      && id in c.bosses && AtHeight(w.bosses[id].y, c.bosses[id].at.y)
      && c.bosses[id] == Sprite(Pos(1000.0, c.bosses[id].at.y), -0.1, 0.0)
  {
    var w := Run(Start(n), events).w;
    BossSpriteIsOnCourse(n, events, id);
    PrintedLogIsDrawn(w.log, numbers, BOSSES);
    assert NearSprite(Replay(w.log).bosses[id], ShownScene(w.log, numbers).bosses[id]);
  }

  // ---- Bullets fly over whole coordinates ----

  ghost predicate WholeBullets(bullets: map<int, Pos>) {
    forall id | id in bullets :: WholePos(bullets[id])
  }

  lemma ShotFliesWhole(w: World, id: int)
    requires WholePlayers(w.players) && WholeBullets(w.bullets)
    ensures WholeBullets(SpawnBullet(w, id).bullets)
  {
    if id in w.players {
      ShiftedIsWhole(w.players[id].pos.x, 50);
      ShiftedIsWhole(w.players[id].pos.y, 25);
    }
  }

  lemma ActionFliesWhole(w: World, i: nat)
    requires i < |w.actions| && !Throws(w, w.actions[i])
    requires WholePlayers(w.players) && WholeBullets(w.bullets)
    ensures |Execute(w, w.actions[i]).actions| == |w.actions|
    ensures WholeBullets(Mark(Execute(w, w.actions[i]), i).bullets)
  {
    if w.actions[i].code == 5 {
      ShotFliesWhole(w, w.actions[i].player);
    }
  }

  lemma FlightStaysWhole(bullets: map<int, Pos>)
    requires WholeBullets(bullets)
    ensures WholeBullets(Shift(bullets, 5.0))
  {
    forall id | id in bullets ensures Whole(bullets[id].x + 5.0) {
      ShiftedIsWhole(bullets[id].x, 5);
    }
  }

  lemma CheckLeavesWhole(w: World)
    requires WholeBullets(w.bullets)
    ensures WholeBullets(CheckCollisions(w).bullets)
  {
    MarkedFrame(w);
    RemovedWorld(MarkCasualties(w));
  }

  lemma StepFliesWhole(s: System, ev: Event, n: nat)
    requires Fresh(s.w, n) && WholePlayers(s.w.players) && WholeBullets(s.w.bullets)
    ensures WholeBullets(Step(s, ev).w.bullets)
  {
    if Enabled(s, ev) {
      match ev
      case RunAction => ActionFliesWhole(s.w, s.phase.next);
      case MoveBullets(due) => FlightStaysWhole(s.w.bullets);
      case Collide => CheckLeavesWhole(s.w);
      case Wave(due, ys) =>
        if due {
          WaveSpawns(s.w, ys);
        }
      case NetShoot(id) => ShotFliesWhole(s.w, id);
      case _ =>
    }
  }

  lemma {:induction false} RunsFlyWhole(n: nat, events: seq<Event>)
    ensures WholeBullets(Run(Start(n), events).w.bullets)
  {
    if events == [] {
      SpawnedPlayers(NEW_GAME.(totalPlayers := n), 0, n);
    } else {
      var prefix := events[..|events| - 1];
      RunsFlyWhole(n, prefix);
      RunsStayFresh(n, prefix);
      RunsStayWhole(n, prefix);
      StepFliesWhole(Run(Start(n), prefix), events[|events| - 1], n);
    }
  }

  lemma BehindIsWhole(x: real, age: int)
    requires Whole(x)
    ensures Whole(x - 5.0 * age as real)
  {
    ShiftedIsWhole(x, -5 * age);
  }

  lemma NearIsExact(p: Pos, shown: Sprite)
    requires WholePos(p) && NearSprite(Sprite(p, 5.0, 0.0), shown)
    ensures shown == Sprite(p, 5.0, 0.0)
  {
  }

  lemma NearBullet(c: Scene, shown: Scene, id: int, p: Pos)
    requires NearSprites(Drawn(c, BULLETS), Drawn(shown, BULLETS))
    requires id in c.bullets && c.bullets[id] == Sprite(p, 5.0, 0.0) && WholePos(p)
    ensures id in shown.bullets && shown.bullets[id] == Sprite(p, 5.0, 0.0)
  {
    NearIsExact(p, shown.bullets[id]);
  }

  lemma StartIsWholePos(p: Pos, age: int)
    requires WholePos(p)
    ensures WholePos(Pos(p.x - 5.0 * age as real, p.y))
  {
    BehindIsWhole(p.x, age);
  }

  lemma BulletIsRead(log: seq<Message>, numbers: seq<int>, id: int)
    requires AllInRange(log, numbers) && id in Replay(log).bullets
    requires WholePos(Replay(log).bullets[id].at)
    requires Replay(log).bullets[id] == Sprite(Replay(log).bullets[id].at, 5.0, 0.0)
    ensures id in ShownScene(log, numbers).bullets
    ensures ShownScene(log, numbers).bullets[id] == Replay(log).bullets[id]
  {
    PrintedLogIsDrawn(log, numbers, BULLETS);
    NearBullet(Replay(log), ShownScene(log, numbers), id, Replay(log).bullets[id].at);
  }

  /** The replica has bullet `id` at its height and as far back as it has flown. */
  ghost predicate Trails(s: System, id: int) {
    && id in s.w.bullets && id in s.h.bulletBorn && id in Replay(s.w.log).bullets
    && Replay(s.w.log).bullets[id] ==
       Sprite(Pos(s.w.bullets[id].x - 5.0 * Age(s.h.bulletBorn, id, s.h.bulletMoves) as real, s.w.bullets[id].y),
              5.0, 0.0)
  }

  lemma TrailingIsWhole(s: System, id: int)
    requires Trails(s, id) && WholeBullets(s.w.bullets)
    ensures WholePos(Replay(s.w.log).bullets[id].at)
  {
    StartIsWholePos(s.w.bullets[id], Age(s.h.bulletBorn, id, s.h.bulletMoves));
  }

  lemma TrailIsRead(s: System, numbers: seq<int>, id: int)
    requires AllInRange(s.w.log, numbers) && Trails(s, id) && WholeBullets(s.w.bullets)
    ensures id in ShownScene(s.w.log, numbers).bullets
    ensures ShownScene(s.w.log, numbers).bullets[id] == Replay(s.w.log).bullets[id]
  {
    TrailingIsWhole(s, id);
    BulletIsRead(s.w.log, numbers, id);
  }

  lemma BulletTrails(n: nat, events: seq<Event>, id: int)
    requires id in Run(Start(n), events).w.bullets
    ensures Trails(Run(Start(n), events), id)
  {
    BulletSpriteIsOnCourse(n, events, id);
  }

  /** A live bullet's sprite is read exactly: at the bullet's height, and as far back as the bullet has flown. */
  lemma BulletIsShown(n: nat, events: seq<Event>, numbers: seq<int>, id: int)
    requires AllInRange(Run(Start(n), events).w.log, numbers) && id in Run(Start(n), events).w.bullets
    ensures var s := Run(Start(n), events); var c := ShownScene(s.w.log, numbers);
      && id in c.bullets && id in s.h.bulletBorn
      && c.bullets[id] ==
         Sprite(Pos(s.w.bullets[id].x - 5.0 * Age(s.h.bulletBorn, id, s.h.bulletMoves) as real, s.w.bullets[id].y),
                5.0, 0.0)
  {
    BulletTrails(n, events, id);
    RunsFlyWhole(n, events);
    TrailIsRead(Run(Start(n), events), numbers, id);
  }
}
