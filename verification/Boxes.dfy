/**
  The collision test and one whole check in coordinates: entities are boxes 60 wide and 80 high, and two of them collide
  when they share a point and their corners are more than 10 apart.
 */
module Boxes {
  import opened GameState
  import opened Contacts
  import opened Casualties
  import opened GameRuns
  import opened FreshIds

  /** The point (x, y) lies strictly inside the box with this corner. */
  predicate Inside(corner: Pos, x: real, y: real) {
    corner.x < x < corner.x + 60.0 && corner.y < y < corner.y + 80.0
  }

  predicate FarApart(a: Pos, b: Pos) {
    (a.x - b.x) * (a.x - b.x) + (a.y - b.y) * (a.y - b.y) > 100.0
  }

  ghost predicate Meets(a: Pos, b: Pos) {
    FarApart(a, b) && exists x, y :: Inside(a, x, y) && Inside(b, x, y)
  }

  /** The boxes share a point exactly when their corners are less than a width and less than a height apart. */
  lemma SharedPointIff(a: Pos, b: Pos)
    ensures (exists x, y :: Inside(a, x, y) && Inside(b, x, y)) <==>
            -60.0 < a.x - b.x < 60.0 && -80.0 < a.y - b.y < 80.0
  {
    if -60.0 < a.x - b.x < 60.0 && -80.0 < a.y - b.y < 80.0 {
      var x, y := (a.x + b.x + 60.0) / 2.0, (a.y + b.y + 80.0) / 2.0;
      assert Inside(a, x, y) && Inside(b, x, y);
    }
  }

  /** checkCollision fires exactly for boxes that share a point and have corners more than 10 apart. */
  lemma CollidesIffMeets(a: Pos, b: Pos)
    ensures Collides(a, b) <==> Meets(a, b)
  {
    SharedPointIff(a, b);
  }

  lemma MeetsIsSymmetric(a: Pos, b: Pos)
    ensures Meets(a, b) <==> Meets(b, a)
  {
    SharedPointIff(a, b);
    SharedPointIff(b, a);
    assert (a.x - b.x) * (a.x - b.x) == (b.x - a.x) * (b.x - a.x);
    assert (a.y - b.y) * (a.y - b.y) == (b.y - a.y) * (b.y - a.y);
  }

  /** The corner is within the limits beyond which an entity is taken off the field. */
  predicate InField(p: Pos) {
    -50.0 <= p.x <= 1280.0 && -50.0 <= p.y <= 720.0
  }

  // ---- One check, in these terms ----

  ghost function MetBy(p: Pos, targets: map<int, Pos>): set<int> {
    set b | b in targets && Meets(p, targets[b])
  }

  lemma MetByIsTouched(p: Pos, targets: map<int, Pos>)
    ensures MetBy(p, targets) == Touched(p, targets)
  {
    forall b | b in targets ensures Meets(p, targets[b]) <==> Collides(p, targets[b]) {
      CollidesIffMeets(p, targets[b]);
    }
  }

  lemma MetNobodyIff(movers: map<int, Pos>, p: Pos)
    ensures Touching(movers, p) == {} <==> forall a | a in movers :: !Meets(movers[a], p)
  {
    forall a | a in movers ensures Meets(movers[a], p) <==> Collides(movers[a], p) {
      CollidesIffMeets(movers[a], p);
    }
    if forall a | a in movers :: !Meets(movers[a], p) {
      assert Touching(movers, p) == {};
    } else {
      var a :| a in movers && Meets(movers[a], p);
      assert a in Touching(movers, p);
    }
  }

  lemma MetNothingIff(p: Pos, targets: map<int, Pos>)
    ensures Touched(p, targets) == {} <==> forall b | b in targets :: !Meets(p, targets[b])
  {
    MetByIsTouched(p, targets);
    if forall b | b in targets :: !Meets(p, targets[b]) {
      assert MetBy(p, targets) == {};
    } else {
      var b :| b in targets && Meets(p, targets[b]);
      assert b in MetBy(p, targets);
    }
  }

  /** In the field, and meeting no enemy and no boss. */
  ghost predicate BulletStays(w: World, id: int) {
    && id in w.bullets && InField(w.bullets[id])
    && (forall e | e in w.enemies :: !Meets(w.bullets[id], w.enemies[e]))
    && (forall o | o in w.bosses :: !Meets(w.bullets[id], w.bosses[o]))
  }

  /** In the field, and met by no bullet and no player. */
  ghost predicate TargetStays(w: World, targets: map<int, Pos>, id: int) {
    && id in targets && InField(targets[id])
    && (forall b | b in w.bullets :: !Meets(w.bullets[b], targets[id]))
    && (forall p | p in w.players :: !Meets(w.players[p].pos, targets[id]))
  }

  lemma BulletSurvivesIff(w: World, id: int)
    ensures BulletSurvives(w, id) <==> BulletStays(w, id)
  {
    if id in w.bullets {
      MetNothingIff(w.bullets[id], w.enemies);
      MetNothingIff(w.bullets[id], w.bosses);
    }
  }

  lemma NoPlayerMeetsIff(players: map<int, Player>, at: Pos)
    ensures (forall p | p in players :: !Meets(players[p].pos, at)) <==> Touching(Positions(players), at) == {}
  {
    MetNobodyIff(Positions(players), at);
    assert forall p | p in players :: Positions(players)[p] == players[p].pos;
  }

  lemma TargetSurvivesIff(w: World, targets: map<int, Pos>, id: int)
    ensures TargetSurvives(w, targets, id) <==> TargetStays(w, targets, id)
  {
    if id in targets {
      MetNobodyIff(w.bullets, targets[id]);
      NoPlayerMeetsIff(w.players, targets[id]);
    }
  }

  /** In every reachable state, a check leaves exactly the bullets that stay. */
  lemma BulletStaysIff(n: nat, events: seq<Event>, id: int)
    ensures var w := Run(Start(n), events).w; id in CheckCollisions(w).bullets <==> BulletStays(w, id)
  {
    var w := Run(Start(n), events).w;
    RunsStayFresh(n, events);
    SurvivingBullets(w, id);
    BulletSurvivesIff(w, id);
  }

  lemma EnemyStaysIff(n: nat, events: seq<Event>, id: int)
    ensures var w := Run(Start(n), events).w; id in CheckCollisions(w).enemies <==> TargetStays(w, w.enemies, id)
  {
    var w := Run(Start(n), events).w;
    RunsStayFresh(n, events);
    SurvivingEnemies(w, id);
    TargetSurvivesIff(w, w.enemies, id);
  }

  lemma BossStaysIff(n: nat, events: seq<Event>, id: int)
    ensures var w := Run(Start(n), events).w; id in CheckCollisions(w).bosses <==> TargetStays(w, w.bosses, id)
  {
    var w := Run(Start(n), events).w;
    RunsStayFresh(n, events);
    SurvivingBosses(w, id);
    TargetSurvivesIff(w, w.bosses, id);
  }

  ghost function MeetingPairs(movers: map<int, Pos>, targets: map<int, Pos>): set<(int, int)> {
    set a, b | a in movers && b in targets && Meets(movers[a], targets[b]) :: (a, b)
  }

  lemma MeetingPairsArePairs(movers: map<int, Pos>, targets: map<int, Pos>)
    ensures MeetingPairs(movers, targets) == Pairs(movers, targets)
  {
    forall a, b | a in movers && b in targets
      ensures Meets(movers[a], targets[b]) <==> Collides(movers[a], targets[b])
    {
      CollidesIffMeets(movers[a], targets[b]);
    }
  }

  /** What one check pays every player: 5 for each meeting with an enemy, 20 for each meeting with a boss. */
  ghost function PaidByCheck(w: World): int {
    5 * (|MeetingPairs(w.bullets, w.enemies)| + |MeetingPairs(Positions(w.players), w.enemies)|) +
    20 * (|MeetingPairs(w.bullets, w.bosses)| + |MeetingPairs(Positions(w.players), w.bosses)|)
  }

  lemma PaidByCheckIsGain(w: World)
    ensures PaidByCheck(w) == Gain(w)
  {
    MeetingPairsArePairs(w.bullets, w.enemies);
    MeetingPairsArePairs(Positions(w.players), w.enemies);
    MeetingPairsArePairs(w.bullets, w.bosses);
    MeetingPairsArePairs(Positions(w.players), w.bosses);
  }

  /** 10 hp less for each enemy that the player meets, and 20 for each boss. */
  ghost function HpLeft(w: World, id: int): int
    requires id in w.players
  {
    w.players[id].hp - 10 * |MetBy(w.players[id].pos, w.enemies)| - 20 * |MetBy(w.players[id].pos, w.bosses)|
  }

  lemma HpLeftIsHpAfter(w: World, id: int)
    requires id in w.players
    ensures HpLeft(w, id) == HpAfter(w, id)
  {
    MetByIsTouched(w.players[id].pos, w.enemies);
    MetByIsTouched(w.players[id].pos, w.bosses);
  }

  /** v has the player as it is in w after paying for its meetings, or not at all. */
  ghost predicate HasPaid(w: World, v: World, id: int)
    requires id in w.players
  {
    && (id in v.players <==> HpLeft(w, id) > 0)
    && (id in v.players ==>
          v.players[id] == Player(w.players[id].pos, HpLeft(w, id), w.players[id].score + PaidByCheck(w)))
  }

  lemma SurvivorHasPaid(w: World, v: World, id: int)
    requires id in w.players && (id in v.players <==> HpAfter(w, id) > 0)
    requires id in v.players ==>
             v.players[id] == Player(w.players[id].pos, HpAfter(w, id), w.players[id].score + Gain(w))
    ensures HasPaid(w, v, id)
  {
    HpLeftIsHpAfter(w, id);
    PaidByCheckIsGain(w);
  }

  /**
    In every reachable state, a check leaves a player exactly if some hp is left after its meetings, at the same place
    and paid with all others for every meeting of the check.
   */
  lemma PlayerPays(n: nat, events: seq<Event>, id: int)
    requires id in Run(Start(n), events).w.players
    ensures HasPaid(Run(Start(n), events).w, CheckCollisions(Run(Start(n), events).w), id)
  {
    var w := Run(Start(n), events).w;
    RunsStayFresh(n, events);
    SurvivingPlayers(w, id);
    SurvivorHasPaid(w, CheckCollisions(w), id);
  }

  /** The player meets this enemy, by its coordinates, and no other enemy and no boss. */
  ghost predicate MeetsOnly(w: World, id: int, e: int) {
    && id in w.players && e in w.enemies
    && FarApart(w.players[id].pos, w.enemies[e])
    && -60.0 < w.players[id].pos.x - w.enemies[e].x < 60.0
    && -80.0 < w.players[id].pos.y - w.enemies[e].y < 80.0
    && (forall f | f in w.enemies && f != e :: !Meets(w.players[id].pos, w.enemies[f]))
    && (forall o | o in w.bosses :: !Meets(w.players[id].pos, w.bosses[o]))
  }

  lemma MetOnly(w: World, id: int, e: int)
    requires MeetsOnly(w, id, e)
    ensures MetBy(w.players[id].pos, w.enemies) == {e} && MetBy(w.players[id].pos, w.bosses) == {}
    ensures !TargetStays(w, w.enemies, e)
  {
    SharedPointIff(w.players[id].pos, w.enemies[e]);
    assert Meets(w.players[id].pos, w.enemies[e]);
    assert forall f | f in MetBy(w.players[id].pos, w.enemies) :: f == e;
    assert MetBy(w.players[id].pos, w.enemies) == {e};
    assert forall o :: o !in MetBy(w.players[id].pos, w.bosses);
  }

  /** In particular, a player that runs into exactly one enemy loses 10 hp, or its life, and the enemy goes. */
  lemma OneEnemyCostsTen(n: nat, events: seq<Event>, id: int, e: int)
    requires MeetsOnly(Run(Start(n), events).w, id, e)
    ensures var w := Run(Start(n), events).w; var v := CheckCollisions(w);
      && e !in v.enemies
      && (w.players[id].hp > 10 ==> id in v.players && v.players[id].hp == w.players[id].hp - 10)
      && (w.players[id].hp <= 10 ==> id !in v.players)
  {
    MetOnly(Run(Start(n), events).w, id, e);
    EnemyStaysIff(n, events, e);
    PlayerPays(n, events, id);
  }

  // ---- The field ----

  /** In every reachable state, nothing but players is live outside [-50, 1280] by [-50, 720] after a check. */
  lemma CheckedAreInField(n: nat, events: seq<Event>, id: int)
    ensures var v := CheckCollisions(Run(Start(n), events).w);
      && (id in v.bullets ==> -50.0 <= v.bullets[id].x <= 1280.0 && -50.0 <= v.bullets[id].y <= 720.0)
      && (id in v.enemies ==> -50.0 <= v.enemies[id].x <= 1280.0 && -50.0 <= v.enemies[id].y <= 720.0)
      && (id in v.bosses ==> -50.0 <= v.bosses[id].x <= 1280.0 && -50.0 <= v.bosses[id].y <= 720.0)
  {
    var w := Run(Start(n), events).w;
    RunsStayFresh(n, events);
    SurvivingBullets(w, id);
    SurvivingEnemies(w, id);
    SurvivingBosses(w, id);
  }
}
