/**
  checkCollisions against a specification without lists or loops: who survives one check, with what hp and score, and
  what is announced.
 */
module Casualties {
  import opened Collections
  import opened Protocol
  import opened GameState
  import opened Contacts

  /** No dead list names a live entity. removeEntities leaves stale ids behind, so this is not an emptiness claim. */
  ghost predicate NothingMarked(w: World) {
    && (forall id | id in w.deadPlayers :: id !in w.players)
    && (forall id | id in w.deadBullets :: id !in w.bullets)
    && (forall id | id in w.deadEnemies :: id !in w.enemies)
    && (forall id | id in w.deadBosses :: id !in w.bosses)
  }

  ghost predicate AllStanding(w: World) {
    forall id | id in w.players :: w.players[id].hp > 0
  }

  // ---- The specification of one check ----

  predicate BulletSurvives(w: World, id: int) {
    && id in w.bullets
    && !OutOfBounds(w.bullets[id])
    && Touched(w.bullets[id], w.enemies) == {}
    && Touched(w.bullets[id], w.bosses) == {}
  }

  /** Enemies and bosses alike: in bounds, hit by no bullet and touching no player. */
  predicate TargetSurvives(w: World, targets: map<int, Pos>, id: int) {
    && id in targets
    && !OutOfBounds(targets[id])
    && Touching(w.bullets, targets[id]) == {}
    && Touching(Positions(w.players), targets[id]) == {}
  }

  function HpAfter(w: World, id: int): int
    requires id in w.players
  {
    w.players[id].hp - 10 * |Touched(w.players[id].pos, w.enemies)| - 20 * |Touched(w.players[id].pos, w.bosses)|
  }

  function Gain(w: World): int {
    5 * (|Pairs(w.bullets, w.enemies)| + |Pairs(Positions(w.players), w.enemies)|) +
    20 * (|Pairs(w.bullets, w.bosses)| + |Pairs(Positions(w.players), w.bosses)|)
  }

  // ---- What the five marking loops leave ----

  lemma AwardedByBullets(w: World, id: int)
    requires id in w.players
    ensures var v := BulletsHitBosses(BulletsHitEnemies(w)).players;
      && id in v
      && v[id] == w.players[id].(score := w.players[id].score + 5 * |Pairs(w.bullets, w.enemies)| +
                                          20 * |Pairs(w.bullets, w.bosses)|)
  {
    HitsExact(w.bullets, w.enemies);
    HitsExact(w.bullets, w.bosses);
    TimesIsProduct(5, |Hits(w.bullets, w.enemies)|);
    TimesIsProduct(20, |Hits(w.bullets, w.bosses)|);
  }

  lemma HurtByTargets(players: map<int, Player>, targets: map<int, Pos>, damage: int, points: int, id: int)
    requires id in players
    ensures var at := Positions(players);
      var v := AfterContacts(players, Hits(at, targets), damage, points);
      && v[id] == Player(players[id].pos, players[id].hp - damage * |Touched(players[id].pos, targets)|,
                         players[id].score + points * |Pairs(at, targets)|)
  {
    var at := Positions(players);
    HitsExact(at, targets);
    TimesIsProduct(points, |Hits(at, targets)|);
    TimesIsProduct(damage, HitCount(Hits(at, targets), id));
  }

  lemma MarkedPlayers(w: World, id: int)
    requires id in w.players
    ensures id in MarkCasualties(w).players
    ensures MarkCasualties(w).players[id] ==
            Player(w.players[id].pos, HpAfter(w, id), w.players[id].score + Gain(w))
  {
    var w2 := BulletsHitBosses(BulletsHitEnemies(w));
    var w3 := PlayersHitEnemies(w2);
    assert Positions(w2.players) == Positions(w.players) && Positions(w3.players) == Positions(w.players);
    AwardedByBullets(w, id);
    HurtByTargets(w2.players, w.enemies, 10, 5, id);
    HurtByTargets(w3.players, w.bosses, 20, 20, id);
  }

  lemma MarkedFrame(w: World)
    ensures var m := MarkCasualties(w);
      m == w.(players := m.players, deadPlayers := m.deadPlayers, deadBullets := m.deadBullets,
              deadEnemies := m.deadEnemies, deadBosses := m.deadBosses)
    ensures MarkCasualties(w).players.Keys == w.players.Keys
  {
  }

  lemma MarkedBullets(w: World, id: int)
    requires id in w.bullets && id !in w.deadBullets
    ensures id in MarkCasualties(w).deadBullets <==> !BulletSurvives(w, id)
  {
    HitMovers(w.bullets, w.enemies, id);
    HitMovers(w.bullets, w.bosses, id);
    OutOfBoundsKeysExact(w.bullets, w.bullets.Keys, id);
    var w4 := PlayersHitBosses(PlayersHitEnemies(BulletsHitBosses(BulletsHitEnemies(w))));
    assert w4.deadBullets == w.deadBullets + Firsts(Hits(w.bullets, w.enemies)) + Firsts(Hits(w.bullets, w.bosses));
  }

  lemma MarkedEnemies(w: World, id: int)
    requires id in w.enemies && id !in w.deadEnemies
    ensures id in MarkCasualties(w).deadEnemies <==> !TargetSurvives(w, w.enemies, id)
  {
    var at := Positions(w.players);
    var w2 := BulletsHitBosses(BulletsHitEnemies(w));
    assert Positions(w2.players) == at;
    HitTargets(w.bullets, w.enemies, id);
    HitTargets(at, w.enemies, id);
    OutOfBoundsKeysExact(w.enemies, w.enemies.Keys, id);
    var w4 := PlayersHitBosses(PlayersHitEnemies(w2));
    assert w4.deadEnemies == w.deadEnemies + Seconds(Hits(w.bullets, w.enemies)) + Seconds(Hits(at, w.enemies));
  }

  lemma MarkedBosses(w: World, id: int)
    requires id in w.bosses && id !in w.deadBosses
    ensures id in MarkCasualties(w).deadBosses <==> !TargetSurvives(w, w.bosses, id)
  {
    var at := Positions(w.players);
    var w2 := BulletsHitBosses(BulletsHitEnemies(w));
    var w3 := PlayersHitEnemies(w2);
    assert Positions(w2.players) == at && Positions(w3.players) == at;
    HitTargets(w.bullets, w.bosses, id);
    HitTargets(at, w.bosses, id);
    OutOfBoundsKeysExact(w.bosses, w.bosses.Keys, id);
    var w4 := PlayersHitBosses(w3);
    assert w4.deadBosses == w.deadBosses + Seconds(Hits(w.bullets, w.bosses)) + Seconds(Hits(at, w.bosses));
  }

  /** Two rounds of damage: a player is marked exactly when the total leaves it without hp. */
  lemma MarkedDead(w: World, id: int)
    requires id in w.players && id !in w.deadPlayers && w.players[id].hp > 0
    ensures id in MarkCasualties(w).deadPlayers <==> HpAfter(w, id) <= 0
  {
    var at := Positions(w.players);
    var w2 := BulletsHitBosses(BulletsHitEnemies(w));
    var w3 := PlayersHitEnemies(w2);
    assert Positions(w2.players) == at && Positions(w3.players) == at;
    var byEnemies, byBosses := Hits(at, w.enemies), Hits(at, w.bosses);
    assert MarkCasualties(w).deadPlayers ==
           w.deadPlayers + Marked(w2.players, byEnemies, 10) + Marked(w3.players, byBosses, 20);
    HitsExact(at, w.enemies);
    HitsExact(at, w.bosses);
    MarkedExact(w2.players, byEnemies, 10, id);
    MarkedExact(w3.players, byBosses, 20, id);
    TimesIsProduct(10, HitCount(byEnemies, id));
    TimesIsProduct(20, HitCount(byBosses, id));
  }

  // ---- What the four removal loops leave ----

  function Removed<T>(live: map<int, T>, dead: seq<int>): seq<int> {
    Sweep(live.Keys, dead).1
  }

  lemma RemovedWorld(m: World)
    ensures var v := RemoveCasualties(m);
      var b, e, p, o := Removed(m.bullets, m.deadBullets), Removed(m.enemies, m.deadEnemies),
                        Removed(m.players, m.deadPlayers), Removed(m.bosses, m.deadBosses);
      && v == m.(players := v.players, bullets := v.bullets, enemies := v.enemies, bosses := v.bosses,
                 deadPlayers := v.deadPlayers, deadBullets := v.deadBullets, deadEnemies := v.deadEnemies,
                 deadBosses := v.deadBosses, shooters := v.shooters, totalPlayers := m.totalPlayers - |p|, log := v.log)
      && v.players == m.players - Elements(p)
      && v.bullets == m.bullets - Elements(b)
      && v.enemies == m.enemies - Elements(e)
      && v.bosses == m.bosses - Elements(o)
      && v.shooters == m.shooters - Elements(b)
      && v.log == m.log + Notices(DESTROY_BULLET, b) + Notices(DESTROY_ENEMY, e) + Notices(DESTROY_PLAYER, p) +
                  Notices(DESTROY_BOSS, o)
  {
  }

  lemma RemovedLists(m: World)
    ensures var v := RemoveCasualties(m);
      && v.deadPlayers == Sweep(m.players.Keys, m.deadPlayers).0
      && v.deadBullets == Sweep(m.bullets.Keys, m.deadBullets).0
      && v.deadEnemies == Sweep(m.enemies.Keys, m.deadEnemies).0
      && v.deadBosses == Sweep(m.bosses.Keys, m.deadBosses).0
  {
  }

  lemma Survivors<T>(live: map<int, T>, dead: seq<int>, id: int)
    ensures id in live - Elements(Removed(live, dead)) <==> id in live && id !in dead
  {
    SweepExact(live.Keys, dead);
    assert id in dead <==> id in Elements(dead);
  }

  lemma Leftovers<T>(live: map<int, T>, dead: seq<int>, id: int)
    requires id in Sweep(live.Keys, dead).0
    ensures id in dead
  {
    SweepExact(live.Keys, dead);
    assert id in multiset(Sweep(live.Keys, dead).0);
    assert id in multiset(dead);
  }

  // ---- The theorem ----

  lemma SurvivingBullets(w: World, id: int)
    requires NothingMarked(w)
    ensures id in CheckCollisions(w).bullets <==> BulletSurvives(w, id)
    ensures BulletSurvives(w, id) ==> CheckCollisions(w).bullets[id] == w.bullets[id]
  {
    var m := MarkCasualties(w);
    MarkedFrame(w);
    RemovedWorld(m);
    Survivors(m.bullets, m.deadBullets, id);
    if id in w.bullets {
      MarkedBullets(w, id);
    }
  }

  lemma SurvivingEnemies(w: World, id: int)
    requires NothingMarked(w)
    ensures id in CheckCollisions(w).enemies <==> TargetSurvives(w, w.enemies, id)
    ensures TargetSurvives(w, w.enemies, id) ==> CheckCollisions(w).enemies[id] == w.enemies[id]
  {
    var m := MarkCasualties(w);
    MarkedFrame(w);
    RemovedWorld(m);
    Survivors(m.enemies, m.deadEnemies, id);
    if id in w.enemies {
      MarkedEnemies(w, id);
    }
  }

  lemma SurvivingBosses(w: World, id: int)
    requires NothingMarked(w)
    ensures id in CheckCollisions(w).bosses <==> TargetSurvives(w, w.bosses, id)
    ensures TargetSurvives(w, w.bosses, id) ==> CheckCollisions(w).bosses[id] == w.bosses[id]
  {
    var m := MarkCasualties(w);
    MarkedFrame(w);
    RemovedWorld(m);
    Survivors(m.bosses, m.deadBosses, id);
    if id in w.bosses {
      MarkedBosses(w, id);
    }
  }

  lemma SurvivingPlayers(w: World, id: int)
    requires NothingMarked(w) && AllStanding(w)
    ensures id in CheckCollisions(w).players <==> id in w.players && HpAfter(w, id) > 0
    ensures id in CheckCollisions(w).players ==>
            CheckCollisions(w).players[id] ==
            Player(w.players[id].pos, HpAfter(w, id), w.players[id].score + Gain(w))
  {
    var m := MarkCasualties(w);
    MarkedFrame(w);
    RemovedWorld(m);
    Survivors(m.players, m.deadPlayers, id);
    if id in w.players {
      MarkedDead(w, id);
      MarkedPlayers(w, id);
    }
  }

  /** The entity maps after a check, as sets of survivors: every kill is justified and none is missed. */
  ghost predicate JustKilled(w: World, v: World) {
    && (forall id :: id in v.bullets <==> BulletSurvives(w, id))
    && (forall id | id in v.bullets :: v.bullets[id] == w.bullets[id])
    && (forall id :: id in v.enemies <==> TargetSurvives(w, w.enemies, id))
    && (forall id | id in v.enemies :: v.enemies[id] == w.enemies[id])
    && (forall id :: id in v.bosses <==> TargetSurvives(w, w.bosses, id))
    && (forall id | id in v.bosses :: v.bosses[id] == w.bosses[id])
    && (forall id :: id in v.players <==> id in w.players && HpAfter(w, id) > 0)
    && (forall id | id in v.players ::
          v.players[id] == Player(w.players[id].pos, HpAfter(w, id), w.players[id].score + Gain(w)))
  }

  lemma KillsAreJustified(w: World)
    requires NothingMarked(w) && AllStanding(w)
    ensures JustKilled(w, CheckCollisions(w))
  {
    forall id
      ensures id in CheckCollisions(w).bullets <==> BulletSurvives(w, id)
      ensures id in CheckCollisions(w).bullets ==> CheckCollisions(w).bullets[id] == w.bullets[id]
    {
      SurvivingBullets(w, id);
    }
    forall id
      ensures id in CheckCollisions(w).enemies <==> TargetSurvives(w, w.enemies, id)
      ensures id in CheckCollisions(w).enemies ==> CheckCollisions(w).enemies[id] == w.enemies[id]
    {
      SurvivingEnemies(w, id);
    }
    forall id
      ensures id in CheckCollisions(w).bosses <==> TargetSurvives(w, w.bosses, id)
      ensures id in CheckCollisions(w).bosses ==> CheckCollisions(w).bosses[id] == w.bosses[id]
    {
      SurvivingBosses(w, id);
    }
    forall id
      ensures id in CheckCollisions(w).players <==> id in w.players && HpAfter(w, id) > 0
      ensures id in CheckCollisions(w).players ==>
              CheckCollisions(w).players[id] ==
              Player(w.players[id].pos, HpAfter(w, id), w.players[id].score + Gain(w))
    {
      SurvivingPlayers(w, id);
    }
  }
}
