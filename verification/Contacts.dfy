/** What the collision loops of Game add up to: pair lists, hit counts, damage and removal. */
module Contacts {
  import opened Collections
  import opened GameState

  function Hurt(players: map<int, Player>, id: int, damage: int): map<int, Player>
    requires id in players
  {
    players[id := players[id].(hp := players[id].hp - damage)]
  }

  lemma AwardNothing(players: map<int, Player>, points: int)
    ensures Award(players, Times(points, 0)) == players
  {
    assert forall id | id in players :: players[id] == Award(players, 0)[id];
  }

  lemma AwardTwice(players: map<int, Player>, m: nat, n: nat, points: int)
    ensures Award(Award(players, Times(points, m)), Times(points, n)) == Award(players, Times(points, m + n))
  {
    Distribute(points, m, n);
  }

  lemma NoContacts(players: map<int, Player>, damage: int, points: int)
    ensures AfterContacts(players, [], damage, points) == players
  {
    assert forall id | id in players :: players[id] == AfterContacts(players, [], damage, points)[id];
  }

  lemma {:induction false} HitCountConcat(a: seq<(int, int)>, b: seq<(int, int)>, id: int)
    ensures HitCount(a + b, id) == HitCount(a, id) + HitCount(b, id)
  {
    if b == [] {
      assert a + b == a;
    } else {
      assert (a + b)[..|a + b| - 1] == a + b[..|b| - 1];
      HitCountConcat(a, b[..|b| - 1], id);
    }
  }

  lemma MoreContacts(players: map<int, Player>, a: seq<(int, int)>, b: seq<(int, int)>, damage: int, points: int)
    ensures AfterContacts(AfterContacts(players, a, damage, points), b, damage, points) ==
            AfterContacts(players, a + b, damage, points)
    ensures Marked(players, a + b, damage) ==
            Marked(players, a, damage) + Marked(AfterContacts(players, a, damage, points), b, damage)
  {
    var mid := AfterContacts(players, a, damage, points);
    var after := AfterContacts(players, a + b, damage, points);
    forall id | id in players ensures after[id] == AfterContacts(mid, b, damage, points)[id] {
      HitCountConcat(a, b, id);
      Distribute(damage, HitCount(a, id), HitCount(b, id));
      Distribute(points, |a|, |b|);
    }
    assert after == AfterContacts(mid, b, damage, points);
    MoreMarks(players, a, b, damage, points);
  }

  lemma {:induction false} Distribute(k: int, m: nat, n: nat)
    ensures Times(k, m + n) == Times(k, m) + Times(k, n)
  {
    if n > 0 {
      Distribute(k, m, n - 1);
    }
  }

  lemma {:induction false} MoreMarks(players: map<int, Player>, a: seq<(int, int)>, b: seq<(int, int)>, damage: int,
                                     points: int)
    ensures Marked(players, a + b, damage) ==
            Marked(players, a, damage) + Marked(AfterContacts(players, a, damage, points), b, damage)
  {
    if b == [] {
      assert a + b == a;
    } else {
      var init, last := b[..|b| - 1], b[|b| - 1].0;
      assert (a + b)[..|a + b| - 1] == a + init;
      MoreMarks(players, a, init, damage, points);
      HitCountConcat(a, b, last);
      Distribute(damage, HitCount(a, last), HitCount(b, last));
    }
  }

  lemma OneMoreContact(players: map<int, Player>, hits: seq<(int, int)>, h: (int, int), damage: int, points: int)
    requires h.0 in players
    ensures var before := AfterContacts(players, hits, damage, points);
      var hurt := Hurt(before, h.0, damage);
      && AfterContacts(players, hits + [h], damage, points) == Award(hurt, points)
      && Marked(players, hits + [h], damage) ==
           Marked(players, hits, damage) + if hurt[h.0].hp <= 0 then [h.0] else []
  {
    var before := AfterContacts(players, hits, damage, points);
    var hurt := Hurt(before, h.0, damage);
    var after := AfterContacts(players, hits + [h], damage, points);
    assert (hits + [h])[..|hits|] == hits;
    forall id | id in players ensures after[id] == Award(hurt, points)[id] {
      Distribute(damage, HitCount(hits, id), 1);
      Distribute(points, |hits|, 1);
    }
    assert after == Award(hurt, points);
    Distribute(damage, HitCount(hits, h.0), 1);
  }

  // ---- The nested loops find exactly the colliding pairs ----

  /** The targets that overlap an entity at p. */
  function Touched(p: Pos, targets: map<int, Pos>): set<int> {
    set b | b in targets && Collides(p, targets[b])
  }

  /** The movers that overlap a target at p. */
  function Touching(movers: map<int, Pos>, p: Pos): set<int> {
    set a | a in movers && Collides(movers[a], p)
  }

  function Pairs(movers: map<int, Pos>, targets: map<int, Pos>): set<(int, int)> {
    set a, b | a in movers && b in targets && Collides(movers[a], targets[b]) :: (a, b)
  }

  lemma {:induction false} HitsOfExact(a: int, p: Pos, targets: map<int, Pos>, left: set<int>)
    requires left <= targets.Keys
    ensures var hits := HitsOf(a, p, targets, left);
      && NoDuplicates(hits)
      && (forall h :: h in hits <==> h.0 == a && h.1 in left && Collides(p, targets[h.1]))
      && |hits| == |Touched(p, targets) * left|
      && (forall id :: HitCount(hits, id) == if id == a then |hits| else 0)
    decreases |left|
  {
    if left == {} {
      assert Touched(p, targets) * left == {};
    } else {
      var b := Least(left);
      var rest := left - {b};
      HitsOfExact(a, p, targets, rest);
      var hits := HitsOf(a, p, targets, rest);
      var met := Touched(p, targets) * rest;
      if Collides(p, targets[b]) {
        assert Touched(p, targets) * left == met + {b};
        forall id ensures HitCount([(a, b)] + hits, id) == HitCount(hits, id) + if id == a then 1 else 0 {
          HitCountConcat([(a, b)], hits, id);
          HitCountAppend([], (a, b), id);
        }
      } else {
        assert Touched(p, targets) * left == met;
      }
    }
  }

  lemma HitCountAppend(hits: seq<(int, int)>, h: (int, int), id: int)
    ensures HitCount(hits + [h], id) == HitCount(hits, id) + if h.0 == id then 1 else 0
  {
    assert (hits + [h])[..|hits|] == hits;
  }

  lemma {:induction false} HitsFromExact(movers: map<int, Pos>, targets: map<int, Pos>, left: set<int>)
    requires left <= movers.Keys
    ensures var hits := HitsFrom(movers, targets, left);
      && NoDuplicates(hits)
      && (forall h :: h in hits <==> h.0 in left && h.1 in targets && Collides(movers[h.0], targets[h.1]))
      && (forall id :: HitCount(hits, id) == if id in left then |Touched(movers[id], targets)| else 0)
    decreases |left|
  {
    if left != {} {
      var a := Least(left);
      HitsOfExact(a, movers[a], targets, targets.Keys);
      HitsFromExact(movers, targets, left - {a});
      var first, later := HitsOf(a, movers[a], targets, targets.Keys), HitsFrom(movers, targets, left - {a});
      forall id ensures HitCount(first + later, id) == HitCount(first, id) + HitCount(later, id) {
        HitCountConcat(first, later, id);
      }
      assert Touched(movers[a], targets) * targets.Keys == Touched(movers[a], targets);
    }
  }

  /** The nested loops meet every colliding pair once and no other pair. */
  lemma HitsExact(movers: map<int, Pos>, targets: map<int, Pos>)
    ensures var hits := Hits(movers, targets);
      && NoDuplicates(hits)
      && Elements(hits) == Pairs(movers, targets)
      && |hits| == |Pairs(movers, targets)|
      && (forall id | id in movers :: HitCount(hits, id) == |Touched(movers[id], targets)|)
  {
    HitsFromExact(movers, targets, movers.Keys);
    var hits := Hits(movers, targets);
    assert forall h :: h in Elements(hits) <==> h in Pairs(movers, targets);
    NoDuplicatesCardinality(hits);
  }

  lemma HitMovers(movers: map<int, Pos>, targets: map<int, Pos>, a: int)
    ensures a in Firsts(Hits(movers, targets)) <==> a in movers && Touched(movers[a], targets) != {}
  {
    HitsFromExact(movers, targets, movers.Keys);
    var hits := Hits(movers, targets);
    if a in Firsts(hits) {
      var i :| 0 <= i < |hits| && Firsts(hits)[i] == a;
      assert hits[i] in hits && hits[i].1 in Touched(movers[a], targets);
    }
    if a in movers && Touched(movers[a], targets) != {} {
      var b := Inhabited(Touched(movers[a], targets));
      assert (a, b) in hits;
      var i :| 0 <= i < |hits| && hits[i] == (a, b);
      assert Firsts(hits)[i] == a;
    }
  }

  lemma HitTargets(movers: map<int, Pos>, targets: map<int, Pos>, b: int)
    ensures b in Seconds(Hits(movers, targets)) <==> b in targets && Touching(movers, targets[b]) != {}
  {
    HitsFromExact(movers, targets, movers.Keys);
    var hits := Hits(movers, targets);
    if b in Seconds(hits) {
      var i :| 0 <= i < |hits| && Seconds(hits)[i] == b;
      assert hits[i] in hits && hits[i].0 in Touching(movers, targets[b]);
    }
    if b in targets && Touching(movers, targets[b]) != {} {
      var a := Inhabited(Touching(movers, targets[b]));
      assert (a, b) in hits;
      var i :| 0 <= i < |hits| && hits[i] == (a, b);
      assert Seconds(hits)[i] == b;
    }
  }

  // ---- Damage ----

  lemma {:induction false} TimesIsProduct(k: int, n: nat)
    ensures Times(k, n) == k * n
  {
    if n > 0 {
      TimesIsProduct(k, n - 1);
    }
  }

  /** A player is pushed on the dead list exactly when the contacts leave it without hp. */
  lemma {:induction false} MarkedExact(players: map<int, Player>, hits: seq<(int, int)>, damage: int, id: int)
    requires damage > 0
    ensures id in Marked(players, hits, damage) <==>
            id in players && HitCount(hits, id) > 0 && players[id].hp - Times(damage, HitCount(hits, id)) <= 0
  {
    if hits != [] {
      var init := hits[..|hits| - 1];
      MarkedExact(players, init, damage, id);
    }
  }

  // ---- Removal ----

  /**
    removeEntities erases exactly the listed live ids, each once and each with one list entry; what stays in the list
    was in it before.
   */
  lemma {:induction false} SweepExact(live: set<int>, dead: seq<int>)
    ensures var (kept, removed) := Sweep(live, dead);
      && NoDuplicates(removed)
      && Elements(removed) == live * Elements(dead)
      && multiset(kept) + multiset(removed) == multiset(dead)
    decreases |dead|
  {
    if dead != [] {
      var id, rest := dead[0], dead[1..];
      assert dead == [id] + rest;
      if id in live {
        SweepExact(live - {id}, rest);
        var removed := Sweep(live - {id}, rest).1;
        assert id !in Elements(removed);
        assert Elements([id] + removed) == {id} + Elements(removed);
        assert Elements(dead) == {id} + Elements(rest);
      } else {
        SweepExact(live, rest);
      }
    }
  }

  lemma {:induction false} OutOfBoundsKeysExact(m: map<int, Pos>, left: set<int>, id: int)
    requires left <= m.Keys
    ensures id in OutOfBoundsKeys(m, left) <==> id in left && OutOfBounds(m[id])
    decreases |left|
  {
    if left != {} {
      OutOfBoundsKeysExact(m, left - {Least(left)}, id);
    }
  }
}
