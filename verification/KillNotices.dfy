/** What a check announces: exactly what it removes, each once, in four batches. */
module KillNotices {
  import opened Collections
  import opened Protocol
  import opened GameState
  import opened Contacts
  import opened Casualties

  /** From position `at` on, the log says that exactly these ids are gone, in some order and each once. */
  ghost predicate SaysGone(log: seq<Message>, at: nat, kind: PacketType, gone: set<int>) {
    && at + |gone| <= |log|
    && (forall i | at <= i < at + |gone| ::
          log[i] == Message(kind, log[i].id, 0.0, 0.0, 0.0, 0.0) && log[i].id in gone)
    && (forall i, j | at <= i < j < at + |gone| :: log[i].id != log[j].id)
    && (forall id | id in gone :: exists i :: at <= i < at + |gone| && log[i].id == id)
  }

  lemma NoticesSayGone(before: seq<Message>, kind: PacketType, ids: seq<int>)
    requires NoDuplicates(ids)
    ensures |Elements(ids)| == |ids|
    ensures SaysGone(before + Notices(kind, ids), |before|, kind, Elements(ids))
  {
    var log, at := before + Notices(kind, ids), |before|;
    NoDuplicatesCardinality(ids);
    forall i | at <= i < at + |ids|
      ensures log[i] == Message(kind, ids[i - at], 0.0, 0.0, 0.0, 0.0) && ids[i - at] in ids
    {
      assert log[i] == Destroyed(kind, ids[i - at]);
    }
    forall id | id in Elements(ids) ensures exists i :: at <= i < at + |ids| && log[i].id == id {
      var k :| 0 <= k < |ids| && ids[k] == id;
      assert log[at + k].id == id;
    }
  }

  lemma StillSaysGone(log: seq<Message>, more: seq<Message>, at: nat, kind: PacketType, gone: set<int>)
    requires SaysGone(log, at, kind, gone)
    ensures SaysGone(log + more, at, kind, gone)
  {
    var all := log + more;
    assert forall i | at <= i < at + |gone| :: all[i] == log[i];
    forall id | id in gone ensures exists i :: at <= i < at + |gone| && all[i].id == id {
      var i :| at <= i < at + |gone| && log[i].id == id;
      assert all[i].id == id;
    }
  }

  /** The ids that one map has and the other has not. */
  function Lost<T>(before: map<int, T>, after: map<int, T>): set<int> {
    before.Keys - after.Keys
  }

  lemma LostAreListed<T>(live: map<int, T>, after: map<int, T>, dead: seq<int>)
    requires after == live - Elements(Removed(live, dead))
    ensures NoDuplicates(Removed(live, dead)) && Elements(Removed(live, dead)) == Lost(live, after)
  {
    SweepExact(live.Keys, dead);
  }

  /** After `from` packets of the log come these four batches, and then it ends. */
  ghost predicate EndsWithBatches(log: seq<Message>, from: nat, b: set<int>, e: set<int>, p: set<int>, o: set<int>) {
    && |log| == from + |b| + |e| + |p| + |o|
    && SaysGone(log, from, DESTROY_BULLET, b)
    && SaysGone(log, from + |b|, DESTROY_ENEMY, e)
    && SaysGone(log, from + |b| + |e|, DESTROY_PLAYER, p)
    && SaysGone(log, from + |b| + |e| + |p|, DESTROY_BOSS, o)
  }

  lemma TwoBatches(log: seq<Message>, k: PacketType, ids: seq<int>, j: PacketType, jds: seq<int>)
    requires NoDuplicates(ids) && NoDuplicates(jds)
    ensures var all := log + Notices(k, ids) + Notices(j, jds);
      && |all| == |log| + |Elements(ids)| + |Elements(jds)|
      && SaysGone(all, |log|, k, Elements(ids))
      && SaysGone(all, |log| + |Elements(ids)|, j, Elements(jds))
  {
    var first := log + Notices(k, ids);
    NoticesSayGone(log, k, ids);
    NoticesSayGone(first, j, jds);
    StillSaysGone(first, Notices(j, jds), |log|, k, Elements(ids));
  }

  lemma FourBatchesSayGone(log: seq<Message>, b: seq<int>, e: seq<int>, p: seq<int>, o: seq<int>)
    requires NoDuplicates(b) && NoDuplicates(e) && NoDuplicates(p) && NoDuplicates(o)
    ensures EndsWithBatches(log + Notices(DESTROY_BULLET, b) + Notices(DESTROY_ENEMY, e) + Notices(DESTROY_PLAYER, p) +
                            Notices(DESTROY_BOSS, o), |log|, Elements(b), Elements(e), Elements(p), Elements(o))
  {
    var half := log + Notices(DESTROY_BULLET, b) + Notices(DESTROY_ENEMY, e);
    var np, no := Notices(DESTROY_PLAYER, p), Notices(DESTROY_BOSS, o);
    TwoBatches(log, DESTROY_BULLET, b, DESTROY_ENEMY, e);
    TwoBatches(half, DESTROY_PLAYER, p, DESTROY_BOSS, o);
    StillSaysGone(half, np, |log|, DESTROY_BULLET, Elements(b));
    StillSaysGone(half + np, no, |log|, DESTROY_BULLET, Elements(b));
    StillSaysGone(half, np, |log| + |Elements(b)|, DESTROY_ENEMY, Elements(e));
    StillSaysGone(half + np, no, |log| + |Elements(b)|, DESTROY_ENEMY, Elements(e));
  }

  /** These lists, each id once, are what v has lost. */
  ghost predicate Lists(m: World, v: World, b: seq<int>, e: seq<int>, p: seq<int>, o: seq<int>) {
    && NoDuplicates(b) && Elements(b) == Lost(m.bullets, v.bullets)
    && NoDuplicates(e) && Elements(e) == Lost(m.enemies, v.enemies)
    && NoDuplicates(p) && Elements(p) == Lost(m.players, v.players)
    && NoDuplicates(o) && Elements(o) == Lost(m.bosses, v.bosses)
  }

  /** v is m with its log continued by what is lost. */
  ghost predicate AnnouncesLost(m: World, v: World) {
    && |m.log| <= |v.log| && v.log[..|m.log|] == m.log
    && EndsWithBatches(v.log, |m.log|, Lost(m.bullets, v.bullets), Lost(m.enemies, v.enemies),
                       Lost(m.players, v.players), Lost(m.bosses, v.bosses))
  }

  lemma ListsAreAnnounced(m: World, v: World, b: seq<int>, e: seq<int>, p: seq<int>, o: seq<int>)
    requires Lists(m, v, b, e, p, o)
    requires v.log == m.log + Notices(DESTROY_BULLET, b) + Notices(DESTROY_ENEMY, e) + Notices(DESTROY_PLAYER, p) +
                      Notices(DESTROY_BOSS, o)
    ensures AnnouncesLost(m, v)
  {
    FourBatchesSayGone(m.log, b, e, p, o);
    PrefixOfFive(m.log, Notices(DESTROY_BULLET, b), Notices(DESTROY_ENEMY, e), Notices(DESTROY_PLAYER, p),
                 Notices(DESTROY_BOSS, o));
  }

  lemma PrefixOfFive<T>(log: seq<T>, b: seq<T>, e: seq<T>, p: seq<T>, o: seq<T>)
    ensures var all := log + b + e + p + o; |log| <= |all| && all[..|log|] == log
  {
  }

  lemma RemovalLists(m: World)
    ensures Lists(m, RemoveCasualties(m), Removed(m.bullets, m.deadBullets), Removed(m.enemies, m.deadEnemies),
                  Removed(m.players, m.deadPlayers), Removed(m.bosses, m.deadBosses))
  {
    var v := RemoveCasualties(m);
    RemovedWorld(m);
    LostAreListed(m.bullets, v.bullets, m.deadBullets);
    LostAreListed(m.enemies, v.enemies, m.deadEnemies);
    LostAreListed(m.players, v.players, m.deadPlayers);
    LostAreListed(m.bosses, v.bosses, m.deadBosses);
  }

  lemma RemovalAnnounces(m: World)
    ensures AnnouncesLost(m, RemoveCasualties(m))
  {
    RemovalLists(m);
    RemovedWorld(m);
    ListsAreAnnounced(m, RemoveCasualties(m), Removed(m.bullets, m.deadBullets), Removed(m.enemies, m.deadEnemies),
                      Removed(m.players, m.deadPlayers), Removed(m.bosses, m.deadBosses));
  }

  /** A check announces the bullets, then the enemies, the players and the bosses that it removes, and nothing else. */
  lemma CheckAnnouncesKills(w: World)
    ensures AnnouncesLost(w, CheckCollisions(w))
  {
    MarkedFrame(w);
    RemovalAnnounces(MarkCasualties(w));
    SameLost(w, MarkCasualties(w), CheckCollisions(w));
  }

  lemma SameLost(w: World, m: World, v: World)
    requires AnnouncesLost(m, v) && m.log == w.log && m.bullets == w.bullets && m.enemies == w.enemies
    requires m.players.Keys == w.players.Keys && m.bosses == w.bosses
    ensures AnnouncesLost(w, v)
  {
  }
}
