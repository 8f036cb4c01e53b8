/**
  Bullets, enemies and bosses as the replica draws them. A sprite is put where its entity appears and given the velocity
  of its kind; nothing else is ever sent for it, so the server's position is the sprite's moved on by that velocity.
 */
module Sprites {
  import opened Collections
  import opened Protocol
  import opened GameState
  import opened Ledger
  import opened Replica

  /** The sprites of a family. */
  function Drawn(c: Scene, f: Family): map<int, Sprite> {
    match f
    case PLAYERS => c.players
    case ENEMIES => c.enemies
    case BOSSES => c.bosses
    case BULLETS => c.bullets
  }

  /** What one packet does to the sprites of a family other than the players. */
  function DrawnAfter(d: map<int, Sprite>, m: Message, f: Family): map<int, Sprite> {
    if m.kind == CreateKind(f) then d[m.id := SpriteOf(m)]
    else if m.kind == DestroyKind(f) && f != BULLETS then d - {m.id}
    else d
  }

  lemma EnemyCreated(c: Scene, m: Message)
    requires m.kind == CREATE_ENEMY
    ensures Receive(c, m) == c.(enemies := c.enemies[m.id := SpriteOf(m)])
  {
  }

  lemma EnemyDestroyed(c: Scene, m: Message)
    requires m.kind == DESTROY_ENEMY
    ensures Receive(c, m) == c.(enemies := c.enemies - {m.id})
  {
  }

  lemma EnemyKept(c: Scene, m: Message)
    requires m.kind != CREATE_ENEMY && m.kind != DESTROY_ENEMY
    ensures Receive(c, m) == Receive(c, m).(enemies := c.enemies)
  {
  }

  lemma BossCreated(c: Scene, m: Message)
    requires m.kind == CREATE_BOSS
    ensures Receive(c, m) == c.(bosses := c.bosses[m.id := SpriteOf(m)])
  {
  }

  lemma BossDestroyed(c: Scene, m: Message)
    requires m.kind == DESTROY_BOSS
    ensures Receive(c, m) == c.(bosses := c.bosses - {m.id})
  {
  }

  lemma BossKept(c: Scene, m: Message)
    requires m.kind != CREATE_BOSS && m.kind != DESTROY_BOSS
    ensures Receive(c, m) == Receive(c, m).(bosses := c.bosses)
  {
  }

  lemma BulletCreated(c: Scene, m: Message)
    requires m.kind == CREATE_BULLET
    ensures Receive(c, m) == c.(bullets := c.bullets[m.id := SpriteOf(m)])
  {
  }

  lemma BulletKept(c: Scene, m: Message)
    requires m.kind != CREATE_BULLET
    ensures Receive(c, m) == Receive(c, m).(bullets := c.bullets)
  {
  }

  lemma ReceiveDraws(c: Scene, m: Message, f: Family)
    requires f != PLAYERS
    ensures Drawn(Receive(c, m), f) == DrawnAfter(Drawn(c, f), m, f)
  {
    match f
    case ENEMIES =>
      if m.kind == CREATE_ENEMY {
        EnemyCreated(c, m);
      } else if m.kind == DESTROY_ENEMY {
        EnemyDestroyed(c, m);
      } else {
        EnemyKept(c, m);
      }
    case BOSSES =>
      if m.kind == CREATE_BOSS {
        BossCreated(c, m);
      } else if m.kind == DESTROY_BOSS {
        BossDestroyed(c, m);
      } else {
        BossKept(c, m);
      }
    case BULLETS =>
      if m.kind == CREATE_BULLET {
        BulletCreated(c, m);
      } else {
        BulletKept(c, m);
      }
  }

  // ---- Logs ----

  function DrawnFrom(log: seq<Message>, f: Family): map<int, Sprite> {
    if log == [] then map[] else DrawnAfter(DrawnFrom(log[..|log| - 1], f), log[|log| - 1], f)
  }

  lemma {:induction false} DrawnFromReplay(log: seq<Message>, f: Family)
    requires f != PLAYERS
    ensures Drawn(Replay(log), f) == DrawnFrom(log, f)
  {
    if log != [] {
      DrawnFromReplay(log[..|log| - 1], f);
      ReceiveDraws(Replay(log[..|log| - 1]), log[|log| - 1], f);
    }
  }

  lemma DrawnAppend(log: seq<Message>, m: Message, f: Family)
    ensures DrawnFrom(log + [m], f) == DrawnAfter(DrawnFrom(log, f), m, f)
  {
    assert (log + [m])[..|log|] == log;
  }

  /** Packets of other kinds change no sprite of the family. */
  lemma {:induction false} OthersKeepDrawn(a: seq<Message>, b: seq<Message>, kinds: set<PacketType>, f: Family)
    requires OnlyAdds(a, b, kinds) && CreateKind(f) !in kinds && (f != BULLETS ==> DestroyKind(f) !in kinds)
    ensures DrawnFrom(b, f) == DrawnFrom(a, f)
    decreases |b|
  {
    if |a| == |b| {
      assert a == b;
    } else {
      var init := b[..|b| - 1];
      assert init[..|a|] == b[..|a|];
      OthersKeepDrawn(a, init, kinds, f);
      assert b[|b| - 1].kind in kinds;
    }
  }

  lemma MinusTwice(d: map<int, Sprite>, ids: seq<int>, id: int)
    ensures d - Elements(ids + [id]) == d - Elements(ids) - {id}
  {
    assert Elements(ids + [id]) == Elements(ids) + {id};
  }

  lemma {:induction false} DestroyedAreGone(log: seq<Message>, ids: seq<int>, f: Family)
    requires f != BULLETS
    ensures DrawnFrom(log + Notices(DestroyKind(f), ids), f) == DrawnFrom(log, f) - Elements(ids)
    decreases |ids|
  {
    if ids == [] {
      assert log + Notices(DestroyKind(f), ids) == log;
      assert DrawnFrom(log, f) - Elements<int>([]) == DrawnFrom(log, f);
    } else {
      var init, id := ids[..|ids| - 1], ids[|ids| - 1];
      DestroyedAreGone(log, init, f);
      var before := log + Notices(DestroyKind(f), init);
      assert log + Notices(DestroyKind(f), ids) == before + [Destroyed(DestroyKind(f), id)];
      DrawnAppend(before, Destroyed(DestroyKind(f), id), f);
      MinusTwice(DrawnFrom(log, f), init, id);
      assert ids == init + [id];
    }
  }
}
