/** The client's sprite maps as a replica fed by the broadcast log. */
module Replica {
  import opened Collections
  import opened Protocol
  import opened GameState
  import opened Ledger

  datatype Sprite = Sprite(at: Pos, vx: real, vy: real)

  datatype Scene = Scene(
    players: map<int, Sprite>,
    enemies: map<int, Sprite>,
    bosses: map<int, Sprite>,
    bullets: map<int, Sprite>,
    fastBullets: map<int, Sprite>,
    alive: map<int, bool>,
    health: int,
    score: int
  )

  const EMPTY_SCENE: Scene := Scene(map[], map[], map[], map[], map[], map[], 100, 0)

  function SpriteOf(m: Message): Sprite {
    Sprite(Pos(m.x, m.y), m.vx, m.vy)
  }

  /** static_cast<int> of a float: truncation toward zero. */
  function Truncate(x: real): int {
    if x >= 0.0 then x.Floor else -((-x).Floor)
  }

  /** handleServerAction on one packet. DESTROY_BULLET is applied to the map of fast bullets, which nothing fills. */
  function Receive(c: Scene, m: Message): Scene {
    match m.kind
    case CREATE_ENEMY => c.(enemies := c.enemies[m.id := SpriteOf(m)])
    case CREATE_BOSS => c.(bosses := c.bosses[m.id := SpriteOf(m)])
    case CREATE_PLAYER => c.(players := c.players[m.id := SpriteOf(m)], alive := c.alive[m.id := true])
    case CREATE_BULLET => c.(bullets := c.bullets[m.id := SpriteOf(m)])
    case CHANGE =>
      if m.id in c.players then c.(players := c.players[m.id := c.players[m.id].(at := Pos(m.x, m.y))]) else c
    case UI_UPDATE => c.(health := Truncate(m.x), score := Truncate(m.y))
    case DESTROY_PLAYER => c.(players := c.players - {m.id}, alive := c.alive[m.id := false])
    case DESTROY_ENEMY => c.(enemies := c.enemies - {m.id})
    case DESTROY_BOSS => c.(bosses := c.bosses - {m.id})
    case DESTROY_BULLET => c.(fastBullets := c.fastBullets - {m.id})
    case _ => c
  }

  function Replay(log: seq<Message>): Scene {
    if log == [] then EMPTY_SCENE else Receive(Replay(log[..|log| - 1]), log[|log| - 1])
  }

  /** Every sprite moves on by its velocity. */
  function Glided(sprites: map<int, Sprite>): map<int, Sprite> {
    map id | id in sprites ::
      var s := sprites[id]; s.(at := Pos(s.at.x + s.vx, s.at.y + s.vy))
  }

  /** updatePositions, once per frame: everything but the players glides. */
  function Frame(c: Scene): Scene {
    c.(bullets := Glided(c.bullets), enemies := Glided(c.enemies), bosses := Glided(c.bosses),
       fastBullets := Glided(c.fastBullets))
  }

  /** The loops of updatePositions; an unordered map is walked in any order. */
  method GlideAll(sprites: map<int, Sprite>) returns (moved: map<int, Sprite>)
    ensures moved == Glided(sprites)
  {
    moved := sprites;
    var left := sprites.Keys;
    while left != {}
      invariant left <= moved.Keys == sprites.Keys
      invariant forall id | id in sprites :: moved[id] == if id in left then sprites[id] else Glided(sprites)[id]
      decreases left
    {
      ghost var some := Inhabited(left);
      var id :| id in left;
      var s := moved[id];
      moved := moved[id := s.(at := Pos(s.at.x + s.vx, s.at.y + s.vy))];
      left := left - {id};
    }
    assert forall id | id in moved :: moved[id] == Glided(sprites)[id];
  }

  /** The GameScene object, reduced to the state that server packets change. */
  class GameScene {
    var playerSprites: map<int, Sprite>
    var enemySprites: map<int, Sprite>
    var bossSprites: map<int, Sprite>
    var bulletSprites: map<int, Sprite>
    var fastBulletSprites: map<int, Sprite>
    var playerAliveStatus: map<int, bool>
    var health: int
    var score: int

    function View(): Scene
      reads this
    {
      Scene(playerSprites, enemySprites, bossSprites, bulletSprites, fastBulletSprites, playerAliveStatus, health,
            score)
    }

    constructor ()
      ensures View() == EMPTY_SCENE
    {
      playerSprites, enemySprites, bossSprites, bulletSprites, fastBulletSprites := map[], map[], map[], map[], map[];
      playerAliveStatus, health, score := map[], 100, 0;
    }

    method HandleServerAction(m: Message)
      modifies this
      ensures View() == Receive(old(View()), m)
    {
      match m.kind {
        case CREATE_ENEMY => enemySprites := enemySprites[m.id := SpriteOf(m)];
        case CREATE_BOSS => bossSprites := bossSprites[m.id := SpriteOf(m)];
        case CREATE_PLAYER =>
          playerSprites := playerSprites[m.id := SpriteOf(m)];
          playerAliveStatus := playerAliveStatus[m.id := true];
        case CREATE_BULLET => bulletSprites := bulletSprites[m.id := SpriteOf(m)];
        case CHANGE => UpdateSpritePosition(m);
        case UI_UPDATE => health, score := Truncate(m.x), Truncate(m.y);
        case DESTROY_PLAYER =>
          playerSprites := playerSprites - {m.id};
          playerAliveStatus := playerAliveStatus[m.id := false];
        case DESTROY_ENEMY => enemySprites := enemySprites - {m.id};
        case DESTROY_BOSS => bossSprites := bossSprites - {m.id};
        case DESTROY_BULLET => fastBulletSprites := fastBulletSprites - {m.id};
        case _ =>
      }
    }

    method UpdateSpritePosition(m: Message)
      requires m.kind == CHANGE
      modifies this`playerSprites
      ensures View() == Receive(old(View()), m)
    {
      if m.id in playerSprites {
        playerSprites := playerSprites[m.id := playerSprites[m.id].(at := Pos(m.x, m.y))];
      }
    }

    method UpdatePositions()
      modifies this
      ensures View() == Frame(old(View()))
    {
      bulletSprites := GlideAll(bulletSprites);
      enemySprites := GlideAll(enemySprites);
      bossSprites := GlideAll(bossSprites);
      fastBulletSprites := GlideAll(fastBulletSprites);
    }
  }

  /** The kinds of entities, with the packets that announce them. */
  datatype Family = PLAYERS | ENEMIES | BOSSES | BULLETS

  function CreateKind(f: Family): PacketType {
    match f
    case PLAYERS => CREATE_PLAYER
    case ENEMIES => CREATE_ENEMY
    case BOSSES => CREATE_BOSS
    case BULLETS => CREATE_BULLET
  }

  function DestroyKind(f: Family): PacketType {
    match f
    case PLAYERS => DESTROY_PLAYER
    case ENEMIES => DESTROY_ENEMY
    case BOSSES => DESTROY_BOSS
    case BULLETS => DESTROY_BULLET
  }

  function Sprites(c: Scene, f: Family): set<int> {
    match f
    case PLAYERS => c.players.Keys
    case ENEMIES => c.enemies.Keys
    case BOSSES => c.bosses.Keys
    case BULLETS => c.bullets.Keys
  }

  lemma ReceiveKeys(c: Scene, m: Message, f: Family)
    ensures Sprites(Receive(c, m), f) ==
            if m.kind == CreateKind(f) then Sprites(c, f) + {m.id}
            else if m.kind == DestroyKind(f) && f != BULLETS then Sprites(c, f) - {m.id}
            else Sprites(c, f)
  {
  }

  lemma OrderedPrefix(log: seq<Message>, created: PacketType, destroyed: PacketType)
    requires log != [] && DestroyedAfterCreated(log, created, destroyed)
    ensures DestroyedAfterCreated(log[..|log| - 1], created, destroyed)
    ensures log[|log| - 1].kind == destroyed ==> log[|log| - 1].id in Ids(log[..|log| - 1], created)
  {
    var init := log[..|log| - 1];
    forall j | 0 <= j < |init| && init[j].kind == destroyed ensures init[j].id in Ids(init[..j], created) {
      assert init[..j] == log[..j];
    }
  }

  lemma {:induction false} DestroyedWereCreated(log: seq<Message>, created: PacketType, destroyed: PacketType)
    requires DestroyedAfterCreated(log, created, destroyed)
    ensures Elements(Ids(log, destroyed)) <= Elements(Ids(log, created))
  {
    if log != [] {
      OrderedPrefix(log, created, destroyed);
      DestroyedWereCreated(log[..|log| - 1], created, destroyed);
      var c, d := Ids(log[..|log| - 1], created), Ids(log[..|log| - 1], destroyed);
      forall id | id in Ids(log, destroyed) ensures id in Ids(log, created) {
        assert id in Elements(d) ==> id in Elements(c);
      }
    }
  }

  /** The last packet of a log whose earlier packets are already accounted for. */
  lemma ReplayKeysOnce(init: seq<Message>, m: Message, f: Family)
    requires f != BULLETS
    requires var created, destroyed := Elements(Ids(init, CreateKind(f))), Elements(Ids(init, DestroyKind(f)));
      && Sprites(Replay(init), f) == created - destroyed
      && (m.kind == CreateKind(f) ==> m.id !in destroyed)
    ensures Sprites(Receive(Replay(init), m), f) ==
            Elements(Ids(init + [m], CreateKind(f))) - Elements(Ids(init + [m], DestroyKind(f)))
  {
    ReceiveKeys(Replay(init), m, f);
    IdSetsGrow(init, m, CreateKind(f));
    IdSetsGrow(init, m, DestroyKind(f));
  }

  /** Replaying a log that creates each id once and destroys only what it created leaves created minus destroyed. */
  lemma {:induction false} ReplayKeys(log: seq<Message>, f: Family)
    requires f != BULLETS
    requires NoDuplicates(Ids(log, CreateKind(f)))
    requires DestroyedAfterCreated(log, CreateKind(f), DestroyKind(f))
    ensures Sprites(Replay(log), f) == Elements(Ids(log, CreateKind(f))) - Elements(Ids(log, DestroyKind(f)))
  {
    if log == [] {
      assert Elements(Ids(log, CreateKind(f))) == {};
    } else {
      var init, m := log[..|log| - 1], log[|log| - 1];
      OrderedPrefix(log, CreateKind(f), DestroyKind(f));
      PrefixNoDuplicates(Ids(init, CreateKind(f)), Ids(log, CreateKind(f)));
      ReplayKeys(init, f);
      DestroyedWereCreated(init, CreateKind(f), DestroyKind(f));
      assert log == init + [m];
      if m.kind == CreateKind(f) {
        IdsAppend(init, m, m.kind);
        NewIdIsNew(Ids(init, m.kind), m.id);
      }
      ReplayKeysOnce(init, m, f);
    }
  }

  lemma IdSetsGrow(log: seq<Message>, m: Message, kind: PacketType)
    ensures Elements(Ids(log + [m], kind)) == Elements(Ids(log, kind)) + if m.kind == kind then {m.id} else {}
  {
    IdsAppend(log, m, kind);
  }

  lemma NewIdIsNew(ids: seq<int>, id: int)
    requires NoDuplicates(ids + [id])
    ensures id !in Elements(ids)
  {
    forall i | 0 <= i < |ids| ensures ids[i] != id {
      assert (ids + [id])[i] != (ids + [id])[|ids|];
    }
  }

  lemma PrefixNoDuplicates(a: seq<int>, b: seq<int>)
    requires NoDuplicates(b) && |a| <= |b| && b[..|a|] == a
    ensures NoDuplicates(a)
  {
  }

  /** Bullets are only ever added, because the client looks for destroyed bullets in another map. */
  lemma {:induction false} ReplayBullets(log: seq<Message>)
    ensures Sprites(Replay(log), BULLETS) == Elements(Ids(log, CREATE_BULLET))
    ensures Replay(log).fastBullets == map[]
  {
    if log != [] {
      var init, m := log[..|log| - 1], log[|log| - 1];
      ReplayBullets(init);
      ReceiveKeys(Replay(init), m, BULLETS);
      IdSetsGrow(init, m, CREATE_BULLET);
      assert log == init + [m];
    }
  }

  /** The alive flags say which of the players ever created still have a sprite. */
  lemma {:induction false} ReplayAlive(log: seq<Message>)
    requires DestroyedAfterCreated(log, CREATE_PLAYER, DESTROY_PLAYER)
    ensures Replay(log).alive.Keys == Elements(Ids(log, CREATE_PLAYER))
    ensures forall id | id in Replay(log).alive :: Replay(log).alive[id] <==> id in Replay(log).players
  {
    if log != [] {
      var init, m := log[..|log| - 1], log[|log| - 1];
      OrderedPrefix(log, CREATE_PLAYER, DESTROY_PLAYER);
      ReplayAlive(init);
      IdSetsGrow(init, m, CREATE_PLAYER);
      assert log == init + [m];
      assert m.kind == DESTROY_PLAYER ==> m.id in Elements(Ids(init, CREATE_PLAYER));
    }
  }
}
