/**
  The authoritative game state as a value, and one function per operation of Game and AGame.
  The class in Game.dfy is proved to compute exactly these functions.
 */
module GameState {
  import opened Collections
  import opened Protocol

  datatype Pos = Pos(x: real, y: real)

  datatype Player = Player(pos: Pos, hp: int, score: int)

  /** A buffered PlayerAction. */
  datatype Action = Action(player: int, code: int, processed: bool)

  datatype World = World(
    players: map<int, Player>,
    bullets: map<int, Pos>,
    enemies: map<int, Pos>,
    bosses: map<int, Pos>,
    deadPlayers: seq<int>,
    deadBullets: seq<int>,
    deadEnemies: seq<int>,
    deadBosses: seq<int>,
    shooters: map<int, int>,
    totalPlayers: int,
    currentWave: int,
    enemiesPerWave: int,
    enemyId: int,
    bossId: int,
    nextBulletId: int,
    lastKnown: map<int, Pos>,
    actions: seq<Action>,
    log: seq<Message>
  )

  const SPAWN_X: real := 1000.0
  const MOVE_DISTANCE: real := 20.0

  /** The game as constructed, before any player is spawned. */
  const NEW_GAME: World :=
    World(map[], map[], map[], map[], [], [], [], [], map[], 0, 0, 5, 0, 0, 0, map[], [], [])

  function PlaceMessage(kind: PacketType, id: int, p: Pos, vx: real): Message {
    Message(kind, id, p.x, p.y, vx, 0.0)
  }

  function Destroyed(kind: PacketType, id: int): Message {
    Message(kind, id, 0.0, 0.0, 0.0, 0.0)
  }

  function UiMessage(id: int, p: Player): Message {
    Message(UI_UPDATE, id, p.hp as real, p.score as real, 0.0, 0.0)
  }

  // ---- Players ----

  /** players.emplace leaves an existing entry alone; the hp and score updates then apply to whatever is there. */
  function SpawnPlayer(w: World, id: int, at: Pos): World {
    var before := if id in w.players then w.players[id] else Player(at, 0, 0);
    var p := before.(hp := before.hp + 100);
    w.(players := w.players[id := p],
       log := w.log + [PlaceMessage(CREATE_PLAYER, id, at, 0.0), UiMessage(id, p)])
  }

  function SpawnPoint(id: int): Pos {
    Pos(100.0 * (id as real + 1.0), 100.0)
  }

  function SpawnPlayersFrom(w: World, i: nat, n: nat): World
    decreases n - i
  {
    if i >= n then w else SpawnPlayersFrom(SpawnPlayer(w, i, SpawnPoint(i)), i + 1, n)
  }

  function InitializePlayers(w: World, n: nat): World {
    SpawnPlayersFrom(w.(totalPlayers := n), 0, n)
  }

  /** stop() empties the maps and the dead lists and nothing else. */
  function Stop(w: World): World {
    w.(players := map[], enemies := map[], bullets := map[], bosses := map[],
       deadPlayers := [], deadEnemies := [], deadBullets := [], deadBosses := [])
  }

  function Clamp(v: real, top: real): real {
    if v < 0.0 then 0.0 else if v > top then top else v
  }

  function ClampToBounds(p: Pos): Pos {
    Pos(Clamp(p.x, 1195.0), Clamp(p.y, 630.0))
  }

  function Displaced(p: Pos, code: int): Pos {
    match code
    case 1 => Pos(p.x - MOVE_DISTANCE, p.y)
    case 2 => Pos(p.x + MOVE_DISTANCE, p.y)
    case 3 => Pos(p.x, p.y - MOVE_DISTANCE)
    case 4 => Pos(p.x, p.y + MOVE_DISTANCE)
    case _ => p
  }

  /** One iteration of playerPacketFactory: a CHANGE is queued only if the cached position differs. */
  function Announce(w: World, id: int): World {
    if id in w.players && (id !in w.lastKnown || w.lastKnown[id] != w.players[id].pos) then
      w.(lastKnown := w.lastKnown[id := w.players[id].pos],
         log := w.log + [PlaceMessage(CHANGE, id, w.players[id].pos, 0.0)])
    else w
  }

  function AnnounceFrom(w: World, i: nat): (r: World)
    ensures r == w.(lastKnown := r.lastKnown, log := r.log)
    decreases |w.players| - i
  {
    if i >= |w.players| then w else AnnounceFrom(Announce(w, i), i + 1)
  }

  function HandlePlayerMove(w: World, id: int, code: int): World
    requires id in w.players
  {
    var p := w.players[id];
    AnnounceFrom(w.(players := w.players[id := p.(pos := ClampToBounds(Displaced(p.pos, code)))]), 0)
  }

  /** A shot by an unknown player is only reported. */
  function SpawnBullet(w: World, id: int): World {
    if id in w.players then
      var at := Pos(w.players[id].pos.x + 50.0, w.players[id].pos.y + 25.0);
      var b := w.nextBulletId;
      w.(bullets := if b in w.bullets then w.bullets else w.bullets[b := at],
         shooters := w.shooters[b := id],
         log := w.log + [PlaceMessage(CREATE_BULLET, b, at, 5.0)],
         nextBulletId := b + 1)
    else w
  }

  // ---- The action buffer ----

  predicate IsMove(code: int) { 0 < code < 5 }

  predicate IsHandled(code: int) { 0 < code <= 5 }

  function AddAction(w: World, id: int, code: int): World {
    w.(actions := w.actions + [Action(id, code, false)])
  }

  /** Whether executing this action raises std::out_of_range, which nothing catches. */
  predicate Throws(w: World, a: Action) {
    IsMove(a.code) && a.player !in w.players
  }

  function Execute(w: World, a: Action): World
    requires !Throws(w, a)
  {
    if IsMove(a.code) then HandlePlayerMove(w, a.player, a.code)
    else if a.code == 5 then SpawnBullet(w, a.player)
    else w
  }

  function Mark(w: World, i: nat): World
    requires i < |w.actions|
  {
    if IsHandled(w.actions[i].code) then w.(actions := w.actions[i := w.actions[i].(processed := true)]) else w
  }

  /** The loop of processPlayerActions from index i on; None when an action throws. */
  function ExecuteFrom(w: World, i: nat): Option<World>
    decreases |w.actions| - i
  {
    if i >= |w.actions| then Some(w)
    else if Throws(w, w.actions[i]) then None
    else ExecuteFrom(Mark(Execute(w, w.actions[i]), i), i + 1)
  }

  predicate Unprocessed(a: Action) { !a.processed }

  /** processPlayerActions: run every entry in order, then drop the processed ones. */
  function ProcessActions(w: World): Option<World> {
    match ExecuteFrom(w, 0)
    case None => None
    case Some(done) => Some(done.(actions := Filter(Unprocessed, done.actions)))
  }

  // ---- Movement ----

  function Shift(m: map<int, Pos>, dx: real): map<int, Pos> {
    map id | id in m :: Pos(m[id].x + dx, m[id].y)
  }

  function UpdateBullets(w: World, due: bool): World {
    if due then w.(bullets := Shift(w.bullets, 5.0)) else w
  }

  function UpdateEnemies(w: World, due: bool): World {
    if due then w.(enemies := Shift(w.enemies, -1.0), bosses := Shift(w.bosses, -0.1)) else w
  }

  // ---- Collisions ----

  /** All four overloads of checkCollision; the comparison with the distance 10 is made on squares. */
  predicate Collides(a: Pos, b: Pos) {
    var dx := a.x - b.x;
    var dy := a.y - b.y;
    && dx * dx + dy * dy > 100.0
    && a.x < b.x + 60.0 && a.x + 60.0 > b.x
    && a.y < b.y + 80.0 && a.y + 80.0 > b.y
  }

  /** The hits of one A entity among the targets that are left, in the order in which the inner loop meets them. */
  function HitsOf(a: int, p: Pos, targets: map<int, Pos>, left: set<int>): seq<(int, int)>
    requires left <= targets.Keys
    decreases |left|
  {
    if left == {} then []
    else
      var b := Least(left);
      var rest := HitsOf(a, p, targets, left - {b});
      if Collides(p, targets[b]) then [(a, b)] + rest else rest
  }

  function HitsFrom(movers: map<int, Pos>, targets: map<int, Pos>, left: set<int>): seq<(int, int)>
    requires left <= movers.Keys
    decreases |left|
  {
    if left == {} then []
    else
      var a := Least(left);
      HitsOf(a, movers[a], targets, targets.Keys) + HitsFrom(movers, targets, left - {a})
  }

  /** Every colliding pair, in the order of the nested loops of detectCollisions. */
  function Hits(movers: map<int, Pos>, targets: map<int, Pos>): seq<(int, int)> {
    HitsFrom(movers, targets, movers.Keys)
  }

  function Positions(players: map<int, Player>): map<int, Pos> {
    map id | id in players :: players[id].pos
  }

  /** Every player present earns the points of every hit. */
  function Award(players: map<int, Player>, points: int): map<int, Player> {
    map id | id in players :: players[id].(score := players[id].score + points)
  }

  /** k added up n times. */
  function Times(k: int, n: nat): int {
    if n == 0 then 0 else Times(k, n - 1) + k
  }

  function HitCount(hits: seq<(int, int)>, id: int): nat {
    if hits == [] then 0
    else HitCount(hits[..|hits| - 1], id) + if hits[|hits| - 1].0 == id then 1 else 0
  }

  /** Players after a list of contacts, each costing its player `damage` and paying everyone `points`. */
  function AfterContacts(players: map<int, Player>, hits: seq<(int, int)>, damage: int, points: int): map<int, Player> {
    map id | id in players ::
      players[id].(hp := players[id].hp - Times(damage, HitCount(hits, id)),
                   score := players[id].score + Times(points, |hits|))
  }

  /** The ids pushed on deadPlayers: one push per contact that leaves its player at 0 hp or less. */
  function Marked(players: map<int, Player>, hits: seq<(int, int)>, damage: int): seq<int>
  {
    if hits == [] then []
    else
      var last := hits[|hits| - 1].0;
      Marked(players, hits[..|hits| - 1], damage) +
      if last in players && players[last].hp - Times(damage, HitCount(hits, last)) <= 0 then [last] else []
  }

  function BulletsHitEnemies(w: World): World {
    var hits := Hits(w.bullets, w.enemies);
    w.(deadBullets := w.deadBullets + Firsts(hits), deadEnemies := w.deadEnemies + Seconds(hits),
       players := Award(w.players, Times(5, |hits|)))
  }

  function BulletsHitBosses(w: World): World {
    var hits := Hits(w.bullets, w.bosses);
    w.(deadBullets := w.deadBullets + Firsts(hits), deadBosses := w.deadBosses + Seconds(hits),
       players := Award(w.players, Times(20, |hits|)))
  }

  function PlayersHitEnemies(w: World): World {
    var hits := Hits(Positions(w.players), w.enemies);
    w.(deadPlayers := w.deadPlayers + Marked(w.players, hits, 10), deadEnemies := w.deadEnemies + Seconds(hits),
       players := AfterContacts(w.players, hits, 10, 5))
  }

  function PlayersHitBosses(w: World): World {
    var hits := Hits(Positions(w.players), w.bosses);
    w.(deadPlayers := w.deadPlayers + Marked(w.players, hits, 20), deadBosses := w.deadBosses + Seconds(hits),
       players := AfterContacts(w.players, hits, 20, 20))
  }

  predicate OutOfBounds(p: Pos) {
    p.x < -50.0 || p.x > 1280.0 || p.y < -50.0 || p.y > 720.0
  }

  function OutOfBoundsKeys(m: map<int, Pos>, left: set<int>): seq<int>
    requires left <= m.Keys
    decreases |left|
  {
    if left == {} then []
    else
      var id := Least(left);
      (if OutOfBounds(m[id]) then [id] else []) + OutOfBoundsKeys(m, left - {id})
  }

  function DetectOutOfBounds(w: World): World {
    w.(deadBullets := w.deadBullets + OutOfBoundsKeys(w.bullets, w.bullets.Keys),
       deadEnemies := w.deadEnemies + OutOfBoundsKeys(w.enemies, w.enemies.Keys),
       deadBosses := w.deadBosses + OutOfBoundsKeys(w.bosses, w.bosses.Keys))
  }

  /** removeEntities on the keys of a map: the entries that stay in the dead list, and the ids erased, in order. */
  function Sweep(live: set<int>, dead: seq<int>): (seq<int>, seq<int>) {
    if dead == [] then ([], [])
    else if dead[0] in live then
      var (kept, removed) := Sweep(live - {dead[0]}, dead[1..]);
      (kept, [dead[0]] + removed)
    else
      var (kept, removed) := Sweep(live, dead[1..]);
      ([dead[0]] + kept, removed)
  }

  function Notices(kind: PacketType, ids: seq<int>): (r: seq<Message>)
    ensures |r| == |ids|
  {
    seq(|ids|, i requires 0 <= i < |ids| => Destroyed(kind, ids[i]))
  }

  function RemoveBullets(w: World): World {
    var (kept, removed) := Sweep(w.bullets.Keys, w.deadBullets);
    w.(bullets := w.bullets - Elements(removed), shooters := w.shooters - Elements(removed), deadBullets := kept,
       log := w.log + Notices(DESTROY_BULLET, removed))
  }

  function RemoveEnemies(w: World): World {
    var (kept, removed) := Sweep(w.enemies.Keys, w.deadEnemies);
    w.(enemies := w.enemies - Elements(removed), deadEnemies := kept,
       log := w.log + Notices(DESTROY_ENEMY, removed))
  }

  function RemovePlayers(w: World): World {
    var (kept, removed) := Sweep(w.players.Keys, w.deadPlayers);
    w.(players := w.players - Elements(removed), totalPlayers := w.totalPlayers - |removed|, deadPlayers := kept,
       log := w.log + Notices(DESTROY_PLAYER, removed))
  }

  function RemoveBosses(w: World): World {
    var (kept, removed) := Sweep(w.bosses.Keys, w.deadBosses);
    w.(bosses := w.bosses - Elements(removed), deadBosses := kept,
       log := w.log + Notices(DESTROY_BOSS, removed))
  }

  function MarkCasualties(w: World): World {
    DetectOutOfBounds(PlayersHitBosses(PlayersHitEnemies(BulletsHitBosses(BulletsHitEnemies(w)))))
  }

  function RemoveCasualties(w: World): World {
    RemoveBosses(RemovePlayers(RemoveEnemies(RemoveBullets(w))))
  }

  function CheckCollisions(w: World): World {
    RemoveCasualties(MarkCasualties(w))
  }

  // ---- Waves ----

  function SpawnEnemy(w: World, y: real): World {
    var id := w.enemyId;
    w.(enemies := if id in w.enemies then w.enemies else w.enemies[id := Pos(SPAWN_X, y)],
       log := w.log + [PlaceMessage(CREATE_ENEMY, id, Pos(SPAWN_X, y), -1.0)],
       enemyId := id + 1)
  }

  function SpawnEnemies(w: World, ys: seq<real>): World
    decreases |ys|
  {
    if ys == [] then w else SpawnEnemies(SpawnEnemy(w, ys[0]), ys[1..])
  }

  function SpawnBoss(w: World, y: real): World {
    var id := w.bossId;
    w.(bosses := if id in w.bosses then w.bosses else w.bosses[id := Pos(SPAWN_X, y)],
       log := w.log + [PlaceMessage(CREATE_BOSS, id, Pos(SPAWN_X, y), -0.1)],
       bossId := id + 1)
  }

  /** How many heights the next wave draws: a boss with its four enemies, or enemiesPerWave enemies. */
  function WaveSize(w: World): int {
    if (w.currentWave + 1) % 3 == 0 then 5 else w.enemiesPerWave
  }

  function NextWave(w: World, ys: seq<real>): World
    requires |ys| == WaveSize(w)
  {
    var v := w.(currentWave := w.currentWave + 1);
    if v.currentWave % 3 == 0 then SpawnEnemies(SpawnBoss(v, ys[0]), ys[1..])
    else
      var spawned := SpawnEnemies(v.(currentWave := v.currentWave + 1), ys);
      spawned.(enemiesPerWave := spawned.enemiesPerWave + 5)
  }

  // ---- Status line ----

  function UiMessages(players: map<int, Player>, left: set<int>): seq<Message>
    requires left <= players.Keys
    decreases |left|
  {
    if left == {} then []
    else
      var id := Least(left);
      [UiMessage(id, players[id])] + UiMessages(players, left - {id})
  }

  function UpdateUI(w: World, due: bool): World {
    if due then w.(log := w.log + UiMessages(w.players, w.players.Keys)) else w
  }
}
