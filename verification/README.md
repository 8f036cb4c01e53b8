# R-Type server, client and ECS: a verified model

This project models the multiplayer shooter's authoritative server, the part of the client that follows it, and the
entity-component registry, and proves properties of whole runs of them.

* **The game** (`GameState`, `Game`). `GameState` gives the state of `Game`/`AGame` as a value (four id-keyed maps, four
  dead lists with their duplicates, wave counters, the position cache, the action buffer and the broadcast log) and each
  operation as a function. The class `Game` has the same fields and performs each operation as the code does, loop by
  loop; every method is proved to compute its function. A `std::map` is walked in key order by taking the least key left.
  Each game object has its own position; hp and score are integers, positions are reals. The distance test `sqrt(d2) > 10`
  is made on squares.
* **Runs** (`GameRuns`). One game as interleaved steps: the game thread takes one call of the body of `update` at a time
  and one step per buffered action, and the network thread shoots and queues actions between any two steps. Expired
  timers and the random heights of a wave are arguments of events. A step that is not enabled does nothing, so that a
  statement over all event sequences is a statement over all interleavings. `Ticks` shows that a pass of `update` is
  such a run.
* **Properties of runs** (`FreshIds`, `Casualties`, `Boxes`, `KillNotices`, `Accounts`, `Spawning`, `Waves`, `Steering`,
  `Motion`, `Lifetimes`, `Draining`, `ActionRuns`). One check in terms of boxes that share a point, health and score as
  counts of distinct contacts, moves in numbers from the key to the new place, waves in closed form, no tunnelling,
  bounded lives, and actions run exactly once.
* **The replica** (`Ledger`, `Replica`, `BroadcastRuns`, `Sprites`, `DeadReckoning`, `Frames`, `StatusLine`,
  `DeltaUpdates`, `HiddenMoves`, `Lines`, `LostMoves`, `PlayerPlaces`, `WholePositions`, `EndToEnd`, `PrintedSprites`).
  The client's sprite maps, fed by the broadcast log, hold the server's entities at every point; also when the log is
  printed, sent as text and parsed. Bullets, enemies and bosses are announced once, where they appear; the client moves
  them on frame by frame, and is off by exactly the frames that it is behind or ahead. Where the replica falls behind,
  the condition is exact and a run from the start of a game shows it.
* **The wire** (`Numerals`, `Wire`, `BadPackets`, `Printing`, `ClientReader`, `Gaps`). Printing and parsing of packets are
  inverse, what a bad packet leaves behind is exact, and so is the client's gap accounting on a channel that keeps order.
* **The server** (`Clients`, `Recycling`, `Server`, `Deliveries`, `Sessions`, `Handlers`, `SessionGames`,
  `SessionFailures`, `PacketHandler`). Client ids and the order in which they come back, the send queue, and the handlers
  that start games, answer clients and map endpoints to players. A run of the server up to
  the end of its first game is a run of that game, so that the theorems about games hold of the server.
* **The blocking queue** (`BlockingQueue`). Any number of threads inside `push` and `pop`, each with a program counter,
  spurious wakeups included.
* **The registry** (`SparseArrays`, `RegistryState`, `Registry`, `Projectiles`). A free list over growing arrays of
  optional components stands for a set of live entities and one map per kind of component, also while
  `projectileSystem` kills inside its loop.

Where a property that one would expect does not hold of the code, the code is kept and the exact condition is proved:

* A check never removes anything unjustly, although `removeEntities` leaves stale ids behind, because ids are never reused.
* `playerPacketFactory` asks for the ids below the number of players *still alive*. One move is announced under the exact
  condition of `MoveIsShownIff`; once the number of players has fallen to a survivor's id, the replica shows that player
  at the same place for as long as it lives (`HiddenForLife`). In the game of `LostMoves.SurvivorCanBeHidden` eleven
  players start, two waves kill player 9, and player 10's moves are lost. The position cache is static and outlives a
  game, so that a second game can suppress a first move (`SecondGameCanHideAMove`).
* The client removes bullets from another map than the one it adds them to, so its bullets agree with the server's only
  until the first bullet is removed (`BulletReplicaAgreesIff`); `BulletSpriteStays` is a game in which one is.
* A move by a client whose id is not that of a living player raises an exception that nothing catches (`MoveThrowsIff`);
  a client that connects during a game and presses a key is such a client (`LateClientMoveThrows`).
* Client ids are player ids after game start exactly when every recyclable id is at least the number of clients and no
  player with such an id is left over in the map (`StartMatchesIff`). In the first game nobody is left over. Later
  somebody can be: GAME_END may be handled before the game's thread sets up its players (`LateBootMismatches`).
* Direct replies take a sequence number but bypass the send queue, so a client that connects while packets are queued
  computes a negative loss (`ReplyCanOvertakeQueue`, `InOrderIffNotOvertaken`). Heartbeats take numbers too and are
  counted as lost (`GapsCountSkipped`). `Network/protocol.md` does not mention either; the model follows the code.
* `kill_entity` does not check that the entity exists; it keeps the registry sound exactly when it does
  (`KillKeepsSoundIff`, `DoubleKillSharesId`).

## Model

| member | source | states |
|---|---|---|
| `GameEngine.Game.constructor` | R-Type/src/Game.cpp:11-13 | a new game has no entities, five enemies per wave and all counters at 0 |
| `GameEngine.Game.SpawnPlayer` | GameEngine/src/AGame.cpp:83-92 | the player is inserted unless present, gains 100 hp, and CREATE_PLAYER and UI_UPDATE are queued |
| `GameEngine.Game.InitializePlayers` | R-Type/src/Game.cpp:15-20 | players 0..n-1 are spawned in order at their spawn points |
| `GameEngine.Game.Stop` | R-Type/src/Game.cpp:44-54 | exactly the four maps and the four dead lists are emptied; counters, cache, buffer and log stay |
| `GameEngine.Game.HasPositionChanged` | R-Type/src/Game.cpp:124-131 | answers whether the cache lacks this position, and if so stores it |
| `GameEngine.Game.PlayerPacketFactory` | R-Type/src/Game.cpp:133-147 | the whole new state: one CHANGE per id below the player count that is present and differs from the cache |
| `GameEngine.Game.HandlePlayerMove` | R-Type/src/Game.cpp:149-196 | the named player moves by 20 in the action's direction, clamped to the screen, and changed positions are announced |
| `GameEngine.Game.SpawnBullet` | GameEngine/src/AGame.cpp:94-113 | a living shooter's bullet appears 50 right and 25 below under the next id and is announced; an unknown shooter changes nothing |
| `GameEngine.Game.AddPlayerAction` | GameEngine/src/AGame.cpp:30-33 | appends one unprocessed action |
| `GameEngine.Game.ProcessPlayerActions` | GameEngine/src/AGame.cpp:35-50 | the state after running all actions in order and dropping the processed ones, or the exception when one names a missing player |
| `GameEngine.Game.DeletePlayerAction` | GameEngine/src/AGame.cpp:52-57 | the unprocessed actions stay, in order |
| `GameEngine.Game.UpdateBullets` | R-Type/src/Game.cpp:200-212 | if the timer has expired every bullet moves right by 5 |
| `GameEngine.Game.UpdateEnemies` | R-Type/src/Game.cpp:268-283 | if the timer has expired every enemy moves left by 1 and every boss by 0.1 |
| `GameEngine.MoveAll` | R-Type/src/Game.cpp:207-209 | every entry of the map moves once |
| `GameEngine.Game.AwardAll` | R-Type/src/Game.cpp:489-509 | every player present gains the points |
| `GameEngine.Game.HandlePlayerContact` | R-Type/src/Game.cpp:474-483 | the player loses the damage and is marked if its hp is then 0 or less |
| `GameEngine.Game.HitTargets` | R-Type/src/Game.cpp:522-527 | one bullet against all targets: marks and points for each hit, in order, duplicates kept |
| `GameEngine.Game.DetectBulletCollisions` | R-Type/src/Game.cpp:518-542 | all bullets against enemies or bosses: marks and points for each colliding pair, in loop order |
| `GameEngine.Game.TouchTargets` | R-Type/src/Game.cpp:548-553 | one player against all targets: damage, marks and points for each contact |
| `GameEngine.Game.DetectPlayerCollisions` | R-Type/src/Game.cpp:544-568 | all players against enemies or bosses: damage, marks and points for each contact, in loop order |
| `GameEngine.Game.DetectOutOfBounds` | R-Type/src/Game.cpp:309-330 | bullets, enemies and bosses outside the bounds are appended to their dead lists, players are not |
| `GameEngine.PushOutOfBounds` | R-Type/src/Game.cpp:310-315 | the out-of-bounds ids of one map are appended in id order |
| `GameEngine.Game.RemoveEntities` | R-Type/src/Game.cpp:332-345 | the loop that erases while it walks the dead list leaves, removes and announces exactly what the sweep says |
| `GameEngine.Game.RemoveBullets` | R-Type/src/Game.cpp:378-392 | bullets and their shooters' entries go, with one DESTROY_BULLET each |
| `GameEngine.Game.RemoveEnemies` | R-Type/src/Game.cpp:332-345 | enemies go, with one DESTROY_ENEMY each |
| `GameEngine.Game.RemovePlayers` | R-Type/src/Game.cpp:362-376 | players go, with one DESTROY_PLAYER each, and totalPlayers falls by their number |
| `GameEngine.Game.RemoveBosses` | R-Type/src/Game.cpp:347-360 | bosses go, with one DESTROY_BOSS each |
| `GameEngine.Game.CheckCollisions` | R-Type/src/Game.cpp:292-307 | the whole state after the four detections, the bounds and the four removals in order |
| `GameEngine.Game.SpawnEnemy` | R-Type/src/Game.cpp:247-253 | an enemy appears at (1000, y) under the next id and is announced there |
| `GameEngine.Game.SpawnBoss` | R-Type/src/Game.cpp:216-222 | a boss appears at (1000, y) under the next id and is announced there |
| `GameEngine.Game.WaveSystem` | R-Type/src/Game.cpp:73-90 | a due wave is a boss with four enemies, or a plain wave after one more increment of the wave number |
| `GameEngine.Game.StartNextWave` | R-Type/src/Game.cpp:239-245 | spawns enemiesPerWave enemies and then raises that number by 5 |
| `GameEngine.Game.UpdateUI` | R-Type/src/Game.cpp:94-110 | queues one UI_UPDATE per player in id order when due |
| `GameEngine.Game.Update` | R-Type/src/Game.cpp:22-31 | one pass of the loop body is the six calls in order, or an exception out of the first |
| `Contacts.HitsExact` | R-Type/src/Game.cpp:518-568 | the nested loops meet every colliding pair exactly once and no other |
| `Contacts.MarkedExact` | R-Type/src/Game.cpp:474-483 | a player is marked exactly when the contacts leave it no hp |
| `Contacts.SweepExact` | R-Type/src/Game.cpp:362-376 | removeEntities erases exactly the listed live ids, once each, and loses no other list entry |
| `Contacts.OutOfBoundsKeysExact` | R-Type/src/Game.cpp:309-330 | exactly the entities outside the bounds are marked |
| `Casualties.KillsAreJustified` | R-Type/src/Game.cpp:292-392 | when no dead list names a live entity: bullets survive a check iff in bounds and in no colliding pair, enemies and bosses likewise, players iff hp stays positive; survivors keep their positions and have the stated hp and score |
| `Boxes.CollidesIffMeets` | R-Type/src/Game.cpp:394-472 | all four overloads: two entities collide exactly when their corners are more than 10 apart and some point lies strictly inside both 60 by 80 boxes |
| `Boxes.MeetsIsSymmetric` | R-Type/src/Game.cpp:403-409 | it does not matter which of the two is asked |
| `Boxes.BulletStaysIff` | R-Type/src/Game.cpp:292-330 | in every reachable state a check leaves a bullet exactly if it is within [-50,1280] by [-50,720] and shares no point with an enemy or a boss that is more than 10 away |
| `Boxes.EnemyStaysIff` | R-Type/src/Game.cpp:292-330 | the same for an enemy, with bullets and players |
| `Boxes.BossStaysIff` | R-Type/src/Game.cpp:292-330 | and for a boss |
| `Boxes.PlayerPays` | R-Type/src/Game.cpp:474-509 | a player in that check loses 10 hp for each enemy it meets and 20 for each boss, is gone exactly if none are left, and otherwise earns 5 and 20 for each meeting of anybody |
| `Boxes.OneEnemyCostsTen` | R-Type/src/Game.cpp:394-412 | a player whose box overlaps that of exactly one enemy more than 10 away, in coordinates, loses 10 hp or its life, and the enemy goes |
| `Boxes.CheckedAreInField` | R-Type/src/Game.cpp:309-330 | after a check in any reachable state no bullet, enemy or boss is outside [-50,1280] by [-50,720] |
| `KillNotices.CheckAnnouncesKills` | R-Type/src/Game.cpp:332-392 | a check adds to the log exactly one bare DESTROY for each bullet, enemy, player and boss that it removes, in these four batches, and nothing else |
| `FreshIds.RunsStayFresh` | R-Type/src/Game.cpp:73-90 | in every reachable state live and listed ids lie below the fresh-id counters, no listed id is live, live players have positive hp, and totalPlayers is the number of players |
| `FreshIds.CheckKeepsTotal` | R-Type/src/Game.cpp:362-376 | totalPlayers stays the number of players |
| `FreshIds.RestartKeepsIds` | R-Type/src/Game.cpp:44-54 | a new game after stop starts with players 0..n-1 and again with no listed id live |
| `Spawning.StartInNumbers` | R-Type/src/Game.cpp:15-20 | a game of n starts with player id at (100 (id + 1), 100) with 100 hp and no score, and its log says just that, player by player |
| `Spawning.WaveHeights` | R-Type/src/Game.cpp:216-253 | the targets of a wave stand at x 1000, each at the height drawn for it, the boss of a boss wave at the first |
| `Spawning.ShooterNeverChanges` | GameEngine/src/AGame.cpp:101-103 | over any run, a bullet is on record for as long as it is live and always under the same shooter |
| `Steering.MoveInNumbers` | R-Type/src/Game.cpp:149-196 | on the screen, action 1 lowers x by min(20, x), 2 raises it by min(20, 1195 - x), 3 lowers y by min(20, y), 4 raises it by min(20, 630 - y), and nothing else about any player changes |
| `Steering.MoveEndsOnScreen` | R-Type/src/Game.cpp:170-196 | a move from anywhere ends within [0,1195] by [0,630] |
| `Steering.PlayersStayOnScreen` | R-Type/src/Game.cpp:149-196 | in every reachable state a player is at its spawn point (100 (id + 1), 100) or within [0,1195] by [0,630], and the first eleven, whose spawn points are within it, always |
| `Steering.LastMoveIsMadeLast` | GameEngine/src/AGame.cpp:35-50 | a move queued behind any actions is made after them: it changes the outcome as a move made then would |
| `Steering.KeyMovesItsPlayer` | Network/src/PacketHandler.cpp:137-189 | after LEFT, RIGHT, UP or DOWN from the client of a living player, the buffer leaves that player 20 further in that direction, or at the edge, and everybody else as without the packet |
| `Accounts.HealthAndScore` | R-Type/src/Game.cpp:474-509 | in every reachable state a live player has 100 hp less 10 per distinct enemy and 20 per distinct boss it touched, between 1 and 100, and all live players have the score of all contacts so far |
| `Accounts.RunsKeepAccounts` | R-Type/src/Game.cpp:544-568 | the accounts hold after every step, and every recorded target is gone for good |
| `Waves.WavesFollowClosedForm` | R-Type/src/Game.cpp:78-90 | after k triggers the four counters have their closed form, bosses coming exactly on even triggers |
| `Motion.CheckFiresIff` | R-Type/src/Game.cpp:434-452 | for a bullet more than 10 left of a target in its lane the check fires exactly within 60 |
| `Motion.NoTunnelling` | R-Type/src/Game.cpp:200-212 | from any moment of any run, also in the middle of a tick: a bullet 60 left of an enemy in its lane is still 60 left of it after every later check while both live |
| `Motion.NoTunnellingThroughBosses` | R-Type/src/Game.cpp:454-472 | the same for bosses |
| `Lifetimes.LivesAreShort` | R-Type/src/Game.cpp:309-330 | in every reachable state a bullet has moved at most 247 times, an enemy 1051, a boss 10501, and one less once the check is made |
| `Lifetimes.RunsKeepTime` | R-Type/src/Game.cpp:268-283 | positions are spawn position plus speed times age for enemies and bosses, and at least that for bullets |
| `Draining.StepDrains` | R-Type/src/Game.cpp:200-212 | a step that spawns nothing lowers the sum of remaining moves by at least the number of entities it moves inward |
| `Draining.MovesRunOut` | R-Type/src/Game.cpp:268-283 | while nothing is spawned all moves together are bounded by the moves left at the start |
| `ActionRuns.ActionsRunExactlyOnce` | GameEngine/src/AGame.cpp:30-57 | however actions are queued between the loop's steps: those run so far, then those pending, are the handled actions in the order added; all others stay in order |
| `ActionRuns.UninterruptedActions` | GameEngine/src/AGame.cpp:35-50 | processPlayerActions as one call is the run of its steps |
| `ActionRuns.ThrowsIff` | GameEngine/src/AGame.cpp:63-71 | the loop throws exactly when a queued move names a player who is not in the map |
| `Ticks.TickIsARun` | R-Type/src/Game.cpp:24-29 | a pass of the body of update that throws nothing is a run of the interleaved model from one start of the loop to the next |
| `Ledger.NoticesKeepBalance` | R-Type/src/Game.cpp:332-345 | destroying distinct live ids keeps the log in balance with the ids that remain |
| `BroadcastRuns.RunsStayAnnounced` | R-Type/src/Game.cpp:216-253 | in every reachable state each id of a family has one CREATE, in order, and exactly the ids no longer live have one DESTROY, after it |
| `BroadcastRuns.ReplicaAgrees` | Client/src/GameScene.cpp:86-124 | at every point of every run of one game the replica's players, enemies, bosses and alive flags are the server's |
| `BroadcastRuns.BulletReplicaAgreesIff` | Client/src/GameScene.cpp:98-119 | the bullet sprites are all bullets ever shot, and agree with the server's exactly while none has been removed |
| `Sprites.DestroyedAreGone` | Client/src/GameScene.cpp:65-67 | a batch of DESTROY packets takes exactly the named sprites away |
| `DeadReckoning.RunsStayOnCourse` | Client/src/GameScene.cpp:53-63 | in every reachable state each live bullet, enemy and boss has a sprite at its height, with the velocity at which the server moves it, where it was before its moves |
| `DeadReckoning.SpritesAreOnCourse` | R-Type/src/Game.cpp:216-253 | in numbers: an enemy is drawn at (1000, its y) with velocity -1, a boss with -0.1, a bullet at its y and its x less 5 times its age with 5 |
| `Replica.GlideAll` | Client/src/GameScene.cpp:185-187 | each sprite of a map moves once by its velocity |
| `Replica.GameScene.UpdatePositions` | Client/src/GameScene.cpp:184-197 | one frame moves bullets, enemies and bosses, and players not |
| `Frames.SpritesGlide` | Client/src/GameScene.cpp:184-197 | however packets and frames interleave, a sprite is where its packets put it, moved on by the frames since it was created |
| `Frames.SpritesAreAhead` | Client/src/GameScene.cpp:184-197 | in every reachable state, on a client that has the whole log and has drawn frames in between, each live bullet, enemy and boss is off by its velocity times the frames less the moves since it appeared, so in place exactly if they are equal |
| `StatusLine.ReportListsEveryone` | R-Type/src/Game.cpp:101-107 | a due report has one UI_UPDATE per player in ascending order, with its hp and its score |
| `StatusLine.ReportShowsGreatest` | Client/src/GameScene.cpp:126-129 | after a due report the client shows as health and score the hp and the score of the player with the greatest id |
| `StatusLine.RunsShowGreatest` | R-Type/src/Game.cpp:94-110 | the same at that step of any run |
| `StatusLine.PrintedReportShowsGreatest` | Client/src/GameScene.cpp:126-129 | the same on a client that reads the printed text |
| `LostMoves.BulletSpriteStays` | Client/src/GameScene.cpp:117-118 | a run of one game after which a bullet has hit and gone and its sprite is still there |
| `Replica.GameScene.HandleServerAction` | Client/src/GameScene.cpp:86-124 | one packet changes the sprite maps, alive flags and status as the replica's transition function says |
| `Replica.GameScene.UpdateSpritePosition` | Client/src/GameScene.cpp:69-75 | a known player's sprite moves, an unknown one is not created |
| `Replica.ReplayKeys` | Client/src/GameScene.cpp:53-67 | replaying a log in which ids are created once and destroyed after creation leaves created minus destroyed |
| `Replica.ReplayAlive` | Client/src/GameScene.cpp:94-110 | the alive flags name the created players, true for those not destroyed |
| `DeltaUpdates.MoveIsShownIff` | R-Type/src/Game.cpp:133-175 | from any state a move reaches the replica exactly when the id is below the number of live players and the cache differs, unless the sprite is already there |
| `HiddenMoves.HiddenForLife` | R-Type/src/Game.cpp:136-142 | from any reachable state in which the number of players is at most a living player's id, the replica shows that player at the same place after every further run in which it lives |
| `HiddenMoves.LivingIsHiddenSomewhere` | R-Type/src/Game.cpp:136-142 | in every reachable state each such player has a sprite, so the previous row applies to it |
| `LostMoves.SurvivorCanBeHidden` | R-Type/src/Game.cpp:133-147 | a run of a game of eleven in which exactly player 9 dies, player 10 then moves, and the replica shows player 10 at its old place after every further run in which it lives |
| `DeltaUpdates.DeltaIsLossless` | R-Type/src/Game.cpp:124-147 | in one game, while no player has been removed, the replica shows every player at its server position |
| `DeltaUpdates.RunsStayTracked` | Client/src/GameScene.cpp:69-75 | in every reachable state the cache holds what the replica shows |
| `DeltaUpdates.SecondGameCanHideAMove` | R-Type/src/Game.cpp:133-134 | the static cache can suppress the first move of a second game |
| `WholePositions.RunsStayWhole` | R-Type/src/Game.cpp:149-196 | players stand on whole coordinates in every reachable state, and every packet that places one names whole coordinates |
| `EndToEnd.ConsumeOne` | Client/src/GameScene.cpp:37-43 | a printed packet, parsed and handled in one frame, acts on the sprites as its message does |
| `Printing.SixDecimalsNearest` | GameEngine/src/AGame.cpp:88-89 | a coordinate printed with six decimals is a multiple of a millionth and within half a millionth |
| `Printing.WholeIsExact` | GameEngine/src/AGame.cpp:88-89 | a whole coordinate is printed exactly |
| `Printing.PrintedIsReadable` | R-Type/src/Game.cpp:220-252 | every printed message in the range of int and float can be read back: id and literal velocities exactly, coordinates to half a millionth and whole ones exactly |
| `EndToEnd.PrintedLogIsRendered` | R-Type/src/Game.cpp:216-253 | what is printed of a log in range satisfies the hypothesis of the next two rows |
| `EndToEnd.EntitiesSurviveTheWire` | Client/src/Client.cpp:165-205 | at every point of every run a client that has read the text of the whole log has exactly the server's players, enemies and bosses, however fractions are printed |
| `EndToEnd.PositionsSurviveTheWire` | Client/src/Client.cpp:186-192 | while nobody has died it also shows every player exactly where the server has it |
| `EndToEnd.PrintedGamesAreSeen` | Client/src/Client.cpp:165-205 | both for the text that the server prints: exactly the server's entities, and every player in place while nobody has died |
| `PrintedSprites.PrintedLogIsDrawn` | Client/src/GameScene.cpp:53-63 | for any log in range, reading its printed text leaves the same sprites: coordinates to half a millionth, whole ones exactly, the velocities of the game exactly |
| `PrintedSprites.EnemyIsShown` | R-Type/src/Game.cpp:247-253 | at every point of every game a client that has read the printed log has each live enemy at x 1000, at its height to half a millionth, with velocity -1 |
| `PrintedSprites.BossIsShown` | R-Type/src/Game.cpp:216-222 | and each live boss, with -0.1 |
| `PrintedSprites.BulletIsShown` | GameEngine/src/AGame.cpp:94-113 | and each live bullet exactly: at its height, as far back as it has flown, with velocity 5 |
| `Numerals.PrintedNat` | Server/src/Server.cpp:84-84 | the decimal digits of a number are digits only and have its value |
| `Numerals.StoiOfPrinted` | Client/src/Client.cpp:188-194 | stoi gives back every printed 32-bit int |
| `Numerals.StofOfPrinted` | Client/src/Client.cpp:189-192 | stof gives back the value of every printed integer or decimal in float range |
| `Wire.SplitJoin` | Client/src/Client.cpp:149-163 | splitting inverts joining except that an empty last field is lost |
| `Wire.PacketParses` | Client/src/Client.cpp:165-184 | parsing a printed packet comes down to reading its six fields, or to the heartbeat branch |
| `Wire.RoundTrip` | Server/src/Server.cpp:71-86 | parseMessage recovers type, five numbers and sequence number from every printed packet that is not a heartbeat |
| `Wire.EmptyPayloadRoundTrip` | Server/src/Server.cpp:74-74 | an empty payload is read as five times -1 |
| `Wire.HeartbeatIsIgnored` | Client/src/Client.cpp:179-184 | a heartbeat leaves the parsed packet and the last number alone |
| `BadPackets.OutcomesAreExact` | Client/src/Client.cpp:165-205 | which datagrams are empty, throw, have a bad format, are heartbeats or parse; only a parsed one counts, and only it or a malformed one changes anything |
| `BadPackets.FieldsBeforeBadAreStored` | Client/src/Client.cpp:186-204 | the fields before the first that is not a number are stored, the others keep their values, and the number counts only if all six are good |
| `BadPackets.StoiReadsNumber` | Client/src/Client.cpp:188-194 | a printed integer after spaces and before anything but a digit is read exactly if it fits an int, and not at all otherwise |
| `ClientReader.PacketReader.GetLine` | Client/src/Client.cpp:155-157 | one getline takes the first field off the text that is left |
| `ClientReader.PacketReader.DeserialisePacket` | Client/src/Client.cpp:149-163 | the loop yields the fields of the text, or nothing unless there are six |
| `ClientReader.PacketReader.ParseMessage` | Client/src/Client.cpp:165-205 | outcome and fields after any received text, error branches included |
| `ClientReader.PacketReader.StoreFields` | Client/src/Client.cpp:186-204 | the fields before the first number that does not parse are stored, and the counters only if all parse |
| `ClientReader.PacketReader.StorePlace` | Client/src/Client.cpp:187-190 | type, id and coordinates, as far as they parse |
| `ClientReader.PacketReader.StoreVelocity` | Client/src/Client.cpp:191-192 | the velocities, as far as they parse |
| `ClientReader.PacketReader.StoreNumber` | Client/src/Client.cpp:194-201 | the last number and, if there is a gap, the reading |
| `Gaps.DeliveriesBalance` | Client/src/Client.cpp:194-201 | whatever arrives in whatever order, the last number is packets processed plus the sum of the gaps, and the reading is the latest nonzero gap |
| `Gaps.GapsAreCountsIff` | Client/src/Client.cpp:196-199 | no gap is negative exactly when packets are processed in the order made |
| `Gaps.GapsCountSkipped` | Client/src/Client.cpp:179-201 | on a lossy channel that keeps order every gap is a count, and together they count exactly the lost packets and heartbeats below the last number |
| `Clients.FindIff` | Server/src/Server.cpp:96-99 | the search finds the one id registered for the endpoint, if any |
| `Clients.CreateRegisters` | Server/src/Server.cpp:90-109 | after createClient the endpoint is listed under the returned id and every other entry is as before |
| `Clients.FreshIdKeepsPartitionIff` | Server/src/Server.cpp:103-104 | a new id keeps the partition exactly while the 32-bit counter does not wrap |
| `Clients.DisconnectKeepsPartition` | Server/src/Server.cpp:127-149 | disconnecting keeps the partition and leaves the endpoint unlisted |
| `Clients.RunsKeepPartition` | Server/src/Server.cpp:90-149 | with fewer than 2^32 clients at a time, used and recyclable ids partition 0.._nbClients-1, endpoints are distinct, and _nbClients is the largest number of clients registered at one time |
| `Clients.EndpointKeepsId` | Server/src/Server.cpp:90-109 | over every further run an endpoint keeps its id until it disconnects itself, and connecting again before that returns the same id and changes nothing |
| `Clients.ChangeKeepsPartition` | Server/src/Server.cpp:90-149 | whatever the event, one step of the table keeps the partition |
| `Clients.NumberingMatchesIff` | Network/src/PacketHandler.cpp:88-93 | client ids are 0..n-1 exactly when every recyclable id is at least n |
| `Recycling.IdsComeBackInOrder` | Server/src/Server.cpp:100-104 | over any connections and disconnections: ids that waited, then those freed, are those handed out again, then those waiting, in order |
| `Recycling.RecycledInOrder` | Server/src/Server.cpp:127-143 | from a table with nothing to recycle, the k-th recycled id handed out is the k-th one freed, whatever happens in between |
| `Recycling.NewcomersInheritInOrder` | Server/src/Server.cpp:90-109 | after registered endpoints have disconnected in some order, as many new ones get their ids in that order |
| `ServerEngine.Server.constructor` | Server/src/Server.cpp:6-12 | no clients, no game, number 0, nothing queued |
| `ServerEngine.Server.CreatePacket` | Server/src/Server.cpp:71-86 | the character loop prints the packet with the next sequence number |
| `ServerEngine.Server.Broadcast` | Server/src/Server.cpp:34-37 | the message joins the end of the send queue |
| `ServerEngine.Server.SendPong` | Server/src/Server.cpp:151-154 | a heartbeat takes a number and is queued for everybody |
| `ServerEngine.Server.FindClient` | Server/src/Server.cpp:96-99 | the search loop in id order |
| `ServerEngine.Server.CreateClient` | Server/src/Server.cpp:90-109 | known endpoint, oldest recycled id, or next fresh id, with the whole new table |
| `ServerEngine.Server.ReqConnectData` | Server/src/Server.cpp:111-125 | registers and answers at once with the game's status |
| `ServerEngine.Server.DisconnectData` | Server/src/Server.cpp:127-149 | frees the id, or answers NONE to an unknown endpoint |
| `ServerEngine.Server.HandleSendTimer` | Server/src/Server.cpp:179-194 | the oldest queued packet goes once to every client, in id order |
| `Deliveries.OneCopyEach` | Server/src/Server.cpp:186-188 | a tick sends a registered endpoint one copy and any other none |
| `Deliveries.RunsAreTracked` | Server/src/Server.cpp:34-37 | in every run the datagrams for an endpoint are the packets sent to it, each as printed when made, and the queue is in the order made |
| `Deliveries.InOrderIffNotOvertaken` | Server/src/Server.cpp:111-125 | an endpoint that never disconnects is sent packets in the order made exactly when no reply to it left while packets were queued |
| `Deliveries.LossesAreCounted` | Client/src/Client.cpp:194-201 | such a client's gaps count exactly what it did not process, whatever the channel loses |
| `Deliveries.ReplyCanOvertakeQueue` | Server/src/Server.cpp:119-122 | a run in which a connecting client computes the gaps 1 and -2 |
| `PacketHandling.PacketHandler.HandleGameStart` | Network/src/PacketHandler.cpp:78-97 | ignored while a game runs; otherwise a game thread for the current number of clients is started and GAME_START queued |
| `PacketHandling.PacketHandler.HandleGameEnd` | Network/src/PacketHandler.cpp:99-111 | ignored unless a game runs; otherwise the flag falls and the game is stopped |
| `PacketHandling.PacketHandler.HandlePlayerAction` | Network/src/PacketHandler.cpp:162-189 | a running game gets the action under the id found for the endpoint, if one is found |
| `PacketHandling.PacketHandler.HandlePlayerShoot` | Network/src/PacketHandler.cpp:113-135 | the id found for the endpoint shoots, whether or not a game runs |
| `PacketHandling.PacketHandler.HandlePacket` | Network/src/PacketHandler.cpp:36-57 | the dispatch table over all packet types |
| `Handlers.StartIsAnnounced` | Network/src/PacketHandler.cpp:78-97 | an accepted GAME_START adds exactly one packet to the queue and one to the number, and every client reads action 3 and that number |
| `Handlers.SecondStartIsRefused` | Network/src/PacketHandler.cpp:82-85 | a refused one changes nothing |
| `Handlers.TimersSend` | Server/src/Server.cpp:179-194 | after k ticks each registered endpoint has been sent the k oldest packets, once each and in order, and any other endpoint none |
| `Handlers.StartReachesClients` | Network/src/PacketHandler.cpp:90-90 | after as many ticks as packets wait, each registered endpoint has been sent those that waited before and then the one that reads as a start |
| `Handlers.PingIsAnswered` | Server/src/Server.cpp:151-154 | a ping queues exactly one packet under the next number, which every client reads as a heartbeat |
| `Handlers.ConnectIsAnswered` | Server/src/Server.cpp:111-125 | a connecting endpoint is answered at once, past the queue, with 30 during a game and 31 otherwise |
| `Handlers.DisconnectIsAnswered` | Server/src/Server.cpp:127-149 | a registered endpoint that disconnects is not answered, any other gets 0 and changes nothing in the table |
| `Handlers.ShotAppears` | Network/src/PacketHandler.cpp:113-135 | a shot of a living player puts a bullet 50 right and 25 below it on the field, on record and in the log |
| `Handlers.StrangersAreIgnored` | Network/src/PacketHandler.cpp:162-189 | shots and keys of unregistered endpoints, and keys while no game runs, change nothing |
| `Handlers.EndDeserts` | Network/src/PacketHandler.cpp:99-111 | an accepted GAME_END leaves nobody on the field and nothing to remove, and everything else as it was |
| `Handlers.DesertedIsStill` | R-Type/src/Game.cpp:22-31 | on such a field the moves, the check and the report of a game thread that goes on change nothing and announce nothing |
| `Sessions.StartedState` | R-Type/src/Game.cpp:15-20 | after an accepted GAME_START and its set-up the players are those left over and 0..n-1 for the n clients of the start |
| `Sessions.StartMatchesIff` | Network/src/PacketHandler.cpp:78-97 | then player ids are client ids exactly when every recyclable id is at least n and every player left over is below n |
| `Sessions.FirstGameMatchesIff` | Network/src/PacketHandler.cpp:88-93 | in the first game of every run of the server, exactly when every recyclable id is at least n |
| `SessionFailures.LateBootMismatches` | Network/src/PacketHandler.cpp:92-110 | a run of six events after which a start has players 0 and 1 and client 0, though the one recyclable id is not below the number of clients |
| `Sessions.StartIsReadyIff` | Network/src/PacketHandler.cpp:78-97 | the exact condition under which a start meets the premise of the next two rows: matching ids, and every move left over names a client |
| `Sessions.QuietRunsStayReady` | Network/src/PacketHandler.cpp:162-189 | from matching ids, until a player dies or somebody connects or disconnects, ids keep matching and every queued move names a player |
| `Sessions.LookupsFindPlayers` | Network/src/PacketHandler.cpp:113-135 | until then every lookup finds an existing player and no game thread throws |
| `Sessions.MoveThrowsIff` | R-Type/src/Game.cpp:149-153 | a queued move makes processPlayerActions throw exactly when the client's id is not that of a living player |
| `SessionFailures.LateClientMoveThrows` | Network/src/PacketHandler.cpp:162-189 | a run of five events after which the game thread's next pass throws |
| `SessionGames.StepFollows` | Network/src/PacketHandler.cpp:50-57 | during a game each event of the server other than GAME_END is at most one event of the game's run |
| `SessionGames.BootFollows` | R-Type/src/Game.cpp:33-35 | setting up the players after moves have been queued comes to queueing them afterwards |
| `SessionGames.ServerRunsAreGameRuns` | R-Type/src/Game.cpp:33-42 | while a game is played in a run of the server in which none has ended, world and game thread are those of a run of that game alone |
| `SessionGames.ServerKeepsReplica` | Client/src/GameScene.cpp:86-124 | in every run of the server without GAME_END the replica agrees with the server's world |
| `SessionGames.ServerKeepsAccounts` | R-Type/src/Game.cpp:474-509 | and live players have between 1 and 100 hp and equal scores |
| `BlockingQueue.RunsAreSafe` | Network/include/ThreadSafeQueue.hpp:18-34 | in every interleaving the lock is exclusive, order is kept and queued items are covered |
| `BlockingQueue.MutualExclusion` | Network/include/ThreadSafeQueue.hpp:20-21 | at most one thread is between lock and unlock |
| `BlockingQueue.FirstInFirstOut` | Network/include/ThreadSafeQueue.hpp:29-33 | items pushed are items returned, then the at most one in hand, then the queue, in order |
| `BlockingQueue.NoLostWakeup` | Network/include/ThreadSafeQueue.hpp:18-34 | while somebody sleeps the queue is no longer than pending notifications plus woken threads yet to look, and with items queued some thread other than a sleeper can move |
| `SparseArrays.InsertedAt` | ECS/components/SparseArray.hpp:55-79 | inserting changes exactly one slot, growth included |
| `SparseArrays.ErasedAt` | ECS/components/SparseArray.hpp:80-84 | erasing empties exactly one slot, or none past the end |
| `SparseArrays.SparseArray.Get` | ECS/components/SparseArray.hpp:35-40 | reading past the end creates empty slots and finds nothing |
| `SparseArrays.SparseArray.InsertAt` | ECS/components/SparseArray.hpp:55-69 | the array grows if needed and the slot holds the component |
| `SparseArrays.SparseArray.Erase` | ECS/components/SparseArray.hpp:80-84 | the slot is emptied if there is one |
| `SparseArrays.SparseArray.GetIndex` | ECS/components/SparseArray.hpp:86-94 | the first slot that holds the value, or none if no slot does |
| `SparseArrays.SparseArray.Contains` | ECS/components/SparseArray.hpp:96-98 | whether the slot exists and holds a component |
| `RegistryState.SpawnRefines` | ECS/Registry.hpp:23-30 | a spawned id, new or recycled, is not live before, is afterwards, and has no components; nothing else changes |
| `RegistryState.KillKeepsSoundIff` | ECS/Registry.hpp:36-41 | kill_entity keeps the registry sound exactly when the entity is live |
| `RegistryState.KillLive` | ECS/Registry.hpp:36-41 | killing a live entity takes exactly it out of the live set |
| `RegistryState.KillComponents` | ECS/Registry.hpp:37-39 | killing clears every registered array for the entity and no other entity's component |
| `RegistryState.DoubleKillSharesId` | ECS/Registry.hpp:23-41 | after a second kill the next two spawned entities get the same id |
| `RegistryState.AddRefines` | ECS/Registry.hpp:79-93 | exactly a live entity of a registered kind gets the component, the two errors are told apart, and nothing else changes |
| `RegistryState.RemoveRefines` | ECS/Registry.hpp:95-98 | the component goes, for any id, unless the kind is not registered |
| `RegistryState.RegisterRefines` | ECS/Registry.hpp:43-53 | registering adds an empty kind once and changes no component |
| `RegistryState.HasComponentIff` | ECS/Registry.hpp:113-128 | has_component answers for the component maps |
| `RegistryState.RunsKeepSound` | ECS/Registry.hpp:23-53 | while only live entities are killed: free ids are distinct and below nextEntity, components belong to live entities, and live entities are spawns less kills, which is nextEntity less the free ids |
| `RegistryState.LastKilledFirst` | ECS/Registry.hpp:23-41 | ids come back last killed first, those killed earlier after them, and only then new ones counting up |
| `RegistryEngine.Registry.SpawnEntity` | ECS/Registry.hpp:23-30 | the most recently killed id, or the next fresh one |
| `RegistryEngine.Registry.EraseEverywhere` | ECS/Registry.hpp:37-39 | the loop over the erase functions empties the slot in every array and touches no other |
| `RegistryEngine.Registry.KillEntity` | ECS/Registry.hpp:36-41 | the arrays and the free list after a kill |
| `RegistryEngine.Registry.RegisterComponent` | ECS/Registry.hpp:43-53 | a new kind gets a new array object and an erase function |
| `RegistryEngine.Registry.EntityExists` | ECS/Registry.hpp:126-128 | below nextEntity and not in the free list |
| `RegistryEngine.Registry.AddComponent` | ECS/Registry.hpp:79-93 | the outcome and the arrays afterwards |
| `RegistryEngine.Registry.RemoveComponent` | ECS/Registry.hpp:95-98 | the outcome and the arrays afterwards |
| `RegistryEngine.Registry.HasComponent` | ECS/Registry.hpp:113-124 | whether an existing entity has the component |
| `Projectiles.AdvanceComponents` | ECS/systems/ProjectileSystem.hpp:19-31 | one pass of the loop body treats its own entity and leaves every other alone |
| `Projectiles.SystemExact` | ECS/systems/ProjectileSystem.hpp:17-33 | after the loop every entity is as its own components before the loop say: moved once, gone, or untouched; the free list grows by exactly the leaving ids, ascending |
| `Projectiles.SystemKeepsSound` | ECS/systems/ProjectileSystem.hpp:17-33 | the registry stays sound, exactly the leaving entities die, once each, and every surviving projectile has x at most 1280 |
| `Projectiles.SystemInNumbers` | ECS/systems/ProjectileSystem.hpp:22-29 | a projectile at (x, y) ends at (x + vx speed, y + vy speed), its other components unchanged, if that is at most 1280 across, and otherwise loses its components and its life |
| `Projectiles.AdvanceOne` | ECS/systems/ProjectileSystem.hpp:19-31 | the loop body over the array objects, with the growth that operator[] causes |
| `Projectiles.ProjectileSystem` | ECS/systems/ProjectileSystem.hpp:17-33 | the loop over the array objects computes the state that the lemmas speak of |

## Left out

- Sockets, timers, threads' start-up, rendering, input, the lobby scene, dynamic loading and logging: I/O. Expired timers,
  random heights and the endpoint of a packet are arguments.
- Wall-clock rates: nothing is claimed about how often a timer expires or a frame is drawn.
- The outer `while (true)` of `Game::update` and the code after it: `checkPlayersAlive` is never reached, so there is no
  claim that a game ends.
- More than one game thread at a time in `GameRuns`: after GAME_END the old thread goes on and a new GAME_START adds
  another. `Sessions` has a list of game threads; the run theorems of one game do not, `stop` is not part of their runs,
  and `SessionGames` carries them over up to the first GAME_END.
- `playerActions` growing while the loop holds a reference into it, and other C++ data races: each step is atomic, and the
  loop keeps the end it had when it began.
- `killPlayers`, `killBullets`, `killEnemies`, `killBosses`, `handleBulletPlayerCollision` and `checkAlivePlayers`: never
  called in a game; the first four compare with entity ids that coincide, since every game object copies the registry.
- Float rounding in the movement of positions, and overflow of the `int` ids, wave numbers and sequence numbers.
- Binary floats in `Printing`: values are reals, rounded to the nearest millionth with halves to even.
- Game packets in `Deliveries` and `Sessions`: the send queue there holds the packets that the handlers make; the game's
  own broadcasts are the log of `GameState`.
- `stof` on exponents, hexadecimal, infinity and NaN, and bytes above 127 in a packet.
- A packet that overwrites `packet_data_` before the frame that would draw it: `EndToEnd` has one frame per packet.
- The frames of `Frames` in `EndToEnd` and `PrintedSprites`: these speak of sprites as the packets leave them.
- The other writers of `packets_lost_` (send errors and the two-second reset), the ping and the bytes counter.
- `ThreadSafeQueue::empty`, and `handleReceive` with `deserializePacket`, which only takes the type byte off a datagram.
- Termination of `PacketHandler::stop`: a worker may stay blocked in `pop`.
- The type-erased storage of the registry: a fixed type of components, each with its kind; `add_system` and
  `run_systems`; the systems other than `projectileSystem`.
- Destructors of `Player`, `Bullet`, `Enemy` and `Boss`, which kill an entity in a registry of their own copy.
