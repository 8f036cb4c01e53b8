/**
  The server's game object. Every method updates the fields in the order in which the game does,
  entity by entity, and its contract ties the whole state afterwards to the operation of GameState on the state before.
 */
module GameEngine {
  import opened Collections
  import opened Protocol
  import opened GameState
  import opened Contacts
  import opened Ticks

  class Game {
    var players: map<int, Player>
    var bullets: map<int, Pos>
    var enemies: map<int, Pos>
    var bosses: map<int, Pos>
    var deadPlayers: seq<int>
    var deadBullets: seq<int>
    var deadEnemies: seq<int>
    var deadBosses: seq<int>
    var shooters: map<int, int>
    var totalPlayers: int
    var currentWave: int
    var enemiesPerWave: int
    var enemyId: int
    var bossId: int
    var nextBulletId: int
    var lastKnown: map<int, Pos>
    var actions: seq<Action>
    var log: seq<Message>

    function View(): World
      reads this
    {
      World(players, bullets, enemies, bosses, deadPlayers, deadBullets, deadEnemies, deadBosses, shooters,
            totalPlayers, currentWave, enemiesPerWave, enemyId, bossId, nextBulletId, lastKnown, actions, log)
    }

    constructor ()
      ensures View() == NEW_GAME
    {
      players, bullets, enemies, bosses := map[], map[], map[], map[];
      deadPlayers, deadBullets, deadEnemies, deadBosses := [], [], [], [];
      shooters, totalPlayers, currentWave, enemiesPerWave := map[], 0, 0, 5;
      enemyId, bossId, nextBulletId := 0, 0, 0;
      lastKnown, actions, log := map[], [], [];
    }

    method Broadcast(m: Message)
      modifies this`log
      ensures log == old(log) + [m]
    {
      log := log + [m];
    }

    // ---- Players ----

    method SpawnPlayer(id: int, at: Pos)
      modifies this
      ensures View() == GameState.SpawnPlayer(old(View()), id, at)
    {
      if id !in players {
        players := players[id := Player(at, 0, 0)];
      }
      players := players[id := players[id].(hp := players[id].hp + 100)];
      Broadcast(PlaceMessage(CREATE_PLAYER, id, at, 0.0));
      Broadcast(UiMessage(id, players[id]));
    }

    method InitializePlayers(n: nat)
      modifies this
      ensures View() == GameState.InitializePlayers(old(View()), n)
    {
      totalPlayers := n;
      for i := 0 to n
        invariant SpawnPlayersFrom(View(), i, n) == GameState.InitializePlayers(old(View()), n)
      {
        SpawnPlayer(i, SpawnPoint(i));
      }
    }

    method Stop()
      modifies this
      ensures View() == GameState.Stop(old(View()))
    {
      ClearMaps();
      ClearDeadLists();
    }

    method ClearMaps()
      modifies this`players, this`enemies, this`bullets, this`bosses
      ensures players == map[] && enemies == map[] && bullets == map[] && bosses == map[]
    {
      players, enemies, bullets, bosses := map[], map[], map[], map[];
    }

    method ClearDeadLists()
      modifies this`deadPlayers, this`deadEnemies, this`deadBullets, this`deadBosses
      ensures deadPlayers == [] && deadEnemies == [] && deadBullets == [] && deadBosses == []
    {
      deadPlayers, deadEnemies, deadBullets, deadBosses := [], [], [], [];
    }

    method HasPositionChanged(id: int, p: Pos) returns (changed: bool)
      modifies this`lastKnown
      ensures changed <==> id !in old(lastKnown) || old(lastKnown)[id] != p
      ensures lastKnown == if changed then old(lastKnown)[id := p] else old(lastKnown)
    {
      if id !in lastKnown || lastKnown[id] != p {
        lastKnown := lastKnown[id := p];
        return true;
      }
      return false;
    }

    method PlayerPacketFactory()
      modifies this`lastKnown, this`log
      ensures View() == AnnounceFrom(old(View()), 0)
    {
      for i := 0 to |players|
        invariant AnnounceFrom(View(), i) == AnnounceFrom(old(View()), 0)
      {
        if i in players {
          var changed := HasPositionChanged(i, players[i].pos);
          if changed {
            Broadcast(PlaceMessage(CHANGE, i, players[i].pos, 0.0));
          }
        }
      }
    }

    method HandlePlayerMove(id: int, code: int)
      requires id in players
      modifies this
      ensures View() == GameState.HandlePlayerMove(old(View()), id, code)
    {
      var current := players[id].pos;
      var x, y := 0.0, 0.0;
      match code {
        case 1 => x := -MOVE_DISTANCE;
        case 2 => x := MOVE_DISTANCE;
        case 3 => y := -MOVE_DISTANCE;
        case 4 => y := MOVE_DISTANCE;
        case _ =>
      }
      var target := ClampToBounds(Pos(current.x + x, current.y + y));
      var moved := Pos(current.x + (target.x - current.x), current.y + (target.y - current.y));
      players := players[id := players[id].(pos := moved)];
      PlayerPacketFactory();
    }

    method SpawnBullet(id: int)
      modifies this
      ensures View() == GameState.SpawnBullet(old(View()), id)
    {
      if id in players {
        var at := Pos(players[id].pos.x + 50.0, players[id].pos.y + 25.0);
        if nextBulletId !in bullets {
          bullets := bullets[nextBulletId := at];
        }
        shooters := shooters[nextBulletId := id];
        Broadcast(PlaceMessage(CREATE_BULLET, nextBulletId, at, 5.0));
        nextBulletId := nextBulletId + 1;
      }
    }

    // ---- The action buffer ----

    method AddPlayerAction(id: int, code: int)
      modifies this`actions
      ensures View() == GameState.AddAction(old(View()), id, code)
    {
      actions := actions + [Action(id, code, false)];
    }

    /** `threw` reports the std::out_of_range of a move by a player who is not in the map. */
    method ProcessPlayerActions() returns (threw: bool)
      modifies this
      ensures threw <==> ProcessActions(old(View())).None?
      ensures !threw ==> View() == ProcessActions(old(View())).value
    {
      var end := |actions|;
      for i := 0 to end
        invariant |actions| == end
        invariant ExecuteFrom(View(), i) == ExecuteFrom(old(View()), 0)
      {
        var a := actions[i];
        if IsMove(a.code) {
          if a.player !in players {
            return true;
          }
          HandlePlayerMove(a.player, a.code);
          actions := actions[i := a.(processed := true)];
        } else if a.code == 5 {
          SpawnBullet(a.player);
          actions := actions[i := a.(processed := true)];
        }
      }
      DeletePlayerAction();
      threw := false;
    }

    method DeletePlayerAction()
      modifies this`actions
      ensures actions == Filter(Unprocessed, old(actions))
    {
      var kept: seq<Action> := [];
      for i := 0 to |actions|
        invariant kept + Filter(Unprocessed, actions[i..]) == Filter(Unprocessed, actions)
      {
        assert actions[i..][1..] == actions[i + 1..];
        if !actions[i].processed {
          kept := kept + [actions[i]];
        }
      }
      actions := kept;
    }

    // ---- Movement ----

    method UpdateBullets(due: bool)
      modifies this
      ensures View() == GameState.UpdateBullets(old(View()), due)
    {
      if due {
        bullets := MoveAll(bullets, 5.0);
      }
    }

    method UpdateEnemies(due: bool)
      modifies this
      ensures View() == GameState.UpdateEnemies(old(View()), due)
    {
      if due {
        enemies := MoveAll(enemies, -1.0);
        bosses := MoveAll(bosses, -0.1);
      }
    }

    // ---- Collisions ----

    /** handleEntityBDeath on the players: all of them score, one after the other. */
    method AwardAll(points: int)
      modifies this`players
      ensures players == Award(old(players), points)
    {
      var left := players.Keys;
      while left != {}
        invariant left <= players.Keys == old(players).Keys
        invariant forall id | id in players ::
            players[id] == if id in left then old(players)[id] else Award(old(players), points)[id]
        decreases left
      {
        var id := Least(left);
        players := players[id := players[id].(score := players[id].score + points)];
        left := left - {id};
      }
      assert forall id | id in players :: players[id] == Award(old(players), points)[id];
    }

    /** The inner loop of detectCollisions for one bullet. */
    method HitTargets(a: int, targets: map<int, Pos>, deadTargets: seq<int>, points: int) returns (marked: seq<int>)
      requires a in bullets
      modifies this`deadBullets, this`players
      ensures var hits := HitsOf(a, bullets[a], targets, targets.Keys);
        && deadBullets == old(deadBullets) + Firsts(hits)
        && marked == deadTargets + Seconds(hits)
        && players == Award(old(players), Times(points, |hits|))
    {
      marked := deadTargets;
      ghost var hits: seq<(int, int)> := [];
      AwardNothing(players, points);
      var left := targets.Keys;
      while left != {}
        invariant left <= targets.Keys
        invariant hits + HitsOf(a, bullets[a], targets, left) == HitsOf(a, bullets[a], targets, targets.Keys)
        invariant deadBullets == old(deadBullets) + Firsts(hits)
        invariant marked == deadTargets + Seconds(hits)
        invariant players == Award(old(players), Times(points, |hits|))
        decreases left
      {
        var b := Least(left);
        left := left - {b};
        if Collides(bullets[a], targets[b]) {
          deadBullets := deadBullets + [a];
          marked := marked + [b];
          AwardAll(points);
          AwardTwice(old(players), |hits|, 1, points);
          hits := hits + [(a, b)];
        }
      }
    }

    /** detectCollisions of the bullets with enemies or bosses; the dead list of the targets is passed through. */
    method DetectBulletCollisions(targets: map<int, Pos>, deadTargets: seq<int>, points: int) returns (marked: seq<int>)
      modifies this`deadBullets, this`players
      ensures deadBullets == old(deadBullets) + Firsts(Hits(bullets, targets))
      ensures marked == deadTargets + Seconds(Hits(bullets, targets))
      ensures players == Award(old(players), Times(points, |Hits(bullets, targets)|))
    {
      marked := deadTargets;
      ghost var hits: seq<(int, int)> := [];
      AwardNothing(players, points);
      var movers := bullets.Keys;
      while movers != {}
        invariant movers <= bullets.Keys
        invariant hits + HitsFrom(bullets, targets, movers) == Hits(bullets, targets)
        invariant deadBullets == old(deadBullets) + Firsts(hits)
        invariant marked == deadTargets + Seconds(hits)
        invariant players == Award(old(players), Times(points, |hits|))
        decreases movers
      {
        var a := Least(movers);
        movers := movers - {a};
        ghost var more, later := HitsOf(a, bullets[a], targets, targets.Keys), HitsFrom(bullets, targets, movers);
        ConcatAssociates(hits, more, later);
        AwardTwice(old(players), |hits|, |more|, points);
        FirstsConcat(hits, more);
        SecondsConcat(hits, more);
        ConcatAssociates(old(deadBullets), Firsts(hits), Firsts(more));
        ConcatAssociates(deadTargets, Seconds(hits), Seconds(more));
        marked := HitTargets(a, targets, marked, points);
        hits := hits + more;
      }
      assert hits == Hits(bullets, targets);
    }

    /** handleEntityADeath on a player with checkHp set. */
    method HandlePlayerContact(a: int, damage: int)
      requires a in players
      modifies this`deadPlayers, this`players
      ensures players == Hurt(old(players), a, damage)
      ensures deadPlayers == old(deadPlayers) + if players[a].hp <= 0 then [a] else []
    {
      players := players[a := players[a].(hp := players[a].hp - damage)];
      if players[a].hp <= 0 {
        deadPlayers := deadPlayers + [a];
      }
    }

    /** The inner loop of detectCollisions for one player, with checkHp set. */
    method TouchTargets(a: int, targets: map<int, Pos>, deadTargets: seq<int>, damage: int, points: int)
      returns (marked: seq<int>)
      requires a in players
      modifies this`deadPlayers, this`players
      ensures var hits := HitsOf(a, old(players)[a].pos, targets, targets.Keys);
        && deadPlayers == old(deadPlayers) + Marked(old(players), hits, damage)
        && marked == deadTargets + Seconds(hits)
        && players == AfterContacts(old(players), hits, damage, points)
    {
      marked := deadTargets;
      ghost var hits: seq<(int, int)> := [];
      ghost var before, at := players, players[a].pos;
      NoContacts(players, damage, points);
      var left := targets.Keys;
      while left != {}
        invariant left <= targets.Keys
        invariant hits + HitsOf(a, at, targets, left) == HitsOf(a, at, targets, targets.Keys)
        invariant deadPlayers == old(deadPlayers) + Marked(before, hits, damage)
        invariant marked == deadTargets + Seconds(hits)
        invariant players == AfterContacts(before, hits, damage, points)
        decreases left
      {
        var b := Least(left);
        left := left - {b};
        if Collides(players[a].pos, targets[b]) {
          HandlePlayerContact(a, damage);
          marked := marked + [b];
          AwardAll(points);
          OneMoreContact(before, hits, (a, b), damage, points);
          hits := hits + [(a, b)];
        }
      }
      assert hits == HitsOf(a, at, targets, targets.Keys);
    }

    /** detectCollisions of the players with enemies or bosses. */
    method DetectPlayerCollisions(targets: map<int, Pos>, deadTargets: seq<int>, damage: int, points: int)
      returns (marked: seq<int>)
      modifies this`deadPlayers, this`players
      ensures var hits := Hits(Positions(old(players)), targets);
        && deadPlayers == old(deadPlayers) + Marked(old(players), hits, damage)
        && marked == deadTargets + Seconds(hits)
        && players == AfterContacts(old(players), hits, damage, points)
    {
      marked := deadTargets;
      ghost var hits: seq<(int, int)> := [];
      ghost var before, at := players, Positions(players);
      NoContacts(players, damage, points);
      var movers := players.Keys;
      assert movers == at.Keys;
      while movers != {}
        invariant movers <= at.Keys
        invariant hits + HitsFrom(at, targets, movers) == Hits(at, targets)
        invariant deadPlayers == old(deadPlayers) + Marked(before, hits, damage)
        invariant marked == deadTargets + Seconds(hits)
        invariant players == AfterContacts(before, hits, damage, points)
        decreases movers
      {
        var a := Least(movers);
        movers := movers - {a};
        ghost var more, later := HitsOf(a, at[a], targets, targets.Keys), HitsFrom(at, targets, movers);
        ConcatAssociates(hits, more, later);
        MoreContacts(before, hits, more, damage, points);
        SecondsConcat(hits, more);
        ConcatAssociates(old(deadPlayers), Marked(before, hits, damage), Marked(players, more, damage));
        ConcatAssociates(deadTargets, Seconds(hits), Seconds(more));
        marked := TouchTargets(a, targets, marked, damage, points);
        hits := hits + more;
      }
      assert hits == Hits(at, targets);
    }

    method DetectOutOfBounds()
      modifies this`deadBullets, this`deadEnemies, this`deadBosses
      ensures View() == GameState.DetectOutOfBounds(old(View()))
    {
      deadBullets := PushOutOfBounds(bullets, deadBullets);
      deadEnemies := PushOutOfBounds(enemies, deadEnemies);
      deadBosses := PushOutOfBounds(bosses, deadBosses);
    }

    method BulletsHitEnemies()
      modifies this`players, this`deadBullets, this`deadEnemies
      ensures View() == GameState.BulletsHitEnemies(old(View()))
    {
      deadEnemies := DetectBulletCollisions(enemies, deadEnemies, 5);
    }

    method BulletsHitBosses()
      modifies this`players, this`deadBullets, this`deadBosses
      ensures View() == GameState.BulletsHitBosses(old(View()))
    {
      deadBosses := DetectBulletCollisions(bosses, deadBosses, 20);
    }

    method PlayersHitEnemies()
      modifies this`players, this`deadPlayers, this`deadEnemies
      ensures View() == GameState.PlayersHitEnemies(old(View()))
    {
      deadEnemies := DetectPlayerCollisions(enemies, deadEnemies, 10, 5);
    }

    method PlayersHitBosses()
      modifies this`players, this`deadPlayers, this`deadBosses
      ensures View() == GameState.PlayersHitBosses(old(View()))
    {
      deadBosses := DetectPlayerCollisions(bosses, deadBosses, 20, 20);
    }

    /**
      All four overloads of removeEntities: walk the dead list, and for each listed live id announce it, erase it and
      erase its list entry.
     */
    method RemoveEntities<T>(entities: map<int, T>, dead: seq<int>, kind: PacketType)
      returns (live: map<int, T>, kept: seq<int>, removed: seq<int>)
      modifies this`log
      ensures kept == Sweep(entities.Keys, dead).0
      ensures removed == Sweep(entities.Keys, dead).1
      ensures live == entities - Elements(removed)
      ensures log == old(log) + Notices(kind, removed)
    {
      live, kept, removed := entities, dead, [];
      var i := 0;
      while i < |kept|
        invariant i <= |kept|
        invariant live == entities - Elements(removed)
        invariant log == old(log) + Notices(kind, removed)
        invariant Sweep(entities.Keys, dead).0 == kept[..i] + Sweep(live.Keys, kept[i..]).0
        invariant Sweep(entities.Keys, dead).1 == removed + Sweep(live.Keys, kept[i..]).1
        decreases |kept| - i
      {
        var id := kept[i];
        if id in live {
          var next := kept[..i] + kept[i + 1..];
          assert kept[i..][1..] == next[i..] && kept[..i] == next[..i];
          Broadcast(Destroyed(kind, id));
          live := live - {id};
          kept := next;
          removed := removed + [id];
        } else {
          assert kept[i..][1..] == kept[i + 1..];
          i := i + 1;
        }
      }
      assert kept[|kept|..] == [];
    }

    method RemoveBullets()
      modifies this`bullets, this`deadBullets, this`shooters, this`log
      ensures View() == GameState.RemoveBullets(old(View()))
    {
      var removed;
      bullets, deadBullets, removed := RemoveEntities(bullets, deadBullets, DESTROY_BULLET);
      shooters := shooters - Elements(removed);
    }

    method RemoveEnemies()
      modifies this`enemies, this`deadEnemies, this`log
      ensures View() == GameState.RemoveEnemies(old(View()))
    {
      var removed;
      enemies, deadEnemies, removed := RemoveEntities(enemies, deadEnemies, DESTROY_ENEMY);
    }

    method RemovePlayers()
      modifies this`players, this`deadPlayers, this`totalPlayers, this`log
      ensures View() == GameState.RemovePlayers(old(View()))
    {
      var removed;
      players, deadPlayers, removed := RemoveEntities(players, deadPlayers, DESTROY_PLAYER);
      totalPlayers := totalPlayers - |removed|;
    }

    method RemoveBosses()
      modifies this`bosses, this`deadBosses, this`log
      ensures View() == GameState.RemoveBosses(old(View()))
    {
      var removed;
      bosses, deadBosses, removed := RemoveEntities(bosses, deadBosses, DESTROY_BOSS);
    }

    method CheckCollisions()
      modifies this
      ensures View() == GameState.CheckCollisions(old(View()))
    {
      BulletsHitEnemies();
      BulletsHitBosses();
      PlayersHitEnemies();
      PlayersHitBosses();
      DetectOutOfBounds();
      RemoveBullets();
      RemoveEnemies();
      RemovePlayers();
      RemoveBosses();
    }

    // ---- Waves and status ----

    method SpawnEnemy(y: real)
      modifies this
      ensures View() == GameState.SpawnEnemy(old(View()), y)
    {
      if enemyId !in enemies {
        enemies := enemies[enemyId := Pos(SPAWN_X, y)];
      }
      Broadcast(PlaceMessage(CREATE_ENEMY, enemyId, Pos(SPAWN_X, y), -1.0));
      enemyId := enemyId + 1;
    }

    method SpawnBoss(y: real)
      modifies this
      ensures View() == GameState.SpawnBoss(old(View()), y)
    {
      if bossId !in bosses {
        bosses := bosses[bossId := Pos(SPAWN_X, y)];
      }
      Broadcast(PlaceMessage(CREATE_BOSS, bossId, Pos(SPAWN_X, y), -0.1));
      bossId := bossId + 1;
    }

    /** waveSystem; the heights that the random generator would draw are an argument. */
    method WaveSystem(due: bool, ys: seq<real>)
      requires due ==> |ys| == WaveSize(View())
      modifies this
      ensures View() == if due then NextWave(old(View()), ys) else old(View())
    {
      if due {
        currentWave := currentWave + 1;
        if currentWave % 3 == 0 {
          SpawnBoss(ys[0]);
          ghost var start := View();
          for i := 0 to 4
            invariant SpawnEnemies(View(), ys[1 + i..]) == SpawnEnemies(start, ys[1..])
          {
            assert ys[1 + i..][1..] == ys[1 + (i + 1)..];
            SpawnEnemy(ys[1 + i]);
          }
        } else {
          StartNextWave(ys);
        }
      }
    }

    method StartNextWave(ys: seq<real>)
      requires |ys| == enemiesPerWave
      modifies this
      ensures var w := SpawnEnemies(old(View()).(currentWave := old(currentWave) + 1), ys);
        View() == w.(enemiesPerWave := w.enemiesPerWave + 5)
    {
      currentWave := currentWave + 1;
      ghost var start := View();
      for i := 0 to enemiesPerWave
        invariant enemiesPerWave == |ys|
        invariant SpawnEnemies(View(), ys[i..]) == SpawnEnemies(start, ys)
      {
        assert ys[i..][1..] == ys[i + 1..];
        SpawnEnemy(ys[i]);
      }
      enemiesPerWave := enemiesPerWave + 5;
    }

    method UpdateUI(due: bool)
      modifies this`log
      ensures View() == GameState.UpdateUI(old(View()), due)
    {
      if due {
        var left := players.Keys;
        while left != {}
          invariant left <= players.Keys
          invariant log + UiMessages(players, left) == old(log) + UiMessages(players, players.Keys)
          decreases left
        {
          var id := Least(left);
          left := left - {id};
          Broadcast(UiMessage(id, players[id]));
        }
      }
    }

    /** The five calls of update() after processPlayerActions. */
    method UpdateWorld(t: Timers)
      requires t.wave ==> |t.ys| == WaveSize(View())
      modifies this
      ensures WaveSize(UntilCheck(old(View()), t)) == WaveSize(old(View()))
      ensures View() == Tick(old(View()), t)
    {
      WaveSizeIsKept(View(), t);
      UpdateBullets(t.bullets);
      UpdateEnemies(t.enemies);
      CheckCollisions();
      WaveSystem(t.wave, t.ys);
      UpdateUI(t.ui);
    }

    /**
      One pass of the body of update(). `threw` reports an exception out of processPlayerActions, which ends the
      process; otherwise the new state is that of the six calls in order.
     */
    method Update(t: Timers) returns (threw: bool)
      requires t.wave ==> |t.ys| == WaveSize(View())
      modifies this
      ensures threw <==> ProcessActions(old(View())).None?
      ensures !threw ==>
                && WaveSize(UntilCheck(ProcessActions(old(View())).value, t)) == WaveSize(old(View()))
                && View() == Tick(ProcessActions(old(View())).value, t)
    {
      threw := ProcessPlayerActions();
      if !threw {
        SameWaveSize(old(View()));
        UpdateWorld(t);
      }
    }
  }

  /** The range-for loops of updateBullets and updateEnemies. */
  method MoveAll(m: map<int, Pos>, dx: real) returns (moved: map<int, Pos>)
    ensures moved == Shift(m, dx)
  {
    moved := m;
    var left := m.Keys;
    while left != {}
      invariant left <= moved.Keys == m.Keys
      invariant forall id | id in m :: moved[id] == if id in left then m[id] else Shift(m, dx)[id]
      decreases left
    {
      var id := Least(left);
      moved := moved[id := Pos(moved[id].x + dx, moved[id].y)];
      left := left - {id};
    }
    assert forall id | id in moved :: moved[id] == Shift(m, dx)[id];
  }

  method PushOutOfBounds(m: map<int, Pos>, dead: seq<int>) returns (marked: seq<int>)
    ensures marked == dead + OutOfBoundsKeys(m, m.Keys)
  {
    marked := dead;
    var left := m.Keys;
    while left != {}
      invariant left <= m.Keys
      invariant marked + OutOfBoundsKeys(m, left) == dead + OutOfBoundsKeys(m, m.Keys)
      decreases left
    {
      var id := Least(left);
      left := left - {id};
      if OutOfBounds(m[id]) {
        marked := marked + [id];
      }
    }
  }
}
