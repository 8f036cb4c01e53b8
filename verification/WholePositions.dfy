/** Players stand on whole coordinates throughout a game, and every packet that places one names whole coordinates. */
module WholePositions {
  import opened Protocol
  import opened GameState
  import opened Casualties
  import opened GameRuns
  import opened FreshIds
  import opened Ledger
  import opened BroadcastRuns
  import opened DeltaUpdates

  predicate Whole(x: real) {
    x.Floor as real == x
  }

  predicate WholePos(p: Pos) {
    Whole(p.x) && Whole(p.y)
  }

  ghost predicate WholeLog(log: seq<Message>) {
    forall i | 0 <= i < |log| && PlacesPlayer(log[i].kind) :: Whole(log[i].x) && Whole(log[i].y)
  }

  ghost predicate WholePlayers(players: map<int, Player>) {
    forall id | id in players :: WholePos(players[id].pos)
  }

  ghost predicate WholeWorld(w: World) {
    WholePlayers(w.players) && WholeLog(w.log)
  }

  lemma WholeAppend(log: seq<Message>, m: Message)
    requires WholeLog(log) && (PlacesPlayer(m.kind) ==> Whole(m.x) && Whole(m.y))
    ensures WholeLog(log + [m])
  {
  }

  lemma OthersKeepWhole(a: seq<Message>, b: seq<Message>, kinds: set<PacketType>)
    requires WholeLog(a) && OnlyAdds(a, b, kinds) && kinds !! {CREATE_PLAYER, CHANGE}
    ensures WholeLog(b)
  {
    forall i | 0 <= i < |b| && PlacesPlayer(b[i].kind) ensures Whole(b[i].x) && Whole(b[i].y) {
      if i < |a| {
        assert b[..|a|][i] == a[i];
      }
    }
  }

  lemma WholeNumber(n: int)
    ensures Whole(n as real)
  {
  }

  lemma ShiftedIsWhole(x: real, k: int)
    requires Whole(x)
    ensures Whole(x + k as real)
  {
    assert x + k as real == (x.Floor + k) as real;
    WholeNumber(x.Floor + k);
  }

  lemma DisplacedIsWhole(p: Pos, code: int)
    requires WholePos(p)
    ensures WholePos(Displaced(p, code))
  {
    ShiftedIsWhole(p.x, -20);
    ShiftedIsWhole(p.x, 20);
    ShiftedIsWhole(p.y, -20);
    ShiftedIsWhole(p.y, 20);
  }

  lemma ClampedIsWhole(v: real, top: int)
    requires Whole(v)
    ensures Whole(Clamp(v, top as real))
  {
    WholeNumber(0);
    WholeNumber(top);
  }

  lemma MovesStayWhole(p: Pos, code: int)
    requires WholePos(p)
    ensures WholePos(ClampToBounds(Displaced(p, code)))
  {
    DisplacedIsWhole(p, code);
    ClampedIsWhole(Displaced(p, code).x, 1195);
    ClampedIsWhole(Displaced(p, code).y, 630);
  }

  lemma {:induction false} FactoryKeepsWhole(w: World, i: nat)
    requires WholeWorld(w)
    ensures WholeWorld(AnnounceFrom(w, i))
    decreases |w.players| - i
  {
    if i < |w.players| {
      if i in w.players {
        WholeAppend(w.log, PlaceMessage(CHANGE, i, w.players[i].pos, 0.0));
      }
      FactoryKeepsWhole(Announce(w, i), i + 1);
    }
  }

  lemma MoveKeepsWhole(w: World, id: int, code: int)
    requires WholeWorld(w) && id in w.players
    ensures WholeWorld(HandlePlayerMove(w, id, code))
  {
    var p := w.players[id];
    MovesStayWhole(p.pos, code);
    FactoryKeepsWhole(w.(players := w.players[id := p.(pos := ClampToBounds(Displaced(p.pos, code)))]), 0);
  }

  lemma ActionKeepsWhole(w: World, i: nat)
    requires WholeWorld(w) && i < |w.actions| && !Throws(w, w.actions[i])
    ensures |Execute(w, w.actions[i]).actions| == |w.actions|
    ensures WholeWorld(Mark(Execute(w, w.actions[i]), i))
  {
    var a := w.actions[i];
    if IsMove(a.code) {
      MoveKeepsWhole(w, a.player, a.code);
    } else if a.code == 5 {
      ShotKeepsWhole(w, a.player);
    }
  }

  lemma ShotKeepsWhole(w: World, id: int)
    requires WholeWorld(w)
    ensures WholeWorld(SpawnBullet(w, id))
  {
    OthersKeepWhole(w.log, SpawnBullet(w, id).log, {CREATE_BULLET});
  }

  lemma NoticesAreWhole(log: seq<Message>, kind: PacketType, ids: seq<int>)
    requires WholeLog(log)
    ensures WholeLog(log + Notices(kind, ids))
  {
    var all := log + Notices(kind, ids);
    forall i | 0 <= i < |all| && PlacesPlayer(all[i].kind) ensures Whole(all[i].x) && Whole(all[i].y) {
      if i >= |log| {
        assert all[i] == Destroyed(kind, ids[i - |log|]);
      }
    }
  }

  lemma CheckKeepsWhole(w: World, n: nat)
    requires Fresh(w, n) && WholeWorld(w)
    ensures WholeWorld(CheckCollisions(w))
  {
    var m, v := MarkCasualties(w), CheckCollisions(w);
    MarkedFrame(w);
    RemovedWorld(m);
    var b, e := Removed(m.bullets, m.deadBullets), Removed(m.enemies, m.deadEnemies);
    var p := Removed(m.players, m.deadPlayers);
    NoticesAreWhole(w.log, DESTROY_BULLET, b);
    NoticesAreWhole(w.log + Notices(DESTROY_BULLET, b), DESTROY_ENEMY, e);
    NoticesAreWhole(w.log + Notices(DESTROY_BULLET, b) + Notices(DESTROY_ENEMY, e), DESTROY_PLAYER, p);
    NoticesAreWhole(w.log + Notices(DESTROY_BULLET, b) + Notices(DESTROY_ENEMY, e) + Notices(DESTROY_PLAYER, p),
                    DESTROY_BOSS, Removed(m.bosses, m.deadBosses));
    forall id | id in v.players ensures WholePos(v.players[id].pos) {
      SurvivingPlayers(w, id);
    }
  }

  lemma StepKeepsWhole(s: System, ev: Event, n: nat)
    requires Fresh(s.w, n) && WholeWorld(s.w)
    ensures WholeWorld(Step(s, ev).w)
  {
    if Enabled(s, ev) {
      match ev
      case RunAction => ActionKeepsWhole(s.w, s.phase.next);
      case Collide => CheckKeepsWhole(s.w, n);
      case Wave(due, ys) =>
        if due {
          WaveSpawns(s.w, ys);
          WaveAddsPackets(s.w, ys);
          OthersKeepWhole(s.w.log, NextWave(s.w, ys).log, {CREATE_ENEMY, CREATE_BOSS});
        }
      case Report(due) =>
        if due {
          UiAddsStatus(s.w.players, s.w.players.Keys);
          OthersKeepWhole(s.w.log, UpdateUI(s.w, due).log, {UI_UPDATE});
        }
      case NetShoot(id) => ShotKeepsWhole(s.w, id);
      case _ =>
    }
  }

  lemma {:induction false} StartIsWhole(w: World, i: nat, n: nat)
    requires WholeWorld(w)
    ensures WholeWorld(SpawnPlayersFrom(w, i, n))
    decreases n - i
  {
    if i < n {
      SpawnKeepsWhole(w, i);
      StartIsWhole(SpawnPlayer(w, i, SpawnPoint(i)), i + 1, n);
    }
  }

  lemma SpawnKeepsWhole(w: World, i: nat)
    requires WholeWorld(w)
    ensures WholeWorld(SpawnPlayer(w, i, SpawnPoint(i)))
  {
    var v := SpawnPlayer(w, i, SpawnPoint(i));
    var create, ui := PlaceMessage(CREATE_PLAYER, i, SpawnPoint(i), 0.0), UiMessage(i, v.players[i]);
    WholeNumber(100 * (i + 1));
    assert SpawnPoint(i).x == (100 * (i + 1)) as real;
    WholeAppend(w.log, create);
    WholeAppend(w.log + [create], ui);
    assert v.log == w.log + [create] + [ui];
  }

  lemma {:induction false} RunsStayWhole(n: nat, events: seq<Event>)
    ensures WholeWorld(Run(Start(n), events).w)
  {
    if events == [] {
      StartIsWhole(NEW_GAME.(totalPlayers := n), 0, n);
    } else {
      var prefix := events[..|events| - 1];
      RunsStayWhole(n, prefix);
      RunsStayFresh(n, prefix);
      StepKeepsWhole(Run(Start(n), prefix), events[|events| - 1], n);
    }
  }
}
