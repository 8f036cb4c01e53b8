/** Where the replica shows the players, as far as packets say. */
module PlayerPlaces {
  import opened Protocol
  import opened GameState
  import opened Replica

  /** ReceiveKeys, for players, with the scene itself out of the way. */
  lemma ReceivePlayers(c: Scene, m: Message, v: Scene)
    requires v == Receive(c, m)
    ensures v.players.Keys ==
            if m.kind == CREATE_PLAYER then c.players.Keys + {m.id}
            else if m.kind == DESTROY_PLAYER then c.players.Keys - {m.id}
            else c.players.Keys
  {
    ReceiveKeys(c, m, PLAYERS);
  }

  lemma ReceivePlace(c: Scene, m: Message, id: int)
    requires id in c.players && id in Receive(c, m).players
    ensures Receive(c, m).players[id].at ==
            if id == m.id && PlacesPlayer(m.kind) then Pos(m.x, m.y) else c.players[id].at
  {
  }

  /** Both scenes show the player at the same place, or not at all. */
  ghost predicate SamePlace(c: Scene, d: Scene, id: int) {
    && (id in c.players <==> id in d.players)
    && (id in c.players ==> c.players[id].at == d.players[id].at)
  }

  lemma CreatedPlace(c: Scene, m: Message)
    requires m.kind == CREATE_PLAYER
    ensures m.id in Receive(c, m).players && Receive(c, m).players[m.id].at == Pos(m.x, m.y)
  {
  }

  /** The same packet up to coordinates that place no player. */
  predicate SamePlacing(m: Message, seen: Message) {
    && seen.kind == m.kind && seen.id == m.id
    && (PlacesPlayer(m.kind) ==> seen.x == m.x && seen.y == m.y)
  }

  lemma SamePlaceOne(c: Scene, d: Scene, m: Message, seen: Message, id: int)
    requires SamePlacing(m, seen) && SamePlace(c, d, id)
    ensures SamePlace(Receive(c, seen), Receive(d, m), id)
  {
    ReceivePlayers(c, seen, Receive(c, seen));
    ReceivePlayers(d, m, Receive(d, m));
    if id == m.id && m.kind == CREATE_PLAYER {
      CreatedPlace(c, seen);
      CreatedPlace(d, m);
    } else if id in c.players && id in Receive(c, seen).players {
      ReceivePlace(c, seen, id);
      ReceivePlace(d, m, id);
    }
  }

  ghost predicate SamePlacings(log: seq<Message>, seen: seq<Message>) {
    && |seen| == |log|
    && forall i | 0 <= i < |log| :: SamePlacing(log[i], seen[i])
  }

  lemma {:induction false} SamePlaceAfter(log: seq<Message>, seen: seq<Message>, id: int)
    requires SamePlacings(log, seen)
    ensures SamePlace(Replay(seen), Replay(log), id)
    decreases |log|
  {
    if log != [] {
      var k := |log| - 1;
      SamePlaceAfter(log[..k], seen[..k], id);
      SamePlaceOne(Replay(seen[..k]), Replay(log[..k]), log[k], seen[k], id);
    }
  }
}
