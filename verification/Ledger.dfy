/** The broadcast log as a ledger: which ids were created and destroyed, how often and in which order. */
module Ledger {
  import opened Collections
  import opened Protocol
  import opened GameState

  /** The ids of all messages of one kind, in log order. */
  function Ids(log: seq<Message>, kind: PacketType): seq<int> {
    if log == [] then []
    else
      var last := log[|log| - 1];
      Ids(log[..|log| - 1], kind) + if last.kind == kind then [last.id] else []
  }

  lemma {:induction false} IdsConcat(a: seq<Message>, b: seq<Message>, kind: PacketType)
    ensures Ids(a + b, kind) == Ids(a, kind) + Ids(b, kind)
  {
    if b == [] {
      assert a + b == a;
    } else {
      assert (a + b)[..|a + b| - 1] == a + b[..|b| - 1];
      IdsConcat(a, b[..|b| - 1], kind);
      ConcatAssociates(Ids(a, kind), Ids(b[..|b| - 1], kind), if b[|b| - 1].kind == kind then [b[|b| - 1].id] else []);
    }
  }

  lemma IdsAppend(log: seq<Message>, m: Message, kind: PacketType)
    ensures Ids(log + [m], kind) == Ids(log, kind) + if m.kind == kind then [m.id] else []
  {
    assert (log + [m])[..|log|] == log;
  }

  /** Every destruction is of an id created earlier in the log. */
  ghost predicate DestroyedAfterCreated(log: seq<Message>, created: PacketType, destroyed: PacketType) {
    forall j | 0 <= j < |log| && log[j].kind == destroyed :: log[j].id in Ids(log[..j], created)
  }

  /**
    The log agrees with a map that holds the `live` ids out of the ids 0, ..., issued - 1: each issued id is created
    once, in order; the ids that are not live are destroyed once, after their creation; nothing else is.
   */
  ghost predicate Balanced(log: seq<Message>, created: PacketType, destroyed: PacketType, live: set<int>, issued: int) {
    && 0 <= issued
    && Ids(log, created) == UpTo(issued)
    && NoDuplicates(Ids(log, destroyed))
    && live <= Below(issued)
    && Elements(Ids(log, destroyed)) == Below(issued) - live
    && DestroyedAfterCreated(log, created, destroyed)
  }

  /** The sequence 0, 1, ..., n-1. */
  function UpTo(n: int): (r: seq<int>)
    requires 0 <= n
    ensures |r| == n && Elements(r) == Below(n)
  {
    if n == 0 then [] else
      var init := UpTo(n - 1);
      assert Elements(init + [n - 1]) == Elements(init) + {n - 1};
      init + [n - 1]
  }

  lemma Append(log: seq<Message>, m: Message, created: PacketType, destroyed: PacketType)
    requires DestroyedAfterCreated(log, created, destroyed)
    requires m.kind == destroyed ==> m.id in Ids(log, created)
    ensures DestroyedAfterCreated(log + [m], created, destroyed)
  {
    forall j | 0 <= j <= |log| && (log + [m])[j].kind == destroyed
      ensures (log + [m])[j].id in Ids((log + [m])[..j], created)
    {
      assert (log + [m])[..j] == log[..j];
      if j == |log| {
        assert log[..j] == log;
      }
    }
  }

  lemma AppendOther(log: seq<Message>, m: Message, created: PacketType, destroyed: PacketType, live: set<int>,
                    issued: int)
    requires Balanced(log, created, destroyed, live, issued)
    requires m.kind != created && m.kind != destroyed
    ensures Balanced(log + [m], created, destroyed, live, issued)
  {
    IdsAppend(log, m, created);
    IdsAppend(log, m, destroyed);
    Append(log, m, created, destroyed);
  }

  lemma AppendCreation(log: seq<Message>, m: Message, destroyed: PacketType, live: set<int>, issued: int)
    requires Balanced(log, m.kind, destroyed, live, issued)
    requires m.kind != destroyed && m.id == issued
    ensures Balanced(log + [m], m.kind, destroyed, live + {issued}, issued + 1)
  {
    IdsAppend(log, m, m.kind);
    IdsAppend(log, m, destroyed);
    Append(log, m, m.kind, destroyed);
    assert UpTo(issued + 1) == UpTo(issued) + [issued];
    assert Below(issued + 1) - (live + {issued}) == Below(issued) - live;
  }

  lemma AppendDestruction(log: seq<Message>, m: Message, created: PacketType, live: set<int>, issued: int)
    requires Balanced(log, created, m.kind, live, issued)
    requires m.kind != created && m.id in live
    ensures Balanced(log + [m], created, m.kind, live - {m.id}, issued)
  {
    IdsAppend(log, m, created);
    IdsAppend(log, m, m.kind);
    var ids := Ids(log, m.kind);
    assert m.id in Elements(UpTo(issued));
    Append(log, m, created, m.kind);
    assert m.id !in Elements(ids);
    assert Elements(ids + [m.id]) == Elements(ids) + {m.id};
    assert Below(issued) - (live - {m.id}) == (Below(issued) - live) + {m.id};
  }

  /** b is a followed by messages of the listed kinds. */
  ghost predicate OnlyAdds(a: seq<Message>, b: seq<Message>, kinds: set<PacketType>) {
    && |a| <= |b| && b[..|a|] == a
    && forall i | |a| <= i < |b| :: b[i].kind in kinds
  }

  lemma OnlyAddsTwice(a: seq<Message>, b: seq<Message>, c: seq<Message>, kinds: set<PacketType>)
    requires OnlyAdds(a, b, kinds) && OnlyAdds(b, c, kinds)
    ensures OnlyAdds(a, c, kinds)
  {
    assert c[..|a|] == c[..|b|][..|a|];
    forall i | |a| <= i < |c| ensures c[i].kind in kinds {
      if i < |b| {
        assert c[i] == c[..|b|][i];
      }
    }
  }

  lemma {:induction false} OthersKeepBalance(a: seq<Message>, b: seq<Message>, kinds: set<PacketType>,
                                             created: PacketType, destroyed: PacketType, live: set<int>, issued: int)
    requires Balanced(a, created, destroyed, live, issued)
    requires OnlyAdds(a, b, kinds) && created !in kinds && destroyed !in kinds
    ensures Balanced(b, created, destroyed, live, issued)
    decreases |b|
  {
    if |a| == |b| {
      assert a == b;
    } else {
      var init := b[..|b| - 1];
      assert init[..|a|] == b[..|a|];
      OthersKeepBalance(a, init, kinds, created, destroyed, live, issued);
      AppendOther(init, b[|b| - 1], created, destroyed, live, issued);
      assert b == init + [b[|b| - 1]];
    }
  }

  lemma SplitLast(ids: seq<int>, live: set<int>)
    requires ids != [] && NoDuplicates(ids) && Elements(ids) <= live
    ensures var init, id := ids[..|ids| - 1], ids[|ids| - 1];
      && NoDuplicates(init)
      && Elements(init) <= live
      && id in live - Elements(init)
      && live - Elements(init) - {id} == live - Elements(ids)
  {
    var init, id := ids[..|ids| - 1], ids[|ids| - 1];
    assert ids == init + [id];
    assert Elements(ids) == Elements(init) + {id};
    assert id !in Elements(init);
  }

  lemma {:induction false} NoticesKeepBalance(log: seq<Message>, ids: seq<int>, created: PacketType,
                                              destroyed: PacketType, live: set<int>, issued: int)
    requires Balanced(log, created, destroyed, live, issued) && created != destroyed
    requires NoDuplicates(ids) && Elements(ids) <= live
    ensures Balanced(log + Notices(destroyed, ids), created, destroyed, live - Elements(ids), issued)
    decreases |ids|
  {
    if ids == [] {
      assert log + Notices(destroyed, ids) == log;
      assert live - Elements(ids) == live;
    } else {
      var init, id := ids[..|ids| - 1], ids[|ids| - 1];
      SplitLast(ids, live);
      NoticesKeepBalance(log, init, created, destroyed, live, issued);
      var before, m := log + Notices(destroyed, init), Destroyed(destroyed, id);
      assert log + Notices(destroyed, ids) == before + [m];
      AppendDestruction(before, m, created, live - Elements(init), issued);
    }
  }

  lemma NoticesAddOnly(log: seq<Message>, kind: PacketType, ids: seq<int>)
    ensures OnlyAdds(log, log + Notices(kind, ids), {kind})
  {
  }
}
