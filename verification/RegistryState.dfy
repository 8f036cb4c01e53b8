/** The entity registry as a value: a free list of ids over growing component arrays, and what it stands for. */
module RegistryState {
  import opened Collections
  import opened SparseArrays

  datatype Component =
    | Position(x: real, y: real)
    | Velocity(vx: real, vy: real)
    | Projectile(speed: real)
    | Other(tag: nat, value: int)

  datatype Kind = POSITION | VELOCITY | PROJECTILE | OTHER(otherTag: nat)

  function KindOf(c: Component): Kind {
    match c
    case Position(_, _) => POSITION
    case Velocity(_, _) => VELOCITY
    case Projectile(_) => PROJECTILE
    case Other(tag, _) => OTHER(tag)
  }

  type Slots = seq<Option<Component>>

  /** nextEntity, deadEntities, the kinds in the order of eraseFunctions, and the array of each kind. */
  datatype State = State(next: nat, dead: seq<nat>, erasers: seq<Kind>, arrays: map<Kind, Slots>)

  const EMPTY_REGISTRY: State := State(0, [], [], map[])

  /** The outcome of an operation that may throw std::out_of_range. */
  datatype Outcome = Done | NoEntity | NoArray

  // ---- Operations ----

  predicate Exists(s: State, e: nat) {
    e < s.next && e !in s.dead
  }

  /** The most recently killed id is handed out again first. */
  function Spawn(s: State): (State, nat) {
    if s.dead != [] then (s.(dead := s.dead[..|s.dead| - 1]), s.dead[|s.dead| - 1])
    else (s.(next := s.next + 1), s.next)
  }

  /** kill_entity takes any id: it does not look whether the entity exists. */
  function Kill(s: State, e: nat): State {
    s.(arrays := map k | k in s.arrays :: if k in s.erasers then Erased(s.arrays[k], e) else s.arrays[k],
       dead := s.dead + [e])
  }

  function Register(s: State, k: Kind): State {
    if k in s.arrays then s else s.(arrays := s.arrays[k := []], erasers := s.erasers + [k])
  }

  function Add(s: State, e: nat, c: Component): (State, Outcome) {
    var k := KindOf(c);
    if !Exists(s, e) then (s, NoEntity)
    else if k !in s.arrays then (s, NoArray)
    else (s.(arrays := s.arrays[k := Inserted(s.arrays[k], e, c)]), Done)
  }

  /** remove_component does not look whether the entity exists either. */
  function Remove(s: State, e: nat, k: Kind): (State, Outcome) {
    if k !in s.arrays then (s, NoArray)
    else (s.(arrays := s.arrays[k := Erased(s.arrays[k], e)]), Done)
  }

  predicate HasComponent(s: State, e: nat, k: Kind) {
    Exists(s, e) && k in s.arrays && Has(s.arrays[k], e)
  }

  // ---- What a registry stands for: live entities and one map per component kind ----

  function Live(s: State): set<int> {
    Below(s.next) - Elements<int>(s.dead)
  }

  /** The component of this kind that the entity has. */
  function ComponentOf(s: State, e: nat, k: Kind): Option<Component> {
    if k in s.arrays then At(s.arrays[k], e) else None
  }

  ghost predicate Sound(s: State) {
    && NoDuplicates(s.dead)
    && (forall i | 0 <= i < |s.dead| :: s.dead[i] < s.next)
    && (forall k :: k in s.erasers <==> k in s.arrays)
    && (forall e: nat, k | ComponentOf(s, e, k).Some? :: Exists(s, e) && KindOf(ComponentOf(s, e, k).value) == k)
  }

  lemma LiveIffExists(s: State, e: nat)
    ensures e in Live(s) <==> Exists(s, e)
  {
  }

  lemma LiveCount(s: State)
    requires Sound(s)
    ensures |Live(s)| == s.next - |s.dead|
  {
    NoDuplicatesCardinality<int>(s.dead);
    BelowCardinality(s.next);
    assert Elements<int>(s.dead) <= Below(s.next);
    assert |Below(s.next) - Elements<int>(s.dead)| == |Below(s.next)| - |Elements<int>(s.dead)|;
  }

  /** Entities and components are untouched, except those of one entity. */
  ghost predicate OnlyTouches(s: State, v: State, e: nat) {
    forall j: nat, k | j != e :: ComponentOf(v, j, k) == ComponentOf(s, j, k)
  }

  // ---- Refinement ----

  lemma SameComponents(s: State, v: State)
    requires v.arrays == s.arrays
    ensures forall j: nat, k :: ComponentOf(v, j, k) == ComponentOf(s, j, k)
  {
  }

  lemma RecycledIsFree(s: State)
    requires Sound(s) && s.dead != []
    ensures var (v, e) := Spawn(s);
      Sound(v) && e !in Live(s) && Live(v) == Live(s) + {e}
  {
    var (v, e) := Spawn(s);
    var rest := v.dead;
    assert s.dead == rest + [e];
    assert e !in rest && Elements<int>(s.dead) == Elements<int>(rest) + {e};
    assert forall j: nat, k :: ComponentOf(v, j, k) == ComponentOf(s, j, k);
    forall j: nat | Exists(s, j) ensures Exists(v, j) {
      assert j !in rest;
    }
    assert e in Below(s.next);
  }

  lemma FreshIsFree(s: State)
    requires Sound(s) && s.dead == []
    ensures var (v, e) := Spawn(s);
      Sound(v) && e !in Live(s) && Live(v) == Live(s) + {e}
  {
    var (v, e) := Spawn(s);
    assert forall j: nat, k :: ComponentOf(v, j, k) == ComponentOf(s, j, k);
    assert Below(v.next) == Below(s.next) + {e};
    assert Elements<int>(s.dead) == {};
  }

  /** A spawned id, new or recycled, is not that of a live entity and has no components; nothing else changes. */
  lemma SpawnRefines(s: State)
    requires Sound(s)
    ensures var (v, e) := Spawn(s);
      && Sound(v)
      && e !in Live(s) && Live(v) == Live(s) + {e}
      && (forall k :: ComponentOf(v, e, k).None?)
      && (forall j: nat, k :: ComponentOf(v, j, k) == ComponentOf(s, j, k))
  {
    var (v, e) := Spawn(s);
    if s.dead != [] {
      RecycledIsFree(s);
    } else {
      FreshIsFree(s);
    }
    LiveIffExists(s, e);
    SameComponents(s, v);
    forall k ensures ComponentOf(v, e, k).None? {
      assert ComponentOf(v, e, k) == ComponentOf(s, e, k);
    }
  }

  lemma KillComponents(s: State, e: nat)
    requires forall k | k in s.arrays :: k in s.erasers
    ensures OnlyTouches(s, Kill(s, e), e)
    ensures forall k :: ComponentOf(Kill(s, e), e, k).None?
  {
    forall j: nat, k
      ensures ComponentOf(Kill(s, e), j, k) == if j == e then None else ComponentOf(s, j, k)
    {
      if k in s.arrays {
        ErasedAt(s.arrays[k], e, j);
      }
    }
  }

  lemma KillLive(s: State, e: nat)
    requires Sound(s) && e in Live(s)
    ensures Sound(Kill(s, e))
    ensures Live(Kill(s, e)) == Live(s) - {e}
  {
    var v := Kill(s, e);
    KillComponents(s, e);
    assert Elements<int>(v.dead) == Elements<int>(s.dead) + {e};
    assert e !in s.dead;
    forall j: nat, k | ComponentOf(v, j, k).Some?
      ensures Exists(v, j) && KindOf(ComponentOf(v, j, k).value) == k
    {
      assert j != e && ComponentOf(v, j, k) == ComponentOf(s, j, k);
    }
  }

  /** kill_entity keeps the registry sound exactly when the entity is live. */
  lemma KillKeepsSoundIff(s: State, e: nat)
    requires Sound(s)
    ensures Sound(Kill(s, e)) <==> e in Live(s)
  {
    LiveIffExists(s, e);
    var v := Kill(s, e);
    var n := |s.dead|;
    assert v.dead[n] == e;
    if e in Live(s) {
      KillLive(s, e);
    } else if e in s.dead {
      var i :| 0 <= i < n && s.dead[i] == e;
      assert v.dead[i] == v.dead[n];
    }
  }

  /** Killing an entity twice makes the next two spawned entities share its id. */
  lemma DoubleKillSharesId(s: State, e: nat)
    ensures var (v, first) := Spawn(Kill(Kill(s, e), e)); first == e && Spawn(v).1 == e
  {
    var v := Spawn(Kill(Kill(s, e), e)).0;
    assert v.dead == s.dead + [e];
  }

  /** add_component and emplace_component: exactly the live entities of a registered kind get the component. */
  lemma AddRefines(s: State, e: nat, c: Component)
    requires Sound(s)
    ensures var (v, outcome) := Add(s, e, c);
      && Sound(v) && Live(v) == Live(s) && v.arrays.Keys == s.arrays.Keys
      && (outcome == Done <==> e in Live(s) && KindOf(c) in s.arrays)
      && (outcome == NoEntity <==> e !in Live(s))
      && (forall j: nat, k :: ComponentOf(v, j, k) ==
                              if outcome == Done && j == e && k == KindOf(c) then Some(c) else ComponentOf(s, j, k))
  {
    LiveIffExists(s, e);
    var (v, outcome) := Add(s, e, c);
    if outcome == Done {
      AddedComponents(s, e, c);
      SameLifeIsSound(s, v, e);
    }
  }

  lemma AddedComponents(s: State, e: nat, c: Component)
    requires KindOf(c) in s.arrays && Exists(s, e)
    ensures forall j: nat, k :: ComponentOf(Add(s, e, c).0, j, k) ==
                                if j == e && k == KindOf(c) then Some(c) else ComponentOf(s, j, k)
  {
    forall j: nat, k
      ensures ComponentOf(Add(s, e, c).0, j, k) == if j == e && k == KindOf(c) then Some(c) else ComponentOf(s, j, k)
    {
      if k == KindOf(c) {
        InsertedAt(s.arrays[k], e, c, j);
      }
    }
  }

  /** Changing well-typed components of a live entity keeps the registry sound. */
  lemma SameLifeIsSound(s: State, v: State, e: nat)
    requires Sound(s) && v.next == s.next && v.dead == s.dead
    requires v.erasers == s.erasers && v.arrays.Keys == s.arrays.Keys
    requires Exists(s, e) && OnlyTouches(s, v, e)
    requires forall k | ComponentOf(v, e, k).Some? :: KindOf(ComponentOf(v, e, k).value) == k
    ensures Sound(v)
  {
    forall j: nat, k | ComponentOf(v, j, k).Some?
      ensures Exists(v, j) && KindOf(ComponentOf(v, j, k).value) == k
    {
      if j != e {
        assert ComponentOf(v, j, k) == ComponentOf(s, j, k);
      }
    }
  }

  lemma RemoveRefines(s: State, e: nat, k: Kind)
    requires Sound(s)
    ensures var (v, outcome) := Remove(s, e, k);
      && Sound(v) && Live(v) == Live(s)
      && (outcome == Done <==> k in s.arrays)
      && (forall j: nat, q :: ComponentOf(v, j, q) == if j == e && q == k then None else ComponentOf(s, j, q))
  {
    if k in s.arrays {
      RemovedComponents(s, e, k);
      var v := Remove(s, e, k).0;
      forall j: nat, q | ComponentOf(v, j, q).Some?
        ensures Exists(v, j) && KindOf(ComponentOf(v, j, q).value) == q
      {
        assert ComponentOf(v, j, q) == ComponentOf(s, j, q);
      }
    }
  }

  lemma RemovedComponents(s: State, e: nat, k: Kind)
    requires k in s.arrays
    ensures forall j: nat, q :: ComponentOf(Remove(s, e, k).0, j, q) ==
                                if j == e && q == k then None else ComponentOf(s, j, q)
  {
    forall j: nat, q
      ensures ComponentOf(Remove(s, e, k).0, j, q) == if j == e && q == k then None else ComponentOf(s, j, q)
    {
      if q == k {
        ErasedAt(s.arrays[k], e, j);
      }
    }
  }

  lemma RegisterRefines(s: State, k: Kind)
    requires Sound(s)
    ensures var v := Register(s, k);
      && Sound(v) && Live(v) == Live(s) && v.arrays.Keys == s.arrays.Keys + {k}
      && (forall j: nat, q :: ComponentOf(v, j, q) == ComponentOf(s, j, q))
  {
    var v := Register(s, k);
    assert forall j: nat, q :: ComponentOf(v, j, q) == ComponentOf(s, j, q);
  }

  /** has_component answers for the maps that the registry stands for. */
  lemma HasComponentIff(s: State, e: nat, k: Kind)
    requires Sound(s)
    ensures HasComponent(s, e, k) <==> ComponentOf(s, e, k).Some?
  {
  }

  // ---- Runs ----

  datatype Event =
    | Spawns
    | Kills(killed: nat)
    | Registers(kind: Kind)
    | Adds(owner: nat, component: Component)
    | Removes(from: nat, removed: Kind)

  function Step(s: State, ev: Event): State {
    match ev
    case Spawns => Spawn(s).0
    case Kills(e) => Kill(s, e)
    case Registers(k) => Register(s, k)
    case Adds(e, c) => Add(s, e, c).0
    case Removes(e, k) => Remove(s, e, k).0
  }

  function Run(events: seq<Event>): State {
    if events == [] then EMPTY_REGISTRY else Step(Run(events[..|events| - 1]), events[|events| - 1])
  }

  function SpawnCount(events: seq<Event>): nat {
    if events == [] then 0 else SpawnCount(events[..|events| - 1]) + if events[|events| - 1].Spawns? then 1 else 0
  }

  function KillCount(events: seq<Event>): nat {
    if events == [] then 0 else KillCount(events[..|events| - 1]) + if events[|events| - 1].Kills? then 1 else 0
  }

  /** The obligation that kill_entity leaves to its callers. */
  ghost predicate KillsLive(events: seq<Event>) {
    events != [] ==>
      var before, ev := events[..|events| - 1], events[|events| - 1];
      KillsLive(before) && (ev.Kills? ==> ev.killed in Live(Run(before)))
  }

  lemma StepKeepsSound(s: State, ev: Event)
    requires Sound(s) && (ev.Kills? ==> ev.killed in Live(s))
    ensures Sound(Step(s, ev))
    ensures |Live(Step(s, ev))| == |Live(s)| + (if ev.Spawns? then 1 else 0) - (if ev.Kills? then 1 else 0)
  {
    match ev
    case Spawns => SpawnRefines(s);
    case Kills(e) => KillLive(s, e);
    case Registers(k) => RegisterRefines(s, k);
    case Adds(e, c) => AddRefines(s, e, c);
    case Removes(e, k) => RemoveRefines(s, e, k);
  }

  /**
    While only live entities are killed: free ids are distinct and below nextEntity, components belong to live entities,
    and there are as many live entities as spawns less kills, which is nextEntity less the free ids.
   */
  lemma {:induction false} RunsKeepSound(events: seq<Event>)
    requires KillsLive(events)
    ensures Sound(Run(events))
    ensures |Live(Run(events))| == SpawnCount(events) - KillCount(events) == Run(events).next - |Run(events).dead|
  {
    if events == [] {
      assert Live(EMPTY_REGISTRY) == {};
    } else {
      RunsKeepSound(events[..|events| - 1]);
      StepKeepsSound(Run(events[..|events| - 1]), events[|events| - 1]);
    }
    LiveCount(Run(events));
  }

  // ---- The order in which ids come back ----

  function KillAll(s: State, es: seq<nat>): State {
    if es == [] then s else Kill(KillAll(s, es[..|es| - 1]), es[|es| - 1])
  }

  function SpawnMany(s: State, k: nat): State {
    if k == 0 then s else Spawn(SpawnMany(s, k - 1)).0
  }

  /** The id that the k-th of the following spawns gets, counting from 0. */
  function NthSpawned(s: State, k: nat): nat {
    Spawn(SpawnMany(s, k)).1
  }

  lemma {:induction false} KillsAreListed(s: State, es: seq<nat>)
    ensures KillAll(s, es).dead == s.dead + es && KillAll(s, es).next == s.next
  {
    if es == [] {
      assert s.dead + es == s.dead;
    } else {
      var init := es[..|es| - 1];
      KillsAreListed(s, init);
      assert es == init + [es[|es| - 1]];
      ConcatAssociates(s.dead, init, [es[|es| - 1]]);
    }
  }

  lemma {:induction false} SpawnsShortenList(s: State, k: nat)
    ensures var v := SpawnMany(s, k);
      if k <= |s.dead| then v.dead == s.dead[..|s.dead| - k] && v.next == s.next
      else v.dead == [] && v.next == s.next + k - |s.dead|
  {
    if k > 0 {
      SpawnsShortenList(s, k - 1);
    }
  }

  lemma NthSpawnedExact(s: State, k: nat)
    ensures NthSpawned(s, k) == if k < |s.dead| then s.dead[|s.dead| - 1 - k] else s.next + k - |s.dead|
  {
    SpawnsShortenList(s, k);
  }

  /**
    Ids come back last killed first: after killing es, the next |es| spawned entities get the ids of es from the last to
    the first, then those killed earlier come back the same way, and only then are new ids used, counting up.
   */
  lemma LastKilledFirst(s: State, es: seq<nat>, k: nat)
    ensures NthSpawned(KillAll(s, es), k) ==
            if k < |es| then es[|es| - 1 - k]
            else if k < |es| + |s.dead| then s.dead[|s.dead| + |es| - 1 - k]
            else s.next + k - |es| - |s.dead|
  {
    KillsAreListed(s, es);
    NthSpawnedExact(KillAll(s, es), k);
  }
}
