/** projectileSystem: moving projectiles and killing the ones that leave, in one loop over the registry. */
module Projectiles {
  import opened Collections
  import opened SparseArrays
  import opened RegistryState
  import opened RegistryEngine

  const RIGHT_EDGE: real := 1280.0

  predicate AllRegistered(s: State) {
    POSITION in s.arrays && VELOCITY in s.arrays && PROJECTILE in s.arrays
  }

  /** The position after one update by velocity times speed; the arrays' types leave only the first case. */
  function MovedBy(p: Component, v: Component, q: Component): Component {
    match (p, v, q)
    case (Position(x, y), Velocity(vx, vy), Projectile(speed)) => Position(x + vx * speed, y + vy * speed)
    case _ => p
  }

  /** The loop body moves the entities that have all three components. */
  predicate Flies(s: State, e: nat) {
    && ComponentOf(s, e, PROJECTILE).Some?
    && ComponentOf(s, e, POSITION).Some?
    && ComponentOf(s, e, VELOCITY).Some?
  }

  function Destination(s: State, e: nat): Component
    requires Flies(s, e)
  {
    MovedBy(ComponentOf(s, e, POSITION).value, ComponentOf(s, e, VELOCITY).value, ComponentOf(s, e, PROJECTILE).value)
  }

  predicate IsOut(p: Component) {
    p.Position? && p.x > RIGHT_EDGE
  }

  predicate Leaves(s: State, e: nat) {
    Flies(s, e) && IsOut(Destination(s, e))
  }

  // ---- The loop ----

  /** positions[i] and velocities[i] bring both arrays to slot i. */
  function Reached(s: State, i: nat): State
    requires AllRegistered(s)
  {
    s.(arrays := s.arrays[POSITION := Grown(s.arrays[POSITION], i + 1)][VELOCITY := Grown(s.arrays[VELOCITY], i + 1)])
  }

  function Placed(s: State, i: nat, p: Component): State
    requires POSITION in s.arrays
  {
    s.(arrays := s.arrays[POSITION := Inserted(s.arrays[POSITION], i, p)])
  }

  function Advance(s: State, i: nat): (r: State)
    requires AllRegistered(s)
    ensures r.arrays.Keys == s.arrays.Keys && |r.arrays[PROJECTILE]| == |s.arrays[PROJECTILE]|
  {
    if ComponentOf(s, i, PROJECTILE).None? then s
    else if !Flies(s, i) then Reached(s, i)
    else
      var u := Placed(Reached(s, i), i, Destination(s, i));
      if IsOut(Destination(s, i)) then Kill(u, i) else u
  }

  function SystemFrom(s: State, i: nat): State
    requires AllRegistered(s)
    decreases |s.arrays[PROJECTILE]| - i
  {
    if i >= |s.arrays[PROJECTILE]| then s else SystemFrom(Advance(s, i), i + 1)
  }

  // ---- What it amounts to, entity by entity ----

  function Outcome(s: State, e: nat, k: Kind): Option<Component> {
    if !Flies(s, e) then ComponentOf(s, e, k)
    else if Leaves(s, e) then None
    else if k == POSITION then Some(Destination(s, e))
    else ComponentOf(s, e, k)
  }

  /** The entities below i that leave, in ascending order. */
  function Departed(s: State, i: nat): (r: seq<nat>)
    ensures forall e | e in r :: e < i
  {
    if i == 0 then []
    else if Leaves(s, i - 1) then Departed(s, i - 1) + [i - 1]
    else Departed(s, i - 1)
  }

  ghost predicate Progress(s: State, v: State, i: nat) {
    && AllRegistered(s) && AllRegistered(v)
    && v.next == s.next && v.dead == s.dead + Departed(s, i)
    && v.erasers == s.erasers && v.arrays.Keys == s.arrays.Keys
    && |v.arrays[PROJECTILE]| == |s.arrays[PROJECTILE]|
    && forall e: nat, k :: ComponentOf(v, e, k) == if e < i then Outcome(s, e, k) else ComponentOf(s, e, k)
  }

  lemma ReachedComponents(s: State, i: nat)
    requires AllRegistered(s)
    ensures forall e: nat, k :: ComponentOf(Reached(s, i), e, k) == ComponentOf(s, e, k)
  {
    forall e: nat, k ensures ComponentOf(Reached(s, i), e, k) == ComponentOf(s, e, k) {
      if k == POSITION || k == VELOCITY {
        GrownAt(s.arrays[k], i + 1, e);
      }
    }
  }

  lemma PlacedComponents(s: State, i: nat, p: Component)
    requires POSITION in s.arrays
    ensures forall e: nat, k :: ComponentOf(Placed(s, i, p), e, k) ==
                                if e == i && k == POSITION then Some(p) else ComponentOf(s, e, k)
  {
    forall e: nat, k
      ensures ComponentOf(Placed(s, i, p), e, k) == if e == i && k == POSITION then Some(p) else ComponentOf(s, e, k)
    {
      if k == POSITION {
        InsertedAt(s.arrays[k], i, p, e);
      }
    }
  }

  /** One pass of the loop body treats its own entity and leaves every other one alone. */
  lemma AdvanceComponents(s: State, i: nat)
    requires AllRegistered(s) && forall k | k in s.arrays :: k in s.erasers
    ensures forall e: nat, k :: ComponentOf(Advance(s, i), e, k) ==
                                if e == i then Outcome(s, e, k) else ComponentOf(s, e, k)
  {
    if ComponentOf(s, i, PROJECTILE).Some? {
      ReachedComponents(s, i);
      if Flies(s, i) {
        var u := Placed(Reached(s, i), i, Destination(s, i));
        PlacedComponents(Reached(s, i), i, Destination(s, i));
        if IsOut(Destination(s, i)) {
          KillComponents(u, i);
        }
      }
    }
  }

  lemma AdvanceList(s: State, i: nat)
    requires AllRegistered(s)
    ensures var v := Advance(s, i);
      && v.next == s.next && v.erasers == s.erasers
      && v.dead == if Leaves(s, i) then s.dead + [i] else s.dead
  {
  }

  lemma SameAt(s: State, v: State, e: nat)
    requires forall k :: ComponentOf(v, e, k) == ComponentOf(s, e, k)
    ensures Leaves(v, e) <==> Leaves(s, e)
    ensures forall k :: Outcome(v, e, k) == Outcome(s, e, k)
  {
  }

  lemma AdvanceProgresses(s: State, v: State, i: nat)
    requires Progress(s, v, i) && forall k | k in s.arrays :: k in s.erasers
    ensures Progress(s, Advance(v, i), i + 1)
  {
    var w := Advance(v, i);
    SameAt(s, v, i);
    AdvanceList(v, i);
    AdvanceComponents(v, i);
    forall e: nat, k ensures ComponentOf(w, e, k) == if e < i + 1 then Outcome(s, e, k) else ComponentOf(s, e, k) {
      assert ComponentOf(w, e, k) == if e == i then Outcome(v, e, k) else ComponentOf(v, e, k);
    }
    if Leaves(s, i) {
      ConcatAssociates(s.dead, Departed(s, i), [i]);
    }
  }

  lemma {:induction false} SystemProgresses(s: State, v: State, i: nat)
    requires Progress(s, v, i) && i <= |s.arrays[PROJECTILE]| && forall k | k in s.arrays :: k in s.erasers
    ensures Progress(s, SystemFrom(v, i), |s.arrays[PROJECTILE]|)
    decreases |s.arrays[PROJECTILE]| - i
  {
    if i < |s.arrays[PROJECTILE]| {
      AdvanceProgresses(s, v, i);
      SystemProgresses(s, Advance(v, i), i + 1);
    }
  }

  lemma {:induction false} DepartedExact(s: State, i: nat)
    ensures forall e: nat :: e in Departed(s, i) <==> e < i && Leaves(s, e)
    ensures Ascending(Departed(s, i))
  {
    if i > 0 {
      DepartedExact(s, i - 1);
      var before := Departed(s, i - 1);
      forall j | 0 <= j < |before| ensures before[j] < i - 1 {
        assert before[j] in before;
      }
    }
  }

  /** After the loop, each entity is as its own components before it say, and exactly the leaving ones are dead. */
  lemma SystemExact(s: State)
    requires Sound(s) && AllRegistered(s)
    ensures var v := SystemFrom(s, 0); var gone := Departed(s, |s.arrays[PROJECTILE]|);
      && (forall e: nat, k :: ComponentOf(v, e, k) == Outcome(s, e, k))
      && v.next == s.next && v.dead == s.dead + gone && v.erasers == s.erasers && v.arrays.Keys == s.arrays.Keys
      && Ascending(gone) && (forall e: nat :: e in gone <==> Leaves(s, e))
  {
    var n := |s.arrays[PROJECTILE]|;
    assert forall e: nat | Leaves(s, e) :: e < n;
    assert s.dead + Departed(s, 0) == s.dead;
    SystemProgresses(s, s, 0);
    DepartedExact(s, n);
    var v := SystemFrom(s, 0);
    forall e: nat, k ensures ComponentOf(v, e, k) == Outcome(s, e, k) {
      assert ComponentOf(v, e, k) == if e < n then Outcome(s, e, k) else ComponentOf(s, e, k);
    }
  }

  lemma LongerList(dead: seq<nat>, gone: seq<nat>)
    requires NoDuplicates(dead) && Ascending(gone)
    requires forall i | 0 <= i < |gone| :: gone[i] !in dead
    ensures NoDuplicates(dead + gone)
  {
    var all := dead + gone;
    forall i, j | 0 <= i < j < |all| ensures all[i] != all[j] {
      if i < |dead| && j >= |dead| {
        assert all[j] == gone[j - |dead|] && all[i] in dead;
      }
    }
  }

  lemma LiveAfter(s: State, v: State, gone: seq<nat>)
    requires v.next == s.next && v.dead == s.dead + gone
    ensures Live(v) == Live(s) - Elements<int>(gone)
    ensures forall e: nat :: Exists(v, e) <==> Exists(s, e) && e !in gone
  {
    assert Elements<int>(v.dead) == Elements<int>(s.dead) + Elements<int>(gone);
  }

  lemma SurvivorsAreSound(s: State, v: State, gone: seq<nat>)
    requires Sound(s) && v.next == s.next && v.dead == s.dead + gone
    requires v.erasers == s.erasers && v.arrays.Keys == s.arrays.Keys
    requires Ascending(gone) && forall e: nat :: e in gone <==> Leaves(s, e)
    requires forall e: nat, k :: ComponentOf(v, e, k) == Outcome(s, e, k)
    ensures Sound(v)
  {
    forall i | 0 <= i < |gone| ensures gone[i] !in s.dead && gone[i] < s.next {
      assert gone[i] in gone;
    }
    LongerList(s.dead, gone);
    LiveAfter(s, v, gone);
    forall e: nat, k | ComponentOf(v, e, k).Some?
      ensures Exists(v, e) && KindOf(ComponentOf(v, e, k).value) == k
    {
      OutcomeIsTyped(s, e, k);
    }
  }

  lemma OutcomeIsTyped(s: State, e: nat, k: Kind)
    requires Sound(s) && Outcome(s, e, k).Some?
    ensures Exists(s, e) && !Leaves(s, e) && KindOf(Outcome(s, e, k).value) == k
  {
  }

  /**
    The system keeps the registry sound while it kills inside its loop: no entity dies twice, exactly the leaving
    entities stop being live, and every surviving projectile is within the edge.
   */
  lemma SystemKeepsSound(s: State)
    requires Sound(s) && AllRegistered(s)
    ensures var v := SystemFrom(s, 0);
      && Sound(v)
      && Live(v) == Live(s) - Elements<int>(Departed(s, |s.arrays[PROJECTILE]|))
      && (forall e: nat | Flies(v, e) :: !IsOut(ComponentOf(v, e, POSITION).value))
  {
    SystemExact(s);
    var v, gone := SystemFrom(s, 0), Departed(s, |s.arrays[PROJECTILE]|);
    SurvivorsAreSound(s, v, gone);
    LiveAfter(s, v, gone);
    forall e: nat | Flies(v, e) ensures !IsOut(ComponentOf(v, e, POSITION).value) {
      assert ComponentOf(v, e, POSITION) == Outcome(s, e, POSITION);
      assert ComponentOf(v, e, VELOCITY) == Outcome(s, e, VELOCITY);
      assert ComponentOf(v, e, PROJECTILE) == Outcome(s, e, PROJECTILE);
    }
  }

  lemma OutcomeInNumbers(s: State, e: nat, x: real, y: real, vx: real, vy: real, speed: real)
    requires ComponentOf(s, e, POSITION) == Some(Position(x, y))
    requires ComponentOf(s, e, VELOCITY) == Some(Velocity(vx, vy))
    requires ComponentOf(s, e, PROJECTILE) == Some(Projectile(speed))
    ensures Flies(s, e) && (Leaves(s, e) <==> x + vx * speed > 1280.0)
    ensures !Leaves(s, e) ==> Outcome(s, e, POSITION) == Some(Position(x + vx * speed, y + vy * speed))
  {
    assert Destination(s, e) == Position(x + vx * speed, y + vy * speed);
  }

  lemma SystemOutcome(s: State, e: nat)
    requires Sound(s) && AllRegistered(s)
    ensures var v := SystemFrom(s, 0);
      && (forall k :: ComponentOf(v, e, k) == Outcome(s, e, k))
      && (Leaves(s, e) ==> e in v.dead)
      && (e in Live(v) <==> Exists(s, e) && !Leaves(s, e))
  {
    var v, gone := SystemFrom(s, 0), Departed(s, |s.arrays[PROJECTILE]|);
    SystemExact(s);
    LiveAfter(s, v, gone);
    assert e in gone <==> Leaves(s, e);
    assert e in Live(v) <==> Exists(v, e);
  }

  /** In numbers: a projectile goes by velocity times speed, and one that this takes beyond 1280 is gone altogether. */
  lemma SystemInNumbers(s: State, e: nat, x: real, y: real, vx: real, vy: real, speed: real)
    requires Sound(s) && AllRegistered(s)
    requires ComponentOf(s, e, POSITION) == Some(Position(x, y))
    requires ComponentOf(s, e, VELOCITY) == Some(Velocity(vx, vy))
    requires ComponentOf(s, e, PROJECTILE) == Some(Projectile(speed))
    ensures var v := SystemFrom(s, 0);
      if x + vx * speed > 1280.0 then
        e !in Live(v) && e in v.dead && forall k :: ComponentOf(v, e, k) == None
      else
        && e in Live(v)
        && ComponentOf(v, e, POSITION) == Some(Position(x + vx * speed, y + vy * speed))
        && forall k | k != POSITION :: ComponentOf(v, e, k) == ComponentOf(s, e, k)
  {
    OutcomeInNumbers(s, e, x, y, vx, vy, speed);
    SystemOutcome(s, e);
    assert Exists(s, e);
  }

  // ---- The code ----

  /** The assignments to pos->x and pos->y, and the kill. */
  method MoveOne(r: Registry, i: nat, moved: Component)
    requires r.Valid() && POSITION in r.arrays && i < |r.arrays[POSITION].data|
    modifies r`deadEntities, r.arrays.Values
    ensures r.Valid()
    ensures var placed := Placed(old(r.View()), i, moved);
      r.View() == if IsOut(moved) then Kill(placed, i) else placed
  {
    var positions := r.arrays[POSITION];
    positions.data := positions.data[i := Some(moved)];
    assert r.Contents() == Placed(old(r.View()), i, moved).arrays;
    if IsOut(moved) {
      r.KillEntity(i);
    }
  }

  method ReadSlots(r: Registry, i: nat) returns (pos: Option<Component>, vel: Option<Component>)
    requires r.Valid() && AllRegistered(r.View())
    modifies r.arrays.Values
    ensures r.Valid() && r.View() == Reached(old(r.View()), i)
    ensures pos == ComponentOf(old(r.View()), i, POSITION) && vel == ComponentOf(old(r.View()), i, VELOCITY)
  {
    pos := r.arrays[POSITION].Get(i);
    vel := r.arrays[VELOCITY].Get(i);
    assert r.Contents() == Reached(old(r.View()), i).arrays;
  }

  /** The loop body for one slot. */
  method AdvanceOne(r: Registry, i: nat)
    requires r.Valid() && AllRegistered(r.View())
    modifies r`deadEntities, r.arrays.Values
    ensures r.Valid() && r.View() == Advance(old(r.View()), i)
  {
    var projectiles := r.arrays[PROJECTILE];
    if i < |projectiles.data| && projectiles.data[i].Some? {
      var proj := projectiles.data[i].value;
      var pos, vel := ReadSlots(r, i);
      if pos.Some? && vel.Some? {
        MoveOne(r, i, MovedBy(pos.value, vel.value, proj));
      }
    }
  }

  method ProjectileSystem(r: Registry)
    requires r.Valid() && AllRegistered(r.View())
    modifies r`deadEntities, r.arrays.Values
    ensures r.Valid() && r.View() == SystemFrom(old(r.View()), 0)
  {
    var i := 0;
    while i < |r.arrays[PROJECTILE].data|
      invariant r.Valid() && r.arrays == old(r.arrays)
      invariant AllRegistered(r.View()) && SystemFrom(r.View(), i) == SystemFrom(old(r.View()), 0)
      decreases |r.View().arrays[PROJECTILE]| - i
    {
      AdvanceOne(r, i);
      i := i + 1;
    }
  }
}
