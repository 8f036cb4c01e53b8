/** The entity registry over sparse-array objects, and the projectile system that runs over it. */
module RegistryEngine {
  import opened SparseArrays
  import opened RegistryState

  class Registry {
    var nextEntity: nat
    var deadEntities: seq<nat>
    var arrays: map<Kind, SparseArray<Component>>
    var eraseFunctions: seq<Kind>

    /** Each kind has an array object of its own, and every erase function finds its array. */
    ghost predicate Valid()
      reads this
    {
      && (forall k, q | k in arrays && q in arrays && k != q :: arrays[k] != arrays[q])
      && (forall i | 0 <= i < |eraseFunctions| :: eraseFunctions[i] in arrays)
    }

    ghost function Contents(): map<Kind, Slots>
      reads this, arrays.Values
    {
      map k | k in arrays :: arrays[k].data
    }

    ghost function View(): State
      reads this, arrays.Values
    {
      State(nextEntity, deadEntities, eraseFunctions, Contents())
    }

    constructor ()
      ensures Valid() && View() == EMPTY_REGISTRY
    {
      nextEntity, deadEntities, arrays, eraseFunctions := 0, [], map[], [];
      new;
      assert Contents() == map[];
    }

    method SpawnEntity() returns (id: nat)
      requires Valid()
      modifies this`nextEntity, this`deadEntities
      ensures Valid() && (View(), id) == Spawn(old(View()))
    {
      if deadEntities != [] {
        id := deadEntities[|deadEntities| - 1];
        deadEntities := deadEntities[..|deadEntities| - 1];
      } else {
        id := nextEntity;
        nextEntity := nextEntity + 1;
      }
      assert Contents() == old(Contents());
    }

    /** The loop over the erase functions. */
    method EraseEverywhere(e: nat)
      requires Valid()
      modifies arrays.Values
      ensures forall k | k in arrays ::
          arrays[k].data == if k in eraseFunctions then Erased(old(arrays[k].data), e) else old(arrays[k].data)
    {
      for i := 0 to |eraseFunctions|
        invariant forall k | k in arrays ::
            arrays[k].data == if k in eraseFunctions[..i] then Erased(old(arrays[k].data), e) else old(arrays[k].data)
      {
        var kind := eraseFunctions[i];
        assert arrays[kind] in arrays.Values;
        assert eraseFunctions[..i + 1] == eraseFunctions[..i] + [kind];
        arrays[kind].Erase(e);
      }
      assert eraseFunctions[..|eraseFunctions|] == eraseFunctions;
    }

    method KillEntity(e: nat)
      requires Valid()
      modifies this`deadEntities, arrays.Values
      ensures Valid() && View() == Kill(old(View()), e)
    {
      EraseEverywhere(e);
      deadEntities := deadEntities + [e];
      assert Contents() == Kill(old(View()), e).arrays;
    }

    method RegisterComponent(k: Kind)
      requires Valid()
      modifies this`arrays, this`eraseFunctions
      ensures Valid() && View() == Register(old(View()), k)
      ensures forall a | a in arrays.Values - old(arrays.Values) :: fresh(a)
    {
      if k !in arrays {
        var slots := new SparseArray<Component>();
        arrays := arrays[k := slots];
        eraseFunctions := eraseFunctions + [k];
        assert Contents() == old(Contents())[k := []];
      }
    }

    method EntityExists(e: nat) returns (found: bool)
      ensures found <==> Exists(View(), e)
    {
      found := e < nextEntity && e !in deadEntities;
    }

    /** add_component; emplace_component does the same with the component built in place. */
    method AddComponent(e: nat, c: Component) returns (outcome: Outcome)
      requires Valid()
      modifies arrays.Values
      ensures Valid() && (View(), outcome) == Add(old(View()), e, c)
    {
      var there := EntityExists(e);
      if !there {
        return NoEntity;
      }
      var kind := KindOf(c);
      if kind !in arrays {
        return NoArray;
      }
      assert arrays[kind] in arrays.Values;
      arrays[kind].InsertAt(e, c);
      assert Contents() == Add(old(View()), e, c).0.arrays;
      outcome := Done;
    }

    method RemoveComponent(e: nat, k: Kind) returns (outcome: Outcome)
      requires Valid()
      modifies arrays.Values
      ensures Valid() && (View(), outcome) == Remove(old(View()), e, k)
    {
      if k !in arrays {
        return NoArray;
      }
      assert arrays[k] in arrays.Values;
      arrays[k].Erase(e);
      assert Contents() == Remove(old(View()), e, k).0.arrays;
      outcome := Done;
    }

    method HasComponent(e: nat, k: Kind) returns (has: bool)
      requires Valid()
      ensures has <==> RegistryState.HasComponent(View(), e, k)
    {
      var there := EntityExists(e);
      if !there || k !in arrays {
        return false;
      }
      has := arrays[k].Contains(e);
    }
  }
}
