/** sparse_array: a vector of optional components that grows on demand. */
module SparseArrays {
  import opened Collections

  // ---- Slots as values ----

  predicate Has<T>(data: seq<Option<T>>, i: nat) {
    i < |data| && data[i].Some?
  }

  /** The component in slot i, if there is such a slot and it holds one. */
  function At<T>(data: seq<Option<T>>, i: nat): Option<T> {
    if i < |data| then data[i] else None
  }

  /** resize to at least n slots; the new ones are empty. */
  function Grown<T>(data: seq<Option<T>>, n: nat): (r: seq<Option<T>>)
    ensures |r| == if n <= |data| then |data| else n
  {
    if n <= |data| then data else data + seq(n - |data|, i requires 0 <= i < n - |data| => None)
  }

  function Inserted<T>(data: seq<Option<T>>, i: nat, c: T): seq<Option<T>> {
    Grown(data, i + 1)[i := Some(c)]
  }

  function Erased<T>(data: seq<Option<T>>, i: nat): seq<Option<T>> {
    if i < |data| then data[i := None] else data
  }

  /** Growing changes no slot's content. */
  lemma GrownAt<T>(data: seq<Option<T>>, n: nat, j: nat)
    ensures At(Grown(data, n), j) == At(data, j)
  {
  }

  lemma InsertedAt<T>(data: seq<Option<T>>, i: nat, c: T, j: nat)
    ensures At(Inserted(data, i, c), j) == if j == i then Some(c) else At(data, j)
  {
    GrownAt(data, i + 1, j);
  }

  lemma ErasedAt<T>(data: seq<Option<T>>, i: nat, j: nat)
    ensures At(Erased(data, i), j) == if j == i then None else At(data, j)
  {
  }

  // ---- The array object ----

  class SparseArray<T(==)> {
    var data: seq<Option<T>>

    constructor ()
      ensures data == []
    {
      data := [];
    }

    method Resize(n: nat)
      requires n > |data|
      modifies this
      ensures data == Grown(old(data), n)
    {
      while |data| < n
        invariant |old(data)| <= |data| <= n
        invariant data == Grown(old(data), |data|)
      {
        data := data + [None];
      }
    }

    /** The non-const operator[], read; a slot past the end is created first. */
    method Get(i: nat) returns (slot: Option<T>)
      modifies this
      ensures data == Grown(old(data), i + 1)
      ensures slot == At(old(data), i)
    {
      if i >= |data| {
        Resize(i + 1);
      }
      slot := data[i];
    }

    method InsertAt(i: nat, c: T)
      modifies this
      ensures data == Inserted(old(data), i, c)
    {
      if i >= |data| {
        Resize(i + 1);
      }
      data := data[i := Some(c)];
    }

    method Erase(i: nat)
      modifies this
      ensures data == Erased(old(data), i)
    {
      if i < |data| {
        data := data[i := None];
      }
    }

    /** None stands for the index -1 of a value that is in no slot. */
    method GetIndex(value: T) returns (index: Option<nat>)
      ensures index.Some? ==> index.value < |data| && data[index.value] == Some(value)
      ensures forall j | 0 <= j < (if index.Some? then index.value else |data|) :: data[j] != Some(value)
    {
      for i := 0 to |data|
        invariant forall j | 0 <= j < i :: data[j] != Some(value)
      {
        if data[i] == Some(value) {
          return Some(i);
        }
      }
      index := None;
    }

    method Contains(i: nat) returns (there: bool)
      ensures there <==> Has(data, i)
    {
      there := i < |data| && data[i].Some?;
    }
  }
}
