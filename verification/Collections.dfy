/** Small facts about sets and sequences that the other modules share. */
module Collections {

  datatype Option<+T> = None | Some(value: T)

  predicate NoDuplicates<T(==)>(s: seq<T>) {
    forall i, j | 0 <= i < j < |s| :: s[i] != s[j]
  }

  predicate Ascending(s: seq<int>) {
    forall i, j | 0 <= i < j < |s| :: s[i] < s[j]
  }

  function Elements<T(==)>(s: seq<T>): set<T> {
    set x | x in s
  }

  /** The integers 0, 1, ..., n-1. */
  function Below(n: int): (r: set<int>)
    ensures forall i :: i in r <==> 0 <= i < n
    decreases n
  {
    if n <= 0 then {} else Below(n - 1) + {n - 1}
  }

  function Firsts<A, B>(pairs: seq<(A, B)>): (r: seq<A>)
    ensures |r| == |pairs|
  {
    seq(|pairs|, i requires 0 <= i < |pairs| => pairs[i].0)
  }

  function Seconds<A, B>(pairs: seq<(A, B)>): (r: seq<B>)
    ensures |r| == |pairs|
  {
    seq(|pairs|, i requires 0 <= i < |pairs| => pairs[i].1)
  }

  lemma ConcatAssociates<T>(a: seq<T>, b: seq<T>, c: seq<T>)
    ensures (a + b) + c == a + (b + c)
  {
  }

  lemma FirstsConcat<A, B>(a: seq<(A, B)>, b: seq<(A, B)>)
    ensures Firsts(a + b) == Firsts(a) + Firsts(b)
  {
  }

  lemma SecondsConcat<A, B>(a: seq<(A, B)>, b: seq<(A, B)>)
    ensures Seconds(a + b) == Seconds(a) + Seconds(b)
  {
  }

  function Filter<T(==)>(keep: T -> bool, s: seq<T>): (r: seq<T>)
    ensures Elements(r) == set x | x in s && keep(x)
  {
    if s == [] then []
    else
      var tail := Filter(keep, s[1..]);
      assert forall x | x in tail :: x in Elements(tail);
      assert forall x | x in s[1..] && keep(x) :: x in Elements(tail);
      assert s == [s[0]] + s[1..];
      if keep(s[0]) then [s[0]] + tail else tail
  }

  lemma {:induction false} FilterConcat<T>(keep: T -> bool, a: seq<T>, b: seq<T>)
    ensures Filter(keep, a + b) == Filter(keep, a) + Filter(keep, b)
  {
    if a == [] {
      assert a + b == b;
    } else {
      assert (a + b)[1..] == a[1..] + b;
      FilterConcat(keep, a[1..], b);
    }
  }

  lemma {:induction false} FilterNoDuplicates<T>(keep: T -> bool, s: seq<T>)
    requires NoDuplicates(s)
    ensures NoDuplicates(Filter(keep, s))
  {
    if s != [] {
      FilterNoDuplicates(keep, s[1..]);
      var tail := Filter(keep, s[1..]);
      assert s[0] !in s[1..];
      assert s[0] !in tail by { assert s[0] !in Elements(tail); }
    }
  }

  lemma {:induction false} NoDuplicatesCardinality<T>(s: seq<T>)
    requires NoDuplicates(s)
    ensures |Elements(s)| == |s|
  {
    if s == [] {
      assert Elements(s) == {};
    } else {
      NoDuplicatesCardinality(s[1..]);
      assert Elements(s) == {s[0]} + Elements(s[1..]);
    }
  }

  lemma {:induction false} BelowCardinality(n: nat)
    ensures |Below(n)| == n
  {
    if n > 0 {
      BelowCardinality(n - 1);
      assert n - 1 !in Below(n - 1);
    }
  }

  lemma SubsetCardinality<T>(a: set<T>, b: set<T>)
    requires a <= b
    ensures |a| <= |b|
    ensures |a| == |b| ==> a == b
  {
    assert |b - a| == |b| - |a|;
    if |a| == |b| {
      assert b - a == {};
    }
  }

  lemma Inhabited<T>(s: set<T>) returns (y: T)
    requires s != {}
    ensures y in s
  {
    y :| y in s;
  }

  lemma {:induction false} LeastExists(s: set<int>)
    requires s != {}
    ensures exists m :: m in s && forall x | x in s :: m <= x
    decreases |s|
  {
    var y := Inhabited(s);
    var rest := s - {y};
    assert s == rest + {y};
    if rest == {} {
      assert forall x | x in s :: y <= x;
    } else {
      LeastExists(rest);
      var m :| m in rest && forall x | x in rest :: m <= x;
      assert forall x | x in s :: x == y || x in rest;
      var least := if m < y then m else y;
      assert least in s && forall x | x in s :: least <= x;
    }
  }

  /** A std::map keyed by int is walked by taking the least key that is left. */
  function Least(s: set<int>): (m: int)
    requires s != {}
    ensures m in s
    ensures forall x | x in s :: m <= x
  {
    LeastExists(s);
    var m :| m in s && forall x | x in s :: m <= x;
    m
  }
}
