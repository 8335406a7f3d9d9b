/** Small vocabulary shared by the models of the yuubot components. */
module Basics {

  datatype Option<+T> = None | Some(value: T)

  datatype Result<+T, +E> = Ok(value: T) | Err(error: E)

  /** A sequence with no repeated element. */
  ghost predicate Distinct<T>(s: seq<T>) {
    forall i, j :: 0 <= i < j < |s| ==> s[i] != s[j]
  }

  lemma DistinctAppend<T>(s: seq<T>, x: T)
    requires Distinct(s) && x !in s
    ensures Distinct(s + [x])
  {
  }

  lemma Associate<T>(a: seq<T>, b: seq<T>, c: seq<T>, d: seq<T>)
    ensures ((a + b) + c) + d == a + (b + c + d)
  {
  }

  lemma Regroup<T>(a: seq<T>, b: seq<T>, c: seq<T>)
    ensures (a + b) + c == a + (b + c)
  {
  }

  /** Position of the first occurrence of `part` in `s`. */
  function Find(s: string, part: string): (at: Option<nat>)
    ensures at.Some? ==> at.value + |part| <= |s| && s[at.value..at.value + |part|] == part
    decreases |s|
  {
    if |part| <= |s| && s[..|part|] == part then Some(0)
    else if s == "" then None
    else match Find(s[1..], part)
      case None => None
      case Some(i) => Some(i + 1)
  }

  function Last<T>(s: seq<T>): T
    requires s != []
  {
    s[|s| - 1]
  }

  function Front<T>(s: seq<T>): seq<T>
    requires s != []
  {
    s[..|s| - 1]
  }

  lemma MapsEqual<K, V>(a: map<K, V>, b: map<K, V>)
    requires a.Keys == b.Keys && forall k :: k in a ==> a[k] == b[k]
    ensures a == b
  {
  }

  function Elements(s: seq<int>): set<int> { set i | i in s }

  ghost function Member<T>(s: set<T>): (x: T)
    requires s != {}
    ensures x in s
  {
    var x :| x in s; x
  }

  predicate IsLeast(s: set<int>, i: int) {
    i in s && forall j :: j in s ==> i <= j
  }

  lemma {:induction false} LeastExists(s: set<int>)
    requires s != {}
    ensures exists i :: IsLeast(s, i)
    decreases |s|
  {
    var x := Member(s);
    var rest := s - {x};
    assert s == rest + {x};
    if rest == {} {
      assert IsLeast(s, x);
    } else {
      LeastExists(rest);
      var i :| IsLeast(rest, i);
      assert IsLeast(s, if i <= x then i else x);
    }
  }

  ghost predicate Ascending(s: seq<int>) {
    forall a, b :: 0 <= a < b < |s| ==> s[a] < s[b]
  }

  ghost predicate Before(s: seq<int>, rest: set<int>) {
    forall k, j :: 0 <= k < |s| && j in rest ==> s[k] < j
  }

  lemma SortStep(s: seq<int>, rest: set<int>, i: int)
    requires Ascending(s) && Before(s, rest) && IsLeast(rest, i)
    ensures Ascending(s + [i]) && Before(s + [i], rest - {i})
    ensures Elements(s + [i]) + (rest - {i}) == Elements(s) + rest
  {
  }

  method Sorted(indexes: set<int>) returns (sorted: seq<int>)
    ensures Elements(sorted) == indexes && Ascending(sorted)
  {
    sorted := [];
    var rest := indexes;
    while rest != {}
      invariant Elements(sorted) + rest == indexes && Ascending(sorted) && Before(sorted, rest)
      decreases |rest|
    {
      LeastExists(rest);
      var i :| IsLeast(rest, i);
      SortStep(sorted, rest, i);
      sorted := sorted + [i];
      rest := rest - {i};
    }
  }
}
