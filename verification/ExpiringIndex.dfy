/**
 The size-bounded index of finished task records, its two dictionaries updated in place.  Every call
 to the clock is a parameter.
 */
module ExpiringIndexClass {
  import opened Basics
  import opened ExpiringModel

  ghost predicate ByAge<T>(s: Store<T>, order: seq<string>) {
    && (forall k :: 0 <= k < |order| ==> order[k] in s)
    && (forall a, b :: 0 <= a < b < |order| ==> Older(s, order[a], order[b]))
  }

  function KeysIn(order: seq<string>): set<string> { set k | k in order }

  predicate Oldest<T>(s: Store<T>, keys: set<string>, key: string)
    requires keys <= s.Keys
  {
    key in keys && forall k :: k in keys && k != key ==> Older(s, key, k)
  }

  lemma {:induction false} OldestExists<T>(s: Store<T>, keys: set<string>)
    requires keys <= s.Keys && keys != {}
    ensures exists key :: Oldest(s, keys, key)
    decreases |keys|
  {
    var x := Member(keys);
    var rest := keys - {x};
    if rest == {} {
      assert keys == {x};
      assert Oldest(s, keys, x);
    } else {
      OldestExists(s, rest);
      var y :| Oldest(s, rest, y);
      OlderTotal(s, x, y);
      if Older(s, x, y) {
        forall k | k in keys && k != x
          ensures Older(s, x, k)
        {
          if k != y {
            OlderTransitive(s, x, y, k);
          }
        }
        assert Oldest(s, keys, x);
      } else {
        assert Oldest(s, keys, y);
      }
    }
  }

  ghost predicate AllOlder<T>(s: Store<T>, order: seq<string>, rest: set<string>)
    requires ByAge(s, order) && rest <= s.Keys
  {
    forall k, r :: 0 <= k < |order| && r in rest ==> Older(s, order[k], r)
  }

  lemma AgeStep<T>(s: Store<T>, order: seq<string>, rest: set<string>, key: string)
    requires ByAge(s, order) && rest <= s.Keys && AllOlder(s, order, rest) && Oldest(s, rest, key)
    ensures ByAge(s, order + [key]) && AllOlder(s, order + [key], rest - {key})
    ensures KeysIn(order + [key]) + (rest - {key}) == KeysIn(order) + rest
  {
  }

  method SortedByAge<T>(s: Store<T>, keys: set<string>) returns (order: seq<string>)
    requires keys <= s.Keys
    ensures ByAge(s, order) && KeysIn(order) == keys
  {
    order := [];
    var rest := keys;
    while rest != {}
      invariant rest <= keys && ByAge(s, order) && AllOlder(s, order, rest) && KeysIn(order) + rest == keys
      decreases |rest|
    {
      OldestExists(s, rest);
      var key :| Oldest(s, rest, key);
      AgeStep(s, order, rest, key);
      order := order + [key];
      rest := rest - {key};
    }
  }

  // ---------------------------------------------------------------- facts about the three loops

  /** What is left once everything expired is gone. */
  function Unexpired<T>(s: Store<T>, now: real): Store<T> {
    map k | k in s && !Expired(s[k].meta, now) :: s[k]
  }

  lemma SuffixKeys<T>(s: Store<T>, order: seq<string>, k: nat)
    requires ByAge(s, order) && k < |order|
    ensures KeysIn(order[k..]) == KeysIn(order[k + 1..]) + {order[k]} && order[k] !in order[k + 1..]
    ensures forall a, b :: a in order[..k] && b in order[k..] ==> a in s && b in s && Older(s, a, b)
  {
    assert order[k..] == [order[k]] + order[k + 1..];
    forall b | k + 1 <= b < |order|
      ensures order[b] != order[k]
    {
      OlderTotal(s, order[k], order[b]);
    }
  }

  /** One more candidate discarded. */
  lemma DiscardStep<T>(s: Store<T>, sizeOf: T -> int, order: seq<string>, k: nat)
    requires ByAge(s, order) && k < |order|
    ensures KeysIn(order[k..]) <= s.Keys && KeysIn(order[k + 1..]) <= s.Keys
    ensures Total(s, sizeOf, KeysIn(order[k..])) ==
              SizeAt(s, sizeOf, order[k]) + Total(s, sizeOf, KeysIn(order[k + 1..]))
  {
    SuffixKeys(s, order, k);
    assert KeysIn(order[k..]) - {order[k]} == KeysIn(order[k + 1..]);
    TotalWithout(s, sizeOf, KeysIn(order[k..]), order[k]);
  }

  /** Of the first `k + 1` in the order, the last is the youngest. */
  lemma YoungestGone<T>(s: Store<T>, order: seq<string>, k: nat)
    requires ByAge(s, order) && k < |order| && KeysIn(order) <= s.Keys
    ensures KeysIn(order) - KeysIn(order[k + 1..]) <= s.Keys
    ensures Youngest(s, KeysIn(order) - KeysIn(order[k + 1..]), order[k])
  {
    SuffixKeys(s, order, k);
    assert order == order[..k + 1] + order[k + 1..];
    forall g | g in KeysIn(order) - KeysIn(order[k + 1..]) && g != order[k]
      ensures Older(s, g, order[k])
    {
      assert g in order[..k + 1];
      var a :| 0 <= a < k + 1 && order[..k + 1][a] == g;
      assert order[a] == g;
    }
  }

  lemma GoneAreOlder<T>(s: Store<T>, order: seq<string>, k: nat, gone: string, kept: string)
    requires ByAge(s, order) && k <= |order| && gone in order && gone !in order[k..] && kept in order[k..]
    ensures gone in s && kept in s && Older(s, gone, kept)
  {
  }

  /** The loop stops at the first suffix that fits: that suffix keeps the youngest. */
  lemma SuffixKeepsYoungest<T>(s: Store<T>, sizeOf: T -> int, max: int, order: seq<string>, k: nat)
    requires ByAge(s, order) && k < |order|
    requires KeysIn(order) <= s.Keys && KeysIn(order[k..]) <= s.Keys && KeysIn(order[k + 1..]) <= KeysIn(order)
    requires Total(s, sizeOf, KeysIn(order[k..])) > max
    requires k + 1 == |order| || Total(s, sizeOf, KeysIn(order[k + 1..])) <= max
    ensures KeepsYoungest(s, sizeOf, max, KeysIn(order), KeysIn(order[k + 1..]))
  {
    var candidates, kept := KeysIn(order), KeysIn(order[k + 1..]);
    SuffixKeys(s, order, k);
    assert kept + {order[k]} == KeysIn(order[k..]);
    YoungestGone(s, order, k);
    forall gone, key | gone in candidates - kept && key in kept
      ensures Older(s, gone, key)
    {
      GoneAreOlder(s, order, k + 1, gone, key);
    }
    if k + 1 == |order| {
      assert kept == {};
    }
  }

  lemma AllFit<T>(s: Store<T>, sizeOf: T -> int, max: int, now: real)
    requires Total(s, sizeOf, Candidates(s, now)) <= max
    ensures ExactlyEvicted(s, Unexpired(s, now), sizeOf, max, now)
  {
    assert Candidates(s, now) * Unexpired(s, now).Keys == Candidates(s, now);
  }

  /** The candidates left after the first `k` of them were discarded. */
  lemma CutKeys<T>(s: Store<T>, t: Store<T>, now: real, order: seq<string>, k: nat)
    requires ByAge(s, order) && KeysIn(order) == Candidates(s, now) && k <= |order|
    requires t == Unexpired(s, now) - KeysIn(order[..k])
    ensures Candidates(s, now) * t.Keys == KeysIn(order[k..])
  {
    assert order == order[..k] + order[k..];
    forall key
      ensures key in Candidates(s, now) * t.Keys <==> key in order[k..]
    {
      if key in order[k..] {
        assert key in order && key in Candidates(s, now);
        if key in order[..k] {
          NotTwice(s, order, k, key);
        }
      } else if key in Candidates(s, now) {
        assert key in order;
      }
    }
  }

  lemma CutToFit<T>(s: Store<T>, t: Store<T>, sizeOf: T -> int, max: int, now: real, order: seq<string>, k: nat)
    requires ByAge(s, order) && KeysIn(order) == Candidates(s, now) && k < |order|
    requires t == Unexpired(s, now) - KeysIn(order[..k + 1])
    requires KeysIn(order[k..]) <= s.Keys && KeysIn(order[k + 1..]) <= s.Keys
    requires Total(s, sizeOf, KeysIn(order[k..])) > max
    requires k + 1 == |order| || Total(s, sizeOf, KeysIn(order[k + 1..])) <= max
    ensures ExactlyEvicted(s, t, sizeOf, max, now)
  {
    CutKeys(s, t, now, order, k + 1);
    SuffixKeepsYoungest(s, sizeOf, max, order, k);
    forall key | key in s && !Expired(s[key].meta, now) && Shielded(s[key].meta, now)
      ensures key in t
    {
      assert key !in Candidates(s, now);
      assert key !in order;
    }
  }

  lemma NotTwice<T>(s: Store<T>, order: seq<string>, k: nat, key: string)
    requires ByAge(s, order) && k <= |order| && key in order[..k]
    ensures key !in order[k..]
  {
    var a :| 0 <= a < k && order[a] == key;
    forall b | k <= b < |order|
      ensures order[b] != key
    {
      OlderTotal(s, order[a], order[b]);
    }
  }

  lemma KeyPresent<T>(s: Store<T>, order: seq<string>, k: nat, now: real)
    requires ByAge(s, order) && KeysIn(order) == Candidates(s, now) && k < |order|
    ensures order[k] in Unexpired(s, now) - KeysIn(order[..k])
  {
    assert order[k] in Candidates(s, now);
    if order[k] in order[..k] {
      var a :| 0 <= a < k && order[a] == order[k];
      OlderTotal(s, order[a], order[k]);
    }
  }

  lemma SameCandidates<T>(s: Store<T>, t: Store<T>, sizeOf: T -> int, now: real)
    requires t == Unexpired(s, now)
    ensures Candidates(t, now) == Candidates(s, now)
    ensures Total(t, sizeOf, Candidates(s, now)) == Total(s, sizeOf, Candidates(s, now))
  {
    assert Candidates(t, now) == Candidates(s, now);
    TotalSame(s, t, sizeOf, Candidates(s, now));
  }

  lemma TotalWith<T>(s: Store<T>, sizeOf: T -> int, keys: set<string>, key: string)
    requires keys <= s.Keys && key in s && key !in keys
    ensures Total(s, sizeOf, keys + {key}) == Total(s, sizeOf, keys) + SizeAt(s, sizeOf, key)
  {
    TotalWithout(s, sizeOf, keys + {key}, key);
    assert keys + {key} - {key} == keys;
  }

  /** The first `k` candidates are gone and `total` is the size of the rest. */
  ghost predicate CutAt<T>(s: Store<T>, t: Store<T>, sizeOf: T -> int, now: real, order: seq<string>, k: nat,
        total: int) {
    && ByAge(s, order) && KeysIn(order) == Candidates(s, now) && k <= |order|
    && t == Unexpired(s, now) - KeysIn(order[..k])
    && KeysIn(order[k..]) <= s.Keys
    && total == Total(s, sizeOf, KeysIn(order[k..]))
  }

  lemma CutOneMore<T>(s: Store<T>, t: Store<T>, sizeOf: T -> int, now: real, order: seq<string>, k: nat, total: int)
    requires CutAt(s, t, sizeOf, now, order, k, total) && k < |order|
    ensures order[k] in t && order[k] in s && t[order[k]] == s[order[k]]
    ensures CutAt(s, t - {order[k]}, sizeOf, now, order, k + 1, total - SizeAt(s, sizeOf, order[k]))
  {
    KeyPresent(s, order, k, now);
    DiscardStep(s, sizeOf, order, k);
    assert KeysIn(order[..k + 1]) == KeysIn(order[..k]) + {order[k]};
  }

  lemma NoneToTake<T>(s: Store<T>, sizeOf: T -> int, max: int, now: real)
    requires Candidates(s, now) == {}
    ensures ExactlyEvicted(s, Unexpired(s, now), sizeOf, max, now)
  {
  }

  // ---------------------------------------------------------------- the index

  class ExpiringIndex<T(!new)> {
    const maxSize: int
    const sizeOf: T -> int
    var items: map<string, T>
    var metadata: map<string, Metadata>
    ghost var store: Store<T>

    constructor (maxSize: int, sizeOf: T -> int)
      ensures Valid() && store == map[] && this.maxSize == maxSize && this.sizeOf == sizeOf
    {
      this.maxSize, this.sizeOf := maxSize, sizeOf;
      items, metadata, store := map[], map[], map[];
    }

    /** Both dictionaries have the same keys; `store` pairs them up. */
    ghost predicate Valid()
      reads this
    {
      && items.Keys == metadata.Keys == store.Keys
      && forall k :: k in store ==> store[k] == Entry(items[k], metadata[k])
    }

    method Discard(key: string)
      requires Valid()
      modifies this
      ensures Valid() && store == old(store) - {key}
    {
      metadata := metadata - {key};
      items := items - {key};
      store := store - {key};
    }

    method DiscardExpired(now: real)
      requires Valid()
      modifies this
      ensures Valid() && store == Unexpired(old(store), now)
    {
      var todo := metadata.Keys;
      while todo != {}
        invariant Valid()
        invariant todo <= store.Keys <= old(store).Keys
        invariant forall k :: k in store ==> store[k] == old(store)[k]
        invariant forall k :: k in old(store) && k !in todo ==> (k in store <==> !Expired(old(store)[k].meta, now))
        decreases |todo|
      {
        var key :| key in todo;
        if metadata[key].expiresAt.Some? && now >= metadata[key].expiresAt.value {
          Discard(key);
        }
        todo := todo - {key};
      }
      MapsEqual(store, Unexpired(old(store), now));
    }

    method CollectCandidates(now: real) returns (candidates: set<string>, total: int)
      requires Valid()
      requires forall k :: k in store ==> !Expired(store[k].meta, now)
      ensures candidates == Candidates(store, now) && total == Total(store, sizeOf, candidates)
    {
      candidates, total := {}, 0;
      var todo := items.Keys;
      while todo != {}
        invariant todo <= store.Keys && candidates <= store.Keys && candidates !! todo
        invariant forall k :: k in store && k !in todo ==> (k in candidates <==> !Shielded(store[k].meta, now))
        invariant total == Total(store, sizeOf, candidates)
        decreases |todo|
      {
        var key :| key in todo;
        todo := todo - {key};
        if !(now < metadata[key].minRetainUntil) {
          var size := if sizeOf(items[key]) < 0 then 0 else sizeOf(items[key]);
          TotalWith(store, sizeOf, candidates, key);
          candidates := candidates + {key};
          total := total + size;
        }
      }
    }

    /**
     Everything expired goes; then, if what size eviction may take does not fit, its oldest entries go
     one by one until the rest fits.
     */
    method Evict(now: real)
      requires Valid()
      modifies this
      ensures Valid() && ExactlyEvicted(old(store), store, sizeOf, maxSize, now)
    {
      ghost var before := store;
      DiscardExpired(now);
      ghost var live := store;
      var candidates, total := CollectCandidates(now);
      SameCandidates(before, live, sizeOf, now);
      if total <= maxSize {
        AllFit(before, sizeOf, maxSize, now);
        return;
      }
      var order := Sort(before, candidates);
      DiscardOldest(before, order, total, now);
    }

    method Sort(ghost before: Store<T>, candidates: set<string>) returns (order: seq<string>)
      requires Valid() && candidates <= store.Keys <= before.Keys
      requires forall k :: k in store ==> store[k] == before[k]
      ensures ByAge(before, order) && KeysIn(order) == candidates
    {
      var paired: Store<T> := map k | k in items && k in metadata :: Entry(items[k], metadata[k]);
      order := SortedByAge(paired, candidates);
      forall k | 0 <= k < |order|
        ensures order[k] in before
      {
        assert order[k] in paired && order[k] in store;
      }
    }

    method DiscardOldest(ghost before: Store<T>, order: seq<string>, size: int, now: real)
      requires Valid() && store == Unexpired(before, now)
      requires ByAge(before, order) && KeysIn(order) == Candidates(before, now)
      requires size == Total(before, sizeOf, KeysIn(order)) && size > maxSize
      modifies this
      ensures Valid() && ExactlyEvicted(before, store, sizeOf, maxSize, now)
    {
      var total := size;
      var k := 0;
      assert order[0..] == order && store - KeysIn(order[..0]) == store;
      if order == [] {
        NoneToTake(before, sizeOf, maxSize, now);
      }
      while k < |order|
        invariant Valid() && 0 <= k && CutAt(before, store, sizeOf, now, order, k, total)
        invariant total > maxSize
        invariant k == |order| ==> ExactlyEvicted(before, store, sizeOf, maxSize, now)
      {
        total := DiscardNext(before, order, k, total, now);
        if total <= maxSize {
          return;
        }
        k := k + 1;
      }
    }

    method DiscardNext(ghost before: Store<T>, order: seq<string>, k: nat, size: int, now: real) returns (total: int)
      requires Valid() && CutAt(before, store, sizeOf, now, order, k, size) && k < |order| && size > maxSize
      modifies this
      ensures Valid() && CutAt(before, store, sizeOf, now, order, k + 1, total)
      ensures total <= maxSize || k + 1 == |order| ==> ExactlyEvicted(before, store, sizeOf, maxSize, now)
    {
      var key := order[k];
      CutOneMore(before, store, sizeOf, now, order, k, size);
      total := size - if sizeOf(items[key]) < 0 then 0 else sizeOf(items[key]);
      Discard(key);
      if total <= maxSize || k + 1 == |order| {
        CutToFit(before, store, sizeOf, maxSize, now, order, k);
      }
    }

    // -------------------------------------------------------------- callers' operations

    /** A key keeps its creation time; without a retention the entry is open to size eviction at once. */
    method Put(key: string, item: T, minRetainUntil: Option<real>, expiresAt: Option<real>, now: real, evictAt: real)
      requires Valid()
      modifies this
      ensures Valid()
      ensures ExactlyEvicted(old(store)[key := Entry(item,
                                                     PutMetadata(old(store), key, minRetainUntil, expiresAt, now))],
                             store, sizeOf, maxSize, evictAt)
    {
      items := items[key := item];
      var created := if key in metadata then metadata[key].created else now;
      metadata := metadata[key := Metadata(created, if minRetainUntil.None? then now else minRetainUntil.value,
                                           expiresAt, now)];
      store := store[key := Entry(item, metadata[key])];
      Evict(evictAt);
    }

    method Touch(key: string, now: real) returns (found: bool)
      requires Valid()
      modifies this
      ensures Valid() && found == (key in old(store))
      ensures store == if found then old(store)[key := Touched(old(store)[key], now)] else old(store)
    {
      found := key in metadata;
      if found {
        metadata := metadata[key := metadata[key].(lastTouched := now)];
        store := store[key := Entry(items[key], metadata[key])];
      }
    }

    /** A key that is gone by then is an error. */
    method Get(key: string, evictAt: real, now: real) returns (result: Option<T>)
      requires Valid()
      modifies this
      ensures Valid()
      ensures exists t: Store<T> :: ExactlyEvicted(old(store), t, sizeOf, maxSize, evictAt)
                && result == (if key in t then Some(t[key].item) else None)
                && store == if key in t then t[key := Touched(t[key], now)] else t
    {
      Evict(evictAt);
      ghost var t := store;
      if key !in items {
        assert ExactlyEvicted(old(store), t, sizeOf, maxSize, evictAt);
        return None;
      }
      result := Some(items[key]);
      var found := Touch(key, now);
      assert ExactlyEvicted(old(store), t, sizeOf, maxSize, evictAt);
    }

    method Pop(key: string, evictAt: real) returns (result: Option<T>)
      requires Valid()
      modifies this
      ensures Valid()
      ensures exists t: Store<T> :: ExactlyEvicted(old(store), t, sizeOf, maxSize, evictAt)
                && result == (if key in t then Some(t[key].item) else None) && store == t - {key}
    {
      Evict(evictAt);
      ghost var t := store;
      result := if key in items then Some(items[key]) else None;
      Discard(key);
      assert ExactlyEvicted(old(store), t, sizeOf, maxSize, evictAt);
    }

    method Contains(key: string, evictAt: real) returns (found: bool)
      requires Valid()
      modifies this
      ensures Valid() && ExactlyEvicted(old(store), store, sizeOf, maxSize, evictAt)
      ensures found == (key in store)
    {
      Evict(evictAt);
      found := key in items;
    }

    /** Evicts, replaces the retention of a key that is still there, and evicts again. */
    method UpdateRetention(key: string, minRetainUntil: Option<real>, expiresAt: Option<real>,
                           evictAt: real, now: real, evictAgainAt: real)
      returns (found: bool)
      requires Valid()
      modifies this
      ensures Valid()
      ensures exists t: Store<T> :: ExactlyEvicted(old(store), t, sizeOf, maxSize, evictAt) && found == (key in t)
                && (if found
                    then ExactlyEvicted(t[key := Retained(t[key], minRetainUntil, expiresAt, now)], store,
                                        sizeOf, maxSize, evictAgainAt)
                    else store == t)
    {
      Evict(evictAt);
      ghost var t := store;
      found := key in metadata;
      if found {
        var was := metadata[key];
        metadata := metadata[key := Metadata(was.created,
                                             if minRetainUntil.None? then was.minRetainUntil else minRetainUntil.value,
                                             expiresAt, now)];
        store := store[key := Entry(items[key], metadata[key])];
        Evict(evictAgainAt);
      }
      assert ExactlyEvicted(old(store), t, sizeOf, maxSize, evictAt);
    }
  }
}
