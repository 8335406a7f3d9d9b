/**
 What evicting from a size-bounded index must do, stated without saying how; it leaves one possible
 result.
 */
module ExpiringModel {
  import opened Basics

  datatype Metadata = Metadata(created: real, minRetainUntil: real, expiresAt: Option<real>, lastTouched: real)

  datatype Entry<+T> = Entry(item: T, meta: Metadata)

  type Store<T> = map<string, Entry<T>>

  // ---------------------------------------------------------------- the eviction order

  /** Code point order of keys. */
  predicate KeyBefore(a: string, b: string) {
    if b == "" then false
    else if a == "" then true
    else if a[0] != b[0] then a[0] < b[0]
    else KeyBefore(a[1..], b[1..])
  }

  lemma {:induction false} KeyOrderTotal(a: string, b: string)
    ensures a == b || KeyBefore(a, b) || KeyBefore(b, a)
    ensures !(KeyBefore(a, b) && KeyBefore(b, a)) && (a == b ==> !KeyBefore(a, b))
  {
    if a != "" && b != "" {
      KeyOrderTotal(a[1..], b[1..]);
      if a[0] == b[0] {
        assert a == [a[0]] + a[1..] && b == [b[0]] + b[1..];
      }
    }
  }

  lemma {:induction false} KeyOrderTransitive(a: string, b: string, c: string)
    requires KeyBefore(a, b) && KeyBefore(b, c)
    ensures KeyBefore(a, c)
  {
    if a != "" && a[0] == b[0] && b[0] == c[0] {
      KeyOrderTransitive(a[1..], b[1..], c[1..]);
    }
  }

  /** `a` and `b` agree up to `k`, where `a` ends or has the smaller character. */
  predicate DiffersAt(a: string, b: string, k: nat) {
    && k <= |a| && k < |b| && a[..k] == b[..k]
    && (k < |a| ==> a[k] < b[k])
  }

  lemma {:induction false} KeyOrderExact(a: string, b: string)
    ensures KeyBefore(a, b) <==> exists k {:trigger DiffersAt(a, b, k)} :: DiffersAt(a, b, k)
  {
    if a == "" && b != "" {
      assert DiffersAt(a, b, 0);
    } else if a != "" && b != "" && a[0] == b[0] {
      KeyOrderExact(a[1..], b[1..]);
      if k: nat :| DiffersAt(a[1..], b[1..], k) {
        assert a[..k + 1] == [a[0]] + a[1..][..k] && b[..k + 1] == [b[0]] + b[1..][..k];
        assert DiffersAt(a, b, k + 1);
      }
      if k: nat :| DiffersAt(a, b, k) {
        assert a[1..][..k - 1] == a[..k][1..] && b[1..][..k - 1] == b[..k][1..];
        assert DiffersAt(a[1..], b[1..], k - 1);
      }
    } else if a != "" && b != "" {
      assert DiffersAt(a, b, 0) <==> a[0] < b[0];
      assert forall k: nat :: DiffersAt(a, b, k) && k > 0 ==> a[..k][0] == b[..k][0];
    }
  }

  /** Entries go by last touch, then creation, then key. */
  predicate Older<T>(s: Store<T>, a: string, b: string)
    requires a in s && b in s
  {
    var m, n := s[a].meta, s[b].meta;
    m.lastTouched < n.lastTouched
    || (m.lastTouched == n.lastTouched && (m.created < n.created || (m.created == n.created && KeyBefore(a, b))))
  }

  lemma OlderTotal<T>(s: Store<T>, a: string, b: string)
    requires a in s && b in s
    ensures a == b || Older(s, a, b) || Older(s, b, a)
    ensures !(Older(s, a, b) && Older(s, b, a)) && (a == b ==> !Older(s, a, b))
  {
    KeyOrderTotal(a, b);
  }

  /** What goes first: the one touched earlier; touched at once, the one created earlier; else the key in front. */
  lemma OlderExact<T>(s: Store<T>, a: string, b: string)
    requires a in s && b in s
    ensures s[a].meta.lastTouched < s[b].meta.lastTouched ==> Older(s, a, b)
    ensures s[a].meta.lastTouched == s[b].meta.lastTouched && s[a].meta.created < s[b].meta.created ==>
              Older(s, a, b)
    ensures s[a].meta.lastTouched == s[b].meta.lastTouched && s[a].meta.created == s[b].meta.created ==>
              forall k {:trigger DiffersAt(a, b, k)} :: DiffersAt(a, b, k) ==> Older(s, a, b)
  {
    KeyOrderExact(a, b);
  }

  lemma OlderTransitive<T>(s: Store<T>, a: string, b: string, c: string)
    requires a in s && b in s && c in s && Older(s, a, b) && Older(s, b, c)
    ensures Older(s, a, c)
  {
    if KeyBefore(a, b) && KeyBefore(b, c) {
      KeyOrderTransitive(a, b, c);
    }
  }

  // ---------------------------------------------------------------- sizes

  function SizeAt<T>(s: Store<T>, sizeOf: T -> int, key: string): nat
    requires key in s
  {
    var n := sizeOf(s[key].item);
    if n < 0 then 0 else n
  }

  ghost function Total<T>(s: Store<T>, sizeOf: T -> int, keys: set<string>): nat
    requires keys <= s.Keys
  {
    if keys == {} then 0
    else
      var key := Member(keys);
      SizeAt(s, sizeOf, key) + Total(s, sizeOf, keys - {key})
  }

  lemma {:induction false} TotalWithout<T>(s: Store<T>, sizeOf: T -> int, keys: set<string>, key: string)
    requires key in keys && keys <= s.Keys
    ensures Total(s, sizeOf, keys) == SizeAt(s, sizeOf, key) + Total(s, sizeOf, keys - {key})
    decreases |keys|
  {
    var first := Member(keys);
    if first != key {
      TotalWithout(s, sizeOf, keys - {first}, key);
      TotalWithout(s, sizeOf, keys - {key}, first);
      assert keys - {first} - {key} == keys - {key} - {first};
    }
  }

  /** Sizes add up, one below zero counting as none. */
  lemma TotalExact<T>(s: Store<T>, sizeOf: T -> int, keys: set<string>, key: string)
    requires keys <= s.Keys && key in s && key !in keys
    ensures Total(s, sizeOf, {}) == 0
    ensures Total(s, sizeOf, keys + {key}) == Total(s, sizeOf, keys)
                                              + (if sizeOf(s[key].item) > 0 then sizeOf(s[key].item) else 0)
  {
    TotalWithout(s, sizeOf, keys + {key}, key);
    assert keys + {key} - {key} == keys;
  }

  lemma {:induction false} TotalGrows<T>(s: Store<T>, sizeOf: T -> int, less: set<string>, more: set<string>)
    requires less <= more <= s.Keys
    ensures Total(s, sizeOf, less) <= Total(s, sizeOf, more)
    decreases |more|
  {
    if more - less == {} {
      assert less == more;
    } else {
      var key := Member(more - less);
      TotalWithout(s, sizeOf, more, key);
      TotalGrows(s, sizeOf, less, more - {key});
    }
  }

  lemma {:induction false} TotalSame<T>(s: Store<T>, t: Store<T>, sizeOf: T -> int, keys: set<string>)
    requires keys <= s.Keys && keys <= t.Keys && forall k :: k in keys ==> s[k] == t[k]
    ensures Total(s, sizeOf, keys) == Total(t, sizeOf, keys)
    decreases |keys|
  {
    if keys != {} {
      TotalSame(s, t, sizeOf, keys - {Member(keys)});
    }
  }

  // ---------------------------------------------------------------- exact eviction

  predicate Expired(meta: Metadata, now: real) {
    meta.expiresAt.Some? && now >= meta.expiresAt.value
  }

  predicate Shielded(meta: Metadata, now: real) {
    now < meta.minRetainUntil
  }

  /** Entries that size eviction may take. */
  function Candidates<T>(s: Store<T>, now: real): set<string> {
    set k | k in s && !Expired(s[k].meta, now) && !Shielded(s[k].meta, now)
  }

  /** `r` is the youngest of `keys`. */
  ghost predicate Youngest<T>(s: Store<T>, keys: set<string>, r: string)
    requires keys <= s.Keys
  {
    r in keys && forall k :: k in keys && k != r ==> Older(s, k, r)
  }

  /** Of the candidates of `s`, exactly `kept` stay: the youngest ones, as many as fit and no fewer. */
  ghost predicate KeepsYoungest<T>(s: Store<T>, sizeOf: T -> int, max: int, candidates: set<string>, kept: set<string>)
    requires kept <= candidates <= s.Keys
  {
    && (forall gone, k :: gone in candidates - kept && k in kept ==> Older(s, gone, k))
    && (kept == {} || Total(s, sizeOf, kept) <= max)
    && (kept != candidates ==>
          exists r :: Youngest(s, candidates - kept, r) && Total(s, sizeOf, kept + {r}) > max)
  }

  ghost predicate ExactlyEvicted<T>(s: Store<T>, t: Store<T>, sizeOf: T -> int, max: int, now: real) {
    && t.Keys <= s.Keys && (forall k :: k in t ==> t[k] == s[k])
    && (forall k :: k in t ==> !Expired(t[k].meta, now))
    && (forall k :: k in s && !Expired(s[k].meta, now) && Shielded(s[k].meta, now) ==> k in t)
    && KeepsYoungest(s, sizeOf, max, Candidates(s, now), Candidates(s, now) * t.Keys)
  }

  lemma KeptNotFewer<T>(s: Store<T>, sizeOf: T -> int, max: int, candidates: set<string>, a: set<string>,
        b: set<string>)
    requires a <= candidates <= s.Keys && b <= candidates
    requires KeepsYoungest(s, sizeOf, max, candidates, a) && KeepsYoungest(s, sizeOf, max, candidates, b)
    ensures b <= a
  {
    if x :| x in b && x !in a {
      var r :| Youngest(s, candidates - a, r) && Total(s, sizeOf, a + {r}) > max;
      forall y | y in a + {r}
        ensures y in b
      {
        if y !in b {
          assert y in candidates - b;
          assert Older(s, y, x);
          if y in a {
            assert x in candidates - a;
            assert Older(s, x, y);
          }
          OlderTotal(s, x, y);
        }
      }
      TotalGrows(s, sizeOf, a + {r}, b);
    }
  }

  /** The statement leaves no choice. */
  lemma EvictionUnique<T>(s: Store<T>, t: Store<T>, u: Store<T>, sizeOf: T -> int, max: int, now: real)
    requires ExactlyEvicted(s, t, sizeOf, max, now) && ExactlyEvicted(s, u, sizeOf, max, now)
    ensures t == u
  {
    var candidates := Candidates(s, now);
    KeptNotFewer(s, sizeOf, max, candidates, candidates * t.Keys, candidates * u.Keys);
    KeptNotFewer(s, sizeOf, max, candidates, candidates * u.Keys, candidates * t.Keys);
    forall k
      ensures k in t <==> k in u
    {
      assert k in candidates * t.Keys <==> k in candidates * u.Keys;
    }
    MapsEqual(t, u);
  }

  /** Evicting again at the same time changes nothing. */
  lemma EvictionSettles<T>(s: Store<T>, t: Store<T>, u: Store<T>, sizeOf: T -> int, max: int, now: real)
    requires ExactlyEvicted(s, t, sizeOf, max, now) && ExactlyEvicted(t, u, sizeOf, max, now)
    ensures u == t
  {
    var kept := Candidates(s, now) * t.Keys;
    assert Candidates(t, now) == kept;
    assert kept * t.Keys == kept;
    TotalSame(s, t, sizeOf, kept);
    assert KeepsYoungest(t, sizeOf, max, kept, kept);
    EvictionUnique(t, u, t, sizeOf, max, now);
  }

  /** Nothing is evicted for size while everything fits. */
  lemma NothingEvicted<T>(s: Store<T>, t: Store<T>, sizeOf: T -> int, max: int, now: real)
    requires ExactlyEvicted(s, t, sizeOf, max, now) && Total(s, sizeOf, Candidates(s, now)) <= max
    ensures forall k :: k in s && !Expired(s[k].meta, now) ==> k in t
  {
    var candidates := Candidates(s, now);
    assert KeepsYoungest(s, sizeOf, max, candidates, candidates);
    KeptNotFewer(s, sizeOf, max, candidates, candidates * t.Keys, candidates);
    forall k | k in s && !Expired(s[k].meta, now)
      ensures k in t
    {
      if !Shielded(s[k].meta, now) {
        assert k in candidates;
      }
    }
  }

  /** A key outlives its younger candidates: what is kept is closed upwards in the order. */
  lemma YoungerSurvive<T>(s: Store<T>, t: Store<T>, sizeOf: T -> int, max: int, now: real, a: string, b: string)
    requires ExactlyEvicted(s, t, sizeOf, max, now)
    requires a in Candidates(s, now) && b in Candidates(s, now) && Older(s, a, b) && a in t
    ensures b in t
  {
    if b !in t {
      assert b in Candidates(s, now) - Candidates(s, now) * t.Keys;
      assert a in Candidates(s, now) * t.Keys;
      assert Older(s, b, a);
      OlderTotal(s, a, b);
    }
  }

  // ---------------------------------------------------------------- entries as the operations write them

  function PutMetadata<T>(s: Store<T>, key: string, minRetainUntil: Option<real>, expiresAt: Option<real>,
                          now: real): Metadata {
    Metadata(if key in s then s[key].meta.created else now,
             if minRetainUntil.None? then now else minRetainUntil.value, expiresAt, now)
  }

  function Touched<T>(e: Entry<T>, now: real): Entry<T> {
    e.(meta := e.meta.(lastTouched := now))
  }

  /** The expiry is always replaced, the retention only when one is given. */
  function Retained<T>(e: Entry<T>, minRetainUntil: Option<real>, expiresAt: Option<real>, now: real): Entry<T> {
    e.(meta := Metadata(e.meta.created,
                        if minRetainUntil.None? then e.meta.minRetainUntil else minRetainUntil.value, expiresAt, now))
  }

  /** An item put with a retention or an expiry still ahead is there when put returns. */
  lemma PutStays<T>(s: Store<T>, t: Store<T>, sizeOf: T -> int, max: int, key: string, item: T,
                    until: real, expiresAt: Option<real>, now: real, evictAt: real)
    requires ExactlyEvicted(s[key := Entry(item, PutMetadata(s, key, Some(until), expiresAt, now))], t, sizeOf, max,
              evictAt)
    requires evictAt < until
    ensures key in t <==> (expiresAt.Some? ==> evictAt < expiresAt.value)
  {
  }

  /** What an expiry and a retention are good for: whenever `evict` runs they alone decide, in this order. */
  lemma ExpiryExact<T>(s: Store<T>, t: Store<T>, sizeOf: T -> int, max: int, now: real, key: string)
    requires ExactlyEvicted(s, t, sizeOf, max, now) && key in s
    ensures var m := s[key].meta;
            && (m.expiresAt.Some? && m.expiresAt.value <= now ==> key !in t)
            && ((m.expiresAt.Some? ==> now < m.expiresAt.value) && now < m.minRetainUntil ==> key in t)
  {
  }

  /**
   Reading changes an entry's last touch and nothing else of it, and puts it behind every entry that was
   touched earlier.
   */
  lemma TouchedExact<T>(s: Store<T>, key: string, now: real)
    requires key in s
    ensures var t := s[key := Touched(s[key], now)]; var e, r := s[key], t[key];
            && r.item == e.item && r.meta.created == e.meta.created && r.meta.lastTouched == now
            && r.meta.minRetainUntil == e.meta.minRetainUntil && r.meta.expiresAt == e.meta.expiresAt
            && forall k :: k in s && k != key && s[k].meta.lastTouched < now ==> k in t && Older(t, k, key)
  {
  }

  /** An entry that was read is the last to be evicted: while one that was touched earlier stays, it does. */
  lemma ReadIsLast<T>(s: Store<T>, t: Store<T>, sizeOf: T -> int, max: int, key: string, now: real, evictAt: real,
                      k: string)
    requires key in s && ExactlyEvicted(s[key := Touched(s[key], now)], t, sizeOf, max, evictAt)
    requires k in t && k != key && s[k].meta.lastTouched < now && !Shielded(s[k].meta, evictAt)
    requires !Expired(s[key].meta, evictAt)
    ensures key in t
  {
    var r := s[key := Touched(s[key], now)];
    TouchedExact(s, key, now);
    if !Shielded(s[key].meta, evictAt) {
      YoungerSurvive(r, t, sizeOf, max, evictAt, k, key);
    }
  }

  /** A new entry is created, touched and retained now; one put again keeps its creation. */
  lemma PutExact<T>(s: Store<T>, key: string, minRetainUntil: Option<real>, expiresAt: Option<real>, now: real)
    ensures var m := PutMetadata(s, key, minRetainUntil, expiresAt, now);
            && m.lastTouched == now && m.expiresAt == expiresAt
            && (key in s ==> m.created == s[key].meta.created) && (key !in s ==> m.created == now)
            && (minRetainUntil == None ==> m.minRetainUntil == now && !Shielded(m, now))
            && forall until :: minRetainUntil == Some(until) ==> m.minRetainUntil == until
  {
  }

  /** A new retention: the expiry is replaced even by none, the retention only by one that is given. */
  lemma RetainedExact<T>(e: Entry<T>, minRetainUntil: Option<real>, expiresAt: Option<real>, now: real)
    ensures var r := Retained(e, minRetainUntil, expiresAt, now);
            && r.item == e.item && r.meta.created == e.meta.created
            && r.meta.lastTouched == now && r.meta.expiresAt == expiresAt
            && (minRetainUntil == None ==> r.meta.minRetainUntil == e.meta.minRetainUntil)
            && forall until :: minRetainUntil == Some(until) ==> r.meta.minRetainUntil == until
  {
  }
}
