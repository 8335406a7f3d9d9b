/** The sliding-window limit on public webhooks. */
module RateLimiter {
  import opened Basics

  /** The two parts a webhook is known by. */
  datatype Key = Key(source: string, route: string)

  predicate Within(t: real, after: real, window: real) {
    after < t <= after + window
  }

  /** How many of the times fall in the window that opens just after `after`. */
  function Hits(log: seq<real>, after: real, window: real): nat {
    if log == [] then 0
    else Hits(Front(log), after, window) + if Within(Last(log), after, window) then 1 else 0
  }

  /** The times of all accepted hits, by key. */
  type Logs = map<Key, seq<real>>

  function LogOf(logs: Logs, key: Key): seq<real> {
    if key in logs then logs[key] else []
  }

  /** The rule, told with everything remembered: a hit is accepted while the window ending now has room. */
  predicate Admits(log: seq<real>, limit: int, window: real, now: real) {
    Hits(log, now - window, window) < limit
  }

  function Allowed(logs: Logs, limit: int, window: real, key: Key, now: real): Logs {
    if Admits(LogOf(logs, key), limit, window, now) then logs[key := LogOf(logs, key) + [now]] else logs
  }

  datatype Call = Call(key: Key, now: real)

  function AllowedAll(calls: seq<Call>, limit: int, window: real): Logs {
    if calls == [] then map[]
    else Allowed(AllowedAll(Front(calls), limit, window), limit, window, Last(calls).key, Last(calls).now)
  }

  /** The times never go back and none is later than `now`. */
  predicate Until(log: seq<real>, now: real) {
    log == [] || (Last(log) <= now && Until(Front(log), Last(log)))
  }

  ghost predicate Bounded(log: seq<real>, limit: int, window: real) {
    forall a {:trigger Hits(log, a, window)} :: Hits(log, a, window) <= if limit < 0 then 0 else limit
  }

  lemma {:induction false} HitsShrink(log: seq<real>, a: real, b: real, window: real, now: real)
    requires Until(log, now) && a >= b && now <= b + window
    ensures Hits(log, a, window) <= Hits(log, b, window)
  {
    if log != [] {
      HitsShrink(Front(log), a, b, window, Last(log));
    }
  }

  lemma BoundedGrows(log: seq<real>, limit: int, window: real, now: real)
    requires Bounded(log, limit, window) && Until(log, now) && Admits(log, limit, window, now)
    ensures Bounded(log + [now], limit, window)
  {
    assert Front(log + [now]) == log;
    forall a
      ensures Hits(log + [now], a, window) <= if limit < 0 then 0 else limit
    {
      assert Hits(log, a, window) <= if limit < 0 then 0 else limit;
      if Within(now, a, window) {
        HitsShrink(log, a, now - window, window, now);
      }
    }
  }

  ghost predicate LogGood(log: seq<real>, limit: int, window: real, now: real) {
    Bounded(log, limit, window) && Until(log, now)
  }

  ghost predicate LogsGood(logs: Logs, limit: int, window: real, now: real) {
    forall key {:trigger logs[key]} :: key in logs ==> LogGood(logs[key], limit, window, now)
  }

  lemma LogGrows(log: seq<real>, limit: int, window: real, was: real, now: real)
    requires LogGood(log, limit, window, was) && was <= now && Admits(log, limit, window, now)
    ensures LogGood(log + [now], limit, window, now)
  {
    BoundedGrows(log, limit, window, now);
    assert Front(log + [now]) == log && Last(log + [now]) == now;
    UntilLater(log, was, now);
  }

  lemma UntilLater(log: seq<real>, was: real, now: real)
    requires Until(log, was) && was <= now
    ensures Until(log, now)
  {
  }

  lemma LogOfGood(logs: Logs, limit: int, window: real, now: real, key: Key)
    requires LogsGood(logs, limit, window, now)
    ensures LogGood(LogOf(logs, key), limit, window, now)
  {
  }

  lemma AllowedGood(logs: Logs, limit: int, window: real, was: real, key: Key, now: real)
    requires LogsGood(logs, limit, window, was) && was <= now
    ensures LogsGood(Allowed(logs, limit, window, key, now), limit, window, now)
  {
    LogOfGood(logs, limit, window, was, key);
    if Admits(LogOf(logs, key), limit, window, now) {
      LogGrows(LogOf(logs, key), limit, window, was, now);
    }
    var after := Allowed(logs, limit, window, key, now);
    forall k | k in after
      ensures LogGood(after[k], limit, window, now)
    {
      if k in logs {
        assert LogGood(logs[k], limit, window, was);
      }
    }
  }

  ghost predicate ClockMonotone(calls: seq<Call>) {
    forall i, j :: 0 <= i < j < |calls| ==> calls[i].now <= calls[j].now
  }

  lemma {:induction false} AllowedAllGood(calls: seq<Call>, limit: int, window: real, now: real)
    requires ClockMonotone(calls) && forall i :: 0 <= i < |calls| ==> calls[i].now <= now
    ensures LogsGood(AllowedAll(calls, limit, window), limit, window, now)
  {
    if calls != [] {
      AllowedAllGood(Front(calls), limit, window, Last(calls).now);
      AllowedGood(AllowedAll(Front(calls), limit, window), limit, window,
                  Last(calls).now, Last(calls).key, Last(calls).now);
    }
  }

  /** With a clock that never goes back, no window of the given length holds more accepted hits than the limit. */
  lemma WindowBound(calls: seq<Call>, limit: int, window: real, key: Key, after: real)
    requires ClockMonotone(calls)
    ensures Hits(LogOf(AllowedAll(calls, limit, window), key), after, window) <= if limit < 0 then 0 else limit
  {
    if calls != [] {
      AllowedAllGood(calls, limit, window, Last(calls).now);
      LogOfGood(AllowedAll(calls, limit, window), limit, window, Last(calls).now, key);
    }
  }

  // ---------------------------------------------------------------- the deque

  predicate NoneAfter(times: seq<real>, cutoff: real) {
    times == [] || (Last(times) <= cutoff && NoneAfter(Front(times), cutoff))
  }

  /** `hits` is what is left of the log after times no later than `cutoff` were dropped from its front. */
  ghost predicate DropsOld(log: seq<real>, hits: seq<real>, cutoff: real) {
    exists dropped :: log == dropped + hits && NoneAfter(dropped, cutoff)
  }

  lemma {:induction false} NoHits(log: seq<real>, after: real, window: real)
    requires NoneAfter(log, after)
    ensures Hits(log, after, window) == 0
  {
    if log != [] {
      NoHits(Front(log), after, window);
    }
  }

  /** Once the front is past the cutoff, the deque holds exactly the window's hits. */
  lemma {:induction false} DequeCounts(log: seq<real>, dropped: seq<real>, hits: seq<real>, now: real, last: real,
        window: real)
    requires log == dropped + hits && NoneAfter(dropped, now - window) && Until(log, last) && last <= now
    requires hits != [] ==> hits[0] > now - window
    ensures Hits(log, now - window, window) == |hits|
  {
    if hits == [] {
      assert log == dropped;
      NoHits(log, now - window, window);
    } else {
      assert Front(log) == dropped + Front(hits) && Last(log) == Last(hits);
      FirstIsEarliest(log, |dropped|, last);
      DequeCounts(Front(log), dropped, Front(hits), now, Last(log), window);
    }
  }

  lemma {:induction false} FirstIsEarliest(log: seq<real>, k: nat, last: real)
    requires Until(log, last) && k < |log|
    ensures log[k] <= Last(log) <= last
  {
    if k < |log| - 1 {
      FirstIsEarliest(Front(log), k, Last(log));
      assert Front(log)[k] == log[k];
    }
  }

  lemma DropOne(log: seq<real>, queue: seq<real>, cutoff: real)
    requires DropsOld(log, queue, cutoff) && queue != [] && queue[0] <= cutoff
    ensures DropsOld(log, queue[1..], cutoff)
  {
    var dropped :| log == dropped + queue && NoneAfter(dropped, cutoff);
    var more := dropped + [queue[0]];
    assert Front(more) == dropped && log == more + queue[1..];
  }

  lemma {:induction false} NoneAfterLater(times: seq<real>, was: real, cutoff: real)
    requires NoneAfter(times, was) && was <= cutoff
    ensures NoneAfter(times, cutoff)
  {
    if times != [] {
      NoneAfterLater(Front(times), was, cutoff);
    }
  }

  lemma DropsOldLater(log: seq<real>, hits: seq<real>, was: real, cutoff: real)
    requires DropsOld(log, hits, was) && was <= cutoff
    ensures DropsOld(log, hits, cutoff)
  {
    var dropped :| log == dropped + hits && NoneAfter(dropped, was);
    NoneAfterLater(dropped, was, cutoff);
  }

  lemma DropsOldGrows(log: seq<real>, queue: seq<real>, cutoff: real, now: real)
    requires DropsOld(log, queue, cutoff)
    ensures DropsOld(log + [now], queue + [now], cutoff)
  {
  }

  /** What the limiter knows of one key: its deque is its log without a front that no window can reach any more. */
  ghost predicate KeyGood(log: seq<real>, hits: seq<real>, limit: int, window: real, now: real) {
    LogGood(log, limit, window, now) && DropsOld(log, hits, now - window)
  }

  ghost predicate AllGood(logs: Logs, hits: Logs, limit: int, window: real, now: real) {
    forall key {:trigger KeyGood(LogOf(logs, key), LogOf(hits, key), limit, window, now)} ::
      KeyGood(LogOf(logs, key), LogOf(hits, key), limit, window, now)
  }

  lemma NothingYet(limit: int, window: real, now: real)
    ensures AllGood(map[], map[], limit, window, now)
  {
    var none: seq<real> := [];
    assert none == none + none && NoneAfter(none, now - window);
  }

  /** Counting the trimmed deque decides as the rule does. */
  lemma CountDecides(log: seq<real>, queue: seq<real>, limit: int, window: real, was: real, now: real)
    requires LogGood(log, limit, window, was) && was <= now
    requires DropsOld(log, queue, now - window) && (queue != [] ==> queue[0] > now - window)
    ensures (|queue| < limit) == Admits(log, limit, window, now)
  {
    var dropped :| log == dropped + queue && NoneAfter(dropped, now - window);
    DequeCounts(log, dropped, queue, now, was, window);
  }

  lemma KeyLater(log: seq<real>, hits: seq<real>, limit: int, window: real, was: real, now: real)
    requires KeyGood(log, hits, limit, window, was) && was <= now
    ensures KeyGood(log, hits, limit, window, now)
  {
    UntilLater(log, was, now);
    DropsOldLater(log, hits, was - window, now - window);
  }

  /** One key's log and deque after a decision. */
  lemma KeyDecided(log: seq<real>, queue: seq<real>, limit: int, window: real, was: real, now: real)
    requires LogGood(log, limit, window, was) && was <= now && DropsOld(log, queue, now - window)
    ensures Admits(log, limit, window, now) ==> KeyGood(log + [now], queue + [now], limit, window, now)
    ensures KeyGood(log, queue, limit, window, now)
  {
    UntilLater(log, was, now);
    if Admits(log, limit, window, now) {
      LogGrows(log, limit, window, was, now);
      DropsOldGrows(log, queue, now - window, now);
    }
  }

  lemma AllGoodNext(logs: Logs, hits: Logs, limit: int, window: real, was: real, now: real,
                    key: Key, logs': Logs, queue: seq<real>)
    requires AllGood(logs, hits, limit, window, was) && was <= now
    requires KeyGood(LogOf(logs', key), queue, limit, window, now)
    requires forall k :: k != key ==> LogOf(logs', k) == LogOf(logs, k)
    ensures AllGood(logs', hits[key := queue], limit, window, now)
  {
    forall k
      ensures KeyGood(LogOf(logs', k), LogOf(hits[key := queue], k), limit, window, now)
    {
      if k != key {
        assert KeyGood(LogOf(logs, k), LogOf(hits, k), limit, window, was);
        KeyLater(LogOf(logs, k), LogOf(hits, k), limit, window, was, now);
      }
    }
  }

  class PublicWebhookRateLimiter {
    const limit: int
    const window: real
    var hits: map<Key, seq<real>>
    ghost var logs: Logs
    ghost var clock: real

    constructor (limit: int, window: real, now: real)
      ensures Valid() && logs == map[] && this.limit == limit && this.window == window && clock == now
    {
      this.limit, this.window := limit, window;
      hits, logs, clock := map[], map[], now;
      NothingYet(limit, window, now);
    }

    ghost predicate Valid()
      reads this
    {
      AllGood(logs, hits, limit, window, clock)
    }

    method Trim(key: Key, cutoff: real, ghost log: seq<real>) returns (queue: seq<real>)
      requires DropsOld(log, LogOf(hits, key), cutoff)
      ensures DropsOld(log, queue, cutoff) && (queue != [] ==> queue[0] > cutoff)
    {
      queue := if key in hits then hits[key] else [];
      while queue != [] && queue[0] <= cutoff
        invariant DropsOld(log, queue, cutoff)
      {
        DropOne(log, queue, cutoff);
        queue := queue[1..];
      }
    }

    /** Accepts exactly when the window that ends now has room, and forgets nothing the rule still needs. */
    method Allow(key: Key, now: real) returns (ok: bool)
      requires Valid() && clock <= now
      modifies this
      ensures Valid() && clock == now
      ensures ok == Admits(LogOf(old(logs), key), limit, window, now)
      ensures logs == Allowed(old(logs), limit, window, key, now)
    {
      ghost var log := LogOf(logs, key);
      assert KeyGood(log, LogOf(hits, key), limit, window, clock);
      KeyLater(log, LogOf(hits, key), limit, window, clock, now);
      var queue := Trim(key, now - window, log);
      CountDecides(log, queue, limit, window, clock, now);
      KeyDecided(log, queue, limit, window, clock, now);
      ok := |queue| < limit;
      if ok {
        queue := queue + [now];
      }
      ghost var logs' := Allowed(logs, limit, window, key, now);
      AllGoodNext(logs, hits, limit, window, clock, now, key, logs', queue);
      logs := logs';
      hits := hits[key := queue];
      clock := now;
    }
  }
}
