/**
 The limiter, the workers and the pool as objects: one method for each stretch of pool code between two
 points of suspension, each proved to be the step of PoolModel it stands for.
 */
module KernelPools {
  import opened Basics
  import opened PoolModel

  class KernelLimiter {
    var slots: nat

    constructor (maxWorkers: nat)
      ensures slots == maxWorkers
    {
      slots := maxWorkers;
    }

    /** Waiting ends with a slot or with the timeout. */
    method Acquire() returns (ok: bool)
      modifies this
      ensures ok == (old(slots) > 0) && slots == if ok then old(slots) - 1 else old(slots)
    {
      ok := slots > 0;
      if ok {
        slots := slots - 1;
      }
    }

    method Release()
      modifies this
      ensures slots == old(slots) + 1
    {
      slots := slots + 1;
    }
  }

  class KernelWorker {
    var leased: bool
    var alive: bool
    var idleSince: real

    constructor (now: real)
      ensures !leased && alive && idleSince == now
    {
      leased, alive, idleSince := false, true, now;
    }
  }

  class KernelPool {
    const limiter: KernelLimiter
    var workers: seq<KernelWorker>
    var leases: map<string, KernelWorker>
    ghost var pool: Pool<KernelWorker>

    constructor (limiter: KernelLimiter)
      ensures Wired() && this.limiter == limiter && pool == Pool({}, map[], {}, {}, {}, {}, 0, 0)
    {
      this.limiter := limiter;
      workers, leases := [], map[];
      pool := Pool({}, map[], {}, {}, {}, {}, 0, 0);
    }

    ghost predicate Wired()
      reads this, pool.made
    {
      && Distinct(workers) && SetOf(workers) == pool.workers
      && leases == pool.leases
      && PoolOk(pool)
      && (forall w {:trigger StateOf(w)} :: w in pool.made ==> StateOf(w))
    }

    ghost predicate StateOf(w: KernelWorker)
      reads this, w
    {
      (w.leased <==> w in pool.leased) && (w.alive <==> w !in pool.dead)
    }

    /** The first idle worker that is alive. */
    method FindIdleWorker() returns (found: Option<KernelWorker>)
      requires Wired()
      ensures found.Some? ==> found.value in Idle(pool) && found.value !in pool.dead
      ensures found.None? ==> forall w :: w in Idle(pool) ==> w in pool.dead
    {
      var k := 0;
      while k < |workers|
        invariant 0 <= k <= |workers|
        invariant forall j :: 0 <= j < k ==> workers[j] in pool.leased || workers[j] in pool.dead
      {
        assert StateOf(workers[k]);
        if !workers[k].leased && workers[k].alive {
          return Some(workers[k]);
        }
        k := k + 1;
      }
      found := None;
    }

    /** The first half of acquire: the live lease of the key, or an idle worker leased to it, or neither. */
    method AcquireWarm(key: string) returns (worker: Option<KernelWorker>)
      requires Wired()
      modifies this, pool.made
      ensures Wired() && pool.made == old(pool.made)
      ensures LiveLease(old(pool), key) ==> worker == Some(old(pool).leases[key]) && pool == old(pool)
      ensures !LiveLease(old(pool), key) && worker.Some? ==>
                var step := LeaseIdle(key, worker.value);
                Enabled(old(pool), limiter.slots, step) && pool == Next(old(pool), limiter.slots, step)
      ensures worker.None? ==>
                pool == old(pool) && !LiveLease(pool, key) && forall w :: w in Idle(pool) ==> w in pool.dead
    {
      if key in leases {
        assert LeaseOk(pool, key) && StateOf(leases[key]);
        if leases[key].alive {
          return Some(leases[key]);
        }
      }
      worker := FindIdleWorker();
      if worker.Some? {
        StepOk(pool, 0, LeaseIdle(key, worker.value));
        Lease(key, worker.value);
      }
    }

    method Lease(key: string, w: KernelWorker)
      requires Wired() && w in pool.made && PoolOk(Leased(pool, key, w))
      modifies this`leases, this`pool, w`leased
      ensures Wired() && pool == Leased(old(pool), key, w)
    {
      w.leased := true;
      leases := leases[key := w];
      pool := Leased(pool, key, w);
      forall v | v in pool.made
        ensures StateOf(v)
      {
        assert old(StateOf(v));
      }
    }

    /** The second half of acquire, once a worker was started with a slot the caller holds. */
    method AcquireSpawned(key: string, w: KernelWorker) returns (leased: KernelWorker)
      requires Wired() && w !in pool.made && pool.holding > 0 && !w.leased && w.alive && w !in pool.dead
      modifies this, w
      ensures Wired() && pool == Next(old(pool), 0, SpawnLeases(key, w))
      ensures leased == pool.leases[key] && leased !in pool.dead
    {
      SpawnedOk(pool, key, w);
      if key in leases {
        assert LeaseOk(pool, key) && StateOf(leases[key]);
      }
      if key in leases && leases[key].alive {
        leased := leases[key];
        LeaveOut(key, w);
      } else {
        leased := w;
        RegisterLeased(key, w);
      }
    }

    /** The key was leased to a live worker meanwhile: the new one is not registered. */
    ghost method LeaveOut(key: string, w: KernelWorker)
      requires Wired() && w !in pool.made && pool.holding > 0 && !w.leased && w.alive && w !in pool.dead
      requires LiveLease(pool, key) && PoolOk(Spawned(pool, key, w))
      modifies this`pool
      ensures Wired() && pool == Spawned(old(pool), key, w)
    {
      ghost var was := pool;
      pool := Spawned(pool, key, w);
      forall v | v in pool.made
        ensures StateOf(v)
      {
        assert v in was.made ==> old(StateOf(v));
      }
    }

    method RegisterLeased(key: string, w: KernelWorker)
      requires Wired() && w !in pool.made && pool.holding > 0 && !w.leased && w.alive && w !in pool.dead
      requires !LiveLease(pool, key) && PoolOk(Spawned(pool, key, w))
      modifies this, w`leased
      ensures Wired() && pool == Spawned(old(pool), key, w)
    {
      ghost var was := pool;
      w.leased := true;
      DistinctAppend(workers, w);
      assert SetOf(workers + [w]) == SetOf(workers) + {w};
      workers := workers + [w];
      leases := leases[key := w];
      pool := Spawned(pool, key, w);
      forall v | v in pool.made
        ensures StateOf(v)
      {
        assert v in was.made ==> old(StateOf(v));
      }
    }

    /** Unregister a worker; the caller gives its slot back when it was registered. */
    method Drop(w: KernelWorker) returns (removed: bool)
      requires Wired()
      modifies this
      ensures Wired() && pool == Dropped(old(pool), w) && removed == (w in old(pool).workers)
    {
      DroppedOk(pool, w);
      leases := map k | k in leases && leases[k] != w :: leases[k];
      assert leases == LeasesWithout(pool.leases, {w});
      removed := w in workers;
      if removed {
        WithoutSet(workers, {w});
        workers := Without(workers, {w});
      }
      pool := Dropped(pool, w);
      forall v | v in pool.made
        ensures StateOf(v)
      {
        assert old(StateOf(v));
      }
    }

    /** The first half of release: the key loses its lease, the worker is to be reset. */
    method BeginRelease(key: string) returns (worker: Option<KernelWorker>)
      requires Wired()
      modifies this
      ensures Wired()
      ensures worker.None? ==> key !in old(pool).leases && pool == old(pool)
      ensures worker.Some? ==> Enabled(old(pool), 0, Step.BeginRelease(key)) && worker.value == old(pool).leases[key]
                               && pool == Next(old(pool), 0, Step.BeginRelease(key))
    {
      if key !in leases {
        return None;
      }
      BeginReleaseOk(pool, key);
      assert LeaseOk(pool, key);
      worker := Some(leases[key]);
      leases := leases - {key};
      pool := pool.(leases := pool.leases - {key}, resetting := pool.resetting + {pool.leases[key]});
      forall v | v in pool.made
        ensures StateOf(v)
      {
        assert old(StateOf(v));
      }
    }

    /**
     The last half of release: a worker that could not be reset, or died, is dropped; else it is idle.
     A release that is cancelled on the way does nothing more for its worker.
     */
    method EndRelease(w: KernelWorker, reset: Reset, now: real) returns (removed: bool)
      requires Wired() && w in pool.resetting
      modifies this, w`leased, w`idleSince
      ensures Wired() && pool == Next(old(pool), 0, Step.EndRelease(w, reset))
      ensures removed == (w in old(pool).workers && (reset.Failed? || (reset.Done? && w in old(pool).dead)))
    {
      ReleasedOk(pool, w, reset);
      removed := false;
      match reset {
        case CutOff => Settle(w);
        case Failed =>
          Settle(w);
          removed := Drop(w);
        case Done =>
          assert StateOf(w);
          MarkIdle(w, now);
          if !w.alive {
            removed := Drop(w);
          }
      }
    }

    ghost method Settle(w: KernelWorker)
      requires Wired() && w in pool.resetting
      modifies this`pool
      ensures Wired() && pool == old(pool).(resetting := old(pool).resetting - {w})
    {
      ghost var was := pool;
      SettledOk(pool, w);
      pool := pool.(resetting := pool.resetting - {w});
      forall v | v in pool.made
        ensures StateOf(v)
      {
        assert old(StateOf(v));
      }
    }

    method MarkIdle(w: KernelWorker, now: real)
      requires Wired() && w in pool.resetting
      modifies this`pool, w`leased, w`idleSince
      ensures Wired()
      ensures pool == old(pool).(resetting := old(pool).resetting - {w}, leased := old(pool).leased - {w})
      ensures StateOf(w)
    {
      IdledOk(pool, w);
      w.leased, w.idleSince := false, now;
      pool := pool.(resetting := pool.resetting - {w}, leased := pool.leased - {w});
      forall v | v in pool.made
        ensures StateOf(v)
      {
        assert old(StateOf(v));
      }
    }

    /** The lease of the key and all idle workers; as many slots are given back as there are victims. */
    method PurgeForRestart(key: string) returns (victims: seq<KernelWorker>)
      requires Wired()
      modifies this
      ensures Wired() && pool == Next(old(pool), 0, Purge(key))
      ensures pool.removing == old(pool).removing + |victims|
      ensures forall w :: w in victims ==> w in old(pool).workers && w !in pool.workers
    {
      victims := Victims(key);
      Unregister(key, SetOf(victims));
    }

    method Unregister(key: string, gone: set<KernelWorker>)
      requires Wired() && Purged(pool, key).workers == pool.workers - gone
      modifies this
      ensures Wired() && pool == Purged(old(pool), key)
    {
      PurgedOk(pool, key);
      WithoutSet(workers, gone);
      workers := Without(workers, gone);
      leases := leases - {key};
      pool := Purged(pool, key);
      forall v | v in pool.made
        ensures StateOf(v)
      {
        assert old(StateOf(v));
      }
    }

    method Victims(key: string) returns (victims: seq<KernelWorker>)
      requires Wired()
      ensures SetOf(victims) == (if key in pool.leases then {pool.leases[key]} else {}) + Idle(pool)
      ensures |victims| == (if key in pool.leases then 1 else 0) + |Idle(pool)|
      ensures forall w :: w in victims ==> w in pool.workers
    {
      victims := if key in leases then [leases[key]] else [];
      if key in leases {
        assert LeaseOk(pool, key);
      }
      var idle := IdleWorkers();
      assert forall w :: w in idle ==> w in Idle(pool);
      victims := victims + idle;
    }

    method IdleWorkers() returns (idle: seq<KernelWorker>)
      requires Wired()
      ensures SetOf(idle) == Idle(pool) && |idle| == |Idle(pool)|
    {
      idle := [];
      var k := 0;
      ghost var seen: set<KernelWorker> := {};
      while k < |workers|
        invariant 0 <= k <= |workers|
        invariant seen == SetOf(workers[..k]) - pool.leased
        invariant SetOf(idle) == seen && |idle| == |seen|
      {
        var w := workers[k];
        assert StateOf(w);
        assert forall v :: v in workers[..k + 1] <==> v in workers[..k] || v == w;
        assert w !in workers[..k];
        if !w.leased {
          assert SetOf(idle + [w]) == seen + {w};
          idle := idle + [w];
          seen := seen + {w};
        }
        k := k + 1;
      }
      assert workers[..k] == workers;
      assert seen == Idle(pool);
    }

    /** Idle workers are unregistered once their idle time has reached the limit, and only those. */
    method ExpireIdle(now: real, ttl: real) returns (expired: seq<KernelWorker>)
      requires Wired()
      modifies this
      ensures Wired() && SetOf(expired) <= Idle(old(pool))
      ensures pool == Next(old(pool), 0, Expire(SetOf(expired))) && pool.removing == old(pool).removing + |expired|
      ensures forall w :: w in Idle(old(pool)) ==> (w in expired <==> now - w.idleSince >= ttl)
    {
      expired := OverdueWorkers(now, ttl);
      ghost var idle := SetOf(expired);
      ExpiredOk(pool, idle);
      WithoutSet(workers, idle);
      workers := Without(workers, SetOf(expired));
      leases := map k | k in leases && leases[k] !in expired :: leases[k];
      assert leases == LeasesWithout(pool.leases, idle);
      pool := Next(pool, 0, Expire(idle));
      forall v | v in pool.made
        ensures StateOf(v)
      {
        assert old(StateOf(v));
      }
    }

    method OverdueWorkers(now: real, ttl: real) returns (expired: seq<KernelWorker>)
      requires Wired()
      ensures SetOf(expired) <= Idle(pool) && |expired| == |SetOf(expired)|
      ensures forall w :: w in Idle(pool) ==> (w in expired <==> now - w.idleSince >= ttl)
    {
      expired := [];
      var k := 0;
      while k < |workers|
        invariant 0 <= k <= |workers| && Distinct(expired)
        invariant forall w :: w in expired ==> w in workers[..k] && w !in pool.leased
        invariant forall j :: 0 <= j < k && workers[j] !in pool.leased ==>
                    (workers[j] in expired <==> now - workers[j].idleSince >= ttl)
      {
        var w := workers[k];
        assert StateOf(w);
        assert w !in workers[..k];
        if !w.leased {
          if now - w.idleSince >= ttl {
            DistinctAppend(expired, w);
            expired := expired + [w];
          }
        }
        k := k + 1;
      }
      DistinctSize(expired);
      forall w | w in Idle(pool)
        ensures w in expired <==> now - w.idleSince >= ttl
      {
        assert w in SetOf(workers);
      }
    }

    /** Shutting down unregisters everything; a slot is given back for each worker. */
    method Shutdown() returns (gone: seq<KernelWorker>)
      requires Wired()
      modifies this
      ensures Wired() && pool == Next(old(pool), 0, Step.Shutdown) && pool.removing == old(pool).removing + |gone|
    {
      StepOk(pool, 0, Step.Shutdown);
      gone := workers;
      DistinctSize(workers);
      workers, leases := [], map[];
      pool := Next(pool, 0, Step.Shutdown);
      forall v | v in pool.made
        ensures StateOf(v)
      {
        assert old(StateOf(v));
      }
    }
  }

  function SetOf<W(==)>(s: seq<W>): set<W> {
    set w | w in s
  }

  lemma SettledOk<W>(p: Pool<W>, w: W)
    requires PoolOk(p) && w in p.resetting
    ensures PoolOk(p.(resetting := p.resetting - {w}))
  {
    var q := p.(resetting := p.resetting - {w});
    forall k | k in q.leases
      ensures LeaseOk(q, k)
    {
      assert LeaseOk(p, k);
    }
  }

  lemma IdledOk<W>(p: Pool<W>, w: W)
    requires PoolOk(p) && w in p.resetting
    ensures PoolOk(p.(resetting := p.resetting - {w}, leased := p.leased - {w}))
  {
    var q := p.(resetting := p.resetting - {w}, leased := p.leased - {w});
    forall k | k in q.leases
      ensures LeaseOk(q, k)
    {
      assert LeaseOk(p, k);
    }
  }

  lemma {:induction false} DistinctSize<W>(s: seq<W>)
    requires Distinct(s)
    ensures |SetOf(s)| == |s|
  {
    if s != [] {
      DistinctSize(Front(s));
      assert SetOf(s) == SetOf(Front(s)) + {Last(s)};
    }
  }

  /** The sequence without some elements, in order. */
  function Without<W(==)>(s: seq<W>, gone: set<W>): seq<W> {
    if s == [] then []
    else if Last(s) in gone then Without(Front(s), gone)
    else Without(Front(s), gone) + [Last(s)]
  }

  lemma {:induction false} WithoutHas<W>(s: seq<W>, gone: set<W>, w: W)
    ensures w in Without(s, gone) <==> w in s && w !in gone
  {
    if s != [] {
      assert s == Front(s) + [Last(s)];
      WithoutHas(Front(s), gone, w);
    }
  }

  lemma {:induction false} WithoutDistinct<W>(s: seq<W>, gone: set<W>)
    requires Distinct(s)
    ensures Distinct(Without(s, gone))
  {
    if s != [] {
      WithoutDistinct(Front(s), gone);
      if Last(s) !in gone {
        WithoutHas(Front(s), gone, Last(s));
        DistinctAppend(Without(Front(s), gone), Last(s));
      }
    }
  }

  lemma WithoutSet<W>(s: seq<W>, gone: set<W>)
    requires Distinct(s)
    ensures SetOf(Without(s, gone)) == SetOf(s) - gone && Distinct(Without(s, gone))
  {
    WithoutDistinct(s, gone);
    var left, right := SetOf(Without(s, gone)), SetOf(s) - gone;
    forall w
      ensures w in left <==> w in right
    {
      WithoutHas(s, gone, w);
    }
  }
}
