/**
 Kernel pools that share one limiter, as steps between the points where their code can be suspended.
 A worker's slot is taken before it exists and given back only after its process is gone, so the slots
 in use are more than the workers registered.
 */
module PoolModel {
  import opened Basics

  datatype Pool<W> = Pool(
    workers: set<W>,          // registered
    leases: map<string, W>,
    leased: set<W>,           // workers whose state is "leased", registered or not
    dead: set<W>,             // workers whose process has ended
    made: set<W>,             // every worker this pool ever started
    resetting: set<W>,        // popped from the leases, being reset
    holding: nat,             // acquirers with a slot and no registered worker yet
    removing: nat)            // workers unregistered whose slot is not given back yet

  /** How the reset of a released worker ends; a cancelled release goes no further. */
  datatype Reset = Done | Failed | CutOff

  datatype Step<W> =
    | LeaseIdle(key: string, worker: W)
    | Permit
    | SpawnFails
    | SpawnCancelled(worker: W)
    | SpawnLeases(key: string, worker: W)
    | BeginRelease(key: string)
    | EndRelease(worker: W, reset: Reset)
    | Purge(key: string)
    | DropLeased(key: string, worker: W)
    | Expire(workers: set<W>)
    | Shutdown
    | GiveBack
    | Dies(worker: W)

  predicate LiveLease<W(==)>(p: Pool<W>, key: string) {
    key in p.leases && p.leases[key] !in p.dead
  }

  function Idle<W(==)>(p: Pool<W>): set<W> {
    p.workers - p.leased
  }

  predicate Enabled<W(==)>(p: Pool<W>, free: nat, step: Step<W>) {
    match step
    case LeaseIdle(key, w) => !LiveLease(p, key) && w in Idle(p) && w !in p.dead
    case Permit => free > 0
    case SpawnFails => p.holding > 0
    case SpawnCancelled(w) => p.holding > 0 && w !in p.made
    case SpawnLeases(_, w) => p.holding > 0 && w !in p.made
    case BeginRelease(key) => key in p.leases
    case EndRelease(w, _) => w in p.resetting
    case Expire(idle) => idle <= Idle(p)
    case GiveBack => p.removing > 0
    case Dies(w) => w in p.made
    case _ => true
  }

  function LeasesWithout<W(==)>(leases: map<string, W>, gone: set<W>): map<string, W> {
    map k | k in leases && leases[k] !in gone :: leases[k]
  }

  /** A worker leaves the pool; its slot is given back only if it was registered. */
  function Dropped<W(==)>(p: Pool<W>, w: W): Pool<W> {
    p.(workers := p.workers - {w}, leases := LeasesWithout(p.leases, {w}),
       removing := p.removing + if w in p.workers then 1 else 0)
  }

  function Leased<W(==)>(p: Pool<W>, key: string, w: W): Pool<W> {
    p.(leases := p.leases[key := w], leased := p.leased + {w})
  }

  /** A new worker for a key that has a live lease by then is dropped again. */
  function Spawned<W(==)>(p: Pool<W>, key: string, w: W): Pool<W>
    requires p.holding > 0
  {
    var q := p.(made := p.made + {w}, holding := p.holding - 1);
    if LiveLease(p, key) then q.(removing := q.removing + 1)
    else Leased(q.(workers := q.workers + {w}), key, w)
  }

  function Released<W(==)>(p: Pool<W>, w: W, reset: Reset): Pool<W> {
    var q := p.(resetting := p.resetting - {w});
    match reset
    case CutOff => q
    case Failed => Dropped(q, w)
    case Done =>
      var idle := q.(leased := q.leased - {w});
      if w in p.dead then Dropped(idle, w) else idle
  }

  /** The lease of the key and every idle worker; the slots given back are counted victim by victim. */
  function Purged<W(==)>(p: Pool<W>, key: string): Pool<W> {
    var own := if key in p.leases then {p.leases[key]} else {};
    p.(workers := p.workers - own - Idle(p), leases := p.leases - {key},
       removing := p.removing + |own| + |Idle(p)|)
  }

  function Next<W(==)>(p: Pool<W>, free: nat, step: Step<W>): Pool<W>
    requires Enabled(p, free, step)
  {
    match step
    case LeaseIdle(key, w) => Leased(p, key, w)
    case Permit => p.(holding := p.holding + 1)
    case SpawnFails => p.(holding := p.holding - 1)
    case SpawnCancelled(w) => p.(holding := p.holding - 1, made := p.made + {w}, removing := p.removing + 1)
    case SpawnLeases(key, w) => Spawned(p, key, w)
    case BeginRelease(key) => p.(leases := p.leases - {key}, resetting := p.resetting + {p.leases[key]})
    case EndRelease(w, reset) => Released(p, w, reset)
    case Purge(key) => Purged(p, key)
    case DropLeased(_, w) => Dropped(p, w)
    case Expire(idle) =>
      p.(workers := p.workers - idle, leases := LeasesWithout(p.leases, idle), removing := p.removing + |idle|)
    case Shutdown => p.(workers := {}, leases := map[], removing := p.removing + |p.workers|)
    case GiveBack => p.(removing := p.removing - 1)
    case Dies(w) => p.(dead := p.dead + {w})
  }

  function FreeAfter<W>(free: nat, step: Step<W>): nat
    requires step.Permit? ==> free > 0
  {
    match step
    case Permit => free - 1
    case SpawnFails => free + 1
    case GiveBack => free + 1
    case _ => free
  }

  // ---------------------------------------------------------------- one pool

  /** A lease names a registered worker in state "leased" that nobody else has. */
  ghost predicate LeaseOk<W>(p: Pool<W>, key: string)
    requires key in p.leases
  {
    var w := p.leases[key];
    && w in p.workers && w in p.leased && w !in p.resetting
    && forall k :: k in p.leases && k != key ==> p.leases[k] != w
  }

  ghost predicate PoolOk<W>(p: Pool<W>) {
    && p.workers <= p.made && p.leased <= p.made && p.resetting <= p.leased
    && (forall key {:trigger LeaseOk(p, key)} :: key in p.leases ==> LeaseOk(p, key))
  }

  function Slots<W>(p: Pool<W>): nat {
    |p.workers| + p.holding + p.removing
  }

  lemma DroppedOk<W>(p: Pool<W>, w: W)
    requires PoolOk(p)
    ensures PoolOk(Dropped(p, w)) && Slots(Dropped(p, w)) == Slots(p)
  {
    var q := Dropped(p, w);
    forall key | key in q.leases
      ensures LeaseOk(q, key)
    {
      assert LeaseOk(p, key);
    }
    if w in p.workers {
      assert |p.workers - {w}| == |p.workers| - 1;
    }
  }

  lemma LeasedOk<W>(p: Pool<W>, key: string, w: W)
    requires PoolOk(p) && w in p.workers && w !in p.resetting && w !in p.leases.Values
    ensures PoolOk(Leased(p, key, w))
  {
    var q := Leased(p, key, w);
    forall k | k in q.leases
      ensures LeaseOk(q, k)
    {
      if k != key {
        assert LeaseOk(p, k);
        assert p.leases[k] in p.leases.Values;
      }
      forall j | j in q.leases && j != k
        ensures q.leases[j] != q.leases[k]
      {
        if j != key {
          assert p.leases[j] in p.leases.Values;
        }
      }
    }
  }

  lemma NobodysLease<W>(p: Pool<W>, w: W)
    requires PoolOk(p) && (w in Idle(p) || w !in p.made || w in p.resetting)
    ensures w !in p.leases.Values
  {
    forall k | k in p.leases
      ensures p.leases[k] != w
    {
      assert LeaseOk(p, k);
    }
  }

  lemma SpawnedOk<W>(p: Pool<W>, key: string, w: W)
    requires PoolOk(p) && p.holding > 0 && w !in p.made
    ensures PoolOk(Spawned(p, key, w)) && Slots(Spawned(p, key, w)) == Slots(p)
  {
    var q := p.(made := p.made + {w}, holding := p.holding - 1);
    assert PoolOk(q) by {
      forall k | k in q.leases
        ensures LeaseOk(q, k)
      {
        assert LeaseOk(p, k);
      }
    }
    if LiveLease(p, key) {
      var r := q.(removing := q.removing + 1);
      forall k | k in r.leases
        ensures LeaseOk(r, k)
      {
        assert LeaseOk(q, k);
      }
    } else {
      var r := q.(workers := q.workers + {w});
      forall k | k in r.leases
        ensures LeaseOk(r, k)
      {
        assert LeaseOk(q, k);
      }
      NobodysLease(p, w);
      LeasedOk(r, key, w);
    }
  }

  lemma BeginReleaseOk<W>(p: Pool<W>, key: string)
    requires PoolOk(p) && key in p.leases
    ensures PoolOk(p.(leases := p.leases - {key}, resetting := p.resetting + {p.leases[key]}))
  {
    var q := p.(leases := p.leases - {key}, resetting := p.resetting + {p.leases[key]});
    assert LeaseOk(p, key);
    forall k | k in q.leases
      ensures LeaseOk(q, k)
    {
      assert LeaseOk(p, k);
    }
  }

  lemma ReleasedOk<W>(p: Pool<W>, w: W, reset: Reset)
    requires PoolOk(p) && w in p.resetting
    ensures PoolOk(Released(p, w, reset)) && Slots(Released(p, w, reset)) == Slots(p)
  {
    var q := p.(resetting := p.resetting - {w});
    forall k | k in q.leases
      ensures LeaseOk(q, k)
    {
      assert LeaseOk(p, k);
    }
    if reset.Failed? {
      DroppedOk(q, w);
    } else if reset.Done? {
      var idle := q.(leased := q.leased - {w});
      forall k | k in idle.leases
        ensures LeaseOk(idle, k)
      {
        assert LeaseOk(p, k);
      }
      DroppedOk(idle, w);
    }
  }

  lemma SubsetSize<W>(part: set<W>, whole: set<W>)
    requires part <= whole
    ensures |whole - part| == |whole| - |part|
  {
    assert whole == part + (whole - part);
  }

  /** Every victim was registered and none is counted twice, so the slots come out even. */
  lemma PurgedOk<W>(p: Pool<W>, key: string)
    requires PoolOk(p)
    ensures PoolOk(Purged(p, key)) && Slots(Purged(p, key)) == Slots(p)
  {
    var q := Purged(p, key);
    var own := if key in p.leases then {p.leases[key]} else {};
    if key in p.leases {
      assert LeaseOk(p, key);
    }
    SubsetSize(own, p.workers);
    SubsetSize(Idle(p), p.workers - own);
    forall k | k in q.leases
      ensures LeaseOk(q, k)
    {
      assert LeaseOk(p, k);
      if key in p.leases {
        assert p.leases[key] != p.leases[k];
      }
    }
  }

  lemma ExpiredOk<W>(p: Pool<W>, idle: set<W>)
    requires PoolOk(p) && idle <= Idle(p)
    ensures var q := p.(workers := p.workers - idle, leases := LeasesWithout(p.leases, idle),
              removing := p.removing + |idle|);
            PoolOk(q) && Slots(q) == Slots(p) && q.leases == p.leases
  {
    var q := p.(workers := p.workers - idle, leases := LeasesWithout(p.leases, idle), removing := p.removing + |idle|);
    SubsetSize(idle, p.workers);
    forall k | k in p.leases
      ensures k in q.leases && LeaseOk(q, k)
    {
      assert LeaseOk(p, k);
    }
    MapsEqual(q.leases, p.leases);
  }

  /** The other steps touch neither registrations nor leases, or clear both. */
  lemma SimpleOk<W>(p: Pool<W>, q: Pool<W>)
    requires PoolOk(p) && p.made <= q.made && q.resetting == p.resetting && q.leased == p.leased
    requires (q.workers == p.workers && q.leases == p.leases) || (q.workers == {} && q.leases == map[])
    ensures PoolOk(q)
  {
    forall k | k in q.leases
      ensures LeaseOk(q, k)
    {
      assert LeaseOk(p, k);
    }
  }

  /** Each step of a pool keeps its leases in order, and moves slots without making or losing one. */
  lemma StepOk<W>(p: Pool<W>, free: nat, step: Step<W>)
    requires PoolOk(p) && Enabled(p, free, step)
    ensures PoolOk(Next(p, free, step))
    ensures FreeAfter(free, step) + Slots(Next(p, free, step)) == free + Slots(p)
  {
    match step
    case LeaseIdle(key, w) =>
      NobodysLease(p, w);
      LeasedOk(p, key, w);
    case SpawnLeases(key, w) => SpawnedOk(p, key, w);
    case BeginRelease(key) => BeginReleaseOk(p, key);
    case EndRelease(w, reset) => ReleasedOk(p, w, reset);
    case Purge(key) => PurgedOk(p, key);
    case DropLeased(_, w) => DroppedOk(p, w);
    case Expire(idle) => ExpiredOk(p, idle);
    case _ => SimpleOk(p, Next(p, free, step));
  }

  // ---------------------------------------------------------------- who is registered and who is leased

  /** The step unregisters the worker. */
  predicate Unregisters<W(==)>(p: Pool<W>, step: Step<W>, w: W) {
    match step
    case EndRelease(other, reset) => other == w && (reset.Failed? || (reset.Done? && w in p.dead))
    case Purge(key) => w !in p.leased || (key in p.leases && p.leases[key] == w)
    case DropLeased(_, other) => other == w
    case Expire(idle) => w in idle
    case Shutdown => true
    case _ => false
  }

  /** The step gives the key to the worker: for a new one, unless the key has a live lease by then. */
  predicate Gives<W(==)>(p: Pool<W>, step: Step<W>, key: string, w: W) {
    match step
    case LeaseIdle(other, worker) => other == key && worker == w
    case SpawnLeases(other, worker) =>
      other == key && worker == w && (key in p.leases ==> p.leases[key] in p.dead)
    case _ => false
  }

  /** The step ends the lease that the worker has of the key. */
  predicate EndsLease<W(==)>(p: Pool<W>, step: Step<W>, key: string, w: W) {
    match step
    case LeaseIdle(other, _) => other == key
    case SpawnLeases(other, _) => other == key && w in p.dead
    case BeginRelease(other) => other == key
    case Purge(other) => other == key
    case _ => Unregisters(p, step, w)
  }

  /**
   For every step: just the workers that are registered and not unregistered, and a new one that gets a lease,
   are registered afterwards; a worker is in state "leased" if it was and its reset is not done, or gets a lease.
   */
  lemma RegisteredExact<W>(p: Pool<W>, free: nat, step: Step<W>, w: W)
    requires PoolOk(p) && Enabled(p, free, step)
    ensures w in Next(p, free, step).workers <==>
              (w in p.workers && !Unregisters(p, step, w)) || exists key :: Gives(p, step, key, w)
    ensures w in Next(p, free, step).leased <==>
              (w in p.leased && step != EndRelease(w, Done)) || exists key :: Gives(p, step, key, w)
  {
    if step.LeaseIdle? || step.SpawnLeases? {
      assert w == step.worker && (step.key in p.leases ==> p.leases[step.key] in p.dead) ==>
          Gives(p, step, step.key, w);
    }
  }

  /** Just the leases that were given or are kept. */
  lemma LeasesExact<W>(p: Pool<W>, free: nat, step: Step<W>, key: string, w: W)
    requires PoolOk(p) && Enabled(p, free, step)
    ensures var q := Next(p, free, step);
            key in q.leases && q.leases[key] == w <==>
            Gives(p, step, key, w) || (key in p.leases && p.leases[key] == w && !EndsLease(p, step, key, w))
  {
    if key in p.leases {
      assert LeaseOk(p, key);
    }
  }

  // ---------------------------------------------------------------- all pools of a limiter

  datatype Daemon<W> = Daemon(free: nat, pools: seq<Pool<W>>)

  function TotalSlots<W>(pools: seq<Pool<W>>): nat {
    if pools == [] then 0 else TotalSlots(Front(pools)) + Slots(Last(pools))
  }

  lemma {:induction false} TotalSlotsUpdate<W>(pools: seq<Pool<W>>, i: nat, p: Pool<W>)
    requires i < |pools|
    ensures TotalSlots(pools[i := p]) == TotalSlots(pools) - Slots(pools[i]) + Slots(p)
  {
    if i == |pools| - 1 {
      assert Front(pools[i := p]) == Front(pools);
    } else {
      assert Front(pools[i := p]) == Front(pools)[i := p];
      TotalSlotsUpdate(Front(pools), i, p);
    }
  }

  /** A step of one pool. */
  datatype Move<W> = Move(pool: nat, step: Step<W>)

  predicate CanMove<W(==)>(d: Daemon<W>, move: Move<W>) {
    move.pool < |d.pools| && Enabled(d.pools[move.pool], d.free, move.step)
  }

  function Moved<W(==)>(d: Daemon<W>, move: Move<W>): Daemon<W>
    requires CanMove(d, move)
  {
    Daemon(FreeAfter(d.free, move.step), d.pools[move.pool := Next(d.pools[move.pool], d.free, move.step)])
  }

  ghost predicate Runs<W>(d: Daemon<W>, moves: seq<Move<W>>, e: Daemon<W>)
    decreases |moves|
  {
    if moves == [] then d == e else CanMove(d, moves[0]) && Runs(Moved(d, moves[0]), moves[1..], e)
  }

  ghost predicate DaemonOk<W>(d: Daemon<W>, max: nat) {
    && d.free + TotalSlots(d.pools) == max
    && forall i :: 0 <= i < |d.pools| ==> PoolOk(d.pools[i])
  }

  lemma MoveOk<W>(d: Daemon<W>, move: Move<W>, max: nat)
    requires DaemonOk(d, max) && CanMove(d, move)
    ensures DaemonOk(Moved(d, move), max)
  {
    var p := d.pools[move.pool];
    StepOk(p, d.free, move.step);
    TotalSlotsUpdate(d.pools, move.pool, Next(p, d.free, move.step));
  }

  lemma {:induction false} RunOk<W>(d: Daemon<W>, moves: seq<Move<W>>, e: Daemon<W>, max: nat)
    requires DaemonOk(d, max) && Runs(d, moves, e)
    ensures DaemonOk(e, max)
    decreases |moves|
  {
    if moves != [] {
      MoveOk(d, moves[0], max);
      RunOk(Moved(d, moves[0]), moves[1..], e, max);
    }
  }

  ghost predicate Starts<W>(d: Daemon<W>, max: nat) {
    d.free == max && forall i :: 0 <= i < |d.pools| ==> d.pools[i] == Pool({}, map[], {}, {}, {}, {}, 0, 0)
  }

  lemma {:induction false} NoSlotsYet<W>(pools: seq<Pool<W>>)
    requires forall i :: 0 <= i < |pools| ==> Slots(pools[i]) == 0
    ensures TotalSlots(pools) == 0
  {
    if pools != [] {
      NoSlotsYet(Front(pools));
    }
  }

  lemma {:induction false} TotalSlotsAtLeast<W>(pools: seq<Pool<W>>, i: nat)
    requires i < |pools|
    ensures TotalSlots(pools) >= Slots(pools[i])
  {
    if i < |pools| - 1 {
      TotalSlotsAtLeast(Front(pools), i);
    }
  }

  /**
   In every interleaving of all pools: free slots, registered workers, acquirers holding a slot and
   workers on their way out add up to the maximum, so no pool ever registers more than that; every
   lease names a registered worker, and no two leases name the same one.
   */
  lemma SlotsConserved<W>(d: Daemon<W>, moves: seq<Move<W>>, e: Daemon<W>, max: nat, i: nat)
    requires Starts(d, max) && Runs(d, moves, e) && i < |e.pools|
    ensures e.free + TotalSlots(e.pools) == max
    ensures |e.pools[i].workers| <= max
    ensures forall key :: key in e.pools[i].leases ==> e.pools[i].leases[key] in e.pools[i].workers
    ensures forall j, k :: j in e.pools[i].leases && k in e.pools[i].leases && j != k ==>
              e.pools[i].leases[j] != e.pools[i].leases[k]
  {
    NoSlotsYet(d.pools);
    RunOk(d, moves, e, max);
    TotalSlotsAtLeast(e.pools, i);
    var p := e.pools[i];
    forall key | key in p.leases
      ensures p.leases[key] in p.workers
      ensures forall k :: k in p.leases && k != key ==> p.leases[k] != p.leases[key]
    {
      assert LeaseOk(p, key);
    }
  }

  // ---------------------------------------------------------------- workers nobody can reach

  /**
   Registered and in state "leased", but named by no lease and not being reset: idle expiry and purging
   pass it by.
   */
  ghost predicate Orphan<W>(p: Pool<W>, w: W) {
    w in p.workers && w in p.leased && w !in p.resetting && w !in p.leases.Values
  }

  /** The key has a lease, its worker is dead, and the step gives the key another worker. */
  predicate TakesOver<W(==)>(p: Pool<W>, step: Step<W>, w: W) {
    match step
    case LeaseIdle(key, _) => key in p.leases && p.leases[key] == w
    case SpawnLeases(key, _) => key in p.leases && p.leases[key] == w && w in p.dead
    case _ => false
  }

  /** The release of the worker is cancelled before the worker is idle again or dropped. */
  predicate Abandons<W(==)>(p: Pool<W>, step: Step<W>, w: W) {
    step == EndRelease(w, CutOff) && w in p.workers
  }

  lemma LeasedValues<W>(p: Pool<W>, key: string, w: W)
    requires PoolOk(p) && key in p.leases
    ensures w in (p.leases - {key}).Values <==> w in p.leases.Values && w != p.leases[key]
  {
    assert LeaseOk(p, key);
    if w in p.leases.Values && w != p.leases[key] {
      var k :| k in p.leases && p.leases[k] == w;
      assert k in p.leases - {key} && (p.leases - {key})[k] == w;
    }
    if w in (p.leases - {key}).Values {
      var k :| k in p.leases - {key} && (p.leases - {key})[k] == w;
      assert p.leases[k] == w;
    }
  }

  lemma ReplacedValues<W>(p: Pool<W>, key: string, other: W, w: W)
    requires PoolOk(p) && w != other
    ensures w in p.leases[key := other].Values <==> w in p.leases.Values && !(key in p.leases && p.leases[key] == w)
  {
    var after := p.leases[key := other];
    if key in p.leases {
      assert LeaseOk(p, key);
    }
    if w in p.leases.Values && !(key in p.leases && p.leases[key] == w) {
      var k :| k in p.leases && p.leases[k] == w;
      assert k in after && after[k] == w;
    }
    if w in after.Values {
      var k :| k in after && after[k] == w;
      assert k in p.leases && p.leases[k] == w;
    }
  }

  lemma FilteredValues<W>(leases: map<string, W>, gone: set<W>, w: W)
    ensures w in LeasesWithout(leases, gone).Values <==> w in leases.Values && w !in gone
  {
    var after := LeasesWithout(leases, gone);
    if w in leases.Values && w !in gone {
      var k :| k in leases && leases[k] == w;
      assert k in after && after[k] == w;
    }
    if w in after.Values {
      var k :| k in after && after[k] == w;
      assert leases[k] == w;
    }
  }

  /**
   A worker becomes unreachable exactly when its key is given another worker after it died, or its
   release is cut off while it is still registered.
   */
  lemma OrphanMade<W>(p: Pool<W>, free: nat, step: Step<W>, w: W)
    requires PoolOk(p) && Enabled(p, free, step) && !Orphan(p, w)
    ensures Orphan(Next(p, free, step), w) <==> TakesOver(p, step, w) || Abandons(p, step, w)
  {
    match step
    case LeaseIdle(key, other) =>
      OrphanByLease(p, key, other, w);
    case SpawnLeases(key, other) =>
      if !LiveLease(p, key) {
        OrphanByLease(p, key, other, w);
      }
    case BeginRelease(key) => LeasedValues(p, key, w);
    case EndRelease(worker, _) =>
      NobodysLease(p, worker);
      FilteredValues(p.leases, {worker}, w);
    case Purge(key) =>
      if key in p.leases {
        LeasedValues(p, key, w);
        assert p.leases[key] in p.leases.Values;
      } else {
        assert p.leases - {key} == p.leases;
      }
    case DropLeased(_, worker) => FilteredValues(p.leases, {worker}, w);
    case Expire(idle) => FilteredValues(p.leases, idle, w);
    case _ =>
  }

  lemma OrphanByLease<W>(p: Pool<W>, key: string, other: W, w: W)
    requires PoolOk(p) && !LiveLease(p, key) && !Orphan(p, w)
    requires other in Idle(p) || other !in p.made
    ensures var after := p.leases[key := other];
            (w in p.workers + {other} && w in p.leased + {other} && w !in p.resetting && w !in after.Values)
            <==> key in p.leases && p.leases[key] == w
  {
    var after := p.leases[key := other];
    assert key in after && after[key] == other;
    if key in p.leases {
      assert LeaseOk(p, key);
    }
    if w != other {
      ReplacedValues(p, key, other, w);
    }
  }

  /** Until it is dropped by name or the pool shuts down, an unreachable worker keeps its slot. */
  lemma OrphanStays<W>(p: Pool<W>, free: nat, step: Step<W>, w: W)
    requires PoolOk(p) && Enabled(p, free, step) && Orphan(p, w)
    ensures Orphan(Next(p, free, step), w) <==> !(step.Shutdown? || (step.DropLeased? && step.worker == w))
  {
    match step
    case LeaseIdle(key, other) => ReplacedValues(p, key, other, w);
    case SpawnLeases(key, other) => ReplacedValues(p, key, other, w);
    case BeginRelease(key) => LeasedValues(p, key, w);
    case EndRelease(worker, _) => FilteredValues(p.leases, {worker}, w);
    case Purge(key) =>
      if key in p.leases {
        LeasedValues(p, key, w);
        assert p.leases[key] in p.leases.Values;
      }
    case DropLeased(_, worker) => FilteredValues(p.leases, {worker}, w);
    case Expire(idle) => FilteredValues(p.leases, idle, w);
    case _ =>
  }

  // ---------------------------------------------------------------- both ways happen

  lemma {:induction false} RunsOn<W>(d: Daemon<W>, moves: seq<Move<W>>, e: Daemon<W>, move: Move<W>)
    requires Runs(d, moves, e) && CanMove(e, move)
    ensures Runs(d, moves + [move], Moved(e, move))
    decreases |moves|
  {
    if moves == [] {
      assert ([move])[1..] == [];
    } else {
      assert (moves + [move])[1..] == moves[1..] + [move];
      RunsOn(Moved(d, moves[0]), moves[1..], e, move);
    }
  }

  /** One more step of the first pool. */
  lemma GoOn<W>(d: Daemon<W>, moves: seq<Move<W>>, e: Daemon<W>, step: Step<W>)
        returns (more: seq<Move<W>>, f: Daemon<W>)
    requires Runs(d, moves, e) && e.pools != [] && Enabled(e.pools[0], e.free, step)
    ensures Runs(d, more, f) && f.pools != [] && f.free == FreeAfter(e.free, step)
    ensures f.pools[0] == Next(e.pools[0], e.free, step)
  {
    RunsOn(d, moves, e, Move(0, step));
    more, f := moves + [Move(0, step)], Moved(e, Move(0, step));
  }

  /** A first worker is started and leased. */
  lemma FirstLease<W>(d: Daemon<W>, max: nat, key: string, w: W) returns (moves: seq<Move<W>>, e: Daemon<W>)
    requires Starts(d, max) && d.pools != [] && max >= 1
    ensures Runs(d, moves, e) && e.pools != [] && e.free == max - 1
    ensures e.pools[0] == Pool({w}, map[key := w], {w}, {}, {w}, {}, 0, 0)
  {
    moves, e := GoOn(d, [], d, Permit);
    moves, e := GoOn(d, moves, e, SpawnLeases(key, w));
    assert e.pools[0].workers == {w} && e.pools[0].leased == {w} && e.pools[0].made == {w};
  }

  /** A leased worker dies and its key is leased a second one. */
  lemma TakeOverHappens<W>(d: Daemon<W>, max: nat, key: string, w: W, v: W) returns (moves: seq<Move<W>>, e: Daemon<W>)
    requires Starts(d, max) && d.pools != [] && max >= 2 && v != w
    ensures Runs(d, moves, e) && e.pools != [] && Orphan(e.pools[0], w)
  {
    moves, e := FirstLease(d, max, key, w);
    moves, e := GoOn(d, moves, e, Dies(w));
    moves, e := GoOn(d, moves, e, Permit);
    var q := e.pools[0];
    assert q.leases == map[key := w] && w in q.dead && !LiveLease(q, key);
    moves, e := GoOn(d, moves, e, SpawnLeases(key, v));
  }

  /** A leased worker is released and the release is cut off: with one slot in all, none is left. */
  lemma AbandonHappens<W>(d: Daemon<W>, max: nat, key: string, w: W) returns (moves: seq<Move<W>>, e: Daemon<W>)
    requires Starts(d, max) && d.pools != [] && max >= 1
    ensures Runs(d, moves, e) && e.pools != [] && Orphan(e.pools[0], w)
    ensures e.pools[0].leases == map[] && e.free == max - 1
  {
    moves, e := FirstLease(d, max, key, w);
    moves, e := GoOn(d, moves, e, BeginRelease(key));
    assert e.pools[0].leases == map[] && e.pools[0].resetting == {w};
    moves, e := GoOn(d, moves, e, EndRelease(w, CutOff));
  }
}
