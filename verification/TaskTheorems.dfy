/** Theorems about every run of the task tree: ancestry, cancellation, notices and delivery. */
module TaskTheorems {
  import opened Basics
  import opened TaskModel
  import opened TaskTree

  // ---------------------------------------------------------------- what any step does to a record

  /** How a record may change from one step to the next. */
  ghost predicate Evolves(t: Task, u: Task) {
    && u.link == t.link
    && (u.accepting ==> t.accepting)
    && (t.cancelRequested ==> u.cancelRequested)
    && (Terminal(t.status) ==> u.status == t.status)
    && (t.cancelRequested && !Terminal(t.status) && Terminal(u.status) ==> u.status == Cancelled)
    && (!Open(t.deliveryState) ==> !Open(u.deliveryState))
  }

  /** No record disappears, none becomes active again, and each one evolves. */
  ghost predicate EvolvesAll(w: World, v: World) {
    && w.tasks.Keys <= v.tasks.Keys
    && v.live * w.tasks.Keys <= w.live
    && forall id {:trigger v.tasks[id]} :: id in w.tasks ==> Evolves(w.tasks[id], v.tasks[id])
  }

  lemma EvolvesAllTransitive(w: World, u: World, v: World)
    requires EvolvesAll(w, u) && EvolvesAll(u, v)
    ensures EvolvesAll(w, v)
  {
  }

  lemma FinishEvolves(w: World, id: TaskId, status: FinalStatus)
    requires Inv(w) && id in w.live && id in w.tasks && (w.tasks[id].cancelRequested ==> status == Cancelled)
    ensures EvolvesAll(w, Finish(w, id, status))
  {
    FinishRecords(w, id, status);
    assert BookOk(w, id);
  }

  lemma SettleEvolves(w: World, id: TaskId)
    requires Inv(w) && id in w.live && id in w.tasks
    ensures EvolvesAll(w, Settle(w, id))
  {
    if ActiveChildren(w, id) == {} {
      FinishEvolves(w, id, if w.tasks[id].cancelRequested then Cancelled else w.tasks[id].outcome);
    } else {
      assert BookOk(w, id);
    }
  }

  lemma CancelEvolves(w: World, id: TaskId, skip: bool)
    requires Linked(w) && id in w.tasks
    ensures EvolvesAll(w, Cancel(w, id, skip))
  {
  }

  lemma OwnClosedEvolves(w: World, id: TaskId, outcome: FinalStatus)
    requires Linked(w) && id in w.tasks
    ensures EvolvesAll(w, OwnClosed(w, id, outcome))
  {
  }

  lemma OwnWorkEndsEvolves(w: World, id: TaskId, outcome: FinalStatus)
    requires Inv(w) && id in w.tasks && id in w.live
    ensures EvolvesAll(w, OwnWorkEnds(w, id, outcome))
  {
    var u := OwnClosed(w, id, outcome);
    OwnClosedGentle(w, id, outcome);
    GentleKeepsInv(w, u);
    OwnClosedEvolves(w, id, outcome);
    SettleEvolves(u, id);
    EvolvesAllTransitive(w, u, Settle(u, id));
  }

  lemma ResumeEvolves(w: World, id: TaskId)
    requires Inv(w) && id in w.tasks && id in w.live
    ensures EvolvesAll(w, Resume(w, id))
  {
    var u := w.(tasks := w.tasks[id := w.tasks[id].(suspended := false)]);
    GentleKeepsInv(w, u);
    SettleEvolves(u, id);
    EvolvesAllTransitive(w, u, Settle(u, id));
  }

  lemma PutEvolves(w: World, sub: Submission)
    requires Inv(w) && Admissible(w, sub)
    ensures EvolvesAll(w, Put(w, sub))
  {
  }

  lemma DeliveryOnlyEvolves(w: World, v: World)
    requires DeliveryOnly(w, v)
    ensures EvolvesAll(w, v)
  {
  }

  lemma StepEvolves(w: World, step: Step)
    requires Inv(w) && Enabled(w, step)
    ensures EvolvesAll(w, Next(w, step))
  {
    match step {
      case DoPut(sub) => PutEvolves(w, sub);
      case DoCancel(id, skip) => CancelEvolves(w, id, skip);
      case DoOwnWorkEnds(id, outcome) => OwnWorkEndsEvolves(w, id, outcome);
      case DoResume(id) => ResumeEvolves(w, id);
      case DoAgentWaits(id) => assert BookOk(w, id);
      case DoPopNotices(id) => assert BookOk(w, id);
      case DoDieUnstarted(id) => FinishEvolves(w, id, Cancelled);
      case DoEvict(ids) =>
      case _ =>
        DeliveryStepOnly(w, step);
        DeliveryOnlyEvolves(w, Next(w, step));
    }
  }

  lemma {:induction false} RunEvolves(w: World, steps: seq<Step>, v: World)
    requires Inv(w) && Runs(w, steps, v)
    ensures Inv(v) && EvolvesAll(w, v)
    decreases |steps|
  {
    if steps == [] {
    } else {
      var u := Next(w, steps[0]);
      StepKeepsInv(w, steps[0]);
      StepEvolves(w, steps[0]);
      RunEvolves(u, steps[1..], v);
      EvolvesAllTransitive(w, u, v);
    }
  }

  // ---------------------------------------------------------------- the forest

  /** Whatever else a run changes, it never changes who is whose ancestor. */
  lemma {:induction false} UnderCarries(w: World, v: World, a: TaskId, d: TaskId)
    requires Linked(w) && Linked(v) && EvolvesAll(w, v) && d in w.tasks
    ensures Under(w, a, d) <==> Under(v, a, d)
    decreases w.tasks[d].link.born
  {
    assert LinkOk(w, d) && Evolves(w.tasks[d], v.tasks[d]);
    if a != d && w.tasks[d].link.parent.Some? {
      UnderCarries(w, v, a, w.tasks[d].link.parent.value);
    }
  }

  lemma {:induction false} ActiveAbove(w: World, a: TaskId, d: TaskId)
    requires TreeInv(w) && d in w.tasks && d in w.live && Under(w, a, d)
    ensures a in w.tasks && a in w.live && !Terminal(w.tasks[a].status)
    decreases w.tasks[d].link.born
  {
    assert BookOk(w, d) && LinkOk(w, d) && ShelterOk(w, d);
    if a != d {
      ActiveAbove(w, a, w.tasks[d].link.parent.value);
    }
  }

  /** Every ancestor of an active task is active, in every reachable world. */
  lemma NoActiveUnderTerminal(w: World, a: TaskId, d: TaskId)
    requires Reachable(w) && Linked(w) && d in w.tasks && !Terminal(w.tasks[d].status) && Under(w, a, d)
    ensures a in w.tasks && a in w.live && !Terminal(w.tasks[a].status)
  {
    ReachableInv(w);
    assert BookOk(w, d);
    ActiveAbove(w, a, d);
  }

  /** The registry of a reachable world is a forest: Under and Top are defined on all of it. */
  lemma ReachableIsForest(w: World)
    requires Reachable(w)
    ensures Linked(w) && Indexed(w) && Books(w)
  {
    ReachableInv(w);
  }

  /** A task leaves the active dict only without active children, and never gains any afterwards. */
  lemma FinishedStaysChildless(w: World, step: Step, u: World, id: TaskId, steps: seq<Step>, v: World)
    requires Reachable(w) && Linked(w) && Enabled(w, step) && u == Next(w, step)
    requires id in w.tasks && id in w.live && id !in u.live
    requires Runs(u, steps, v)
    ensures id in v.tasks && Terminal(v.tasks[id].status) && ActiveChildren(v, id) == {}
  {
    ReachableInv(w);
    StepKeepsInv(w, step);
    StepEvolves(w, step);
    RunEvolves(u, steps, v);
    assert BookOk(u, id) && BookOk(v, id) && Evolves(u.tasks[id], v.tasks[id]);
    LiveChildren(v, id);
    forall c | c in v.tasks ensures c !in ActiveChildren(v, id) {
      assert IndexOk(v, id, c) && ShelterOk(v, c);
    }
  }

  /** root_task_id names the parentless end of the chain, and a tree has one actor. */
  lemma {:induction false} RootIsTop(w: World, d: TaskId)
    requires Linked(w) && d in w.tasks
    ensures var r := w.tasks[d].link.root;
            && r == Top(w, d) && r in w.tasks && w.tasks[r].link.parent.None? && Under(w, r, d)
            && (r != d ==> SameActor(w.tasks[d].link.owner, w.tasks[r].link.owner))
    decreases w.tasks[d].link.born
  {
    assert LinkOk(w, d);
    if w.tasks[d].link.parent.Some? {
      RootIsTop(w, w.tasks[d].link.parent.value);
    }
  }

  /** Ancestry is a partial order in which the ancestors of a task form a chain. */
  lemma {:induction false} AncestorsFormAChain(w: World, a: TaskId, b: TaskId, d: TaskId)
    requires Linked(w) && d in w.tasks && Under(w, a, d) && Under(w, b, d)
    ensures a in w.tasks && b in w.tasks && (Under(w, a, b) || Under(w, b, a))
    decreases w.tasks[d].link.born
  {
    assert LinkOk(w, d);
    if a != d {
      UnderIsTask(w, a, w.tasks[d].link.parent.value);
    }
    if b != d {
      UnderIsTask(w, b, w.tasks[d].link.parent.value);
    }
    if a != d && b != d {
      AncestorsFormAChain(w, a, b, w.tasks[d].link.parent.value);
    }
  }

  lemma {:induction false} UnderIsTask(w: World, a: TaskId, d: TaskId)
    requires Linked(w) && d in w.tasks && Under(w, a, d)
    ensures a in w.tasks && (a != d ==> w.tasks[a].link.born < w.tasks[d].link.born)
    decreases w.tasks[d].link.born
  {
    assert LinkOk(w, d);
    if a != d {
      UnderIsTask(w, a, w.tasks[d].link.parent.value);
    }
  }

  // ---------------------------------------------------------------- cancellation closure

  /** Cancel-requested and closed; once terminal, cancelled. */
  ghost predicate Doomed(t: Task) {
    t.cancelRequested && !t.accepting && (Terminal(t.status) ==> t.status == Cancelled)
  }

  /** No member of the tree of `r` can take a child any more. */
  ghost predicate Sealed(w: World, r: TaskId)
    requires Linked(w)
  {
    forall d {:trigger Under(w, r, d)} :: d in w.tasks && Under(w, r, d) ==> d !in w.live || !w.tasks[d].accepting
  }

  /** cancel reaches exactly the active tree: r itself and its active descendants, nothing else. */
  lemma CancelReaches(w: World, r: TaskId, skip: bool, v: World)
    requires Inv(w) && r in w.tasks && v == Cancel(w, r, skip)
    ensures && Inv(v) && Sealed(v, r)
            && (forall d :: d in w.tasks && d in w.live && Under(w, r, d) ==> Doomed(v.tasks[d]))
            && (forall d :: d in w.tasks && d != r && d in w.live && Under(w, r, d) ==> !Open(v.tasks[d].deliveryState))
            && (forall d :: d in w.tasks && d != r && !(d in w.live && Under(w, r, d)) ==> v.tasks[d] == w.tasks[d])
  {
    CancelGentle(w, r, skip);
    GentleKeepsInv(w, v);
    CancelSeals(w, r, skip);
    forall d | d in w.tasks && d in w.live ensures !Terminal(w.tasks[d].status) { assert BookOk(w, d); }
  }

  lemma CancelSeals(w: World, r: TaskId, skip: bool)
    requires Inv(w) && r in w.tasks && Inv(Cancel(w, r, skip))
    ensures Sealed(Cancel(w, r, skip), r)
  {
    var v := Cancel(w, r, skip);
    CancelEvolves(w, r, skip);
    forall d | d in v.tasks && Under(v, r, d) ensures d !in v.live || !v.tasks[d].accepting {
      UnderCarries(w, v, r, d);
    }
  }

  /** Being doomed is for ever. */
  lemma DoomedStays(w: World, steps: seq<Step>, v: World, d: TaskId)
    requires Inv(w) && Runs(w, steps, v) && d in w.tasks && Doomed(w.tasks[d])
    ensures d in v.tasks && Doomed(v.tasks[d])
  {
    RunEvolves(w, steps, v);
    assert Evolves(w.tasks[d], v.tasks[d]);
  }

  /** One step brings no new member into a sealed tree. */
  lemma SealedStep(w: World, step: Step, r: TaskId, d: TaskId)
    requires Inv(w) && Enabled(w, step) && r in w.tasks && Sealed(w, r)
    requires var v := Next(w, step); Linked(v) && d in v.tasks && Under(v, r, d)
    ensures d in w.tasks && Under(w, r, d)
  {
    var v := Next(w, step);
    StepKeepsInv(w, step);
    StepEvolves(w, step);
    if d in w.tasks {
      UnderCarries(w, v, r, d);
    } else {
      NewTaskIsPut(w, step, d);
      PutRecords(w, step.sub);
      UnderCarries(w, v, r, step.sub.parent.value);
      assert false;
    }
  }

  lemma RecordsStay(w: World, step: Step)
    requires Inv(w) && Enabled(w, step) && !step.DoPut?
    ensures Next(w, step).tasks.Keys == w.tasks.Keys
  {
    match step {
      case DoOwnWorkEnds(id, outcome) => OwnClosedGentle(w, id, outcome);
      case DoCancel(id, skip) =>
      case DoResume(id) =>
      case DoAgentWaits(id) =>
      case DoPopNotices(id) =>
      case DoDieUnstarted(id) =>
      case DoEvict(ids) =>
      case _ => DeliveryStepOnly(w, step);
    }
  }

  /** Only put creates records. */
  lemma NewTaskIsPut(w: World, step: Step, d: TaskId)
    requires Inv(w) && Enabled(w, step) && d !in w.tasks && d in Next(w, step).tasks
    ensures step.DoPut? && step.sub.id == d
  {
    if step.DoPut? {
      PutRecords(w, step.sub);
    } else {
      RecordsStay(w, step);
    }
  }

  lemma {:induction false} SealedRun(w: World, steps: seq<Step>, v: World, r: TaskId, d: TaskId)
    requires Inv(w) && Runs(w, steps, v) && r in w.tasks && Sealed(w, r)
    requires Linked(v) && d in v.tasks && Under(v, r, d)
    ensures d in w.tasks && Under(w, r, d)
    decreases |steps|
  {
    if steps == [] {
    } else {
      var u := Next(w, steps[0]);
      StepKeepsInv(w, steps[0]);
      StepEvolves(w, steps[0]);
      forall e | e in u.tasks && Under(u, r, e) ensures e !in u.live || !u.tasks[e].accepting {
        SealedStep(w, steps[0], r, e);
        assert Evolves(w.tasks[e], u.tasks[e]);
      }
      SealedRun(u, steps[1..], v, r, d);
      SealedStep(w, steps[0], r, d);
    }
  }

  /**
   Cancellation closure.  From any reachable world, after cancel(r) and any further run: the tree
   of `r` has no new member, and each task of it that was active when cancel was called is
   cancel-requested, closed to children, and cancelled once it is terminal.
   */
  lemma CancellationClosure(w: World, r: TaskId, skip: bool, c: World, steps: seq<Step>, v: World)
    requires Reachable(w) && Linked(w) && Enabled(w, DoCancel(r, skip)) && c == Cancel(w, r, skip)
    requires Runs(c, steps, v)
    ensures Linked(v)
    ensures forall d :: d in v.tasks && Under(v, r, d) ==> d in w.tasks && Under(w, r, d)
    ensures forall d :: d in w.tasks && d in w.live && Under(w, r, d) ==> d in v.tasks && Doomed(v.tasks[d])
  {
    ReachableInv(w);
    CancelReaches(w, r, skip, c);
    CancelEvolves(w, r, skip);
    RunEvolves(c, steps, v);
    forall d | d in v.tasks && Under(v, r, d) ensures d in w.tasks && Under(w, r, d) {
      SealedRun(c, steps, v, r, d);
      UnderCarries(w, c, r, d);
    }
    forall d | d in w.tasks && d in w.live && Under(w, r, d) ensures d in v.tasks && Doomed(v.tasks[d]) {
      DoomedStays(c, steps, v, d);
    }
  }
}
