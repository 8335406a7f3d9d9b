/** Child notices and wakeups of waiting parents, for every step of the task tree. */
module TaskNotices {
  import opened Basics
  import opened TaskModel
  import opened TaskTree
  import opened TaskTheorems

  /** The children of `p` that reach their terminal state between `w` and `v`. */
  ghost function Gone(w: World, v: World, p: TaskId): set<TaskId> {
    set c | c in w.live && c !in v.live && c in w.tasks && w.tasks[c].link.parent == Some(p)
  }

  /** Every notice is one child finishing under an accepting parent, and the other way round. */
  ghost predicate ExactNotices(w: World, v: World, p: TaskId)
    requires p in w.tasks && p in v.tasks
  {
    if w.tasks[p].accepting && p in w.live
    then multiset(Notices(v.tasks[p])) == multiset(Notices(w.tasks[p])) + multiset(Gone(w, v, p))
    else Notices(v.tasks[p]) == Notices(w.tasks[p])
  }

  lemma FinishNotices(w: World, id: TaskId, status: FinalStatus, p: TaskId)
    requires Inv(w) && id in w.tasks && id in w.live && p in w.tasks
    ensures p in Finish(w, id, status).tasks && ExactNotices(w, Finish(w, id, status), p)
  {
    var v := Finish(w, id, status);
    FinishRecords(w, id, status);
    assert v.tasks[p] == v.tasks[p];
    if w.tasks[id].link.parent == Some(p) {
      assert Gone(w, v, p) == {id};
      assert Reports(w, id) ==> Notices(v.tasks[p]) == Notices(w.tasks[p]) + [id];
    } else {
      assert Gone(w, v, p) == {};
    }
  }

  lemma SettleNotices(w: World, id: TaskId, p: TaskId)
    requires Inv(w) && id in w.tasks && id in w.live && p in w.tasks
    ensures p in Settle(w, id).tasks && ExactNotices(w, Settle(w, id), p)
  {
    if ActiveChildren(w, id) == {} {
      FinishNotices(w, id, if w.tasks[id].cancelRequested then Cancelled else w.tasks[id].outcome, p);
    } else {
      assert Gone(w, Settle(w, id), p) == {};
    }
  }

  /** The end of own work does not touch the parent's flags before the wait for children. */
  lemma ParentUntouched(w: World, id: TaskId, outcome: FinalStatus, p: TaskId)
    requires Inv(w) && id in w.tasks && w.tasks[id].link.parent == Some(p)
    ensures p in w.tasks && p != id && OwnClosed(w, id, outcome).tasks[p] == w.tasks[p]
  {
    assert LinkOk(w, id);
    if Under(w, id, p) {
      UnderIsTask(w, id, p);
    }
  }

  lemma OwnWorkEndsNotices(w: World, id: TaskId, outcome: FinalStatus, p: TaskId)
    requires Inv(w) && id in w.tasks && id in w.live && p in w.tasks
    ensures p in OwnWorkEnds(w, id, outcome).tasks && ExactNotices(w, OwnWorkEnds(w, id, outcome), p)
  {
    var u := OwnClosed(w, id, outcome);
    OwnClosedGentle(w, id, outcome);
    GentleKeepsInv(w, u);
    assert Gentle(w.tasks[p], u.tasks[p]);
    SettleNotices(u, id, p);
    var v := Settle(u, id);
    GentleGone(w, u, v, p);
    if w.tasks[id].link.parent == Some(p) {
      ParentUntouched(w, id, outcome, p);
    } else {
      LiveAfterSettle(u, id);
      assert Gone(w, v, p) == {};
      assert multiset(Notices(v.tasks[p])) == multiset(Notices(u.tasks[p]));
      NoNoticeWithoutChild(u, id, p);
    }
  }

  lemma GentleGone(w: World, u: World, v: World, p: TaskId)
    requires GentleStep(w, u)
    ensures Gone(u, v, p) == Gone(w, v, p)
  {
  }

  lemma LiveAfterSettle(w: World, id: TaskId)
    requires id in w.tasks
    ensures Settle(w, id).live == w.live || Settle(w, id).live == w.live - {id}
  {
  }

  lemma NoNoticeWithoutChild(w: World, id: TaskId, p: TaskId)
    requires Inv(w) && id in w.tasks && id in w.live && p in w.tasks && w.tasks[id].link.parent != Some(p)
    ensures p in Settle(w, id).tasks && Notices(Settle(w, id).tasks[p]) == Notices(w.tasks[p])
  {
  }

  lemma ResumeNotices(w: World, id: TaskId, p: TaskId)
    requires Inv(w) && id in w.tasks && id in w.live && p in w.tasks
    ensures p in Resume(w, id).tasks && ExactNotices(w, Resume(w, id), p)
  {
    var u := w.(tasks := w.tasks[id := w.tasks[id].(suspended := false)]);
    GentleKeepsInv(w, u);
    SettleNotices(u, id, p);
    assert Gone(u, Settle(u, id), p) == Gone(w, Settle(u, id), p);
  }

  /** Each step queues with `p` exactly one notice for each child that finishes while `p` accepts children. */
  lemma NoticesAreExact(w: World, step: Step, p: TaskId)
    requires Inv(w) && Enabled(w, step) && p in w.tasks
    ensures p in Next(w, step).tasks && ExactNotices(w, Next(w, step), p)
  {
    var v := Next(w, step);
    match step {
      case DoPut(sub) =>
        PutRecords(w, sub);
        assert Gone(w, v, p) == {} && v.tasks[p] == v.tasks[p];
      case DoOwnWorkEnds(id, outcome) => OwnWorkEndsNotices(w, id, outcome, p);
      case DoResume(id) => ResumeNotices(w, id, p);
      case DoDieUnstarted(id) => FinishNotices(w, id, Cancelled, p);
      case DoCancel(id, skip) =>
        CancelGentle(w, id, skip);
        assert Gone(w, v, p) == {} && Gentle(w.tasks[p], v.tasks[p]);
      case DoPopNotices(id) =>
        assert Gone(w, v, p) == {} && Notices(v.tasks[p]) == Notices(w.tasks[p]);
      case DoAgentWaits(id) => assert Gone(w, v, p) == {};
      case DoEvict(ids) => assert Gone(w, v, p) == {};
      case _ =>
        DeliveryStepOnly(w, step);
        assert Gone(w, v, p) == {} && DeliveryMove(w.tasks[p], v.tasks[p]);
    }
  }

  /** In a reachable world a finished child has at most one notice with its parent, ever. */
  lemma AtMostOneNotice(w: World, p: TaskId, c: TaskId)
    requires Reachable(w) && p in w.tasks
    ensures multiset(Notices(w.tasks[p]))[c] <= 1
    ensures c in Notices(w.tasks[p]) ==>
              c in w.tasks && Terminal(w.tasks[c].status) && w.tasks[c].link.parent == Some(p)
  {
    ReachableInv(w);
    assert NoticesOk(w, p);
    DistinctCount(Notices(w.tasks[p]), c);
    if c in w.tasks { assert BookOk(w, c); }
  }

  lemma {:induction false} DistinctCount<T>(s: seq<T>, x: T)
    requires Distinct(s)
    ensures multiset(s)[x] <= 1
  {
    if s != [] {
      assert s == Front(s) + [Last(s)];
      DistinctCount(Front(s), x);
    }
  }

  // ---------------------------------------------------------------- wakeups

  /** A parent that still takes children and sleeps on a cleared event has an active child to wake it. */
  lemma SleepingParentHasChild(w: World, p: TaskId)
    requires Reachable(w) && p in w.tasks
    requires w.tasks[p].suspended && !w.tasks[p].treeChanged && w.tasks[p].accepting
    ensures exists c :: c in w.tasks && c in w.live && w.tasks[c].link.parent == Some(p)
  {
    ReachableInv(w);
    assert Waits(w, p);
    LiveChildren(w, p);
    var c :| c in ActiveChildren(w, p);
    assert IndexOk(w, p, c);
  }

  /** Finished its own work, asleep on a cleared event, with no child left that could wake it. */
  ghost predicate Stranded(w: World, p: TaskId) {
    && p in w.tasks && p in w.live
    && w.tasks[p].suspended && w.tasks[p].ownFinished && !w.tasks[p].treeChanged
    && ActiveChildren(w, p) == {}
  }

  /**
   When the last active child of a sleeping parent finishes, the parent is stranded exactly when
   it no longer accepts children: the terminal transition only signals accepting parents.
   */
  lemma LastChildStrands(w: World, c: TaskId, status: FinalStatus, p: TaskId)
    requires Inv(w) && c in w.tasks && c in w.live && w.tasks[c].link.parent == Some(p)
    requires p in w.tasks && w.tasks[p].suspended && w.tasks[p].ownFinished && !w.tasks[p].treeChanged
    requires ActiveChildren(w, p) == {c} && ActiveChildren(w, c) == {}
    ensures Stranded(Finish(w, c, status), p) <==> !w.tasks[p].accepting
  {
    var v := Finish(w, c, status);
    FinishRecords(w, c, status);
    FinishKeepsInv(w, c, status);
    LiveChildren(w, p);
    LiveChildren(v, p);
    assert v.tasks[p] == v.tasks[p];
    assert ActiveChildren(v, p) == {};
  }

  /** The parent's own work fails: it sleeps on the cleared event, and its child is as it was but marked. */
  lemma ParentFails(w: World, p: TaskId, c: TaskId)
    requires Inv(w) && p in w.tasks && c in w.tasks && w.tasks[c].link.parent == Some(p)
    requires !w.tasks[p].ownFinished && !w.tasks[c].ownFinished
    requires c in w.live && ActiveChildren(w, p) == {c} && ActiveChildren(w, c) == {}
    ensures Enabled(w, DoOwnWorkEnds(p, Failed))
    ensures var u := Next(w, DoOwnWorkEnds(p, Failed));
            && Inv(u) && p in u.tasks && c in u.tasks && u.tasks[c].link.parent == Some(p)
            && u.tasks[p].suspended && u.tasks[p].ownFinished && !u.tasks[p].treeChanged && !u.tasks[p].accepting
            && !u.tasks[c].ownFinished && c in u.live && ActiveChildren(u, p) == {c} && ActiveChildren(u, c) == {}
  {
    assert ShelterOk(w, c);
    var first := DoOwnWorkEnds(p, Failed);
    var a := OwnClosed(w, p, Failed);
    OwnClosedGentle(w, p, Failed);
    GentleKeepsInv(w, a);
    ShapeKeepsChildren(w, a, p);
    var u := Next(w, first);
    StepKeepsInv(w, first);
    ShapeKeepsChildren(w, a, c);
    SuspendKeepsInv(a, p);
    ShapeKeepsChildren(a, u, p);
    ShapeKeepsChildren(a, u, c);
    assert LinkOk(w, c) && Gentle(w.tasks[c], a.tasks[c]);
    assert a.tasks[c].ownFinished == w.tasks[c].ownFinished;
  }

  /** The child's own work ends under a parent that sleeps and refuses children. */
  lemma ChildEnds(u: World, p: TaskId, c: TaskId)
    requires Inv(u) && p in u.tasks && c in u.tasks && u.tasks[c].link.parent == Some(p)
    requires u.tasks[p].suspended && u.tasks[p].ownFinished && !u.tasks[p].treeChanged && !u.tasks[p].accepting
    requires !u.tasks[c].ownFinished && c in u.live && ActiveChildren(u, p) == {c} && ActiveChildren(u, c) == {}
    ensures Enabled(u, DoOwnWorkEnds(c, Cancelled))
    ensures Inv(Next(u, DoOwnWorkEnds(c, Cancelled))) && Stranded(Next(u, DoOwnWorkEnds(c, Cancelled)), p)
  {
    var second := DoOwnWorkEnds(c, Cancelled);
    var b := OwnClosed(u, c, Cancelled);
    OwnClosedGentle(u, c, Cancelled);
    GentleKeepsInv(u, b);
    ParentUntouched(u, c, Cancelled, p);
    ShapeKeepsChildren(u, b, p);
    ShapeKeepsChildren(u, b, c);
    assert Gentle(u.tasks[c], b.tasks[c]);
    LastChildStrands(b, c, Cancelled, p);
    StepKeepsInv(u, second);
  }

  /** A task whose own work fails while one child is still active ends up stranded when that child stops. */
  lemma FailedParentIsStranded(w: World, p: TaskId, c: TaskId)
    requires Inv(w) && p in w.tasks && c in w.tasks && w.tasks[c].link.parent == Some(p)
    requires !w.tasks[p].ownFinished && !w.tasks[c].ownFinished
    requires c in w.live && ActiveChildren(w, p) == {c} && ActiveChildren(w, c) == {}
    ensures exists v :: Runs(w, [DoOwnWorkEnds(p, Failed), DoOwnWorkEnds(c, Cancelled)], v) && Inv(v) && Stranded(v, p)
  {
    var first, second := DoOwnWorkEnds(p, Failed), DoOwnWorkEnds(c, Cancelled);
    ParentFails(w, p, c);
    var u := Next(w, first);
    ChildEnds(u, p, c);
    RunOfTwo(w, first, second);
    assert Runs(w, [first, second], Next(u, second));
  }

  lemma RunOfTwo(w: World, first: Step, second: Step)
    requires Linked(w) && Enabled(w, first) && Linked(Next(w, first)) && Enabled(Next(w, first), second)
    ensures Runs(w, [first, second], Next(Next(w, first), second))
  {
  }

  lemma FirstStays<T>(first: seq<T>, second: seq<T>)
    requires first != []
    ensures first + second != [] && (first + second)[0] == first[0] && (first + second)[1..] == first[1..] + second
  {
  }

  lemma {:induction false} RunsConcat(w: World, first: seq<Step>, u: World, second: seq<Step>, v: World)
    requires Runs(w, first, u) && Runs(u, second, v)
    ensures Runs(w, first + second, v)
    decreases |first|
  {
    if first == [] {
      assert first + second == second;
    } else {
      RunsConcat(Next(w, first[0]), first[1..], u, second, v);
      FirstStays(first, second);
    }
  }

  lemma ReachableRuns(w: World, steps: seq<Step>, v: World)
    requires Reachable(w) && Runs(w, steps, v)
    ensures Reachable(v)
  {
    var before :| Runs(Empty, before, w);
    RunsConcat(Empty, before, w, steps, v);
  }

  lemma ReachableStep(w: World, step: Step)
    requires Reachable(w) && Linked(w) && Enabled(w, step)
    ensures Reachable(Next(w, step)) && Inv(Next(w, step))
  {
    assert [step][1..] == [];
    assert Runs(Next(w, step), [], Next(w, step));
    ReachableRuns(w, [step], Next(w, step));
    ReachableInv(Next(w, step));
  }

  lemma FirstTask(p: Submission) returns (w: World)
    requires p.parent == None
    ensures Reachable(w) && Inv(w) && w == Put(Empty, p) && p.id in w.tasks && p.id in w.live
    ensures w.tasks.Keys == {p.id} && w.tasks[p.id] == NewTask(Empty, p)
  {
    assert Runs(Empty, [], Empty);
    ReachableInv(Empty);
    w := Next(Empty, DoPut(p));
    ReachableStep(Empty, DoPut(p));
    PutRecords(Empty, p);
  }

  /** A parent and its child, as two callers put them. */
  lemma ParentAndChild(p: Submission, c: Submission) returns (w: World)
    requires p.id != c.id && p.parent == None && c.parent == Some(p.id) && SameActor(c.owner, p.owner)
    ensures Reachable(w) && Inv(w)
    ensures p.id in w.tasks && c.id in w.tasks && w.tasks[c.id].link.parent == Some(p.id) && c.id in w.live
    ensures !w.tasks[p.id].ownFinished && !w.tasks[c.id].ownFinished && w.tasks.Keys == {p.id, c.id}
  {
    var u := FirstTask(p);
    assert Admissible(u, c);
    w := Put(u, c);
    ReachableStep(u, DoPut(c));
    PutRecords(u, c);
  }

  lemma OnlyChild(w: World, p: TaskId, c: TaskId)
    requires Inv(w) && w.tasks.Keys == {p, c} && p != c && c in w.live && w.tasks[c].link.parent == Some(p)
    ensures ActiveChildren(w, p) == {c} && ActiveChildren(w, c) == {}
  {
    LiveChildren(w, p);
    LiveChildren(w, c);
    assert LinkOk(w, c) && LinkOk(w, p);
    forall d ensures (d in Kids(w, p) <==> d == c) && d !in Kids(w, c) {
      assert IndexOk(w, p, d) && IndexOk(w, c, d);
    }
  }

  /** It happens: the parent's own work fails, its child is cancelled with it and ends, and nobody wakes the parent. */
  lemma StrandingHappens(p: Submission, c: Submission) returns (w: World)
    requires p.id != c.id && p.parent == None && c.parent == Some(p.id) && SameActor(c.owner, p.owner)
    ensures Reachable(w) && Stranded(w, p.id)
  {
    var u := ParentAndChild(p, c);
    OnlyChild(u, p.id, c.id);
    w := StrandedFrom(u, p.id, c.id);
  }

  lemma StrandedFrom(w: World, p: TaskId, c: TaskId) returns (v: World)
    requires Reachable(w) && Inv(w) && p in w.tasks && c in w.tasks && w.tasks[c].link.parent == Some(p)
    requires !w.tasks[p].ownFinished && !w.tasks[c].ownFinished
    requires c in w.live && ActiveChildren(w, p) == {c} && ActiveChildren(w, c) == {}
    ensures Reachable(v) && Stranded(v, p)
  {
    FailedParentIsStranded(w, p, c);
    var steps := [DoOwnWorkEnds(p, Failed), DoOwnWorkEnds(c, Cancelled)];
    v :| Runs(w, steps, v) && Inv(v) && Stranded(v, p);
    ReachableRuns(w, steps, v);
  }

  /** A cancellation that covers the task: of it or an ancestor, or with the failure of an ancestor. */
  ghost predicate CancelledBy(w: World, step: Step, p: TaskId)
    requires Linked(w) && Enabled(w, step) && p in w.tasks
  {
    || (step.DoCancel? && Under(w, step.id, p))
    || (step.DoOwnWorkEnds? && step.outcome != Done && Under(w, step.id, p))
  }

  /** A task that refuses children and has none that is active gets none. */
  lemma StaysChildless(w: World, step: Step, p: TaskId)
    requires Inv(w) && Enabled(w, step) && p in w.tasks && !w.tasks[p].accepting && ActiveChildren(w, p) == {}
    ensures Inv(Next(w, step)) && ActiveChildren(Next(w, step), p) == {}
  {
    var v := Next(w, step);
    StepKeepsInv(w, step);
    LiveChildren(w, p);
    LiveChildren(v, p);
    forall c | c in v.live && c in v.tasks ensures c !in Kids(v, p) {
      assert IndexOk(v, p, c) && IndexOk(w, p, c);
      StepEvolves(w, step);
      if c in w.tasks {
        assert Evolves(w.tasks[c], v.tasks[c]);
        assert c !in ActiveChildren(w, p);
      } else {
        NewTaskIsPut(w, step, c);
        PutRecords(w, step.sub);
        assert step.sub.parent != Some(p);
      }
    }
    assert ActiveChildren(v, p) == {};
  }

  /** Only a cancellation that covers it can wake a stranded task. */
  lemma StrandedStays(w: World, step: Step, p: TaskId)
    requires Inv(w) && Enabled(w, step) && Stranded(w, p) && !w.tasks[p].accepting && !CancelledBy(w, step, p)
    ensures Stranded(Next(w, step), p)
  {
    StrandedRecord(w, step, p);
    StaysChildless(w, step, p);
  }

  lemma CancelledRecord(w: World, step: Step, p: TaskId)
    requires Inv(w) && Enabled(w, step) && Stranded(w, p) && !w.tasks[p].accepting && CancelledBy(w, step, p)
    ensures var v := Next(w, step);
            && p in v.tasks && p in v.live && v.tasks[p].suspended && v.tasks[p].ownFinished
            && v.tasks[p].treeChanged && v.tasks[p].cancelRequested
  {
    assert BookOk(w, p);
    if step.DoOwnWorkEnds? {
      var u := OwnClosed(w, step.id, step.outcome);
      OwnClosedGentle(w, step.id, step.outcome);
      GentleKeepsInv(w, u);
      SettleLeavesStranded(u, step.id, p);
    }
  }

  lemma ResumeFinishes(w: World, p: TaskId)
    requires p in w.tasks && p in w.live && ActiveChildren(w, p) == {} && w.tasks[p].cancelRequested
    ensures p in Resume(w, p).tasks && Resume(w, p).tasks[p].status == Cancelled && p !in Resume(w, p).live
  {
    var u := w.(tasks := w.tasks[p := w.tasks[p].(suspended := false)]);
    forall c | c in Kids(u, p)
      ensures c !in ActiveChildren(u, p)
    {
      assert c !in ActiveChildren(w, p);
    }
    assert ActiveChildren(u, p) == {};
  }

  /** Such a cancellation does: it sets the event, and the wait then ends with the task cancelled. */
  lemma StrandedWakes(w: World, step: Step, p: TaskId)
    requires Inv(w) && Enabled(w, step) && Stranded(w, p) && !w.tasks[p].accepting && CancelledBy(w, step, p)
    ensures var v := Next(w, step);
            && !Stranded(v, p) && Linked(v) && Enabled(v, DoResume(p))
            && p in Next(v, DoResume(p)).tasks && Next(v, DoResume(p)).tasks[p].status == Cancelled
            && p !in Next(v, DoResume(p)).live
  {
    CancelledRecord(w, step, p);
    StaysChildless(w, step, p);
    ResumeFinishes(Next(w, step), p);
  }

  /** The record of a stranded task is left as it is. */
  lemma StrandedRecord(w: World, step: Step, p: TaskId)
    requires Inv(w) && Enabled(w, step) && Stranded(w, p) && !w.tasks[p].accepting && !CancelledBy(w, step, p)
    ensures var v := Next(w, step);
            p in v.tasks && p in v.live && v.tasks[p] == w.tasks[p].(deliveryState := v.tasks[p].deliveryState)
  {
    match step {
      case DoPut(sub) => PutRecords(w, sub);
      case DoCancel(id, skip) =>
      case DoOwnWorkEnds(id, outcome) => OwnEndLeaves(w, id, outcome, p);
      case DoResume(id) => ResumeLeaves(w, id, p);
      case DoAgentWaits(id) =>
      case DoPopNotices(id) =>
      case DoDieUnstarted(id) => FinishRecords(w, id, Cancelled);
      case DoEvict(ids) =>
      case _ =>
        DeliveryStepOnly(w, step);
        assert DeliveryMove(w.tasks[p], Next(w, step).tasks[p]);
    }
  }

  lemma OwnEndLeaves(w: World, id: TaskId, outcome: FinalStatus, p: TaskId)
    requires Inv(w) && Enabled(w, DoOwnWorkEnds(id, outcome)) && Stranded(w, p) && !w.tasks[p].accepting
    requires outcome == Done || !Under(w, id, p)
    ensures var v := OwnWorkEnds(w, id, outcome); p in v.tasks && p in v.live && v.tasks[p] == w.tasks[p]
  {
    var u := OwnClosed(w, id, outcome);
    OwnClosedGentle(w, id, outcome);
    GentleKeepsInv(w, u);
    SettleLeavesStranded(u, id, p);
  }

  lemma ResumeLeaves(w: World, id: TaskId, p: TaskId)
    requires Inv(w) && Enabled(w, DoResume(id)) && Stranded(w, p) && !w.tasks[p].accepting
    ensures var v := Resume(w, id); p in v.tasks && p in v.live && v.tasks[p] == w.tasks[p]
  {
    var u := w.(tasks := w.tasks[id := w.tasks[id].(suspended := false)]);
    GentleKeepsInv(w, u);
    SettleLeavesStranded(u, id, p);
  }

  lemma SettleLeavesStranded(w: World, id: TaskId, p: TaskId)
    requires Inv(w) && id in w.tasks && id in w.live && p in w.tasks && p in w.live && p != id
    requires !w.tasks[p].accepting
    ensures var v := Settle(w, id); p in v.tasks && p in v.live && v.tasks[p] == w.tasks[p]
  {
  }
}
