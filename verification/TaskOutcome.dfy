/** How a task is admitted, how a subagent waits, and how a task ends: its status and its delivery. */
module TaskOutcome {
  import opened Basics
  import opened TaskModel
  import opened TaskTree
  import opened TaskTheorems
  import opened TaskNotices

  // ---------------------------------------------------------------- admission and waiting

  ghost predicate ActiveParent(w: World, parent: Option<TaskId>) {
    parent.Some? && parent.value in w.live && parent.value in w.tasks && !Terminal(w.tasks[parent.value].status)
  }

  /** Which record put admits and which of the errors it raises otherwise. */
  lemma AdmissionExact(w: World, parent: Option<TaskId>, owner: Owner)
    ensures Admission(w, parent, owner).None? <==>
              parent.None? ||
              (&& ActiveParent(w, parent) && w.tasks[parent.value].accepting
               && w.tasks[parent.value].link.owner.parts.Some? && owner.parts.Some?
               && owner.parts.value.actor == w.tasks[parent.value].link.owner.parts.value.actor)
    ensures Admission(w, parent, owner) == Some(ParentNotActive) <==> parent.Some? && !ActiveParent(w, parent)
    ensures Admission(w, parent, owner) == Some(ParentNotAccepting) <==>
              ActiveParent(w, parent) && !w.tasks[parent.value].accepting
    ensures Admission(w, parent, owner) == Some(MalformedOwner) <==>
              && ActiveParent(w, parent) && w.tasks[parent.value].accepting
              && (w.tasks[parent.value].link.owner.parts.None? || owner.parts.None?)
  {
  }

  /** A record that is admitted starts running, takes children, has nothing to report, and holds its delivery or not. */
  lemma PutExact(w: World, sub: Submission)
    requires Linked(w) && Enabled(w, DoPut(sub))
    ensures var v := Next(w, DoPut(sub));
            && v.tasks.Keys == w.tasks.Keys + {sub.id} && v.live == w.live + {sub.id} && v.stored == w.stored
            && v.tickets == w.tickets && v.queues == w.queues && v.wakeups == w.wakeups
            && var t := v.tasks[sub.id];
               && t.status.Running? && t.accepting && !t.ownFinished && !t.cancelRequested && !t.treeChanged
               && !t.suspended && t.notices == [] && t.consumed == []
               && t.deliveryState == (if sub.held then Held else Pending)
               && t.link.parent == sub.parent && t.link.owner == sub.owner && t.link.agent == sub.agent
               && t.link.delivery == sub.delivery
               && t.link.root == (if sub.parent.Some? then w.tasks[sub.parent.value].link.root else sub.id)
    ensures var v := Next(w, DoPut(sub));
            forall d {:trigger v.tasks[d]} :: d in w.tasks ==>
              v.tasks[d] == if sub.parent == Some(d) then w.tasks[d].(treeChanged := true) else w.tasks[d]
  {
    PutRecords(w, sub);
  }

  /** A subagent that waits sleeps on the cleared event; one that goes on has taken every notice there was. */
  lemma AgentExact(w: World, id: TaskId)
    requires Linked(w) && id in w.tasks
    ensures Enabled(w, DoAgentWaits(id)) ==>
              Next(w, DoAgentWaits(id)) ==
                w.(tasks := w.tasks[id := w.tasks[id].(status := WaitingChildren, suspended := true,
                                                       treeChanged := false)])
    ensures Enabled(w, DoPopNotices(id)) ==>
              Next(w, DoPopNotices(id)) ==
                w.(tasks := w.tasks[id := w.tasks[id].(status := Running, suspended := false, notices := [],
                                                       consumed := w.tasks[id].consumed + w.tasks[id].notices)])
  {
  }

  // ---------------------------------------------------------------- cancellation

  /** What a cancellation leaves of a record: its tree is closed, its wait for children is woken. */
  ghost predicate CancelledTo(t: Task, u: Task, skip: bool) {
    var open := t.deliveryState.Held? || t.deliveryState.Pending? || t.deliveryState.Queued?;
    u == t.(accepting := false, cancelRequested := true,
            deliveryState := if skip && open then Skipped else t.deliveryState,
            treeChanged := t.treeChanged || (t.ownFinished && !Terminal(t.status)))
  }

  /** Record by record: the one cancelled, its active descendants, whose deliveries are dropped, and no other. */
  lemma CancelExact(w: World, r: TaskId, skip: bool)
    requires Linked(w) && Enabled(w, DoCancel(r, skip))
    ensures var v := Next(w, DoCancel(r, skip));
            v == w.(tasks := v.tasks) && v.tasks.Keys == w.tasks.Keys && CancelledTo(w.tasks[r], v.tasks[r], skip)
    ensures forall d {:trigger Next(w, DoCancel(r, skip)).tasks[d]} :: d in w.tasks && d != r ==>
              var u := Next(w, DoCancel(r, skip)).tasks[d];
              if d in w.live && Under(w, r, d) then CancelledTo(w.tasks[d], u, true) else u == w.tasks[d]
  {
  }

  /**
   The end of a coroutine: after a failure or a cancellation the record takes no children any more and every
   active descendant is cancelled; after a success neither the record nor any descendant is touched so.
   */
  lemma FailureCancels(w: World, id: TaskId, outcome: FinalStatus, d: TaskId)
    requires Inv(w) && Enabled(w, DoOwnWorkEnds(id, outcome)) && d in w.tasks && Under(w, id, d)
    ensures var v := Next(w, DoOwnWorkEnds(id, outcome));
            && id in v.tasks && d in v.tasks
            && v.tasks[id].accepting == (w.tasks[id].accepting && outcome.Done?)
            && (d != id ==>
                  if !outcome.Done? && d in w.live then CancelledTo(w.tasks[d], v.tasks[d], true)
                  else v.tasks[d] == w.tasks[d])
  {
    var u := OwnClosed(w, id, outcome);
    OwnClosedGentle(w, id, outcome);
    GentleKeepsInv(w, u);
    ShapeKeepsChildren(w, u, id);
    SettleBelow(u, id, d);
    if d != id {
      NotItsParent(w, id, d);
    }
  }

  /** Settling touches no record but its own and its parent. */
  lemma SettleBelow(w: World, id: TaskId, d: TaskId)
    requires Inv(w) && id in w.tasks && id in w.live && d in w.tasks
    ensures id in Settle(w, id).tasks && Settle(w, id).tasks[id].accepting == w.tasks[id].accepting
    ensures d in Settle(w, id).tasks
    ensures d != id && w.tasks[id].link.parent != Some(d) ==> Settle(w, id).tasks[d] == w.tasks[d]
  {
    if ActiveChildren(w, id) == {} {
      FinishRecords(w, id, if w.tasks[id].cancelRequested then Cancelled else w.tasks[id].outcome);
    }
  }

  /** With an active child left, a record whose own work is over sleeps on the cleared event. */
  lemma WaitsExact(w: World, id: TaskId, step: Step)
    requires Inv(w) && Enabled(w, step) && id in w.tasks && ActiveChildren(w, id) != {}
    requires step == DoResume(id) || (step.DoOwnWorkEnds? && step.id == id)
    ensures var v := Next(w, step);
            && id in v.tasks && id in v.live && v.tickets == w.tickets && v.wakeups == w.wakeups
            && v.tasks[id].status.WaitingChildren? && v.tasks[id].suspended && !v.tasks[id].treeChanged
            && v.tasks[id].ownFinished && v.tasks[id].notices == w.tasks[id].notices
  {
    if step.DoOwnWorkEnds? {
      var u := OwnClosed(w, id, step.outcome);
      OwnClosedGentle(w, id, step.outcome);
      SettleWaits(w, u, id);
    } else {
      SettleWaits(w, w.(tasks := w.tasks[id := w.tasks[id].(suspended := false)]), id);
    }
  }

  lemma SettleWaits(w: World, u: World, id: TaskId)
    requires Inv(w) && GentleStep(w, u) && id in w.tasks && ActiveChildren(w, id) != {}
    ensures var v, t := Settle(u, id), u.tasks[id];
            v == u.(tasks := u.tasks[id := t.(status := WaitingChildren, treeChanged := false, suspended := true)])
  {
    GentleKeepsInv(w, u);
    ShapeKeepsChildren(w, u, id);
  }

  lemma NotItsParent(w: World, id: TaskId, d: TaskId)
    requires Linked(w) && id in w.tasks && d in w.tasks && Under(w, id, d)
    ensures w.tasks[id].link.parent != Some(d)
  {
    assert LinkOk(w, id);
    UnderIsElder(w, id, d);
  }

  // ---------------------------------------------------------------- the terminal status

  /** From one step to the next a record whose own work is over keeps how it ended, and ends accordingly. */
  ghost predicate Fated(t: Task, u: Task) {
    t.ownFinished ==>
      && u.ownFinished && u.outcome == t.outcome
      && (!Terminal(t.status) && Terminal(u.status) ==> u.status == if u.cancelRequested then Cancelled else t.outcome)
  }

  ghost predicate FatedAll(w: World, v: World) {
    && w.tasks.Keys <= v.tasks.Keys
    && forall id {:trigger v.tasks[id]} :: id in w.tasks ==> Fated(w.tasks[id], v.tasks[id])
  }

  lemma SettleFated(w: World, id: TaskId)
    requires Inv(w) && id in w.live && id in w.tasks
    ensures FatedAll(w, Settle(w, id))
    ensures Terminal(Settle(w, id).tasks[id].status) <==> ActiveChildren(w, id) == {}
    ensures Settle(w, id).tasks[id].cancelRequested == w.tasks[id].cancelRequested
    ensures Settle(w, id).tasks[id].ownFinished == w.tasks[id].ownFinished
    ensures Settle(w, id).tasks[id].outcome == w.tasks[id].outcome
    ensures ActiveChildren(w, id) == {} ==>
              Settle(w, id).tasks[id].status == if w.tasks[id].cancelRequested then Cancelled else w.tasks[id].outcome
  {
    assert BookOk(w, id);
    if ActiveChildren(w, id) == {} {
      FinishRecords(w, id, if w.tasks[id].cancelRequested then Cancelled else w.tasks[id].outcome);
    }
  }

  lemma FatedStill(w: World, u: World, v: World)
    requires FatedAll(u, v) && w.tasks.Keys <= u.tasks.Keys
    requires forall id {:trigger u.tasks[id]} :: id in w.tasks ==>
               (w.tasks[id].ownFinished ==> u.tasks[id].ownFinished && u.tasks[id].outcome == w.tasks[id].outcome)
               && u.tasks[id].status == w.tasks[id].status
    ensures FatedAll(w, v)
  {
    forall id | id in w.tasks
      ensures Fated(w.tasks[id], v.tasks[id])
    {
      assert u.tasks[id] == u.tasks[id];
      assert v.tasks[id] == v.tasks[id];
    }
  }

  /** A coroutine ends with `outcome`: the record is terminal then exactly when no child is active. */
  lemma OwnWorkFated(w: World, id: TaskId, outcome: FinalStatus)
    requires Inv(w) && id in w.tasks && id in w.live && !w.tasks[id].ownFinished
    ensures var v := Next(w, DoOwnWorkEnds(id, outcome));
            && FatedAll(w, v) && id in v.tasks && v.tasks[id].ownFinished && v.tasks[id].outcome == outcome
            && v.tasks[id].cancelRequested == w.tasks[id].cancelRequested
            && (Terminal(v.tasks[id].status) <==> ActiveChildren(w, id) == {})
            && (Terminal(v.tasks[id].status) ==>
                  v.tasks[id].status == if w.tasks[id].cancelRequested then Cancelled else outcome)
  {
    var u := OwnClosed(w, id, outcome);
    OwnClosedGentle(w, id, outcome);
    GentleKeepsInv(w, u);
    ShapeKeepsChildren(w, u, id);
    SettleFated(u, id);
    FatedStill(w, u, Settle(u, id));
  }

  lemma ResumeFated(w: World, id: TaskId)
    requires Inv(w) && id in w.tasks && id in w.live
    ensures FatedAll(w, Resume(w, id))
  {
    var u := w.(tasks := w.tasks[id := w.tasks[id].(suspended := false)]);
    GentleKeepsInv(w, u);
    SettleFated(u, id);
    FatedStill(w, u, Settle(u, id));
  }

  lemma DieFated(w: World, id: TaskId)
    requires Inv(w) && id in w.tasks && id in w.live && !w.tasks[id].ownFinished
    ensures FatedAll(w, Finish(w, id, Cancelled))
  {
    FinishRecords(w, id, Cancelled);
  }

  lemma PutFated(w: World, sub: Submission)
    requires Admissible(w, sub)
    ensures FatedAll(w, Put(w, sub))
  {
    PutRecords(w, sub);
  }

  lemma StepFated(w: World, step: Step)
    requires Inv(w) && Enabled(w, step)
    ensures FatedAll(w, Next(w, step))
  {
    match step {
      case DoPut(sub) => PutFated(w, sub);
      case DoCancel(id, skip) =>
      case DoOwnWorkEnds(id, outcome) => OwnWorkFated(w, id, outcome);
      case DoResume(id) => ResumeFated(w, id);
      case DoAgentWaits(id) =>
      case DoPopNotices(id) =>
      case DoDieUnstarted(id) => DieFated(w, id);
      case DoEvict(ids) =>
      case _ =>
        DeliveryStepOnly(w, step);
    }
  }

  /** The record's coroutine ended with `outcome`, and a terminal status it has is that or "cancelled". */
  ghost predicate EndedWith(w: World, id: TaskId, outcome: FinalStatus) {
    && id in w.tasks && w.tasks[id].ownFinished && w.tasks[id].outcome == outcome
    && (Terminal(w.tasks[id].status) ==>
          w.tasks[id].status == outcome || (w.tasks[id].status == Cancelled && w.tasks[id].cancelRequested))
    && (Terminal(w.tasks[id].status) && !w.tasks[id].cancelRequested ==> w.tasks[id].status == outcome)
  }

  lemma StepEndedWith(w: World, step: Step, id: TaskId, outcome: FinalStatus)
    requires Inv(w) && Enabled(w, step) && EndedWith(w, id, outcome)
    ensures EndedWith(Next(w, step), id, outcome)
  {
    StepFated(w, step);
    StepEvolves(w, step);
    var v := Next(w, step);
    assert Fated(w.tasks[id], v.tasks[id]) && Evolves(w.tasks[id], v.tasks[id]);
  }

  lemma {:induction false} RunEndedWith(w: World, steps: seq<Step>, v: World, id: TaskId, outcome: FinalStatus)
    requires Inv(w) && Runs(w, steps, v) && EndedWith(w, id, outcome)
    ensures Inv(v) && EndedWith(v, id, outcome)
    decreases |steps|
  {
    if steps != [] {
      StepKeepsInv(w, steps[0]);
      StepEndedWith(w, steps[0], id, outcome);
      RunEndedWith(Next(w, steps[0]), steps[1..], v, id, outcome);
    }
  }

  /**
   In every run from a reachable state that begins with the end of a record's coroutine, returned, failed or
   cancelled: a terminal status is what the coroutine ended with, unless a cancellation was requested, and
   then possibly "cancelled".
   */
  lemma TerminalStatus(w: World, id: TaskId, outcome: FinalStatus, steps: seq<Step>, v: World)
    requires Reachable(w) && Linked(w) && Enabled(w, DoOwnWorkEnds(id, outcome))
    requires Runs(Next(w, DoOwnWorkEnds(id, outcome)), steps, v)
    ensures id in v.tasks && v.tasks[id].ownFinished
    ensures Terminal(v.tasks[id].status) ==>
              v.tasks[id].status == outcome || (v.tasks[id].status == Cancelled && v.tasks[id].cancelRequested)
    ensures Terminal(v.tasks[id].status) && !v.tasks[id].cancelRequested ==> v.tasks[id].status == outcome
  {
    ReachableInv(w);
    OwnWorkFated(w, id, outcome);
    StepKeepsInv(w, DoOwnWorkEnds(id, outcome));
    RunEndedWith(Next(w, DoOwnWorkEnds(id, outcome)), steps, v, id, outcome);
  }

  /**
   Which of the two is decided when the record becomes terminal: "cancelled" exactly when a cancellation is
   requested by then or the coroutine was cancelled.  The end of the coroutine itself makes it terminal
   exactly when no child is active.
   */
  lemma DecidedAtTheEnd(w: World, id: TaskId, outcome: FinalStatus, steps: seq<Step>, u: World, last: Step)
    requires Reachable(w) && Linked(w) && Enabled(w, DoOwnWorkEnds(id, outcome))
    requires Runs(Next(w, DoOwnWorkEnds(id, outcome)), steps, u) && Linked(u) && Enabled(u, last)
    ensures var first := Next(w, DoOwnWorkEnds(id, outcome));
            && id in first.tasks
            && (Terminal(first.tasks[id].status) <==> ActiveChildren(w, id) == {})
            && (Terminal(first.tasks[id].status) ==>
                  first.tasks[id].status == if w.tasks[id].cancelRequested then Cancelled else outcome)
    ensures var v := Next(u, last);
            && id in u.tasks && id in v.tasks
            && (!Terminal(u.tasks[id].status) && Terminal(v.tasks[id].status) ==>
                  v.tasks[id].status == if v.tasks[id].cancelRequested then Cancelled else outcome)
            && (Terminal(u.tasks[id].status) ==> v.tasks[id].status == u.tasks[id].status)
  {
    ReachableInv(w);
    OwnWorkFated(w, id, outcome);
    StepKeepsInv(w, DoOwnWorkEnds(id, outcome));
    RunEndedWith(Next(w, DoOwnWorkEnds(id, outcome)), steps, u, id, outcome);
    StepFated(u, last);
    StepEvolves(u, last);
    assert Fated(u.tasks[id], Next(u, last).tasks[id]) && Evolves(u.tasks[id], Next(u, last).tasks[id]);
  }

  /** A cancellation after the end is noted and changes no status: the record is done and cancel-requested. */
  lemma LateCancel(p: Submission) returns (w: World)
    requires p.parent == None
    ensures Reachable(w) && p.id in w.tasks && w.tasks[p.id].status == Done && w.tasks[p.id].cancelRequested
  {
    var u := FirstTask(p);
    NoChildren(u, p.id);
    OwnWorkFated(u, p.id, Done);
    ReachableStep(u, DoOwnWorkEnds(p.id, Done));
    var v := Next(u, DoOwnWorkEnds(p.id, Done));
    assert BookOk(v, p.id);
    ReachableStep(v, DoCancel(p.id, false));
    w := Next(v, DoCancel(p.id, false));
  }

  lemma NoChildren(w: World, p: TaskId)
    requires Inv(w) && w.tasks.Keys == {p}
    ensures ActiveChildren(w, p) == {}
  {
    LiveChildren(w, p);
    forall c
      ensures c !in ActiveChildren(w, p)
    {
      assert IndexOk(w, p, c) && LinkOk(w, p);
    }
  }

  // ---------------------------------------------------------------- the delivery it ends with

  /** Told to a parent that accepts children, else dropped; a root keeps its own and gets a delivery coroutine. */
  ghost predicate HandedOn(w: World, v: World, id: TaskId)
    requires id in w.tasks && id in v.tasks
  {
    var before, after := w.tasks[id].deliveryState, v.tasks[id].deliveryState;
    match w.tasks[id].link.parent
    case None => after == before && v.tickets == w.tickets + {id}
    case Some(p) =>
      && p in w.tasks && p in v.tasks && v.tickets == w.tickets
      && after == (if w.tasks[p].accepting then Delivered
                   else if before.Delivered? || before.Skipped? then before else Skipped)
      && v.tasks[p].notices == w.tasks[p].notices + if w.tasks[p].accepting then [id] else []
  }

  lemma FinishHandsOn(w: World, id: TaskId, status: FinalStatus)
    requires Inv(w) && id in w.live && id in w.tasks
    ensures id in Finish(w, id, status).tasks && HandedOn(w, Finish(w, id, status), id)
    ensures forall d {:trigger Finish(w, id, status).tasks[d]} :: d in w.tasks && d != id ==>
              Finish(w, id, status).tasks[d].status == w.tasks[d].status
  {
    FinishRecords(w, id, status);
    assert LinkOk(w, id);
  }

  /** Only these steps end a record, and only the one they are about. */
  predicate MayEnd(step: Step, id: TaskId) {
    (step.DoOwnWorkEnds? || step.DoResume? || step.DoDieUnstarted?) && step.id == id
  }

  lemma SettleHandsOn(w: World, id: TaskId)
    requires Inv(w) && id in w.live && id in w.tasks
    ensures id in Settle(w, id).tasks
    ensures Terminal(Settle(w, id).tasks[id].status) ==> HandedOn(w, Settle(w, id), id)
    ensures forall d {:trigger Settle(w, id).tasks[d]} :: d in w.tasks && d != id ==>
              d in Settle(w, id).tasks && Settle(w, id).tasks[d].status == w.tasks[d].status
  {
    if ActiveChildren(w, id) == {} {
      FinishHandsOn(w, id, if w.tasks[id].cancelRequested then Cancelled else w.tasks[id].outcome);
      FinishRecords(w, id, if w.tasks[id].cancelRequested then Cancelled else w.tasks[id].outcome);
    }
  }

  lemma {:induction false} UnderIsElder(w: World, a: TaskId, d: TaskId)
    requires Linked(w) && d in w.tasks && a in w.tasks && Under(w, a, d)
    ensures w.tasks[a].link.born <= w.tasks[d].link.born
    decreases w.tasks[d].link.born
  {
    assert LinkOk(w, d);
    if a != d {
      UnderIsElder(w, a, w.tasks[d].link.parent.value);
    }
  }

  /** No record is above its own parent. */
  lemma UnderItself(w: World, d: TaskId, p: TaskId)
    requires Linked(w) && d in w.tasks && p in w.tasks && w.tasks[d].link.parent == Some(p)
    ensures !Under(w, d, p)
  {
    assert LinkOk(w, d);
    if Under(w, d, p) {
      UnderIsElder(w, d, p);
    }
  }

  /** Closing the record's subtree leaves its own delivery and its parent alone. */
  lemma OwnClosedLeaves(w: World, d: TaskId, outcome: FinalStatus)
    requires Inv(w) && d in w.tasks
    ensures var u := OwnClosed(w, d, outcome);
            && d in u.tasks && u.tickets == w.tickets
            && u.tasks[d].link == w.tasks[d].link && u.tasks[d].deliveryState == w.tasks[d].deliveryState
            && (w.tasks[d].link.parent.Some? ==>
                  var p := w.tasks[d].link.parent.value;
                  p in w.tasks && p in u.tasks && u.tasks[p] == w.tasks[p])
  {
    assert LinkOk(w, d);
    if w.tasks[d].link.parent.Some? {
      UnderItself(w, d, w.tasks[d].link.parent.value);
    }
  }

  lemma SameHandedOn(w: World, u: World, v: World, d: TaskId)
    requires d in w.tasks && d in u.tasks && d in v.tasks && HandedOn(u, v, d) && u.tickets == w.tickets
    requires u.tasks[d].link == w.tasks[d].link && u.tasks[d].deliveryState == w.tasks[d].deliveryState
    requires w.tasks[d].link.parent.Some? ==>
               var p := w.tasks[d].link.parent.value; p in w.tasks && p in u.tasks && u.tasks[p] == w.tasks[p]
    ensures HandedOn(w, v, d)
  {
  }

  lemma OwnWorkHandsOn(w: World, d: TaskId, outcome: FinalStatus, id: TaskId)
    requires Inv(w) && Enabled(w, DoOwnWorkEnds(d, outcome)) && id in w.tasks && !Terminal(w.tasks[id].status)
    ensures var v := Next(w, DoOwnWorkEnds(d, outcome));
            id in v.tasks && (Terminal(v.tasks[id].status) ==> id == d && HandedOn(w, v, id))
  {
    var u := OwnClosed(w, d, outcome);
    OwnClosedGentle(w, d, outcome);
    GentleKeepsInv(w, u);
    SettleHandsOn(u, d);
    assert Gentle(w.tasks[id], u.tasks[id]);
    OwnClosedLeaves(w, d, outcome);
    var v := Settle(u, d);
    if id == d && Terminal(v.tasks[d].status) {
      SameHandedOn(w, u, v, d);
    }
  }

  lemma ResumeHandsOn(w: World, d: TaskId, id: TaskId)
    requires Inv(w) && Enabled(w, DoResume(d)) && id in w.tasks && !Terminal(w.tasks[id].status)
    ensures var v := Next(w, DoResume(d));
            id in v.tasks && (Terminal(v.tasks[id].status) ==> id == d && HandedOn(w, v, id))
  {
    var u := w.(tasks := w.tasks[d := w.tasks[d].(suspended := false)]);
    GentleKeepsInv(w, u);
    SettleHandsOn(u, d);
    assert LinkOk(w, id) && LinkOk(w, d);
  }

  /**
   In every reachable state the step that ends a record hands its delivery on: to a parent that accepts
   children as a notice, and it then counts as delivered; under any other parent an open delivery is dropped;
   and a root keeps it and gets a delivery coroutine.
   */
  lemma EndHandsOn(w: World, step: Step, id: TaskId)
    requires Reachable(w) && Linked(w) && Enabled(w, step) && id in w.tasks
    requires !Terminal(w.tasks[id].status)
    ensures id in Next(w, step).tasks
    ensures Terminal(Next(w, step).tasks[id].status) ==> MayEnd(step, id) && HandedOn(w, Next(w, step), id)
  {
    ReachableInv(w);
    match step {
      case DoPut(sub) => PutRecords(w, sub);
      case DoCancel(d, skip) =>
      case DoOwnWorkEnds(d, outcome) => OwnWorkHandsOn(w, d, outcome, id);
      case DoResume(d) => ResumeHandsOn(w, d, id);
      case DoAgentWaits(d) =>
      case DoPopNotices(d) =>
      case DoDieUnstarted(d) => FinishHandsOn(w, d, Cancelled);
      case DoEvict(ids) =>
      case _ => DeliveryStepOnly(w, step);
    }
  }
}
