/** Delivery of finished root tasks: at most one wakeup each, over every run. */
module TaskDelivery {
  import opened Basics
  import opened TaskModel
  import opened TaskTree
  import opened TaskTheorems
  import opened TaskNotices

  ghost predicate FinishedRoot(w: World, id: TaskId) {
    id in w.tasks && w.tasks[id].link.parent.None? && Terminal(w.tasks[id].status)
  }

  /** Only finished roots wait for delivery. */
  ghost predicate WaitingOk(w: World) {
    && (forall id {:trigger id in w.tickets} :: id in w.tickets ==> FinishedRoot(w, id))
    && (forall conv, id {:trigger id in QueueOf(w, conv)} :: id in QueueOf(w, conv) ==> FinishedRoot(w, id))
  }

  /** No task was woken twice, and a task that was woken is a finished root whose delivery is closed. */
  ghost predicate SentOk(w: World) {
    && Distinct(w.wakeups)
    && forall id {:trigger id in w.wakeups} :: id in w.wakeups ==>
        FinishedRoot(w, id) && !Open(w.tasks[id].deliveryState)
  }

  /** A root counts as delivered only when its wakeup was sent. */
  ghost predicate DeliveredOk(w: World) {
    forall id {:trigger w.tasks[id]} ::
      id in w.tasks && w.tasks[id].link.parent.None? && w.tasks[id].deliveryState == Delivered ==> id in w.wakeups
  }

  ghost predicate MailInv(w: World) {
    WaitingOk(w) && SentOk(w) && DeliveredOk(w)
  }

  lemma FinishedRootStays(w: World, v: World, id: TaskId)
    requires EvolvesAll(w, v) && FinishedRoot(w, id)
    ensures FinishedRoot(v, id)
  {
  }

  /** A step that sends nothing keeps the mail invariant when its new tickets are finished roots. */
  lemma QuietKeepsMail(w: World, v: World)
    requires MailInv(w) && EvolvesAll(w, v) && v.wakeups == w.wakeups
    requires forall id :: id in v.tickets ==> id in w.tickets || FinishedRoot(v, id)
    requires forall conv, id :: id in QueueOf(v, conv) ==> id in QueueOf(w, conv) || FinishedRoot(v, id)
    requires forall id :: id in v.tasks && v.tasks[id].link.parent.None? && v.tasks[id].deliveryState == Delivered ==>
               id in w.tasks && w.tasks[id].deliveryState == Delivered
    ensures MailInv(v)
  {
  }

  /** Same mail: nothing sent, queued or ticketed, and no root became delivered. */
  ghost predicate SameMail(w: World, v: World) {
    && v.wakeups == w.wakeups && v.queues == w.queues && v.tickets == w.tickets
    && forall id {:trigger v.tasks[id]} ::
         id in v.tasks && v.tasks[id].link.parent.None? && v.tasks[id].deliveryState == Delivered ==>
         id in w.tasks && w.tasks[id].deliveryState == Delivered
  }

  lemma SameMailKeeps(w: World, v: World)
    requires MailInv(w) && EvolvesAll(w, v) && SameMail(w, v)
    ensures MailInv(v)
  {
    forall id | id in v.tasks && v.tasks[id].link.parent.None? && v.tasks[id].deliveryState == Delivered
      ensures id in w.tasks && w.tasks[id].deliveryState == Delivered
    {
    }
    QuietKeepsMail(w, v);
  }

  lemma FinishKeepsMail(w: World, id: TaskId, status: FinalStatus)
    requires Inv(w) && MailInv(w) && id in w.live && id in w.tasks
    requires w.tasks[id].cancelRequested ==> status == Cancelled
    ensures MailInv(Finish(w, id, status))
  {
    var v := Finish(w, id, status);
    FinishRecords(w, id, status);
    FinishEvolves(w, id, status);
    forall d | d in v.tasks && v.tasks[d].link.parent.None? && v.tasks[d].deliveryState == Delivered
      ensures w.tasks[d].deliveryState == Delivered
    {
      assert v.tasks[d] == v.tasks[d];
    }
    QuietKeepsMail(w, v);
  }

  lemma SettleKeepsMail(w: World, id: TaskId)
    requires Inv(w) && MailInv(w) && id in w.live && id in w.tasks
    ensures MailInv(Settle(w, id))
  {
    if ActiveChildren(w, id) == {} {
      FinishKeepsMail(w, id, if w.tasks[id].cancelRequested then Cancelled else w.tasks[id].outcome);
    } else {
      SettleEvolves(w, id);
      SameMailKeeps(w, Settle(w, id));
    }
  }

  lemma SendKeepsMail(w: World, id: TaskId)
    requires MailInv(w) && FinishedRoot(w, id) && Open(w.tasks[id].deliveryState)
    ensures MailInv(MoveDelivery(w, id, Delivered))
  {
    var v := MoveDelivery(w, id, Delivered);
    SetDeliveryMoves(w, id, Delivered);
    DeliveryOnlyEvolves(w, v);
    forall i | FinishedRoot(w, i) ensures FinishedRoot(v, i) { FinishedRootStays(w, v, i); }
    assert id !in w.wakeups;
    DistinctAppend(w.wakeups, id);
    forall i | i in v.wakeups ensures FinishedRoot(v, i) && !Open(v.tasks[i].deliveryState) {
      assert i in w.wakeups || i == id;
    }
    forall conv, i | i in QueueOf(v, conv) ensures FinishedRoot(v, i) { assert i in QueueOf(w, conv); }
  }

  /** Moving an open delivery of a finished root on: at most one wakeup is sent, and it is its first. */
  lemma MoveKeepsMail(w: World, id: TaskId, d: DeliveryState)
    requires MailInv(w) && FinishedRoot(w, id) && Open(w.tasks[id].deliveryState)
    requires d == Queued ==> w.tasks[id].link.owner.parts.Some?
    ensures MailInv(MoveDelivery(w, id, d))
  {
    if d == Delivered {
      SendKeepsMail(w, id);
    } else {
      var v := MoveDelivery(w, id, d);
      MoveDeliveryMoves(w, id, d);
      DeliveryOnlyEvolves(w, v);
      FinishedRootStays(w, v, id);
      QuietKeepsMail(w, v);
    }
  }

  lemma DrainOneKeepsMail(w: World, id: TaskId, fails: bool)
    requires MailInv(w) && FinishedRoot(w, id)
    ensures MailInv(DrainOne(w, id, fails)) && EvolvesAll(w, DrainOne(w, id, fails))
  {
    DrainOneIsDeliveryOnly(w, id, fails);
    DeliveryOnlyEvolves(w, DrainOne(w, id, fails));
    if DrainOne(w, id, fails) != w {
      MoveKeepsMail(w, id, DrainVerdict(w.tasks[id], fails));
    }
  }

  lemma {:induction false} DrainAllKeepsMail(w: World, ids: seq<TaskId>, failing: set<TaskId>)
    requires MailInv(w) && forall id :: id in ids ==> FinishedRoot(w, id)
    ensures MailInv(DrainAll(w, ids, failing))
    decreases |ids|
  {
    if ids == [] {
    } else {
      var u := DrainOne(w, ids[0], ids[0] in failing);
      DrainOneKeepsMail(w, ids[0], ids[0] in failing);
      forall id | id in ids[1..] ensures FinishedRoot(u, id) { FinishedRootStays(w, u, id); }
      DrainAllKeepsMail(u, ids[1..], failing);
    }
  }

  lemma {:induction false} AgentsOfAreQueued(w: World, ids: seq<TaskId>)
    ensures forall id :: id in AgentsOf(w, ids) ==> id in ids
  {
    if ids == [] {
    } else {
      AgentsOfAreQueued(w, ids[1..]);
    }
  }

  lemma SkipKeepsMail(w: World, conv: string, ids: seq<TaskId>, kept: seq<TaskId>)
    requires MailInv(w) && forall id :: id in kept ==> id in QueueOf(w, conv)
    ensures MailInv(SkipConversation(w.(queues := w.queues[conv := kept]), conv, ids))
  {
    var u := w.(queues := w.queues[conv := kept]);
    var v := SkipConversation(u, conv, ids);
    SkipConversationIsDeliveryOnly(u, conv, ids);
    DeliveryOnlyEvolves(u, v);
    assert EvolvesAll(w, v);
    forall c, id | id in QueueOf(v, c) ensures id in QueueOf(w, c) { }
    QuietKeepsMail(w, v);
  }

  lemma RunDeliveryKeepsMail(w: World, id: TaskId, present: bool, suppressed: bool, running: bool)
    requires MailInv(w) && id in w.tickets
    ensures MailInv(RunDelivery(w, id, present, suppressed, running))
  {
    var u := w.(tickets := w.tickets - {id});
    QuietKeepsMail(w, u);
    assert FinishedRoot(u, id);
    if w.tasks[id].deliveryState == Pending {
      MoveKeepsMail(u, id, RunVerdict(w.tasks[id], present, suppressed, running));
    }
  }

  lemma DrainKeepsMail(w: World, conv: string, failing: set<TaskId>)
    requires MailInv(w)
    ensures MailInv(Drain(w, conv, failing))
  {
    var u := w.(queues := w.queues[conv := []]);
    QuietKeepsMail(w, u);
    forall id | id in QueueOf(w, conv) ensures FinishedRoot(u, id) { FinishedRootStays(w, u, id); }
    DrainAllKeepsMail(u, QueueOf(w, conv), failing);
  }

  /** A busy conversation puts a task it was already woken for back into the queue. */
  lemma RequeueKeepsMail(w: World, id: TaskId, conv: string)
    requires Linked(w) && MailInv(w) && id in w.wakeups
    ensures MailInv(Next(w, DoRequeue(id, conv)))
  {
    assert FinishedRoot(w, id) && !Open(w.tasks[id].deliveryState);
    var v := Next(w, DoRequeue(id, conv));
    assert v == Enqueue(w, conv, id);
    FinishedRootStays(w, v, id);
    QuietKeepsMail(w, v);
  }

  lemma DeliveryStepKeepsMail(w: World, step: Step)
    requires Inv(w) && MailInv(w) && Enabled(w, step) && IsDeliveryStep(step)
    ensures MailInv(Next(w, step))
  {
    match step {
      case DoRunDelivery(id, present, suppressed, running) => RunDeliveryKeepsMail(w, id, present, suppressed, running);
      case DoDrain(conv, failing) => DrainKeepsMail(w, conv, failing);
      case DoSuppress(conv) =>
        AgentsOfAreQueued(w, QueueOf(w, conv));
        SkipKeepsMail(w, conv, QueueOf(w, conv), AgentsOf(w, QueueOf(w, conv)));
      case DoClose(conv) => SkipKeepsMail(w, conv, QueueOf(w, conv), []);
      case DoRequeue(id, conv) => RequeueKeepsMail(w, id, conv);
      case DoRelease(id, deliver) => StateStepKeepsMail(w, step);
      case DoSkipFinished(id) => StateStepKeepsMail(w, step);
    }
  }

  lemma StateStepKeepsMail(w: World, step: Step)
    requires Inv(w) && MailInv(w) && Enabled(w, step) && (step.DoRelease? || step.DoSkipFinished?)
    ensures MailInv(Next(w, step))
  {
    DeliveryStepOnly(w, step);
    DeliveryOnlyEvolves(w, Next(w, step));
    SameMailKeeps(w, Next(w, step));
  }

  lemma OwnClosedKeepsMail(w: World, id: TaskId, outcome: FinalStatus)
    requires Inv(w) && MailInv(w) && id in w.tasks && id in w.live
    ensures Inv(OwnClosed(w, id, outcome)) && MailInv(OwnClosed(w, id, outcome))
  {
    OwnClosedGentle(w, id, outcome);
    GentleKeepsInv(w, OwnClosed(w, id, outcome));
    OwnClosedEvolves(w, id, outcome);
    SameMailKeeps(w, OwnClosed(w, id, outcome));
  }

  lemma PutKeepsMail(w: World, sub: Submission)
    requires Inv(w) && MailInv(w) && Admissible(w, sub)
    ensures MailInv(Put(w, sub))
  {
    PutRecords(w, sub);
    PutEvolves(w, sub);
    SameMailKeeps(w, Put(w, sub));
  }

  lemma ResumeKeepsMail(w: World, id: TaskId)
    requires Inv(w) && MailInv(w) && id in w.tasks && id in w.live
    ensures MailInv(Resume(w, id))
  {
    var u := w.(tasks := w.tasks[id := w.tasks[id].(suspended := false)]);
    GentleKeepsInv(w, u);
    SameMailKeeps(w, u);
    SettleKeepsMail(u, id);
  }

  lemma CancelKeepsMail(w: World, id: TaskId, skip: bool)
    requires Inv(w) && MailInv(w) && Enabled(w, DoCancel(id, skip))
    ensures MailInv(Cancel(w, id, skip))
  {
    CancelEvolves(w, id, skip);
    SameMailKeeps(w, Cancel(w, id, skip));
  }

  lemma OwnWorkKeepsMail(w: World, id: TaskId, outcome: FinalStatus)
    requires Inv(w) && MailInv(w) && Enabled(w, DoOwnWorkEnds(id, outcome))
    ensures MailInv(OwnWorkEnds(w, id, outcome))
  {
    OwnClosedKeepsMail(w, id, outcome);
    OwnClosedGentle(w, id, outcome);
    SettleKeepsMail(OwnClosed(w, id, outcome), id);
  }

  lemma WaitKeepsMail(w: World, id: TaskId)
    requires Inv(w) && MailInv(w) && Enabled(w, DoAgentWaits(id))
    ensures MailInv(AgentWaits(w, id))
  {
    StepEvolves(w, DoAgentWaits(id));
    SameMailKeeps(w, AgentWaits(w, id));
  }

  lemma PopKeepsMail(w: World, id: TaskId)
    requires Inv(w) && MailInv(w) && Enabled(w, DoPopNotices(id))
    ensures MailInv(PopNotices(w, id))
  {
    StepEvolves(w, DoPopNotices(id));
    SameMailKeeps(w, PopNotices(w, id));
  }

  lemma StepKeepsMail(w: World, step: Step)
    requires Inv(w) && MailInv(w) && Enabled(w, step)
    ensures MailInv(Next(w, step))
  {
    match step {
      case DoPut(sub) => PutKeepsMail(w, sub);
      case DoCancel(id, skip) => CancelKeepsMail(w, id, skip);
      case DoOwnWorkEnds(id, outcome) => OwnWorkKeepsMail(w, id, outcome);
      case DoResume(id) => ResumeKeepsMail(w, id);
      case DoAgentWaits(id) => WaitKeepsMail(w, id);
      case DoPopNotices(id) => PopKeepsMail(w, id);
      case DoDieUnstarted(id) => FinishKeepsMail(w, id, Cancelled);
      case DoEvict(ids) => SameMailKeeps(w, Next(w, step));
      case _ => DeliveryStepKeepsMail(w, step);
    }
  }

  lemma {:induction false} RunKeepsMail(w: World, steps: seq<Step>, v: World)
    requires Inv(w) && MailInv(w) && Runs(w, steps, v)
    ensures MailInv(v)
    decreases |steps|
  {
    if steps == [] {
    } else {
      StepKeepsInv(w, steps[0]);
      StepKeepsMail(w, steps[0]);
      RunKeepsMail(Next(w, steps[0]), steps[1..], v);
    }
  }

  /**
   Delivery at most once.  In every reachable world each task has at most one wakeup; one that has
   it is a finished root, and a root is delivered only if it has it.
   */
  lemma DeliveredAtMostOnce(w: World, id: TaskId)
    requires Reachable(w)
    ensures multiset(w.wakeups)[id] <= 1
    ensures id in w.wakeups ==> FinishedRoot(w, id) && !Open(w.tasks[id].deliveryState)
    ensures id in w.tasks && w.tasks[id].link.parent.None? && w.tasks[id].deliveryState == Delivered ==> id in w.wakeups
  {
    var steps :| Runs(Empty, steps, w);
    RunKeepsMail(Empty, steps, w);
    DistinctCount(w.wakeups, id);
  }

  /** Once delivered or skipped, a delivery is never held, pending or queued again. */
  lemma ClosedStaysClosed(w: World, steps: seq<Step>, v: World, id: TaskId)
    requires Reachable(w) && Runs(w, steps, v) && id in w.tasks && !Open(w.tasks[id].deliveryState)
    ensures id in v.tasks && !Open(v.tasks[id].deliveryState)
  {
    ReachableInv(w);
    RunEvolves(w, steps, v);
    assert Evolves(w.tasks[id], v.tasks[id]);
  }
}
