/** What every run of the task tree keeps: the forest, its active part, and wakeups of waiting parents. */
module TaskTree {
  import opened Basics
  import opened TaskModel

  // ---------------------------------------------------------------- invariants

  /** The registry's dicts agree with the records. */
  ghost predicate Books(w: World) {
    && w.live <= w.tasks.Keys
    && w.stored <= w.tasks.Keys
    && w.live !! w.stored
    && (forall id {:trigger BookOk(w, id)} :: id in w.tasks ==> BookOk(w, id))
  }

  ghost predicate BookOk(w: World, id: TaskId)
    requires id in w.tasks
  {
    && (id in w.live <==> !Terminal(w.tasks[id].status))
    && w.tasks[id].link.born < |w.tasks|
  }

  /** The child sets and the parent fields say the same thing. */
  ghost predicate Indexed(w: World) {
    forall p, c {:trigger IndexOk(w, p, c)} :: IndexOk(w, p, c)
  }

  ghost predicate IndexOk(w: World, p: TaskId, c: TaskId) {
    c in Kids(w, p) <==> c in w.tasks && w.tasks[c].link.parent == Some(p)
  }

  /** The parent of an active task is active. */
  ghost predicate Sheltered(w: World) {
    forall id {:trigger ShelterOk(w, id)} :: id in w.tasks ==> ShelterOk(w, id)
  }

  ghost predicate ShelterOk(w: World, id: TaskId)
    requires id in w.tasks
  {
    id in w.live && w.tasks[id].link.parent.Some? ==> w.tasks[id].link.parent.value in w.live
  }

  ghost predicate TreeInv(w: World) {
    Linked(w) && Books(w) && Indexed(w) && Sheltered(w)
  }

  /** A suspended task that can still be woken by a child has one, or its event is already set. */
  ghost predicate Waits(w: World, id: TaskId)
    requires id in w.tasks
  {
    var t := w.tasks[id];
    && (t.suspended ==> id in w.live)
    && (t.suspended && !t.treeChanged && t.accepting ==> ActiveChildren(w, id) != {})
  }

  ghost predicate NoLostWakeup(w: World) {
    forall id {:trigger Waits(w, id)} :: id in w.tasks ==> Waits(w, id)
  }

  function Notices(t: Task): seq<TaskId> {
    t.consumed + t.notices
  }

  /** The notices a task ever received come from distinct finished children of it. */
  ghost predicate NoticesOk(w: World, id: TaskId)
    requires id in w.tasks
  {
    && Distinct(Notices(w.tasks[id]))
    && forall c :: c in Notices(w.tasks[id]) ==> c in w.tasks && c !in w.live && w.tasks[c].link.parent == Some(id)
  }

  ghost predicate NoticeInv(w: World) {
    forall id {:trigger NoticesOk(w, id)} :: id in w.tasks ==> NoticesOk(w, id)
  }

  ghost predicate Inv(w: World) {
    TreeInv(w) && NoLostWakeup(w) && NoticeInv(w)
  }

  // ---------------------------------------------------------------- frames

  /** Neither the links of a record nor whether it is terminal changed. */
  ghost predicate SameLink(t: Task, u: Task) {
    u.link == t.link && (Terminal(u.status) <==> Terminal(t.status))
  }

  ghost predicate SameShape(w: World, v: World) {
    && v.tasks.Keys == w.tasks.Keys && v.live == w.live && v.stored <= w.stored && v.children == w.children
    && forall id {:trigger v.tasks[id]} :: id in w.tasks ==> SameLink(w.tasks[id], v.tasks[id])
  }

  /** A change that wakes, closes or leaves a record, and logs no new notice. */
  ghost predicate Gentle(t: Task, u: Task) {
    && SameLink(t, u)
    && Notices(u) == Notices(t)
    && (u.suspended ==> t.suspended)
    && (u.suspended && !u.treeChanged && u.accepting ==> !t.treeChanged && t.accepting)
  }

  ghost predicate GentleStep(w: World, v: World) {
    && v.tasks.Keys == w.tasks.Keys && v.live == w.live && v.stored <= w.stored && v.children == w.children
    && forall id {:trigger v.tasks[id]} :: id in w.tasks ==> Gentle(w.tasks[id], v.tasks[id])
  }

  lemma ShapeKeepsBooks(w: World, v: World)
    requires TreeInv(w) && SameShape(w, v)
    ensures Linked(v) && Books(v)
  {
    forall id | id in v.tasks ensures LinkOk(v, id) {
      assert LinkOk(w, id) && SameLink(w.tasks[id], v.tasks[id]);
      if w.tasks[id].link.parent.Some? {
        var p := w.tasks[id].link.parent.value;
        assert SameLink(w.tasks[p], v.tasks[p]);
      }
    }
    assert |v.tasks.Keys| == |v.tasks| && |w.tasks.Keys| == |w.tasks|;
    forall id | id in v.tasks ensures BookOk(v, id) {
      assert BookOk(w, id) && SameLink(w.tasks[id], v.tasks[id]);
    }
  }

  lemma ShapeKeepsTree(w: World, v: World)
    requires TreeInv(w) && SameShape(w, v)
    ensures TreeInv(v)
  {
    ShapeKeepsBooks(w, v);
    forall p, c ensures IndexOk(v, p, c) {
      assert IndexOk(w, p, c);
    }
    forall id | id in v.tasks ensures ShelterOk(v, id) {
      assert ShelterOk(w, id) && SameLink(w.tasks[id], v.tasks[id]);
    }
  }

  /** In a consistent registry the active children are the children that are live. */
  lemma LiveChildren(w: World, id: TaskId)
    requires Books(w) && Indexed(w)
    ensures ActiveChildren(w, id) == set c | c in Kids(w, id) && c in w.live
  {
    forall c | c in Kids(w, id)
      ensures c in ActiveChildren(w, id) <==> c in w.live
    {
      assert IndexOk(w, id, c) && BookOk(w, c);
    }
  }

  lemma ShapeKeepsChildren(w: World, v: World, id: TaskId)
    requires TreeInv(w) && TreeInv(v) && SameShape(w, v)
    ensures ActiveChildren(v, id) == ActiveChildren(w, id)
  {
    LiveChildren(w, id);
    LiveChildren(v, id);
  }

  lemma GentleKeepsInv(w: World, v: World)
    requires Inv(w) && GentleStep(w, v)
    ensures Inv(v) && SameShape(w, v)
  {
    forall id | id in w.tasks ensures SameLink(w.tasks[id], v.tasks[id]) {
      assert Gentle(w.tasks[id], v.tasks[id]);
    }
    ShapeKeepsTree(w, v);
    forall id | id in v.tasks ensures Waits(v, id) && NoticesOk(v, id) {
      assert Waits(w, id) && NoticesOk(w, id) && Gentle(w.tasks[id], v.tasks[id]);
      ShapeKeepsChildren(w, v, id);
      forall c | c in Notices(v.tasks[id]) ensures v.tasks[c].link.parent == Some(id) {
        assert SameLink(w.tasks[c], v.tasks[c]);
      }
    }
  }

  // ---------------------------------------------------------------- put

  /** Records keep their links; new ones may appear. */
  ghost predicate KeepsLinks(w: World, v: World) {
    && w.tasks.Keys <= v.tasks.Keys
    && forall id {:trigger v.tasks[id]} :: id in w.tasks ==> v.tasks[id].link == w.tasks[id].link
  }

  lemma LinksCarry(w: World, v: World, id: TaskId)
    requires Linked(w) && KeepsLinks(w, v) && id in w.tasks
    ensures LinkOk(v, id)
  {
    assert LinkOk(w, id);
    assert v.tasks[id].link == w.tasks[id].link;
    if w.tasks[id].link.parent.Some? {
      assert v.tasks[w.tasks[id].link.parent.value].link == w.tasks[w.tasks[id].link.parent.value].link;
    }
  }

  /** What Put does to each record and each child set. */
  lemma PutRecords(w: World, sub: Submission)
    requires Admissible(w, sub)
    ensures var v := Put(w, sub);
            && v.tasks.Keys == w.tasks.Keys + {sub.id} && v.live == w.live + {sub.id} && v.stored == w.stored
            && v.tasks[sub.id] == NewTask(w, sub)
            && (forall d {:trigger v.tasks[d]} :: d in w.tasks ==>
                 v.tasks[d] == if sub.parent == Some(d) then w.tasks[d].(treeChanged := true) else w.tasks[d])
            && (forall p {:trigger Kids(v, p)} ::
                 Kids(v, p) == if sub.parent == Some(p) then Kids(w, p) + {sub.id} else Kids(w, p))
  {
    PutTasksRecords(w, sub.id, sub.parent, NewTask(w, sub));
  }

  lemma PutTasksRecords(w: World, id: TaskId, parent: Option<TaskId>, task: Task)
    requires id !in w.tasks && (parent.Some? ==> parent.value in w.tasks)
    ensures var m := PutTasks(w, id, parent, task);
            && m.Keys == w.tasks.Keys + {id}
            && m[id] == task
            && forall d {:trigger m[d]} :: d in w.tasks ==>
                 m[d] == if parent == Some(d) then w.tasks[d].(treeChanged := true) else w.tasks[d]
  {
  }

  lemma PutKeepsLinks(w: World, sub: Submission)
    requires Admissible(w, sub)
    ensures KeepsLinks(w, Put(w, sub))
  {
  }

  lemma PutLinks(w: World, sub: Submission)
    requires Books(w) && Linked(w) && Admissible(w, sub)
    ensures Linked(Put(w, sub))
  {
    var v := Put(w, sub);
    PutRecords(w, sub);
    PutKeepsLinks(w, sub);
    forall d | d in v.tasks ensures LinkOk(v, d) {
      if d != sub.id {
        LinksCarry(w, v, d);
      } else if sub.parent.Some? {
        assert BookOk(w, sub.parent.value) && v.tasks[sub.parent.value].link.root ==
            w.tasks[sub.parent.value].link.root;
      }
    }
  }

  lemma PutOldBook(w: World, sub: Submission, d: TaskId)
    requires Books(w) && Admissible(w, sub) && d in w.tasks && ShelterOk(w, d)
    ensures d in Put(w, sub).tasks && BookOk(Put(w, sub), d) && ShelterOk(Put(w, sub), d)
  {
    PutRecords(w, sub);
    assert BookOk(w, d) && Put(w, sub).tasks[d].link == w.tasks[d].link;
    PutSize(w, sub);
  }

  lemma PutNewBook(w: World, sub: Submission)
    requires Books(w) && Admissible(w, sub)
    ensures sub.id in Put(w, sub).tasks && BookOk(Put(w, sub), sub.id) && ShelterOk(Put(w, sub), sub.id)
  {
    PutRecords(w, sub);
    PutSize(w, sub);
  }

  lemma PutSize(w: World, sub: Submission)
    requires Admissible(w, sub)
    ensures |Put(w, sub).tasks| == |w.tasks| + 1
  {
    var v := Put(w, sub);
    PutRecords(w, sub);
    assert |v.tasks| == |v.tasks.Keys| == |w.tasks.Keys| + 1;
  }

  lemma PutBooks(w: World, sub: Submission)
    requires TreeInv(w) && Admissible(w, sub)
    ensures Books(Put(w, sub)) && Sheltered(Put(w, sub))
  {
    var v := Put(w, sub);
    PutRecords(w, sub);
    PutNewBook(w, sub);
    forall d | d in v.tasks ensures BookOk(v, d) && ShelterOk(v, d) {
      if d != sub.id { PutOldBook(w, sub, d); }
    }
  }

  lemma NoKidsBefore(w: World, id: TaskId)
    requires TreeInv(w) && id !in w.tasks
    ensures Kids(w, id) == {}
  {
    forall c ensures c !in Kids(w, id) {
      assert IndexOk(w, id, c) && (c in w.tasks ==> LinkOk(w, c));
    }
  }

  lemma PutIndex(w: World, sub: Submission, p: TaskId, c: TaskId)
    requires TreeInv(w) && Admissible(w, sub)
    ensures IndexOk(Put(w, sub), p, c)
  {
    var v := Put(w, sub);
    PutRecords(w, sub);
    NoKidsBefore(w, sub.id);
    assert IndexOk(w, p, c);
    assert Kids(v, p) == Kids(v, p);
    assert c in w.tasks ==> v.tasks[c].link.parent == w.tasks[c].link.parent;
  }

  lemma PutKeepsTree(w: World, sub: Submission)
    requires TreeInv(w) && Admissible(w, sub)
    ensures TreeInv(Put(w, sub))
    ensures Kids(w, sub.id) == {}
  {
    PutLinks(w, sub);
    PutBooks(w, sub);
    NoKidsBefore(w, sub.id);
    forall p, c ensures IndexOk(Put(w, sub), p, c) {
      PutIndex(w, sub, p, c);
    }
  }

  lemma PutKeepsInv(w: World, sub: Submission)
    requires Inv(w) && Admissible(w, sub)
    ensures Inv(Put(w, sub))
  {
    var v := Put(w, sub);
    PutKeepsTree(w, sub);
    PutRecords(w, sub);
    forall d | d in v.tasks ensures Waits(v, d) && NoticesOk(v, d) {
      if d != sub.id {
        assert Waits(w, d) && NoticesOk(w, d);
        LiveChildren(w, d);
        LiveChildren(v, d);
        assert Kids(v, d) == Kids(v, d) && v.tasks[d] == v.tasks[d];
        assert ActiveChildren(w, d) <= ActiveChildren(v, d);
      }
    }
  }

  // ---------------------------------------------------------------- finish and suspend

  /** What Finish does to each record. */
  lemma FinishRecords(w: World, id: TaskId, status: FinalStatus)
    requires TreeInv(w) && id in w.live && id in w.tasks
    ensures var v := Finish(w, id, status);
            && v.tasks.Keys == w.tasks.Keys && v.live == w.live - {id} && v.stored == w.stored + {id}
            && v.children == w.children
            && v.tasks[id] == w.tasks[id].(status := status, suspended := false,
                                           deliveryState := DeliveryAtFinish(w, id))
            && forall d {:trigger v.tasks[d]} :: d in w.tasks && d != id ==>
                 v.tasks[d] == if Reports(w, id) && w.tasks[id].link.parent == Some(d) then Notified(w.tasks[d], id)
                               else w.tasks[d]
    ensures w.tasks[id].link.parent.Some? ==>
              w.tasks[id].link.parent.value in w.live && w.tasks[id].link.parent.value != id
              && (Reports(w, id) <==> w.tasks[w.tasks[id].link.parent.value].accepting)
  {
    assert LinkOk(w, id) && ShelterOk(w, id);
    if w.tasks[id].link.parent.Some? {
      assert BookOk(w, w.tasks[id].link.parent.value);
    }
  }

  lemma FinishBooks(w: World, id: TaskId, status: FinalStatus)
    requires TreeInv(w) && id in w.live && id in w.tasks && ActiveChildren(w, id) == {}
    ensures var v := Finish(w, id, status); KeepsLinks(w, v) && Books(v) && Sheltered(v)
  {
    var v := Finish(w, id, status);
    FinishRecords(w, id, status);
    assert |v.tasks| == |v.tasks.Keys| == |w.tasks.Keys| == |w.tasks|;
    forall d | d in v.tasks ensures BookOk(v, d) { assert BookOk(w, d) && v.tasks[d] == v.tasks[d]; }
    forall d | d in v.tasks ensures ShelterOk(v, d) {
      assert ShelterOk(w, d) && IndexOk(w, id, d) && v.tasks[d].link.parent == w.tasks[d].link.parent;
      LiveChildren(w, id);
      assert d !in ActiveChildren(w, id);
    }
  }

  lemma FinishKeepsTree(w: World, id: TaskId, status: FinalStatus)
    requires TreeInv(w) && id in w.live && id in w.tasks && ActiveChildren(w, id) == {}
    ensures TreeInv(Finish(w, id, status))
  {
    var v := Finish(w, id, status);
    FinishBooks(w, id, status);
    FinishRecords(w, id, status);
    forall d | d in v.tasks ensures LinkOk(v, d) { LinksCarry(w, v, d); }
    forall p, c ensures IndexOk(v, p, c) {
      assert IndexOk(w, p, c);
      assert c in w.tasks ==> v.tasks[c].link.parent == w.tasks[c].link.parent;
    }
  }

  lemma FinishKeepsInv(w: World, id: TaskId, status: FinalStatus)
    requires Inv(w) && id in w.live && id in w.tasks && ActiveChildren(w, id) == {}
    ensures Inv(Finish(w, id, status))
  {
    var v := Finish(w, id, status);
    FinishRecords(w, id, status);
    FinishKeepsTree(w, id, status);
    forall d | d in v.tasks ensures Waits(v, d) {
      assert Waits(w, d) && v.tasks[d] == v.tasks[d];
      if w.tasks[id].link.parent != Some(d) {
        LiveChildren(w, d);
        LiveChildren(v, d);
        assert IndexOk(w, d, id);
        assert ActiveChildren(v, d) == ActiveChildren(w, d);
      }
    }
    forall d | d in v.tasks ensures NoticesOk(v, d) {
      FinishKeepsNotices(w, id, status, d);
    }
  }

  lemma FinishKeepsNotices(w: World, id: TaskId, status: FinalStatus, d: TaskId)
    requires Inv(w) && id in w.live && id in w.tasks && d in w.tasks
    ensures NoticesOk(Finish(w, id, status), d)
  {
    var v := Finish(w, id, status);
    FinishRecords(w, id, status);
    assert NoticesOk(w, d) && v.tasks[d] == v.tasks[d];
    var log, log' := Notices(w.tasks[d]), Notices(v.tasks[d]);
    assert id !in log;
    assert log' == log || (log' == log + [id] && w.tasks[id].link.parent == Some(d));
    DistinctAppend(log, id);
    forall c | c in log' ensures c in v.tasks && c !in v.live && v.tasks[c].link.parent == Some(d) {
      assert c in log || c == id;
    }
  }

  lemma SuspendKeepsInv(w: World, id: TaskId)
    requires Inv(w) && id in w.live && id in w.tasks && ActiveChildren(w, id) != {}
    ensures Inv(AgentWaits(w, id)) && SameShape(w, AgentWaits(w, id))
  {
    var v := AgentWaits(w, id);
    assert BookOk(w, id);
    ShapeKeepsTree(w, v);
    forall d | d in v.tasks ensures Waits(v, d) && NoticesOk(v, d) {
      assert Waits(w, d) && NoticesOk(w, d);
      ShapeKeepsChildren(w, v, d);
    }
  }

  lemma SettleKeepsInv(w: World, id: TaskId)
    requires Inv(w) && id in w.live && id in w.tasks
    ensures Inv(Settle(w, id))
  {
    if ActiveChildren(w, id) != {} {
      SuspendKeepsInv(w, id);
    } else {
      FinishKeepsInv(w, id, if w.tasks[id].cancelRequested then Cancelled else w.tasks[id].outcome);
    }
  }

  // ---------------------------------------------------------------- cancel and own work

  lemma MarkedIsGentle(t: Task, skip: bool)
    ensures Gentle(t, Marked(t, skip))
  {
  }

  lemma CancelGentle(w: World, id: TaskId, skip: bool)
    requires Linked(w) && id in w.tasks
    ensures GentleStep(w, Cancel(w, id, skip))
  {
  }

  /** The world of OwnWorkEnds just before the wait for children. */
  ghost function OwnClosed(w: World, id: TaskId, outcome: FinalStatus): World
    requires Linked(w) && id in w.tasks
  {
    var t := w.tasks[id];
    var closed := if outcome == Done then w else MarkBelow(w, id);
    closed.(tasks := closed.tasks[id := t.(ownFinished := true, outcome := outcome, suspended := false,
                                           accepting := t.accepting && outcome == Done)])
  }

  lemma OwnClosedGentle(w: World, id: TaskId, outcome: FinalStatus)
    requires Linked(w) && id in w.tasks
    ensures GentleStep(w, OwnClosed(w, id, outcome))
    ensures OwnWorkEnds(w, id, outcome) == Settle(OwnClosed(w, id, outcome), id)
  {
  }

  // ---------------------------------------------------------------- delivery steps

  ghost predicate DeliveryMove(t: Task, u: Task) {
    u == t.(deliveryState := u.deliveryState) && (!Open(t.deliveryState) ==> !Open(u.deliveryState))
  }

  /** Only delivery fields change, and a closed delivery stays closed. */
  ghost predicate DeliveryOnly(w: World, v: World) {
    && v.tasks.Keys == w.tasks.Keys && v.live == w.live && v.stored == w.stored && v.children == w.children
    && forall id {:trigger v.tasks[id]} :: id in w.tasks ==> DeliveryMove(w.tasks[id], v.tasks[id])
  }

  lemma DeliveryOnlyIsGentle(w: World, v: World)
    requires DeliveryOnly(w, v)
    ensures GentleStep(w, v)
  {
  }

  lemma DeliveryOnlyTransitive(w: World, u: World, v: World)
    requires DeliveryOnly(w, u) && DeliveryOnly(u, v)
    ensures DeliveryOnly(w, v)
  {
  }

  lemma SetDeliveryMoves(w: World, id: TaskId, d: DeliveryState)
    requires id in w.tasks && (Open(w.tasks[id].deliveryState) || !Open(d))
    ensures DeliveryOnly(w, SetDelivery(w, id, d))
  {
  }

  lemma MoveDeliveryMoves(w: World, id: TaskId, d: DeliveryState)
    requires id in w.tasks && (d == Queued ==> w.tasks[id].link.owner.parts.Some?)
    requires Open(w.tasks[id].deliveryState)
    ensures DeliveryOnly(w, MoveDelivery(w, id, d))
  {
  }

  lemma DrainOneIsDeliveryOnly(w: World, id: TaskId, fails: bool)
    ensures DeliveryOnly(w, DrainOne(w, id, fails))
  {
    if DrainOne(w, id, fails) != w {
      MoveDeliveryMoves(w, id, DrainVerdict(w.tasks[id], fails));
    }
  }

  lemma DrainAllIsDeliveryOnly(w: World, ids: seq<TaskId>, failing: set<TaskId>)
    ensures DeliveryOnly(w, DrainAll(w, ids, failing))
    decreases |ids|
  {
    if ids != [] {
      var u := DrainOne(w, ids[0], ids[0] in failing);
      DrainOneIsDeliveryOnly(w, ids[0], ids[0] in failing);
      DrainAllIsDeliveryOnly(u, ids[1..], failing);
      DeliveryOnlyTransitive(w, u, DrainAll(w, ids, failing));
    }
  }

  ghost predicate IsDeliveryStep(step: Step) {
    step.DoRelease? || step.DoRunDelivery? || step.DoDrain? || step.DoSuppress? || step.DoClose?
    || step.DoRequeue? || step.DoSkipFinished?
  }

  lemma SkipConversationIsDeliveryOnly(w: World, conv: string, ids: seq<TaskId>)
    ensures DeliveryOnly(w, SkipConversation(w, conv, ids))
  {
  }

  lemma RunDeliveryIsDeliveryOnly(w: World, id: TaskId, present: bool, suppressed: bool, running: bool)
    requires id in w.tasks
    ensures DeliveryOnly(w, RunDelivery(w, id, present, suppressed, running))
  {
    if w.tasks[id].deliveryState == Pending {
      MoveDeliveryMoves(w.(tickets := w.tickets - {id}), id, RunVerdict(w.tasks[id], present, suppressed, running));
    }
  }

  lemma DeliveryStepOnly(w: World, step: Step)
    requires Linked(w) && Enabled(w, step) && IsDeliveryStep(step)
    ensures DeliveryOnly(w, Next(w, step))
  {
    match step {
      case DoDrain(conv, failing) =>
        DrainAllIsDeliveryOnly(w.(queues := w.queues[conv := []]), QueueOf(w, conv), failing);
      case DoSuppress(conv) =>
        SkipConversationIsDeliveryOnly(w.(queues := w.queues[conv := AgentsOf(w, QueueOf(w, conv))]), conv,
            QueueOf(w, conv));
      case DoClose(conv) =>
        SkipConversationIsDeliveryOnly(w.(queues := w.queues[conv := []]), conv, QueueOf(w, conv));
      case DoRunDelivery(id, present, suppressed, running) =>
        RunDeliveryIsDeliveryOnly(w, id, present, suppressed, running);
      case DoRelease(id, deliver) =>
        if w.tasks[id].deliveryState == Held { SetDeliveryMoves(w, id, if deliver then Pending else Skipped); }
      case DoRequeue(id, conv) =>
        if id in w.tasks && w.tasks[id].deliveryState == Pending { SetDeliveryMoves(w, id, Queued); }
      case DoSkipFinished(id) => SetDeliveryMoves(w, id, Skipped);
    }
  }

  // ---------------------------------------------------------------- every step, every run

  lemma StepKeepsInv(w: World, step: Step)
    requires Inv(w) && Enabled(w, step)
    ensures Inv(Next(w, step))
  {
    var v := Next(w, step);
    match step {
      case DoPut(sub) => PutKeepsInv(w, sub);
      case DoCancel(id, skip) => CancelGentle(w, id, skip); GentleKeepsInv(w, v);
      case DoOwnWorkEnds(id, outcome) =>
        OwnClosedGentle(w, id, outcome);
        GentleKeepsInv(w, OwnClosed(w, id, outcome));
        SettleKeepsInv(OwnClosed(w, id, outcome), id);
      case DoResume(id) =>
        var u := w.(tasks := w.tasks[id := w.tasks[id].(suspended := false)]);
        GentleKeepsInv(w, u);
        SettleKeepsInv(u, id);
      case DoAgentWaits(id) => SuspendKeepsInv(w, id);
      case DoPopNotices(id) =>
        assert BookOk(w, id);
        assert Notices(v.tasks[id]) == Notices(w.tasks[id]);
        GentleKeepsInv(w, v);
      case DoDieUnstarted(id) => FinishKeepsInv(w, id, Cancelled);
      case DoEvict(ids) => GentleKeepsInv(w, v);
      case _ =>
        DeliveryStepOnly(w, step);
        DeliveryOnlyIsGentle(w, v);
        GentleKeepsInv(w, v);
    }
  }

  lemma {:induction false} RunKeepsInv(w: World, steps: seq<Step>, v: World)
    requires Inv(w) && Runs(w, steps, v)
    ensures Inv(v)
    decreases |steps|
  {
    if steps != [] {
      StepKeepsInv(w, steps[0]);
      RunKeepsInv(Next(w, steps[0]), steps[1..], v);
    }
  }

  lemma ReachableInv(w: World)
    requires Reachable(w)
    ensures Inv(w)
  {
    var steps :| Runs(Empty, steps, w);
    RunKeepsInv(Empty, steps, w);
  }
}
