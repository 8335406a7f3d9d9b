/** What each delivery step does to deliveries, queues and wakeups, record by record. */
module TaskPosting {
  import opened Basics
  import opened TaskModel

  // ---------------------------------------------------------------- the delivery coroutine

  /** Nothing changes but deliveries, queues, tickets and wakeups. */
  ghost predicate SameRecords(w: World, v: World) {
    && v.live == w.live && v.stored == w.stored && v.children == w.children && v.tasks.Keys == w.tasks.Keys
    && forall d {:trigger v.tasks[d]} :: d in w.tasks ==>
         v.tasks[d] == w.tasks[d].(deliveryState := v.tasks[d].deliveryState)
  }

  /** Only the delivery of this record changes. */
  ghost predicate OnlyDelivery(w: World, v: World, id: TaskId) {
    && SameRecords(w, v)
    && forall d {:trigger v.tasks[d]} :: d in w.tasks && d != id ==> v.tasks[d] == w.tasks[d]
  }

  /** This record was put at the end of this queue unless it was there, and no other queue changed. */
  ghost predicate Gains(w: World, v: World, conv: Option<string>, id: TaskId) {
    forall c {:trigger QueueOf(v, c)} {:trigger QueueOf(w, c)} ::
      QueueOf(v, c) == QueueOf(w, c) + if conv == Some(c) && id !in QueueOf(w, c) then [id] else []
  }

  lemma SetExact(w: World, id: TaskId, d: DeliveryState)
    requires id in w.tasks
    ensures var v := SetDelivery(w, id, d);
            && OnlyDelivery(w, v, id) && v.tasks[id].deliveryState == d && v.tickets == w.tickets
            && v.wakeups == w.wakeups && Gains(w, v, None, id)
  {
  }

  lemma EnqueueExact(w: World, conv: string, id: TaskId)
    ensures var v := Enqueue(w, conv, id); Gains(w, v, Some(conv), id) && v == w.(queues := v.queues)
  {
  }

  lemma MoveExact(w: World, id: TaskId, d: DeliveryState)
    requires id in w.tasks && (d == Queued ==> w.tasks[id].link.owner.parts.Some?)
    ensures var v := MoveDelivery(w, id, d);
            && OnlyDelivery(w, v, id) && v.tasks[id].deliveryState == d && v.tickets == w.tickets
            && v.wakeups == w.wakeups + (if d == Delivered then [id] else [])
            && (d != Queued ==> v.queues == w.queues)
            && Gains(w, v, if d == Queued then Some(w.tasks[id].link.owner.parts.value.conversation) else None, id)
  {
    SetExact(w, id, d);
    if d == Queued {
      EnqueueExact(SetDelivery(w, id, d), w.tasks[id].link.owner.parts.value.conversation, id);
    }
  }

  lemma VerdictExact(t: Task, present: bool, suppressed: bool, running: bool)
    ensures var parsed, chat := t.link.owner.parts.Some?, t.link.delivery.ToConversation?;
            var after := RunVerdict(t, present, suppressed, running);
            && (after.Delivered? <==>
                  && parsed
                  && (t.link.delivery.ToActor? || (chat && (!present || (!running && (t.link.agent || !suppressed))))))
            && (after.Queued? <==> parsed && chat && present && running && (t.link.agent || !suppressed))
            && (after.Skipped? <==>
                  t.link.delivery.Manual? || (parsed && chat && present && suppressed && !t.link.agent))
            && (after.Pending? <==> !parsed && !t.link.delivery.Manual?)
  {
  }

  /** A coroutine that runs while the delivery is not pending only goes away. */
  lemma RunDeliveryIdle(w: World, id: TaskId, present: bool, suppressed: bool, running: bool)
    requires Linked(w) && Enabled(w, DoRunDelivery(id, present, suppressed, running))
    requires !w.tasks[id].deliveryState.Pending?
    ensures Next(w, DoRunDelivery(id, present, suppressed, running)) == w.(tickets := w.tickets - {id})
  {
  }

  lemma RunIsMove(w: World, id: TaskId, present: bool, suppressed: bool, running: bool)
    requires Linked(w) && Enabled(w, DoRunDelivery(id, present, suppressed, running))
    requires w.tasks[id].deliveryState.Pending?
    ensures Next(w, DoRunDelivery(id, present, suppressed, running)) ==
              MoveDelivery(w.(tickets := w.tickets - {id}), id, RunVerdict(w.tasks[id], present, suppressed, running))
  {
  }

  /** How a pending delivery moves on, and what that leaves in queues and wakeups. */
  ghost predicate MovesOn(w: World, v: World, id: TaskId, present: bool, suppressed: bool, running: bool)
    requires id in w.tasks && id in v.tasks
  {
    var link, after := w.tasks[id].link, v.tasks[id].deliveryState;
    var parsed, chat := link.owner.parts.Some?, link.delivery.ToConversation?;
    && (after.Delivered? <==>
          parsed && (link.delivery.ToActor? || (chat && (!present || (!running && (link.agent || !suppressed))))))
    && (after.Queued? <==> parsed && chat && present && running && (link.agent || !suppressed))
    && (after.Skipped? <==> link.delivery.Manual? || (parsed && chat && present && suppressed && !link.agent))
    && (after.Pending? <==> !parsed && !link.delivery.Manual?)
    && v.wakeups == w.wakeups + (if after.Delivered? then [id] else [])
    && Gains(w, v, if after.Queued? then Some(link.owner.parts.value.conversation) else None, id)
  }

  /**
   A pending delivery is sent, queued with its running conversation, skipped, or left when its owner does not
   parse; `present`, `suppressed` and `running` are what the coroutine finds of the owner's conversation.
   */
  lemma RunDeliveryExact(w: World, id: TaskId, present: bool, suppressed: bool, running: bool)
    requires Linked(w) && Enabled(w, DoRunDelivery(id, present, suppressed, running))
    requires w.tasks[id].deliveryState.Pending?
    ensures var v := Next(w, DoRunDelivery(id, present, suppressed, running));
            && OnlyDelivery(w, v, id) && v.tickets == w.tickets - {id}
            && MovesOn(w, v, id, present, suppressed, running)
  {
    var ran, after := w.(tickets := w.tickets - {id}), RunVerdict(w.tasks[id], present, suppressed, running);
    VerdictExact(w.tasks[id], present, suppressed, running);
    MoveExact(ran, id, after);
    RunIsMove(w, id, present, suppressed, running);
    SameTickets(w, ran, MoveDelivery(ran, id, after), id, after);
  }

  lemma SameTickets(w: World, ran: World, v: World, id: TaskId, d: DeliveryState)
    requires id in w.tasks && ran == w.(tickets := ran.tickets) && OnlyDelivery(ran, v, id)
    requires d == Queued ==> w.tasks[id].link.owner.parts.Some?
    requires Gains(ran, v, if d == Queued then Some(w.tasks[id].link.owner.parts.value.conversation) else None, id)
    ensures OnlyDelivery(w, v, id)
    ensures Gains(w, v, if d == Queued then Some(w.tasks[id].link.owner.parts.value.conversation) else None, id)
  {
    forall c
      ensures QueueOf(ran, c) == QueueOf(w, c)
    {
    }
  }

  // ---------------------------------------------------------------- draining a conversation's queue

  /** `a` is in `b`, in order. */
  predicate Subsequence<T(==)>(a: seq<T>, b: seq<T>)
    decreases |b|
  {
    a == [] || (b != [] && if a[0] == b[0] then Subsequence(a[1..], b[1..]) else Subsequence(a, b[1..]))
  }

  predicate Waiting(w: World, d: TaskId)
    requires d in w.tasks
  {
    Registered(w, d) && (w.tasks[d].deliveryState.Pending? || w.tasks[d].deliveryState.Queued?)
  }

  /** A queued result is sent unless its send fails or it is of a cancelled task that is no agent. */
  predicate Sendable(t: Task, fails: bool) {
    !fails && t.link.owner.parts.Some? && (t.link.agent || !t.status.Cancelled?)
  }

  /** What draining `ids` makes of one record. */
  ghost predicate DrainedAt(w: World, v: World, ids: seq<TaskId>, failing: set<TaskId>, sent: seq<TaskId>, d: TaskId)
    requires d in w.tasks && d in v.tasks
  {
    && (d in sent <==> d in ids && Waiting(w, d) && Sendable(w.tasks[d], d in failing))
    && v.tasks[d] == w.tasks[d].(deliveryState :=
         if d !in ids || !Waiting(w, d) then w.tasks[d].deliveryState
         else if Sendable(w.tasks[d], d in failing) then Delivered else Skipped)
  }

  /** `sent` are the wakeups sent for `ids` on the way from `w` to `v`. */
  ghost predicate Drained(w: World, v: World, ids: seq<TaskId>, failing: set<TaskId>, sent: seq<TaskId>) {
    && v.live == w.live && v.stored == w.stored && v.children == w.children && v.tasks.Keys == w.tasks.Keys
    && v.queues == w.queues && v.tickets == w.tickets && v.wakeups == w.wakeups + sent
    && Subsequence(sent, ids) && Distinct(sent) && (forall d {:trigger d in sent} :: d in sent ==> d in w.tasks)
    && forall d {:trigger DrainedAt(w, v, ids, failing, sent, d)} ::
         d in w.tasks ==> DrainedAt(w, v, ids, failing, sent, d)
  }

  function SentFirst(w: World, id: TaskId, failing: set<TaskId>): seq<TaskId> {
    if id in w.tasks && Waiting(w, id) && Sendable(w.tasks[id], id in failing) then [id] else []
  }

  lemma DrainOneExact(w: World, id: TaskId, failing: set<TaskId>)
    ensures Drained(w, DrainOne(w, id, id in failing), [id], failing, SentFirst(w, id, failing))
  {
    if id in w.tasks && Waiting(w, id) {
      MoveExact(w, id, DrainVerdict(w.tasks[id], id in failing));
    }
  }

  lemma SubsequenceOn(first: seq<TaskId>, rest: seq<TaskId>, ids: seq<TaskId>)
    requires ids != [] && Subsequence(rest, ids[1..]) && ids[0] !in rest
    requires first == [] || first == [ids[0]]
    ensures Subsequence(first + rest, ids)
  {
    if first != [] {
      assert (first + rest)[1..] == rest;
    } else {
      assert first + rest == rest;
    }
  }

  lemma DrainedAtOn(w: World, u: World, v: World, ids: seq<TaskId>, failing: set<TaskId>, rest: seq<TaskId>, d: TaskId)
    requires ids != [] && d in w.tasks && d in u.tasks && d in v.tasks && u.live == w.live && u.stored == w.stored
    requires DrainedAt(w, u, [ids[0]], failing, SentFirst(w, ids[0], failing), d)
    requires DrainedAt(u, v, ids[1..], failing, rest, d)
    ensures DrainedAt(w, v, ids, failing, SentFirst(w, ids[0], failing) + rest, d)
    ensures d == ids[0] ==> d !in rest
  {
    assert d in ids <==> d == ids[0] || d in ids[1..];
  }

  lemma DrainedOn(w: World, u: World, v: World, ids: seq<TaskId>, failing: set<TaskId>, rest: seq<TaskId>)
    requires ids != [] && Drained(w, u, [ids[0]], failing, SentFirst(w, ids[0], failing))
    requires Drained(u, v, ids[1..], failing, rest)
    ensures Drained(w, v, ids, failing, SentFirst(w, ids[0], failing) + rest)
  {
    var first := SentFirst(w, ids[0], failing);
    forall d | d in w.tasks
      ensures DrainedAt(w, v, ids, failing, first + rest, d) && (d == ids[0] ==> d !in rest)
    {
      assert DrainedAt(w, u, [ids[0]], failing, first, d);
      assert DrainedAt(u, v, ids[1..], failing, rest, d);
      DrainedAtOn(w, u, v, ids, failing, rest, d);
    }
    SubsequenceOn(first, rest, ids);
  }

  lemma {:induction false} DrainAllExact(w: World, ids: seq<TaskId>, failing: set<TaskId>) returns (sent: seq<TaskId>)
    ensures Drained(w, DrainAll(w, ids, failing), ids, failing, sent)
    decreases |ids|
  {
    if ids == [] {
      sent := [];
    } else {
      var u := DrainOne(w, ids[0], ids[0] in failing);
      DrainOneExact(w, ids[0], failing);
      var rest := DrainAllExact(u, ids[1..], failing);
      DrainedOn(w, u, DrainAll(w, ids, failing), ids, failing, rest);
      sent := SentFirst(w, ids[0], failing) + rest;
    }
  }

  /**
   Draining empties the queue; of its records that are registered and wait, the sendable ones are sent one
   wakeup each, in the order of the queue, and the others are skipped; no other record changes.
   */
  lemma DrainExact(w: World, conv: string, failing: set<TaskId>) returns (sent: seq<TaskId>)
    requires Linked(w)
    ensures var v := Next(w, DoDrain(conv, failing));
            && QueueOf(v, conv) == []
            && (forall c {:trigger QueueOf(v, c)} :: c != conv ==> QueueOf(v, c) == QueueOf(w, c))
            && v.live == w.live && v.stored == w.stored && v.children == w.children && v.tickets == w.tickets
            && v.wakeups == w.wakeups + sent && Subsequence(sent, QueueOf(w, conv)) && Distinct(sent)
            && v.tasks.Keys == w.tasks.Keys
    ensures forall d {:trigger Next(w, DoDrain(conv, failing)).tasks[d]} :: d in w.tasks ==>
              var queued := d in QueueOf(w, conv) && Waiting(w, d);
              && (d in sent <==> queued && Sendable(w.tasks[d], d in failing))
              && Next(w, DoDrain(conv, failing)).tasks[d] == w.tasks[d].(deliveryState :=
                   if !queued then w.tasks[d].deliveryState
                   else if Sendable(w.tasks[d], d in failing) then Delivered else Skipped)
  {
    var u := w.(queues := w.queues[conv := []]);
    sent := DrainAllExact(u, QueueOf(w, conv), failing);
    var v := Next(w, DoDrain(conv, failing));
    assert v.queues == u.queues;
    forall d | d in w.tasks
      ensures DrainedAt(u, v, QueueOf(w, conv), failing, sent, d) && Waiting(u, d) == Waiting(w, d)
    {
    }
  }

  // ---------------------------------------------------------------- skipping a conversation's deliveries

  predicate StandsAt(part: string, text: string, i: nat) {
    i + |part| <= |text| && text[i..i + |part|] == part
  }

  ghost predicate Occurs(part: string, text: string) {
    exists i: nat :: StandsAt(part, text, i)
  }

  lemma StandsLater(part: string, text: string, i: nat)
    requires text != ""
    ensures StandsAt(part, text[1..], i) <==> StandsAt(part, text, i + 1)
  {
    if i + 1 + |part| <= |text| {
      assert text[1..][i..i + |part|] == text[i + 1..i + 1 + |part|];
    }
  }

  /** The search finds the first place the part stands at, if there is one. */
  lemma {:induction false} FindOccurs(text: string, part: string)
    ensures Find(text, part).Some? <==> Occurs(part, text)
    ensures Find(text, part).Some? ==> StandsAt(part, text, Find(text, part).value)
    ensures forall i: nat {:trigger StandsAt(part, text, i)} ::
              StandsAt(part, text, i) ==> Find(text, part).Some? && Find(text, part).value <= i
    decreases |text|
  {
    if |part| <= |text| && text[..|part|] == part {
      assert StandsAt(part, text, 0);
    } else if text != "" {
      FindOccurs(text[1..], part);
      forall i: nat | StandsAt(part, text, i)
        ensures Find(text, part).Some? && Find(text, part).value <= i
      {
        assert i > 0;
        StandsLater(part, text, i - 1);
      }
      if Find(text[1..], part).Some? {
        StandsLater(part, text, Find(text[1..], part).value);
      }
    }
  }

  /** Whether skipping a conversation's deliveries closes that of `d`; `listed` are the ids it is given. */
  ghost predicate Closes(w: World, d: TaskId, conv: string, listed: seq<TaskId>)
    requires d in w.tasks
  {
    var t := w.tasks[d];
    && Registered(w, d) && !t.link.agent
    && (t.deliveryState.Held? || t.deliveryState.Pending? || t.deliveryState.Queued?)
    && (d in listed || (t.link.delivery.ToConversation? && Occurs(":conv:" + conv, t.link.owner.text)))
  }

  ghost predicate Closed(w: World, v: World, conv: string, listed: seq<TaskId>) {
    && v.live == w.live && v.stored == w.stored && v.children == w.children && v.tickets == w.tickets
    && v.wakeups == w.wakeups && v.tasks.Keys == w.tasks.Keys
    && forall d {:trigger v.tasks[d]} :: d in w.tasks ==>
         v.tasks[d] == if Closes(w, d, conv, listed) then w.tasks[d].(deliveryState := Skipped) else w.tasks[d]
  }

  lemma SkipExact(w: World, conv: string, listed: seq<TaskId>)
    ensures Closed(w, SkipConversation(w, conv, listed), conv, listed)
    ensures SkipConversation(w, conv, listed).queues == w.queues
  {
    var v := SkipConversation(w, conv, listed);
    forall d | d in w.tasks
      ensures v.tasks[d] == if Closes(w, d, conv, listed) then w.tasks[d].(deliveryState := Skipped) else w.tasks[d]
    {
      FindOccurs(w.tasks[d].link.owner.text, ":conv:" + conv);
    }
  }

  /** Closing a conversation forgets its queue and skips what waits for it, agents' results excepted. */
  lemma CloseExact(w: World, conv: string)
    requires Linked(w)
    ensures var v := Next(w, DoClose(conv));
            && Closed(w, v, conv, QueueOf(w, conv)) && QueueOf(v, conv) == []
            && forall c {:trigger QueueOf(v, c)} :: c != conv ==> QueueOf(v, c) == QueueOf(w, c)
  {
    var u := w.(queues := w.queues[conv := []]);
    SkipExact(u, conv, QueueOf(w, conv));
    SameCloses(w, u, conv, QueueOf(w, conv));
  }

  lemma SameCloses(w: World, u: World, conv: string, listed: seq<TaskId>)
    requires u == w.(queues := u.queues)
    ensures forall d {:trigger Closes(w, d, conv, listed)} {:trigger Closes(u, d, conv, listed)} ::
              d in w.tasks ==> Closes(u, d, conv, listed) == Closes(w, d, conv, listed)
  {
  }

  lemma {:induction false} AgentsExact(w: World, ids: seq<TaskId>)
    ensures Subsequence(AgentsOf(w, ids), ids)
    ensures forall d {:trigger d in AgentsOf(w, ids)} :: d in AgentsOf(w, ids) <==>
              d in ids && d in w.tasks && Registered(w, d) && w.tasks[d].link.agent
  {
    if ids != [] {
      var rest := AgentsOf(w, ids[1..]);
      AgentsExact(w, ids[1..]);
      forall d
        ensures d in ids <==> d == ids[0] || d in ids[1..]
      {
      }
      if AgentsOf(w, ids) != rest {
        assert AgentsOf(w, ids)[1..] == rest;
      } else {
        SubsequenceSkips(rest, ids);
      }
    }
  }

  /** What is in the rest of a sequence in order is in the whole. */
  lemma {:induction false} SubsequenceSkips<T>(a: seq<T>, b: seq<T>)
    requires b != [] && Subsequence(a, b[1..])
    ensures Subsequence(a, b)
    decreases |b|, 0
  {
    if a != [] && a[0] == b[0] {
      SubsequenceDrops(a, b[1..]);
    }
  }

  lemma {:induction false} SubsequenceDrops<T>(a: seq<T>, b: seq<T>)
    requires a != [] && Subsequence(a, b)
    ensures Subsequence(a[1..], b)
    decreases |b|, 1
  {
    if a[0] == b[0] {
      SubsequenceSkips(a[1..], b);
    } else {
      SubsequenceDrops(a, b[1..]);
      SubsequenceSkips(a[1..], b);
    }
  }

  /** An interrupt keeps the queued results of agents, in order, and skips the conversation's others. */
  lemma SuppressExact(w: World, conv: string)
    requires Linked(w)
    ensures var v := Next(w, DoSuppress(conv));
            && Closed(w, v, conv, QueueOf(w, conv))
            && Subsequence(QueueOf(v, conv), QueueOf(w, conv))
            && (forall d {:trigger d in QueueOf(v, conv)} :: d in QueueOf(v, conv) <==>
                  d in QueueOf(w, conv) && d in w.tasks && Registered(w, d) && w.tasks[d].link.agent)
            && forall c {:trigger QueueOf(v, c)} :: c != conv ==> QueueOf(v, c) == QueueOf(w, c)
  {
    var ids := QueueOf(w, conv);
    var u := w.(queues := w.queues[conv := AgentsOf(w, ids)]);
    AgentsExact(w, ids);
    SkipExact(u, conv, ids);
    SameCloses(w, u, conv, ids);
  }

  /** Releasing moves a held delivery and no other. */
  lemma ReleaseExact(w: World, id: TaskId, deliver: bool)
    requires Linked(w) && id in w.tasks
    ensures var v := Next(w, DoRelease(id, deliver));
            && OnlyDelivery(w, v, id) && v.tickets == w.tickets && v.wakeups == w.wakeups && Gains(w, v, None, id)
            && v.tasks[id].deliveryState ==
               if !w.tasks[id].deliveryState.Held? then w.tasks[id].deliveryState
               else if deliver then Pending else Skipped
  {
    SetExact(w, id, if deliver then Pending else Skipped);
  }

  /** Dropping the result of a finished task changes its delivery and nothing else. */
  lemma SkipFinishedExact(w: World, id: TaskId)
    requires Linked(w) && Enabled(w, DoSkipFinished(id))
    ensures var v := Next(w, DoSkipFinished(id));
            && OnlyDelivery(w, v, id) && v.tickets == w.tickets && v.wakeups == w.wakeups && Gains(w, v, None, id)
            && v.tasks[id].deliveryState.Skipped?
  {
    SetExact(w, id, Skipped);
  }

  /** A result that was sent to a busy conversation goes to the end of its queue, once. */
  lemma RequeueExact(w: World, id: TaskId, conv: string)
    requires Linked(w) && id in w.tasks && Enabled(w, DoRequeue(id, conv))
    ensures var v := Next(w, DoRequeue(id, conv));
            && OnlyDelivery(w, v, id) && v.tickets == w.tickets && v.wakeups == w.wakeups
            && Gains(w, v, Some(conv), id)
            && v.tasks[id].deliveryState ==
               if w.tasks[id].deliveryState.Pending? then Queued else w.tasks[id].deliveryState
  {
    EnqueueExact(w, conv, id);
    if w.tasks[id].deliveryState.Pending? {
      SetExact(Enqueue(w, conv, id), id, Queued);
    }
  }
}
