/**
 Runtime task tree and task delivery: the state of runtime/tasks.py as a value, and one
 transition for each await-free region of the code.

 `tasks` holds the fields of every record ever put; `live` are the keys of the registry's
 active dict, `stored` those of its expiring store.  A record that was evicted is in neither.
 */
module TaskModel {
  import opened Basics

  type TaskId = string

  datatype Status = Running | WaitingChildren | Done | Failed | Cancelled

  type FinalStatus = s: Status | s == Done || s == Failed || s == Cancelled witness Done

  datatype Delivery = Manual | ToConversation | ToActor

  datatype DeliveryState = Held | Pending | Queued | Delivered | Skipped

  /** An owner string with what parse_owner makes of it: None when it does not parse. */
  datatype Owner = Owner(text: string, parts: Option<OwnerParts>)

  datatype OwnerParts = OwnerParts(actor: string, conversation: string)

  function ParseOwner(text: string): Owner {
    match Find(text, ":conv:")
    case None => Owner(text, None)
    case Some(i) =>
      var head := text[..i];
      Owner(text, Some(OwnerParts(if "actor:" <= head then head[6..] else head, text[i + 6..])))
  }

  function MakeOwner(actor: string, conversation: string): string {
    ("actor:" + actor + ":conv:") + conversation
  }

  lemma {:induction false} FindInPrefix(s: string, more: string, part: string)
    requires Find(s, part).Some?
    ensures Find(s + more, part) == Find(s, part)
    decreases |s|
  {
    assert (s + more)[..|part|] == s[..|part|];
    if s[..|part|] != part {
      assert (s + more)[1..] == s[1..] + more;
      FindInPrefix(s[1..], more, part);
    }
  }

  lemma {:induction false} FoundByEnd(s: string, part: string)
    ensures Find(s + part, part).Some? && Find(s + part, part).value <= |s|
    decreases |s|
  {
    if s == "" {
      assert s + part == part && part[..|part|] == part;
    } else {
      assert (s + part)[1..] == s[1..] + part;
      FoundByEnd(s[1..], part);
    }
  }

  /** Splitting at the first separator gives back the two parts exactly when none begins earlier. */
  lemma SplitsBack(head: string, part: string, tail: string)
    ensures Find(head + part + tail, part) == Find(head + part, part) && Find(head + part, part).Some?
    ensures var text, i := head + part + tail, Find(head + part, part).value;
            i + |part| <= |text| && (text[..i] == head && text[i + |part|..] == tail <==> i == |head|)
  {
    FoundByEnd(head, part);
    FindInPrefix(head + part, tail, part);
  }

  /**
   An owner string parses back into its parts exactly when no separator begins before the end of the
   actor's part, the colon of "actor:" included.  So it does not when the actor id holds ":conv:", ends in
   ":conv", starts with "conv:", or is "conv".
   */
  lemma OwnerRoundTrip(actor: string, conversation: string)
    ensures ParseOwner(MakeOwner(actor, conversation)).parts == Some(OwnerParts(actor, conversation))
       <==> Find("actor:" + actor + ":conv:", ":conv:") == Some(|"actor:" + actor|)
  {
    var head, text := "actor:" + actor, MakeOwner(actor, conversation);
    SplitsBack(head, ":conv:", conversation);
    var i := Find(text, ":conv:").value;
    assert head[6..] == actor;
    assert i != |head| ==> |text[i + 6..]| != |conversation|;
  }

  lemma {:induction false} FoundFirst(head: string, part: string)
    requires part != "" && part[0] !in head
    ensures Find(head + part, part) == Some(|head|)
    decreases |head|
  {
    if head == "" {
      assert head + part == part && part[..|part|] == part;
    } else {
      assert (head + part)[0] == head[0] && (head + part)[1..] == head[1..] + part;
      FoundFirst(head[1..], part);
    }
  }

  /** The actor "conv": the colon before it begins the separator. */
  lemma ActorConvLost(conversation: string)
    ensures ParseOwner(MakeOwner("conv", conversation)).parts == Some(OwnerParts("actor", "conv:" + conversation))
  {
    var text := MakeOwner("conv", conversation);
    assert text == ("actor" + ":conv:") + ("conv:" + conversation);
    FoundFirst("actor", ":conv:");
    FindInPrefix("actor" + ":conv:", "conv:" + conversation, ":conv:");
    assert text[..5] == "actor" && text[11..] == "conv:" + conversation;
  }

  /** `consumed` (notices already popped) and `born` (admission order) are history variables. */
  datatype Task = Task(
    link: Link,
    status: Status,
    outcome: FinalStatus,
    accepting: bool,
    ownFinished: bool,
    cancelRequested: bool,
    treeChanged: bool,
    suspended: bool,
    notices: seq<TaskId>,
    consumed: seq<TaskId>,
    deliveryState: DeliveryState)

  /** The fields of a record that never change once it is put. */
  datatype Link = Link(
    parent: Option<TaskId>,
    root: TaskId,
    owner: Owner,
    agent: bool,
    delivery: Delivery,
    born: nat)

  /** `tickets`: roots whose delivery coroutine has not run; `wakeups`: messages sent so far. */
  datatype World = World(
    tasks: map<TaskId, Task>,
    live: set<TaskId>,
    stored: set<TaskId>,
    children: map<TaskId, set<TaskId>>,
    tickets: set<TaskId>,
    queues: map<string, seq<TaskId>>,
    wakeups: seq<TaskId>)

  const Empty := World(map[], {}, {}, map[], {}, map[], [])

  predicate Terminal(s: Status) {
    s.Done? || s.Failed? || s.Cancelled?
  }

  predicate Open(d: DeliveryState) {
    d.Held? || d.Pending? || d.Queued?
  }

  // ---------------------------------------------------------------- registry reads

  function Kids(w: World, id: TaskId): set<TaskId> {
    if id in w.children then w.children[id] else {}
  }

  predicate Registered(w: World, id: TaskId) {
    id in w.live || id in w.stored
  }

  function ActiveChildren(w: World, id: TaskId): set<TaskId> {
    set c | c in Kids(w, id) && Registered(w, c) && c in w.tasks && !Terminal(w.tasks[c].status)
  }

  // ---------------------------------------------------------------- ancestry

  predicate SameActor(a: Owner, b: Owner) {
    a.parts.Some? && b.parts.Some? && a.parts.value.actor == b.parts.value.actor
  }

  /** A parent was admitted earlier, and root and actor are inherited from it. */
  ghost predicate LinkOk(w: World, id: TaskId)
    requires id in w.tasks
  {
    var t := w.tasks[id];
    match t.link.parent
    case None => t.link.root == id
    case Some(p) =>
      && p in w.tasks
      && w.tasks[p].link.born < t.link.born
      && t.link.root == w.tasks[p].link.root
      && SameActor(t.link.owner, w.tasks[p].link.owner)
  }

  ghost predicate Linked(w: World) {
    forall id {:trigger LinkOk(w, id)} :: id in w.tasks ==> LinkOk(w, id)
  }

  /** `a` is `d` or an ancestor of `d`. */
  ghost predicate Under(w: World, a: TaskId, d: TaskId)
    requires Linked(w) && d in w.tasks
    decreases w.tasks[d].link.born
  {
    assert LinkOk(w, d);
    a == d || (w.tasks[d].link.parent.Some? && Under(w, a, w.tasks[d].link.parent.value))
  }

  /** The task without a parent that the chain of parents of `d` ends in. */
  ghost function Top(w: World, d: TaskId): TaskId
    requires Linked(w) && d in w.tasks
    decreases w.tasks[d].link.born
  {
    assert LinkOk(w, d);
    match w.tasks[d].link.parent
    case None => d
    case Some(p) => Top(w, p)
  }

  // ---------------------------------------------------------------- transitions

  /** A new record as its creator fills it in; ids are fresh and no root id is given. */
  datatype Submission = Submission(
    id: TaskId, parent: Option<TaskId>, owner: Owner, agent: bool, delivery: Delivery, held: bool)

  /** Why put refuses a record. */
  datatype PutError = ParentNotActive | ParentNotAccepting | MalformedOwner | DifferentActor

  function Admission(w: World, parent: Option<TaskId>, owner: Owner): Option<PutError> {
    match parent
    case None => None
    case Some(p) =>
      if p !in w.live || p !in w.tasks || Terminal(w.tasks[p].status) then Some(ParentNotActive)
      else if !w.tasks[p].accepting then Some(ParentNotAccepting)
      else if w.tasks[p].link.owner.parts.None? || owner.parts.None? then Some(MalformedOwner)
      else if !SameActor(owner, w.tasks[p].link.owner) then Some(DifferentActor)
      else None
  }

  function NewTask(w: World, sub: Submission): Task
    requires sub.parent.Some? ==> sub.parent.value in w.tasks
  {
    var root := if sub.parent.Some? then w.tasks[sub.parent.value].link.root else sub.id;
    Task(Link(sub.parent, root, sub.owner, sub.agent, sub.delivery, |w.tasks|), Running, Done,
         true, false, false, false, false, [], [], if sub.held then Held else Pending)
  }

  function PutTasks(w: World, id: TaskId, parent: Option<TaskId>, task: Task): map<TaskId, Task>
    requires parent.Some? ==> parent.value in w.tasks
  {
    if parent.None? then w.tasks[id := task]
    else w.tasks[parent.value := w.tasks[parent.value].(treeChanged := true)][id := task]
  }

  function PutChildren(w: World, id: TaskId, parent: Option<TaskId>): map<TaskId, set<TaskId>> {
    if parent.None? then w.children else w.children[parent.value := Kids(w, parent.value) + {id}]
  }

  predicate Admissible(w: World, sub: Submission) {
    sub.id !in w.tasks && Admission(w, sub.parent, sub.owner).None?
  }

  /** put followed by schedule, which the callers run without suspending in between. */
  function Put(w: World, sub: Submission): World
    requires Admissible(w, sub)
  {
    w.(tasks := PutTasks(w, sub.id, sub.parent, NewTask(w, sub)),
       live := w.live + {sub.id},
       children := PutChildren(w, sub.id, sub.parent))
  }

  function Skip(d: DeliveryState): DeliveryState {
    if Open(d) then Skipped else d
  }

  /** What cancel does to the one record it is called on. */
  function Marked(t: Task, skip: bool): Task {
    t.(accepting := false,
       cancelRequested := true,
       deliveryState := if skip then Skip(t.deliveryState) else t.deliveryState,
       treeChanged := t.treeChanged || (t.ownFinished && !Terminal(t.status)))
  }

  /** Every active strict descendant of `id` is marked, with its delivery skipped. */
  ghost function MarkBelow(w: World, id: TaskId): World
    requires Linked(w) && id in w.tasks
  {
    w.(tasks := map d | d in w.tasks ::
         if d != id && d in w.live && Under(w, id, d) then Marked(w.tasks[d], true) else w.tasks[d])
  }

  ghost function Cancel(w: World, id: TaskId, skip: bool): World
    requires Linked(w) && id in w.tasks
  {
    var below := MarkBelow(w, id);
    below.(tasks := below.tasks[id := Marked(w.tasks[id], skip)])
  }

  function Notified(t: Task, child: TaskId): Task {
    t.(notices := t.notices + [child], treeChanged := true)
  }

  /** Whether the terminal transition of a task queues a notice with its parent. */
  predicate Reports(w: World, id: TaskId)
    requires id in w.tasks
  {
    var parent := w.tasks[id].link.parent;
    && parent.Some? && Registered(w, parent.value) && parent.value in w.tasks
    && w.tasks[parent.value].accepting && !Terminal(w.tasks[parent.value].status)
  }

  function DeliveryAtFinish(w: World, id: TaskId): DeliveryState
    requires id in w.tasks
  {
    var t := w.tasks[id];
    if Reports(w, id) then Delivered
    else if t.link.parent.Some? && Registered(w, t.link.parent.value) then Skip(t.deliveryState)
    else t.deliveryState
  }

  /** The terminal transition: notify an accepting parent, otherwise drop the delivery. */
  function Finish(w: World, id: TaskId, status: FinalStatus): World
    requires id in w.tasks
  {
    var t := w.tasks[id];
    var done := t.(status := status, suspended := false, deliveryState := DeliveryAtFinish(w, id));
    var notified := if !Reports(w, id) then w.tasks
                    else w.tasks[t.link.parent.value := Notified(w.tasks[t.link.parent.value], id)];
    w.(tasks := notified[id := done], live := w.live - {id}, stored := w.stored + {id},
       tickets := if t.link.parent.None? then w.tickets + {id} else w.tickets)
  }

  /** The body of the wait-for-children loop: suspend on a cleared event, or finish. */
  function Settle(w: World, id: TaskId): World
    requires id in w.tasks
  {
    var t := w.tasks[id];
    if ActiveChildren(w, id) != {} then
      w.(tasks := w.tasks[id := t.(status := WaitingChildren, treeChanged := false, suspended := true)])
    else
      Finish(w, id, if t.cancelRequested then Cancelled else t.outcome)
  }

  /** The coroutine of the task returned, raised, or was cancelled. */
  ghost function OwnWorkEnds(w: World, id: TaskId, outcome: FinalStatus): World
    requires Linked(w) && id in w.tasks
  {
    var t := w.tasks[id];
    var closed := if outcome == Done then w else MarkBelow(w, id);
    Settle(closed.(tasks := closed.tasks[id := t.(ownFinished := true, outcome := outcome, suspended := false,
                                                  accepting := t.accepting && outcome == Done)]), id)
  }

  function Resume(w: World, id: TaskId): World
    requires id in w.tasks
  {
    Settle(w.(tasks := w.tasks[id := w.tasks[id].(suspended := false)]), id)
  }

  /** A subagent with nothing left to do waits for its children or their notices. */
  function AgentWaits(w: World, id: TaskId): World
    requires id in w.tasks
  {
    w.(tasks := w.tasks[id := w.tasks[id].(status := WaitingChildren, treeChanged := false, suspended := true)])
  }

  function PopNotices(w: World, id: TaskId): World
    requires id in w.tasks
  {
    var t := w.tasks[id];
    w.(tasks := w.tasks[id := t.(notices := [], consumed := t.consumed + t.notices,
                                 status := Running, suspended := false)])
  }

  // ---------------------------------------------------------------- delivery transitions

  function SetDelivery(w: World, id: TaskId, d: DeliveryState): World
    requires id in w.tasks
  {
    w.(tasks := w.tasks[id := w.tasks[id].(deliveryState := d)])
  }

  function QueueOf(w: World, conv: string): seq<TaskId> {
    if conv in w.queues then w.queues[conv] else []
  }

  function Enqueue(w: World, conv: string, id: TaskId): World {
    if id in QueueOf(w, conv) then w else w.(queues := w.queues[conv := QueueOf(w, conv) + [id]])
  }

  /** What the delivery coroutine makes of a pending delivery; an owner that does not parse raises. */
  function RunVerdict(t: Task, present: bool, suppressed: bool, running: bool): DeliveryState {
    if t.link.delivery == Manual then Skipped
    else if t.link.owner.parts.None? then Pending
    else if t.link.delivery == ToConversation && !t.link.agent && present && suppressed then Skipped
    else if t.link.delivery == ToConversation && present && running then Queued
    else Delivered
  }

  /** The effects of moving a delivery on: queued ids are noted, a delivered one is sent. */
  function MoveDelivery(w: World, id: TaskId, d: DeliveryState): World
    requires id in w.tasks && (d == Queued ==> w.tasks[id].link.owner.parts.Some?)
  {
    var moved := SetDelivery(w, id, d);
    if d == Queued then Enqueue(moved, w.tasks[id].link.owner.parts.value.conversation, id)
    else if d == Delivered then moved.(wakeups := w.wakeups + [id])
    else moved
  }

  /** The delivery coroutine of a finished root, once its delivery is not held. */
  function RunDelivery(w: World, id: TaskId, present: bool, suppressed: bool, running: bool): World
    requires id in w.tasks
  {
    var t := w.tasks[id];
    var ran := w.(tickets := w.tickets - {id});
    if t.deliveryState != Pending then ran
    else MoveDelivery(ran, id, RunVerdict(t, present, suppressed, running))
  }

  function DrainVerdict(t: Task, fails: bool): DeliveryState {
    if t.status == Cancelled && !t.link.agent then Skipped
    else if fails || t.link.owner.parts.None? then Skipped
    else Delivered
  }

  function DrainOne(w: World, id: TaskId, fails: bool): World {
    if Registered(w, id) && id in w.tasks
       && (w.tasks[id].deliveryState == Pending || w.tasks[id].deliveryState == Queued)
    then MoveDelivery(w, id, DrainVerdict(w.tasks[id], fails))
    else w
  }

  function DrainAll(w: World, ids: seq<TaskId>, failing: set<TaskId>): World
    decreases |ids|
  {
    if ids == [] then w else DrainAll(DrainOne(w, ids[0], ids[0] in failing), ids[1..], failing)
  }

  function Drain(w: World, conv: string, failing: set<TaskId>): World {
    DrainAll(w.(queues := w.queues[conv := []]), QueueOf(w, conv), failing)
  }

  /** The owner test used when a conversation's deliveries are skipped is a substring test. */
  predicate OwnedBy(owner: Owner, conv: string) {
    Find(owner.text, ":conv:" + conv).Some?
  }

  predicate Skippable(w: World, id: TaskId, conv: string, ids: seq<TaskId>)
    requires id in w.tasks
  {
    var t := w.tasks[id];
    && Registered(w, id)
    && !t.link.agent
    && (id in ids || (t.link.delivery == ToConversation && OwnedBy(t.link.owner, conv)))
  }

  function SkipConversation(w: World, conv: string, ids: seq<TaskId>): World {
    w.(tasks := map d | d in w.tasks ::
         if Skippable(w, d, conv, ids) then w.tasks[d].(deliveryState := Skip(w.tasks[d].deliveryState))
         else w.tasks[d])
  }

  function AgentsOf(w: World, ids: seq<TaskId>): seq<TaskId> {
    if ids == [] then []
    else (if Registered(w, ids[0]) && ids[0] in w.tasks && w.tasks[ids[0]].link.agent then [ids[0]] else [])
         + AgentsOf(w, ids[1..])
  }

  /** Interrupting a conversation keeps the queued agent results and skips the rest. */
  function Suppress(w: World, conv: string): World {
    var ids := QueueOf(w, conv);
    SkipConversation(w.(queues := w.queues[conv := AgentsOf(w, ids)]), conv, ids)
  }

  // ---------------------------------------------------------------- steps and runs

  datatype Step =
    | DoPut(sub: Submission)
    | DoCancel(id: TaskId, skip: bool)
    | DoOwnWorkEnds(id: TaskId, outcome: FinalStatus)
    | DoResume(id: TaskId)
    | DoAgentWaits(id: TaskId)
    | DoPopNotices(id: TaskId)
    | DoDieUnstarted(id: TaskId)
    | DoEvict(ids: set<TaskId>)
    | DoRelease(id: TaskId, deliver: bool)
    | DoRunDelivery(id: TaskId, present: bool, suppressed: bool, running: bool)
    | DoDrain(conv: string, failing: set<TaskId>)
    | DoSuppress(conv: string)
    | DoClose(conv: string)
    | DoRequeue(id: TaskId, conv: string)
    | DoSkipFinished(id: TaskId)

  /** When a step can happen. */
  ghost predicate Enabled(w: World, step: Step) {
    match step
    case DoPut(sub) => Admissible(w, sub)
    case DoCancel(id, _) => id in w.tasks && Registered(w, id)
    case DoOwnWorkEnds(id, _) => id in w.tasks && id in w.live && !w.tasks[id].ownFinished
    case DoResume(id) =>
      id in w.tasks && id in w.live && w.tasks[id].suspended && w.tasks[id].ownFinished && w.tasks[id].treeChanged
    case DoAgentWaits(id) =>
      && id in w.tasks && id in w.live && !w.tasks[id].ownFinished && !w.tasks[id].suspended
      && w.tasks[id].notices == [] && ActiveChildren(w, id) != {}
    case DoPopNotices(id) =>
      && id in w.tasks && id in w.live && !w.tasks[id].ownFinished
      && (w.tasks[id].suspended ==> w.tasks[id].treeChanged)
    case DoDieUnstarted(id) =>
      && id in w.tasks && id in w.live && !w.tasks[id].ownFinished && w.tasks[id].cancelRequested
      && ActiveChildren(w, id) == {}
    case DoEvict(ids) => ids <= w.stored
    case DoRelease(id, _) => id in w.tasks
    case DoRunDelivery(id, _, _, _) => id in w.tasks && id in w.tickets && w.tasks[id].deliveryState != Held
    case DoRequeue(id, _) => id in w.wakeups
    case DoSkipFinished(id) => id in w.tasks && Terminal(w.tasks[id].status)
    case _ => true
  }

  ghost function Next(w: World, step: Step): World
    requires Linked(w) && Enabled(w, step)
  {
    match step
    case DoPut(sub) => Put(w, sub)
    case DoCancel(id, skip) => Cancel(w, id, skip)
    case DoOwnWorkEnds(id, outcome) => OwnWorkEnds(w, id, outcome)
    case DoResume(id) => Resume(w, id)
    case DoAgentWaits(id) => AgentWaits(w, id)
    case DoPopNotices(id) => PopNotices(w, id)
    case DoDieUnstarted(id) => Finish(w, id, Cancelled)
    case DoEvict(ids) => w.(stored := w.stored - ids)
    case DoRelease(id, deliver) =>
      if w.tasks[id].deliveryState == Held then SetDelivery(w, id, if deliver then Pending else Skipped) else w
    case DoRunDelivery(id, present, suppressed, running) => RunDelivery(w, id, present, suppressed, running)
    case DoDrain(conv, failing) => Drain(w, conv, failing)
    case DoSuppress(conv) => Suppress(w, conv)
    case DoClose(conv) => SkipConversation(w.(queues := w.queues[conv := []]), conv, QueueOf(w, conv))
    case DoRequeue(id, conv) =>
      var q := Enqueue(w, conv, id);
      if id in w.tasks && w.tasks[id].deliveryState == Pending then SetDelivery(q, id, Queued) else q
    case DoSkipFinished(id) => SetDelivery(w, id, Skipped)
  }

  /** `steps` leads from `w` to `v`, every intermediate step being enabled. */
  ghost predicate Runs(w: World, steps: seq<Step>, v: World)
    decreases |steps|
  {
    if steps == [] then w == v
    else Linked(w) && Enabled(w, steps[0]) && Runs(Next(w, steps[0]), steps[1..], v)
  }

  ghost predicate Reachable(w: World) {
    exists steps :: Runs(Empty, steps, w)
  }
}
