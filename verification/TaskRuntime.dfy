/** The records, dicts and methods of runtime/tasks.py, proved against the transitions of TaskModel. */
module TaskRuntime {
  import opened Basics
  import opened TaskModel
  import opened TaskTree
  import opened TaskTheorems
  import opened TaskCancel
  import opened TaskDescent

  // ---------------------------------------------------------------- intermediate worlds of one method

  function ChildAdded(w: World, p: TaskId, child: TaskId): World
    requires p in w.tasks
  {
    w.(children := w.children[p := Kids(w, p) + {child}], tasks := w.tasks[p := w.tasks[p].(treeChanged := true)])
  }

  lemma PutInSteps(w: World, sub: Submission)
    requires Admissible(w, sub)
    ensures var u := if sub.parent.Some? then ChildAdded(w, sub.parent.value, sub.id) else w;
            TaskModel.Put(w, sub) == u.(live := u.live + {sub.id}, tasks := u.tasks[sub.id := NewTask(w, sub)])
  {
  }

  /** The parent has been told, or the child's delivery dropped. */
  function Reported(w: World, i: TaskId): World
    requires i in w.tasks
  {
    var p := w.tasks[i].link.parent;
    w.(tasks := (if Reports(w, i) then w.tasks[p.value := Notified(w.tasks[p.value], i)] else w.tasks)
                [i := w.tasks[i].(deliveryState := DeliveryAtFinish(w, i))])
  }

  /** The parent is told first and the child's delivery is marked then. */
  lemma ReportedTold(w: World, i: TaskId, p: TaskId, v: World)
    requires i in w.tasks && Reports(w, i) && w.tasks[i].link.parent == Some(p) && p != i
    requires v == w.(tasks := w.tasks[p := Notified(w.tasks[p], i)])
    ensures v.(tasks := v.tasks[i := v.tasks[i].(deliveryState := Delivered)]) == Reported(w, i)
  {
  }

  lemma ReportedSkipped(w: World, i: TaskId)
    requires i in w.tasks && !Reports(w, i) && Open(w.tasks[i].deliveryState)
    requires w.tasks[i].link.parent.Some? && Registered(w, w.tasks[i].link.parent.value)
    ensures w.(tasks := w.tasks[i := w.tasks[i].(deliveryState := Skipped)]) == Reported(w, i)
  {
  }

  lemma ReportedNot(w: World, i: TaskId)
    requires i in w.tasks && !Reports(w, i)
    requires Open(w.tasks[i].deliveryState) ==>
               w.tasks[i].link.parent.None? || !Registered(w, w.tasks[i].link.parent.value)
    ensures Reported(w, i) == w
  {
    MapsEqual(Reported(w, i).tasks, w.tasks);
  }

  function Terminated(w: World, i: TaskId, status: FinalStatus): World
    requires i in w.tasks
  {
    w.(tasks := w.tasks[i := w.tasks[i].(status := status, suspended := false)])
  }

  lemma TerminatedLinks(w: World, i: TaskId, status: FinalStatus)
    requires Linked(w) && i in w.tasks
    ensures Linked(Terminated(w, i, status)) && Terminated(w, i, status).tasks[i].link == w.tasks[i].link
  {
    var u := Terminated(w, i, status);
    forall d | d in u.tasks ensures LinkOk(u, d) { LinksCarry(w, u, d); }
  }

  lemma TerminatedReports(w: World, i: TaskId, status: FinalStatus)
    requires Linked(w) && i in w.tasks
    ensures var u := Terminated(w, i, status);
            Reports(u, i) == Reports(w, i) && DeliveryAtFinish(u, i) == DeliveryAtFinish(w, i)
  {
    assert LinkOk(w, i);
  }

  lemma FinishInSteps(w: World, i: TaskId, status: FinalStatus)
    requires Linked(w) && i in w.tasks
    ensures TaskModel.Finish(w, i, status) ==
              Reported(Terminated(w, i, status), i).(
                live := w.live - {i}, stored := w.stored + {i},
                tickets := if w.tasks[i].link.parent.None? then w.tickets + {i} else w.tickets)
  {
    var u := Terminated(w, i, status);
    assert LinkOk(w, i);
    TerminatedReports(w, i, status);
    if Reports(w, i) {
      var p := w.tasks[i].link.parent.value;
      assert u.tasks[p := Notified(u.tasks[p], i)] == w.tasks[p := Notified(w.tasks[p], i)][i := u.tasks[i]];
    }
    assert Reported(u, i).tasks == TaskModel.Finish(w, i, status).tasks;
  }

  /** The open deliveries of the tasks in `done` have been skipped. */
  function SkipAll(w: World, done: set<TaskId>): World {
    w.(tasks := map d | d in w.tasks ::
         if d in done then w.tasks[d].(deliveryState := Skip(w.tasks[d].deliveryState)) else w.tasks[d])
  }

  lemma SkipNone(w: World)
    ensures SkipAll(w, {}) == w
  {
  }

  lemma SkipMore(w: World, done: set<TaskId>, d: TaskId)
    requires d in w.tasks
    ensures var t := SkipAll(w, done).tasks[d];
            SkipAll(w, done + {d}) ==
              SkipAll(w, done).(tasks := SkipAll(w, done).tasks[d := t.(deliveryState := Skip(t.deliveryState))])
  {
  }

  function Listed(ids: seq<TaskId>): set<TaskId> {
    set d | d in ids
  }

  /** The tasks whose delivery is skipped with a conversation. */
  function SkippedWith(w: World, conv: string, ids: seq<TaskId>): set<TaskId> {
    set d | d in w.tasks && Skippable(w, d, conv, ids)
  }

  lemma SkipAllIsSkipConversation(w: World, conv: string, ids: seq<TaskId>)
    ensures SkipAll(w, SkippedWith(w, conv, ids)) == TaskModel.SkipConversation(w, conv, ids)
  {
  }

  class RuntimeTaskRecord {
    const id: TaskId
    const owner: Owner
    const agent: bool
    const delivery: Delivery
    const parent: Option<TaskId>
    var root: TaskId
    var status: Status
    var outcome: FinalStatus
    var accepting: bool
    var ownFinished: bool
    var cancelRequested: bool
    var treeChanged: bool
    var suspended: bool
    var notices: seq<TaskId>
    var deliveryState: DeliveryState
    ghost var consumed: seq<TaskId>
    ghost var born: nat

    ghost function Fields(): Task
      reads this
    {
      Task(Link(parent, root, owner, agent, delivery, born), status, outcome, accepting, ownFinished,
           cancelRequested, treeChanged, suspended, notices, consumed, deliveryState)
    }

    constructor (sub: Submission)
      ensures id == sub.id && owner == sub.owner && agent == sub.agent && delivery == sub.delivery
      ensures parent == sub.parent && status == Running && outcome == Done && accepting && !ownFinished
      ensures !cancelRequested && !treeChanged && !suspended && notices == [] && consumed == []
      ensures deliveryState == if sub.held then Held else Pending
    {
      id, owner, agent, delivery, parent := sub.id, sub.owner, sub.agent, sub.delivery, sub.parent;
      root, status, outcome := "", Running, Done;
      accepting, ownFinished, cancelRequested, treeChanged, suspended := true, false, false, false, false;
      notices, consumed, born := [], [], 0;
      deliveryState := if sub.held then Held else Pending;
    }

    /** The record becomes part of the registry; its root is its own id or its parent's root. */
    method Enter(root: TaskId, ghost born: nat)
      modifies this
      ensures Fields() == old(Fields()).(link := old(Fields()).link.(root := root, born := born))
    {
      this.root := root;
      this.born := born;
    }

    method SetTreeChanged()
      modifies this
      ensures Fields() == old(Fields()).(treeChanged := true)
    {
      treeChanged := true;
    }

    method QueueChildNotice(child: TaskId)
      modifies this
      ensures Fields() == Notified(old(Fields()), child)
    {
      notices := notices + [child];
      treeChanged := true;
    }

    method PopChildNotices() returns (popped: seq<TaskId>)
      modifies this
      ensures popped == old(notices)
      ensures Fields() == old(Fields()).(notices := [], consumed := old(consumed) + popped)
    {
      popped := notices;
      consumed := consumed + popped;
      notices := [];
    }

    method SetDeliveryState(d: DeliveryState)
      modifies this
      ensures Fields() == old(Fields()).(deliveryState := d)
    {
      deliveryState := d;
    }

    /** A held delivery becomes pending or skipped; any other is left alone. */
    method ReleaseHeldDelivery(deliver: bool)
      modifies this
      ensures Fields() == if old(deliveryState) == Held
                          then old(Fields()).(deliveryState := if deliver then Pending else Skipped) else old(Fields())
    {
      if deliveryState != Held {
        return;
      }
      deliveryState := if deliver then Pending else Skipped;
    }

    /** The part of cancel that concerns the record itself, up to the recursion into its children. */
    method RefuseChildren(skip: bool)
      modifies this
      ensures Fields() == old(Fields()).(accepting := false, cancelRequested := true,
                deliveryState := if skip then Skip(old(deliveryState)) else old(deliveryState))
    {
      accepting := false;
      cancelRequested := true;
      if skip && Open(deliveryState) {
        if deliveryState == Held {
          ReleaseHeldDelivery(false);
        } else {
          deliveryState := Skipped;
        }
      }
    }

    method BecomeTerminal(status: FinalStatus)
      modifies this
      ensures Fields() == old(Fields()).(status := status, suspended := false)
    {
      this.status := status;
      suspended := false;
    }

    /** Go to sleep on the cleared event. */
    method Suspend()
      modifies this
      ensures Fields() == old(Fields()).(status := WaitingChildren, treeChanged := false, suspended := true)
    {
      status := WaitingChildren;
      treeChanged := false;
      suspended := true;
    }

    method WakeUp()
      modifies this
      ensures Fields() == old(Fields()).(suspended := false)
    {
      suspended := false;
    }

    /** Going on with the notices there are. */
    method TakeNotices() returns (popped: seq<TaskId>)
      modifies this
      ensures popped == old(notices)
      ensures Fields() == old(Fields()).(notices := [], consumed := old(consumed) + popped, status := Running,
                suspended := false)
    {
      popped := PopChildNotices();
      status := Running;
      suspended := false;
    }

    /** The coroutine is over; a failed or cancelled task refuses further children. */
    method EndOwnWork(outcome: FinalStatus)
      modifies this
      ensures Fields() == old(Fields()).(ownFinished := true, outcome := outcome, suspended := false,
                                         accepting := old(accepting) && outcome == Done)
    {
      this.outcome := outcome;
      if outcome != Done {
        accepting := false;
      }
      ownFinished := true;
      suspended := false;
    }
  }

  class Runtime {
    var records: map<TaskId, RuntimeTaskRecord>
    var terminalRecords: map<TaskId, RuntimeTaskRecord>
    var children: map<TaskId, set<TaskId>>
    var tickets: set<TaskId>
    var queues: map<string, seq<TaskId>>
    ghost var all: map<TaskId, RuntimeTaskRecord>
    ghost var world: World

    /** Record `i` has the fields the world says it has, and the dicts that name it hold it. */
    ghost predicate Has(i: TaskId)
      reads this, all.Values
    {
      && i in all && i in world.tasks
      && all[i].id == i && world.tasks[i] == all[i].Fields()
      && (i in records ==> records[i] == all[i])
      && (i in terminalRecords ==> terminalRecords[i] == all[i])
    }

    ghost predicate Dicts()
      reads this
    {
      && all.Keys == world.tasks.Keys
      && records.Keys == world.live && terminalRecords.Keys == world.stored
      && children == world.children && tickets == world.tickets && queues == world.queues
      && records.Keys <= all.Keys && terminalRecords.Keys <= all.Keys
    }

    /** The concrete state is the one `world` describes, except perhaps for record `i`. */
    ghost predicate WiredBut(but: Option<TaskId>)
      reads this, all.Values
    {
      Dicts() && forall i {:trigger Has(i)} :: i in all && but != Some(i) ==> Has(i)
    }

    ghost predicate Wired()
      reads this, all.Values
    {
      WiredBut(None)
    }

    ghost predicate Valid()
      reads this, all.Values
    {
      Wired() && Inv(world)
    }

    constructor ()
      ensures Valid() && world == Empty
    {
      records, terminalRecords, children, tickets, queues, all := map[], map[], map[], {}, map[], map[];
      world := Empty;
      new;
      assert Runs(Empty, [], Empty);
      ReachableInv(Empty);
    }

    /** Bring the world up to date with the one record that was written. */
    ghost method Note(i: TaskId)
      requires i in all && i in world.tasks && all[i].id == i && WiredBut(Some(i))
      requires (i in records ==> records[i] == all[i]) && (i in terminalRecords ==> terminalRecords[i] == all[i])
      modifies this`world
      ensures Wired() && world == old(world).(tasks := old(world).tasks[i := all[i].Fields()])
    {
      world := world.(tasks := world.tasks[i := all[i].Fields()]);
      forall j | j in all ensures Has(j) {
        assert j != i ==> old(Has(j));
      }
    }

    /** Writing one record leaves all the others as the world has them. */
    twostate lemma Others(i: TaskId)
      requires old(Wired()) && unchanged(this) && i in all
      requires forall r: RuntimeTaskRecord :: r in all.Values && r != all[i] ==> unchanged(r)
      ensures WiredBut(Some(i)) && old(Has(i)) && i in world.tasks
    {
      assert old(Has(i));
      forall j | j in all && j != i ensures Has(j) {
        assert old(Has(j)) && all[j] in all.Values;
      }
    }

    predicate Contains(i: TaskId)
      reads this
    {
      i in records || i in terminalRecords
    }

    function Get(i: TaskId): RuntimeTaskRecord
      requires Contains(i)
      reads this
    {
      if i in records then records[i] else terminalRecords[i]
    }

    /** `record` is registered here, now or in the past. */
    ghost predicate Mine(record: RuntimeTaskRecord)
      reads this
    {
      record.id in all && all[record.id] == record
    }

    // One write to one record each, with the world following.

    method Tell(record: RuntimeTaskRecord, child: TaskId)
      requires Wired() && Mine(record)
      modifies record, this`world
      ensures Wired() && record.id in old(world).tasks
      ensures var t := old(world).tasks[record.id];
              world == old(world).(tasks := old(world).tasks[record.id := Notified(t, child)])
    {
      record.QueueChildNotice(child);
      Others(record.id);
      Note(record.id);
    }

    method Signal(record: RuntimeTaskRecord)
      requires Wired() && Mine(record)
      modifies record, this`world
      ensures Wired() && record.id in old(world).tasks
      ensures var t := old(world).tasks[record.id];
              world == old(world).(tasks := old(world).tasks[record.id := t.(treeChanged := true)])
    {
      record.SetTreeChanged();
      Others(record.id);
      Note(record.id);
    }

    method SetDeliveryState(record: RuntimeTaskRecord, d: DeliveryState)
      requires Wired() && Mine(record)
      modifies record, this`world
      ensures Wired() && record.id in old(world).tasks
      ensures var t := old(world).tasks[record.id];
              world == old(world).(tasks := old(world).tasks[record.id := t.(deliveryState := d)])
    {
      record.SetDeliveryState(d);
      Others(record.id);
      Note(record.id);
    }

    method Refuse(record: RuntimeTaskRecord, skip: bool)
      requires Wired() && Mine(record)
      modifies record, this`world
      ensures Wired() && record.id in old(world).tasks
      ensures var t := old(world).tasks[record.id];
              world == old(world).(tasks := old(world).tasks[record.id := t.(
                accepting := false, cancelRequested := true,
                deliveryState := if skip then Skip(t.deliveryState) else t.deliveryState)])
    {
      record.RefuseChildren(skip);
      Others(record.id);
      Note(record.id);
    }

    method Terminate(record: RuntimeTaskRecord, status: FinalStatus)
      requires Wired() && Mine(record)
      modifies record, this`world
      ensures Wired() && record.id in old(world).tasks
      ensures var t := old(world).tasks[record.id];
              world == old(world).(tasks := old(world).tasks[record.id := t.(status := status, suspended := false)])
    {
      record.BecomeTerminal(status);
      Others(record.id);
      Note(record.id);
    }

    method Suspend(record: RuntimeTaskRecord)
      requires Wired() && Mine(record)
      modifies record, this`world
      ensures Wired() && record.id in old(world).tasks
      ensures var t := old(world).tasks[record.id];
              world == old(world).(tasks := old(world).tasks[record.id := t.(
                status := WaitingChildren, treeChanged := false, suspended := true)])
    {
      record.Suspend();
      Others(record.id);
      Note(record.id);
    }

    method Wake(record: RuntimeTaskRecord)
      requires Wired() && Mine(record)
      modifies record, this`world
      ensures Wired() && record.id in old(world).tasks
      ensures var t := old(world).tasks[record.id];
              world == old(world).(tasks := old(world).tasks[record.id := t.(suspended := false)])
    {
      record.WakeUp();
      Others(record.id);
      Note(record.id);
    }

    method EndOwn(record: RuntimeTaskRecord, outcome: FinalStatus)
      requires Wired() && Mine(record)
      modifies record, this`world
      ensures Wired() && record.id in old(world).tasks
      ensures var t := old(world).tasks[record.id];
              world == old(world).(tasks := old(world).tasks[record.id := t.(
                ownFinished := true, outcome := outcome, suspended := false,
                accepting := t.accepting && outcome == Done)])
    {
      record.EndOwnWork(outcome);
      Others(record.id);
      Note(record.id);
    }

    method Take(record: RuntimeTaskRecord) returns (popped: seq<TaskId>)
      requires Wired() && Mine(record)
      modifies record, this`world
      ensures Wired() && record.id in old(world).tasks && popped == old(world).tasks[record.id].notices
      ensures world == TaskModel.PopNotices(old(world), record.id)
    {
      assert Has(record.id);
      popped := record.TakeNotices();
      Others(record.id);
      Note(record.id);
    }

    /** The children that are registered and not terminal. */
    method ActiveChildren(i: TaskId) returns (active: set<TaskId>)
      requires Wired()
      ensures active == TaskModel.ActiveChildren(world, i)
    {
      active := {};
      var todo := if i in children then children[i] else {};
      ghost var spec := TaskModel.ActiveChildren(world, i);
      while todo != {}
        invariant todo <= Kids(world, i) && active <= spec <= active + todo
        decreases |todo|
      {
        var c :| c in todo;
        todo := todo - {c};
        var here := IsActive(c);
        if here {
          active := active + {c};
        }
      }
    }

    method IsActive(c: TaskId) returns (here: bool)
      requires Wired()
      ensures here == (Registered(world, c) && c in world.tasks && !Terminal(world.tasks[c].status))
    {
      here := false;
      if Contains(c) {
        var child := Get(c);
        assert Has(c);
        here := !Terminal(child.status);
      }
    }

    /** The checks put makes before it admits a record. */
    method CheckParent(sub: Submission) returns (error: Option<PutError>)
      requires Wired()
      ensures error == Admission(world, sub.parent, sub.owner)
    {
      error := None;
      if sub.parent.Some? {
        var p := sub.parent.value;
        if p !in records {
          return Some(ParentNotActive);
        }
        var parent := records[p];
        assert Has(p);
        if Terminal(parent.status) {
          error := Some(ParentNotActive);
        } else if !parent.accepting {
          error := Some(ParentNotAccepting);
        } else if parent.owner.parts.None? || sub.owner.parts.None? {
          error := Some(MalformedOwner);
        } else if !SameActor(sub.owner, parent.owner) {
          error := Some(DifferentActor);
        }
      }
    }

    /** What the parent learns of a finishing child, and what becomes of the child's delivery. */
    method Report(record: RuntimeTaskRecord)
      requires Wired() && Linked(world) && Mine(record)
      modifies all.Values, this`world
      ensures Wired()
      ensures record.id in old(world).tasks && world == Reported(old(world), record.id)
    {
      ghost var w, i := world, record.id;
      assert Has(i);
      assert LinkOk(w, i);
      if record.parent.Some? && Contains(record.parent.value) {
        var parent := Get(record.parent.value);
        assert Has(record.parent.value);
        ReportTo(record, parent);
      } else {
        ReportedNot(w, i);
      }
    }

    /** The parent is registered. */
    method ReportTo(record: RuntimeTaskRecord, parent: RuntimeTaskRecord)
      requires Wired() && Mine(record) && Mine(parent) && record.parent == Some(parent.id) && parent.id != record.id
      requires record.id in world.tasks && Registered(world, parent.id)
      modifies all.Values, this`world
      ensures Wired()
      ensures record.id in old(world).tasks && world == Reported(old(world), record.id)
    {
      ghost var w, i, p := world, record.id, parent.id;
      assert Has(i) && Has(p);
      if parent.accepting && !Terminal(parent.status) {
        Tell(parent, record.id);
        ReportedTold(w, i, p, world);
        SetDeliveryState(record, Delivered);
      } else if Open(record.deliveryState) {
        ReportedSkipped(w, i);
        SetDeliveryState(record, Skipped);
      } else {
        ReportedNot(w, i);
      }
    }

    /** From the active dict to the store of finished records. */
    method MoveToStore(record: RuntimeTaskRecord)
      requires Wired() && Mine(record) && record.id in records
      modifies this`records, this`terminalRecords, this`world
      ensures Wired()
      ensures var w, i := old(world), record.id; world == w.(live := w.live - {i}, stored := w.stored + {i})
    {
      assert Has(record.id);
      records := records - {record.id};
      terminalRecords := terminalRecords[record.id := record];
      world := world.(live := records.Keys, stored := terminalRecords.Keys);
      forall j | j in all ensures Has(j) {
        assert old(Has(j));
      }
    }

    /** A finished root gets its delivery coroutine. */
    method ScheduleTerminalDelivery(record: RuntimeTaskRecord)
      requires Wired()
      modifies this`tickets, this`world
      ensures Wired()
      ensures world == old(world).(tickets :=
                if record.parent.None? then old(world).tickets + {record.id} else old(world).tickets)
    {
      if record.parent.None? {
        tickets := tickets + {record.id};
        world := world.(tickets := tickets);
        forall j | j in all ensures Has(j) { assert old(Has(j)); }
      }
    }

    /** The terminal transition: notices, delivery, and the move to the store of finished records. */
    method Finish(record: RuntimeTaskRecord, status: FinalStatus)
      requires Wired() && Inv(world) && Mine(record) && record.id in records
      requires TaskModel.ActiveChildren(world, record.id) == {}
      modifies this, all.Values
      ensures Wired() && all == old(all)
      ensures record.id in old(world).tasks && world == TaskModel.Finish(old(world), record.id, status)
    {
      ghost var w, i := world, record.id;
      assert Has(i);
      FinishInSteps(w, i, status);
      TerminatedLinks(w, i, status);
      Terminate(record, status);
      Report(record);
      MoveToStore(record);
      ScheduleTerminalDelivery(record);
    }

    /** put followed by schedule: admit a record, or say why not and leave everything as it was. */
    method Put(sub: Submission, record: RuntimeTaskRecord) returns (error: Option<PutError>)
      requires Valid() && sub.id !in all && record !in all.Values && record.id == sub.id
      requires IsNew(record, sub)
      modifies this, all.Values, record
      ensures Valid() && error == Admission(old(world), sub.parent, sub.owner)
      ensures error.Some? ==> world == old(world) && all == old(all)
      ensures error.None? ==> world == TaskModel.Put(old(world), sub) && all == old(all)[sub.id := record]
    {
      error := CheckParent(sub);
      if error.None? {
        ghost var w := world;
        var root := sub.id;
        if sub.parent.Some? {
          root := AddChild(sub.parent.value, sub.id);
        }
        PutInSteps(w, sub);
        Enter(sub, record, root, |w.tasks|);
        StepKeepsInv(w, DoPut(sub));
      }
    }

    method AddChild(p: TaskId, child: TaskId) returns (root: TaskId)
      requires Wired() && p in records
      modifies this`children, this`world, all.Values
      ensures Wired() && p in old(world).tasks && root == old(world).tasks[p].link.root
      ensures world == ChildAdded(old(world), p, child)
    {
      var parent := records[p];
      assert Has(p);
      root := parent.root;
      children := children[p := (if p in children then children[p] else {}) + {child}];
      world := world.(children := children);
      forall j | j in all ensures Has(j) { assert old(Has(j)); }
      Signal(parent);
    }

    /** A record as constructed from a submission, with neither root nor place in the order yet. */
    ghost predicate IsNew(record: RuntimeTaskRecord, sub: Submission)
      reads record
    {
      && record.parent == sub.parent && record.owner == sub.owner && record.agent == sub.agent
      && record.delivery == sub.delivery
      && record.Fields() == Task(record.Fields().link, Running, Done, true, false, false, false, false, [], [],
                                 if sub.held then Held else Pending)
    }

    method Enter(sub: Submission, record: RuntimeTaskRecord, root: TaskId, ghost born: nat)
      requires Wired() && sub.id !in all && record !in all.Values && record.id == sub.id && IsNew(record, sub)
      modifies this, record
      ensures Wired() && all == old(all)[sub.id := record]
      ensures world == old(world).(live := old(world).live + {sub.id}, tasks := old(world).tasks[sub.id :=
                Task(Link(sub.parent, root, sub.owner, sub.agent, sub.delivery, born), Running, Done,
                     true, false, false, false, false, [], [], if sub.held then Held else Pending)])
    {
      record.Enter(root, born);
      Register(record);
    }

    method Register(record: RuntimeTaskRecord)
      requires Wired() && record.id !in all && record !in all.Values
      modifies this
      ensures Wired() && all == old(all)[record.id := record]
      ensures world == old(world).(live := old(world).live + {record.id},
                tasks := old(world).tasks[record.id := record.Fields()])
    {
      all := all[record.id := record];
      records := records[record.id := record];
      world := world.(live := records.Keys, tasks := world.tasks[record.id := record.Fields()]);
      forall j | j in all ensures Has(j) {
        assert j != record.id ==> old(Has(j));
      }
    }

    /** Cancel the active children of a record, each with its tree. */
    method CancelChildren(record: RuntimeTaskRecord)
      requires Wired() && Inv(world) && Mine(record) && record.id in world.tasks
      modifies all.Values, this`world
      ensures Wired() && record.id in old(world).tasks && world == MarkBelow(old(world), record.id)
      decreases |world.tasks| - world.tasks[record.id].link.born, 0
    {
      ghost var u := world;
      assert BookOk(u, record.id);
      var kids := ActiveChildren(record.id);
      CancelEach(kids, u, record.id);
      ChildrenCoverTree(u, record.id);
    }

    method CancelEach(kids: set<TaskId>, ghost u: World, ghost r: TaskId)
      requires Wired() && world == u && Inv(u) && r in u.tasks && kids == TaskModel.ActiveChildren(u, r)
      requires u.tasks[r].link.born < |u.tasks|
      modifies all.Values, this`world
      ensures Wired() && world == MarkUnder(u, kids)
      decreases |u.tasks| - u.tasks[r].link.born - 1, 3
    {
      var todo := kids;
      ghost var done: set<TaskId> := {};
      MarkUnderNone(u);
      while todo != {}
        invariant Wired() && todo <= kids <= todo + done <= kids
        invariant world == MarkUnder(u, done)
        decreases |todo|
      {
        var c :| c in todo;
        CancelChild(u, done, r, c);
        todo, done := todo - {c}, done + {c};
      }
      assert done == kids;
    }

    method CancelChild(ghost u: World, ghost done: set<TaskId>, ghost r: TaskId, c: TaskId)
      requires Wired() && Inv(u) && r in u.tasks && c in TaskModel.ActiveChildren(u, r) && world == MarkUnder(u, done)
      modifies all.Values, this`world
      ensures Wired() && world == MarkUnder(u, done + {c})
      decreases |u.tasks| - u.tasks[r].link.born - 1, 2
    {
      ChildIsSmaller(u, done, r, c);
      MarkUnderMore(u, done, c);
      assert Has(c);
      Cancel(Get(c), true);
    }

    /** What the recursion into one child relies on. */
    lemma ChildIsSmaller(u: World, done: set<TaskId>, r: TaskId, c: TaskId)
      requires Inv(u) && r in u.tasks && c in TaskModel.ActiveChildren(u, r)
      ensures var v := MarkUnder(u, done);
              && Inv(v) && c in v.tasks && c in u.tasks && c in u.live
              && |v.tasks| - v.tasks[c].link.born < |u.tasks| - u.tasks[r].link.born
              && v.tasks[c].link.born < |v.tasks|
    {
      MarkUnderGentle(u, done);
      assert IndexOk(u, r, c) && LinkOk(u, c) && BookOk(u, c) && Evolves(u.tasks[c], MarkUnder(u, done).tasks[c]);
    }

    /** Refuse children, cancel the tree below, then wake or interrupt the coroutine. */
    method Cancel(record: RuntimeTaskRecord, skip: bool)
      requires Wired() && Inv(world) && Mine(record) && record.id in world.tasks
      modifies all.Values, this`world
      ensures Wired() && record.id in old(world).tasks && world == TaskModel.Cancel(old(world), record.id, skip)
      decreases |world.tasks| - world.tasks[record.id].link.born, 1
    {
      ghost var w, r := world, record.id;
      Refuse(record, skip);
      RefusedGentle(w, r, skip);
      CancelInSteps(w, r, skip);
      CancelChildren(record);
      MarkedInSteps(w, r, skip);
      SignalIfWaiting(record);
    }

    /** A record whose own work is over waits for its children and is woken; any other coroutine is interrupted. */
    method SignalIfWaiting(record: RuntimeTaskRecord)
      requires Wired() && Mine(record)
      modifies record, this`world
      ensures Wired() && record.id in old(world).tasks
      ensures var t := old(world).tasks[record.id];
              world == old(world).(tasks := old(world).tasks[record.id :=
                         if record.id in old(world).live && t.ownFinished then t.(treeChanged := true) else t])
    {
      assert Has(record.id);
      if record.id in records && record.ownFinished {
        Signal(record);
      } else {
        MapsEqual(world.tasks[record.id := world.tasks[record.id]], world.tasks);
      }
    }

    // ---------------------------------------------------------------- the life of one coroutine

    /** The loop that waits for children: suspend while there are active ones, else finish. */
    method WaitForChildren(record: RuntimeTaskRecord)
      requires Wired() && Inv(world) && Mine(record) && record.id in records
      modifies this, all.Values
      ensures Wired() && all == old(all)
      ensures record.id in old(world).tasks && world == Settle(old(world), record.id)
    {
      assert Has(record.id);
      var active := ActiveChildren(record.id);
      if active != {} {
        Suspend(record);
      } else {
        Finish(record, if record.cancelRequested then Cancelled else record.outcome);
      }
    }

    /** _run from the end of the task's own coroutine to its next suspension or its terminal state. */
    method OwnWorkEnds(record: RuntimeTaskRecord, outcome: FinalStatus)
      requires Valid() && Mine(record) && record.id in records && !record.ownFinished
      modifies this, all.Values
      ensures Valid() && all == old(all)
      ensures record.id in old(world).tasks && world == TaskModel.OwnWorkEnds(old(world), record.id, outcome)
    {
      ghost var w, i := world, record.id;
      assert Has(i);
      ghost var ended := w.tasks[i].(ownFinished := true, outcome := outcome, suspended := false,
                                     accepting := w.tasks[i].accepting && outcome == Done);
      EndOwn(record, outcome);
      EndedGentle(w, i, ended);
      if outcome != Done {
        MarkBelowCommutes(w, i, ended);
        CancelChildren(record);
      }
      OwnClosedGentle(w, i, outcome);
      GentleKeepsInv(w, OwnClosed(w, i, outcome));
      WaitForChildren(record);
      SettleKeepsInv(OwnClosed(w, i, outcome), i);
    }

    lemma EndedGentle(w: World, i: TaskId, t: Task)
      requires Inv(w) && i in w.tasks && Gentle(w.tasks[i], t)
      ensures Inv(w.(tasks := w.tasks[i := t]))
    {
      GentleKeepsInv(w, w.(tasks := w.tasks[i := t]));
    }

    /** A task woken in the wait for children looks again. */
    method Resume(record: RuntimeTaskRecord)
      requires Valid() && Mine(record) && record.id in records
      requires record.suspended && record.ownFinished && record.treeChanged
      modifies this, all.Values
      ensures Valid() && all == old(all)
      ensures record.id in old(world).tasks && world == TaskModel.Resume(old(world), record.id)
    {
      ghost var w, i := world, record.id;
      assert Has(i);
      Wake(record);
      EndedGentle(w, i, w.tasks[i].(suspended := false));
      ghost var u := world;
      WaitForChildren(record);
      SettleKeepsInv(u, i);
    }

    /**
     A subagent whose model has nothing more to do: it goes on with its notices, or, without any, waits
     for the children it has.
     */
    method AgentPauses(record: RuntimeTaskRecord) returns (waits: bool, popped: seq<TaskId>)
      requires Valid() && Mine(record) && record.id in records && !record.ownFinished && !record.suspended
      modifies record, this`world
      ensures Valid() && record.id in old(world).tasks
      ensures waits <==> Enabled(old(world), DoAgentWaits(record.id))
      ensures waits ==> popped == [] && world == TaskModel.AgentWaits(old(world), record.id)
      ensures !waits ==>
                popped == old(world).tasks[record.id].notices && world == TaskModel.PopNotices(old(world), record.id)
    {
      ghost var w, i := world, record.id;
      assert Has(i);
      var active := ActiveChildren(record.id);
      waits := record.notices == [] && active != {};
      if waits {
        StepKeepsInv(w, DoAgentWaits(i));
        Suspend(record);
        popped := [];
      } else {
        StepKeepsInv(w, DoPopNotices(i));
        popped := Take(record);
      }
    }

    /** A subagent woken by a child, or by its own cancellation, goes on with the notices there are. */
    method AgentGoesOn(record: RuntimeTaskRecord) returns (popped: seq<TaskId>)
      requires Valid() && Mine(record) && record.id in records && !record.ownFinished
      requires record.suspended && record.treeChanged
      modifies record, this`world
      ensures Valid() && record.id in old(world).tasks
      ensures popped == old(world).tasks[record.id].notices && world == TaskModel.PopNotices(old(world), record.id)
    {
      assert Has(record.id);
      StepKeepsInv(world, DoPopNotices(record.id));
      popped := Take(record);
    }

    /** All retained descendants, each once. */
    method Descendants(i: TaskId) returns (result: seq<TaskId>)
      requires Valid()
      ensures Distinct(result)
      ensures forall d :: d in result <==> Below(world, i, d) && Registered(world, d)
    {
      result := [];
      var pending := KidList(i);
      ghost var visited: set<TaskId> := {};
      FrontierStart(world, i, pending);
      while pending != []
        invariant Frontier(world, i, pending, visited) && visited <= world.tasks.Keys
        invariant Distinct(result) && forall d :: d in result <==> d in visited && Registered(world, d)
        decreases world.tasks.Keys - visited
      {
        var c := Last(pending);
        var kids := KidList(c);
        assert c in pending && Below(world, i, c);
        FrontierStep(world, i, pending, visited, kids);
        if Contains(c) {
          DistinctAppend(result, c);
          result := result + [c];
        }
        pending := Front(pending) + kids;
        visited := visited + {c};
      }
    }

    method KidList(i: TaskId) returns (kids: seq<TaskId>)
      requires Wired()
      ensures Distinct(kids) && forall k :: k in kids <==> k in Kids(world, i)
    {
      kids := [];
      var todo := if i in children then children[i] else {};
      while todo != {}
        invariant Distinct(kids) && todo <= Kids(world, i)
        invariant forall k :: k in kids <==> k in Kids(world, i) && k !in todo
        decreases |todo|
      {
        var c :| c in todo;
        kids, todo := kids + [c], todo - {c};
      }
    }

    // ---------------------------------------------------------------- delivery

    method QueueTaskDelivery(conv: string, i: TaskId)
      requires Wired()
      modifies this`queues, this`world
      ensures Wired() && world == Enqueue(old(world), conv, i)
    {
      var queue := if conv in queues then queues[conv] else [];
      if i !in queue {
        SetQueue(conv, queue + [i]);
      }
    }

    method SetQueue(conv: string, queue: seq<TaskId>)
      requires Wired()
      modifies this`queues, this`world
      ensures Wired() && world == old(world).(queues := old(world).queues[conv := queue])
    {
      queues := queues[conv := queue];
      world := world.(queues := queues);
      forall j | j in all ensures Has(j) { assert old(Has(j)); }
    }

    /** One message goes to the actor's mailbox. */
    method DeliverTaskResult(record: RuntimeTaskRecord)
      requires Wired() && Mine(record)
      modifies this`world, record
      ensures Wired() && record.id in old(world).tasks && world == MoveDelivery(old(world), record.id, Delivered)
    {
      SetDeliveryState(record, Delivered);
      Sent(record.id);
    }

    ghost method Sent(i: TaskId)
      requires Wired()
      modifies this`world
      ensures Wired() && world == old(world).(wakeups := old(world).wakeups + [i])
    {
      world := world.(wakeups := world.wakeups + [i]);
      forall j | j in all ensures Has(j) { assert old(Has(j)); }
    }

    /** The delivery coroutine runs; the flags are what the conversation answers. */
    method ScheduleTaskDelivery(record: RuntimeTaskRecord, present: bool, suppressed: bool, running: bool)
      requires Wired() && Mine(record) && record.deliveryState != Held
      modifies this, all.Values
      ensures Wired() && all == old(all)
      ensures record.id in old(world).tasks
      ensures world == RunDelivery(old(world), record.id, present, suppressed, running)
    {
      assert Has(record.id);
      DropTicket(record.id);
      assert Has(record.id);
      if record.deliveryState != Pending {
        return;
      }
      if record.delivery == Manual {
        SetDeliveryState(record, Skipped);
        return;
      }
      if record.owner.parts.None? {
        NothingSent(record.id);
        return;
      }
      if record.delivery == ToConversation && !record.agent && present && suppressed {
        SetDeliveryState(record, Skipped);
        return;
      }
      if record.delivery == ToConversation && present && running {
        SetDeliveryState(record, Queued);
        QueueTaskDelivery(record.owner.parts.value.conversation, record.id);
        return;
      }
      DeliverTaskResult(record);
    }

    lemma NothingSent(i: TaskId)
      requires Wired() && i in world.tasks && world.tasks[i].deliveryState == Pending
      ensures MoveDelivery(world, i, Pending) == world
    {
    }

    method DropTicket(i: TaskId)
      requires Wired()
      modifies this`tickets, this`world
      ensures Wired() && world == old(world).(tickets := old(world).tickets - {i})
    {
      tickets := tickets - {i};
      world := world.(tickets := tickets);
      forall j | j in all ensures Has(j) { assert old(Has(j)); }
    }

    /** A conversation that became idle delivers what was queued; `failing` names the sends that raise. */
    method DrainPendingTaskDeliveries(conv: string, failing: set<TaskId>)
      requires Wired()
      modifies this, all.Values
      ensures Wired() && all == old(all) && world == Drain(old(world), conv, failing)
    {
      var ids := if conv in queues then queues[conv] else [];
      ghost var w := world;
      SetQueue(conv, []);
      var n := 0;
      while n < |ids|
        invariant 0 <= n <= |ids| && Wired() && all == old(all)
        invariant DrainAll(world, ids[n..], failing) == Drain(w, conv, failing)
      {
        DrainOne(ids[n], failing);
        n := n + 1;
      }
    }

    method DrainOne(i: TaskId, failing: set<TaskId>)
      requires Wired()
      modifies this`world, all.Values
      ensures Wired() && world == TaskModel.DrainOne(old(world), i, i in failing)
    {
      if !Contains(i) {
        return;
      }
      var record := Get(i);
      assert Has(i);
      if record.deliveryState != Pending && record.deliveryState != Queued {
        return;
      }
      if record.status == Cancelled && !record.agent {
        SetDeliveryState(record, Skipped);
        return;
      }
      if i in failing || record.owner.parts.None? {
        SetDeliveryState(record, Skipped);
      } else {
        DeliverTaskResult(record);
      }
    }

    method SkipRecord(record: RuntimeTaskRecord, ghost w: World, ghost done: set<TaskId>)
      requires Wired() && Mine(record) && world == SkipAll(w, done) && record.id in w.tasks
      modifies this`world, record
      ensures Wired() && world == SkipAll(w, done + {record.id})
    {
      assert Has(record.id);
      SkipMore(w, done, record.id);
      if Open(record.deliveryState) {
        if record.deliveryState == Held {
          record.ReleaseHeldDelivery(false);
        } else {
          record.SetDeliveryState(Skipped);
        }
        Others(record.id);
        Note(record.id);
      } else {
        MapsEqual(world.tasks[record.id := world.tasks[record.id]], world.tasks);
      }
    }

    /** Skip the listed deliveries and all others of the conversation, except those of agent tasks. */
    method SkipConversationTaskDeliveries(conv: string, ids: seq<TaskId>)
      requires Wired()
      modifies this`world, all.Values
      ensures Wired() && world == TaskModel.SkipConversation(old(world), conv, ids)
    {
      ghost var w := world;
      ghost var done := SkipListed(conv, ids);
      SkipOwned(conv, ids, w, done);
      SkipAllIsSkipConversation(w, conv, ids);
    }

    method SkipListed(ghost conv: string, ids: seq<TaskId>) returns (ghost done: set<TaskId>)
      requires Wired()
      modifies this`world, all.Values
      ensures Wired() && world == SkipAll(old(world), done) && done <= SkippedWith(old(world), conv, ids)
      ensures Listed(ids) * SkippedWith(old(world), conv, ids) <= done
    {
      ghost var w, skipped := world, SkippedWith(world, conv, ids);
      done := {};
      SkipNone(w);
      var n := 0;
      while n < |ids|
        invariant 0 <= n <= |ids| && Wired() && world == SkipAll(w, done) && done <= skipped
        invariant forall k :: 0 <= k < n && ids[k] in skipped ==> ids[k] in done
      {
        done := SkipIfListed(ids[n], conv, ids, w, done);
        n := n + 1;
      }
    }

    method SkipIfListed(d: TaskId, ghost conv: string, ghost ids: seq<TaskId>, ghost w: World, ghost done: set<TaskId>)
      returns (ghost more: set<TaskId>)
      requires Wired() && world == SkipAll(w, done) && d in ids
      modifies this`world, all.Values
      ensures Wired() && world == SkipAll(w, more)
      ensures more == if d in SkippedWith(w, conv, ids) then done + {d} else done
    {
      more := done;
      if Contains(d) {
        var record := Get(d);
        assert Has(d);
        if !record.agent {
          SkipRecord(record, w, done);
          more := done + {d};
        }
      }
    }

    method SkipOwned(conv: string, ghost ids: seq<TaskId>, ghost w: World, ghost before: set<TaskId>)
      requires Wired() && world == SkipAll(w, before) && before <= SkippedWith(w, conv, ids)
      requires Listed(ids) * SkippedWith(w, conv, ids) <= before
      modifies this`world, all.Values
      ensures Wired() && world == SkipAll(w, SkippedWith(w, conv, ids))
    {
      var todo := records.Keys + terminalRecords.Keys;
      SkipEach(todo, conv, ids, w, before);
    }

    method SkipEach(registered: set<TaskId>, conv: string, ghost ids: seq<TaskId>, ghost w: World,
          ghost before: set<TaskId>)
      requires Wired() && world == SkipAll(w, before) && registered == w.live + w.stored
      requires before <= SkippedWith(w, conv, ids)
      requires Listed(ids) * SkippedWith(w, conv, ids) <= before
      modifies this`world, all.Values
      ensures Wired() && world == SkipAll(w, SkippedWith(w, conv, ids))
    {
      ghost var done, skipped := before, SkippedWith(w, conv, ids);
      var todo := registered;
      while todo != {}
        invariant Wired() && world == SkipAll(w, done)
        invariant todo <= registered && before <= done <= skipped <= done + todo
        decreases |todo|
      {
        var d :| d in todo;
        todo := todo - {d};
        done := SkipIfOwned(d, conv, ids, w, done);
      }
      assert done == skipped;
    }

    method SkipIfOwned(d: TaskId, conv: string, ghost ids: seq<TaskId>, ghost w: World, ghost done: set<TaskId>)
      returns (ghost more: set<TaskId>)
      requires Wired() && world == SkipAll(w, done) && d in w.live + w.stored
      requires Listed(ids) * SkippedWith(w, conv, ids) <= done
      modifies this`world, all.Values
      ensures Wired() && world == SkipAll(w, more) && done <= more <= done + {d}
      ensures d in SkippedWith(w, conv, ids) ==> d in more
      ensures d in more ==> d in done || d in SkippedWith(w, conv, ids)
    {
      more := done;
      var record := Get(d);
      assert Has(d);
      if !record.agent && record.delivery == ToConversation && OwnedBy(record.owner, conv) {
        SkipRecord(record, w, done);
        more := done + {d};
      }
    }

    /** Interrupting a conversation: queued agent results stay queued, everything else is skipped. */
    method SuppressConversationTaskDeliveries(conv: string)
      requires Wired()
      modifies this, all.Values
      ensures Wired() && all == old(all) && world == Suppress(old(world), conv)
    {
      var ids := if conv in queues then queues[conv] else [];
      var agents := AgentIds(ids);
      SetQueue(conv, agents);
      SkipConversationTaskDeliveries(conv, ids);
    }

    method AgentIds(ids: seq<TaskId>) returns (agents: seq<TaskId>)
      requires Wired()
      ensures agents == AgentsOf(world, ids)
    {
      agents := [];
      var n := |ids|;
      while n > 0
        invariant 0 <= n <= |ids| && agents == AgentsOf(world, ids[n..])
      {
        n := n - 1;
        assert ids[n..][1..] == ids[n + 1..];
        if Contains(ids[n]) {
          assert Has(ids[n]);
          if Get(ids[n]).agent {
            agents := [ids[n]] + agents;
          }
        }
      }
    }

    /** Discarding a conversation skips its deliveries and forgets its queue. */
    method CloseConversation(conv: string)
      requires Wired()
      modifies this, all.Values
      ensures Wired() && all == old(all) && (old(Linked(world)) ==> world == Next(old(world), DoClose(conv)))
    {
      var ids := if conv in queues then queues[conv] else [];
      SetQueue(conv, []);
      SkipConversationTaskDeliveries(conv, ids);
    }
  }
}
