/** The recursion of cancel, tree by tree, adds up to the set of active descendants. */
module TaskCancel {
  import opened Basics
  import opened TaskModel
  import opened TaskTree
  import opened TaskTheorems

  /** Under one of several tasks. */
  ghost predicate Covered(w: World, done: set<TaskId>, d: TaskId)
    requires Linked(w) && d in w.tasks
  {
    exists c {:trigger Under(w, c, d)} :: c in done && Under(w, c, d)
  }

  /** The trees of the tasks in `done` have been cancelled. */
  ghost function MarkUnder(w: World, done: set<TaskId>): World
    requires Linked(w)
  {
    w.(tasks := map d | d in w.tasks ::
                  if d in w.live && Covered(w, done, d) then Marked(w.tasks[d], true) else w.tasks[d])
  }

  lemma MarkUnderGentle(w: World, done: set<TaskId>)
    requires Inv(w)
    ensures GentleStep(w, MarkUnder(w, done)) && Inv(MarkUnder(w, done)) && EvolvesAll(w, MarkUnder(w, done))
    ensures |MarkUnder(w, done).tasks| == |w.tasks|
  {
    var v := MarkUnder(w, done);
    forall d | d in w.tasks ensures Gentle(w.tasks[d], v.tasks[d]) { MarkedIsGentle(w.tasks[d], true); }
    GentleKeepsInv(w, v);
    assert |v.tasks| == |v.tasks.Keys| == |w.tasks.Keys|;
  }

  lemma MarkUnderNone(w: World)
    requires Linked(w)
    ensures MarkUnder(w, {}) == w
  {
  }

  lemma CoveredMore(w: World, done: set<TaskId>, c: TaskId, d: TaskId)
    requires Linked(w) && d in w.tasks
    ensures Covered(w, done + {c}, d) <==> Covered(w, done, d) || Under(w, c, d)
  {
  }

  lemma MarkTwice(t: Task)
    ensures Marked(Marked(t, true), true) == Marked(t, true)
  {
  }

  lemma MarkUnderMoreAt(w: World, done: set<TaskId>, c: TaskId, d: TaskId)
    requires Inv(w) && c in w.tasks && c in w.live && d in w.tasks
    ensures Linked(MarkUnder(w, done))
    ensures TaskModel.Cancel(MarkUnder(w, done), c, true).tasks[d] == MarkUnder(w, done + {c}).tasks[d]
  {
    var u := MarkUnder(w, done);
    MarkUnderGentle(w, done);
    UnderCarries(w, u, c, d);
    CoveredMore(w, done, c, d);
    MarkTwice(w.tasks[d]);
  }

  lemma CancelKeepsDicts(w: World, c: TaskId, skip: bool)
    requires Linked(w) && c in w.tasks
    ensures var v := TaskModel.Cancel(w, c, skip); v == w.(tasks := v.tasks) && v.tasks.Keys == w.tasks.Keys
  {
  }

  /** Cancelling one more active child extends what is marked by its tree. */
  lemma MarkUnderMore(w: World, done: set<TaskId>, c: TaskId)
    requires Inv(w) && c in w.tasks && c in w.live
    ensures Linked(MarkUnder(w, done))
    ensures TaskModel.Cancel(MarkUnder(w, done), c, true) == MarkUnder(w, done + {c})
  {
    MarkUnderGentle(w, done);
    var a, b := TaskModel.Cancel(MarkUnder(w, done), c, true), MarkUnder(w, done + {c});
    CancelKeepsDicts(MarkUnder(w, done), c, true);
    forall d | d in a.tasks ensures a.tasks[d] == b.tasks[d] {
      MarkUnderMoreAt(w, done, c, d);
    }
    MapsEqual(a.tasks, b.tasks);
  }

  /** The active trees of the active children make up the active strict descendants. */
  lemma ChildrenCoverTree(w: World, r: TaskId)
    requires Inv(w) && r in w.tasks
    ensures MarkUnder(w, TaskModel.ActiveChildren(w, r)) == MarkBelow(w, r)
  {
    var kids := TaskModel.ActiveChildren(w, r);
    forall d | d in w.tasks && d in w.live
      ensures Covered(w, kids, d) <==> d != r && Under(w, r, d)
    {
      if d != r && Under(w, r, d) {
        var c := ChildOnPath(w, r, d);
        assert Under(w, c, d);
      }
      if Covered(w, kids, d) {
        var c :| c in kids && Under(w, c, d);
        assert IndexOk(w, r, c);
        ParentIsAbove(w, r, c, d);
      }
    }
    assert MarkUnder(w, kids).tasks == MarkBelow(w, r).tasks;
  }

  lemma {:induction false} ChildOnPath(w: World, r: TaskId, d: TaskId) returns (c: TaskId)
    requires Inv(w) && r in w.tasks && d in w.tasks && d in w.live && d != r && Under(w, r, d)
    ensures c in TaskModel.ActiveChildren(w, r) && c in w.tasks && Under(w, c, d)
    decreases w.tasks[d].link.born
  {
    assert LinkOk(w, d) && ShelterOk(w, d);
    var p := w.tasks[d].link.parent.value;
    if p == r {
      c := d;
      assert IndexOk(w, r, d);
      LiveChildren(w, r);
    } else {
      c := ChildOnPath(w, r, p);
    }
  }

  /** What is under a child is strictly under its parent. */
  lemma {:induction false} ParentIsAbove(w: World, r: TaskId, c: TaskId, d: TaskId)
    requires Linked(w) && c in w.tasks && d in w.tasks && w.tasks[c].link.parent == Some(r) && Under(w, c, d)
    ensures r != d && Under(w, r, d)
    decreases w.tasks[d].link.born
  {
    assert LinkOk(w, c) && LinkOk(w, d);
    UnderIsTask(w, c, d);
    if c != d {
      ParentIsAbove(w, r, c, w.tasks[d].link.parent.value);
    }
  }

  lemma WriteKeepsLinks(w: World, r: TaskId, t: Task)
    requires Linked(w) && r in w.tasks && t.link == w.tasks[r].link
    ensures Linked(w.(tasks := w.tasks[r := t])) && KeepsLinks(w, w.(tasks := w.tasks[r := t]))
  {
    var u := w.(tasks := w.tasks[r := t]);
    forall d | d in u.tasks ensures LinkOk(u, d) { LinksCarry(w, u, d); }
  }

  /** Writing the flags of a task and marking the tasks below it can be done in either order. */
  lemma MarkBelowCommutes(w: World, r: TaskId, t: Task)
    requires Linked(w) && r in w.tasks && t.link == w.tasks[r].link
    ensures var u := w.(tasks := w.tasks[r := t]);
            Linked(u) && MarkBelow(u, r) == w.(tasks := MarkBelow(w, r).tasks[r := t])
  {
    var u := w.(tasks := w.tasks[r := t]);
    WriteKeepsLinks(w, r, t);
    var a, b := MarkBelow(u, r).tasks, MarkBelow(w, r).tasks[r := t];
    forall d | d in a ensures a[d] == b[d] {
      UnderSame(w, u, r, d);
    }
    MapsEqual(a, b);
  }

  lemma {:induction false} UnderSame(w: World, u: World, a: TaskId, d: TaskId)
    requires Linked(w) && Linked(u) && KeepsLinks(w, u) && d in w.tasks
    ensures Under(u, a, d) <==> Under(w, a, d)
    decreases w.tasks[d].link.born
  {
    assert LinkOk(w, d) && u.tasks[d].link == w.tasks[d].link;
    if a != d && w.tasks[d].link.parent.Some? {
      UnderSame(w, u, a, w.tasks[d].link.parent.value);
    }
  }

  /** The record of `r` as cancel leaves it before the recursion, and the end of cancel. */
  function Refused(t: Task, skip: bool): Task {
    t.(accepting := false, cancelRequested := true,
       deliveryState := if skip then Skip(t.deliveryState) else t.deliveryState)
  }

  lemma RefusedGentle(w: World, r: TaskId, skip: bool)
    requires Inv(w) && r in w.tasks
    ensures Inv(w.(tasks := w.tasks[r := Refused(w.tasks[r], skip)]))
  {
    GentleKeepsInv(w, w.(tasks := w.tasks[r := Refused(w.tasks[r], skip)]));
  }

  lemma CancelInSteps(w: World, r: TaskId, skip: bool)
    requires Inv(w) && r in w.tasks
    ensures var u := w.(tasks := w.tasks[r := Refused(w.tasks[r], skip)]);
            && Linked(u)
            && TaskModel.Cancel(w, r, skip) ==
                 MarkBelow(u, r).(tasks := MarkBelow(u, r).tasks[r := Marked(w.tasks[r], skip)])
            && MarkBelow(u, r).tasks[r] == Refused(w.tasks[r], skip)
  {
    var t := Refused(w.tasks[r], skip);
    MarkBelowCommutes(w, r, t);
    UpdateTwice(MarkBelow(w, r).tasks, r, t, Marked(w.tasks[r], skip));
  }

  lemma UpdateTwice<K, V>(m: map<K, V>, k: K, a: V, b: V)
    ensures m[k := a][k := b] == m[k := b]
  {
  }

  /** The last write of cancel: a coroutine that already ended its own work is woken. */
  lemma MarkedInSteps(w: World, r: TaskId, skip: bool)
    requires Books(w) && r in w.tasks
    ensures Marked(w.tasks[r], skip) ==
              if r in w.live && w.tasks[r].ownFinished then Refused(w.tasks[r], skip).(treeChanged := true)
              else Refused(w.tasks[r], skip)
  {
    assert BookOk(w, r);
  }
}
