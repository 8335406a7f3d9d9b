/** The worklist that collects the descendants of a task. */
module TaskDescent {
  import opened Basics
  import opened TaskModel
  import opened TaskTree
  import opened TaskTheorems

  ghost predicate Below(w: World, i: TaskId, d: TaskId)
    requires Linked(w)
  {
    d in w.tasks && d != i && Under(w, i, d)
  }

  /** Neither of two tasks is an ancestor of the other. */
  ghost predicate Apart(w: World, a: TaskId, b: TaskId)
    requires Linked(w)
  {
    a in w.tasks && b in w.tasks && !Under(w, a, b) && !Under(w, b, a)
  }

  ghost predicate Covers(w: World, pending: seq<TaskId>, d: TaskId)
    requires Linked(w) && d in w.tasks
  {
    exists p {:trigger p in pending} :: p in pending && Under(w, p, d)
  }

  /** What is left to visit lies below pairwise unrelated tasks, none above a visited one. */
  ghost predicate Frontier(w: World, i: TaskId, pending: seq<TaskId>, visited: set<TaskId>)
    requires Linked(w)
  {
    && (forall p :: p in pending ==> Below(w, i, p))
    && (forall v :: v in visited ==> Below(w, i, v))
    && (forall a, b {:trigger Apart(w, pending[a], pending[b])} :: 0 <= a < b < |pending| ==>
        Apart(w, pending[a], pending[b]))
    && (forall p, v {:trigger p in pending, v in visited} :: p in pending && v in visited ==> !Under(w, p, v))
    && (forall d {:trigger Below(w, i, d)} :: Below(w, i, d) ==> d in visited || Covers(w, pending, d))
  }

  lemma {:induction false} UnderTransitive(w: World, a: TaskId, b: TaskId, d: TaskId)
    requires Linked(w) && b in w.tasks && d in w.tasks && Under(w, a, b) && Under(w, b, d)
    ensures Under(w, a, d)
    decreases w.tasks[d].link.born
  {
    assert LinkOk(w, d);
    if b != d {
      UnderTransitive(w, a, b, w.tasks[d].link.parent.value);
    }
  }

  lemma KidIsBelow(w: World, c: TaskId, k: TaskId)
    requires TreeInv(w) && k in Kids(w, c)
    ensures k in w.tasks && c in w.tasks && w.tasks[k].link.parent == Some(c) && Under(w, c, k) && !Under(w, k, c)
  {
    assert IndexOk(w, c, k);
    assert LinkOk(w, k);
    if Under(w, k, c) {
      UnderIsTask(w, k, c);
    }
  }

  /** A proper ancestor of a child is an ancestor of its parent. */
  lemma AboveKid(w: World, a: TaskId, c: TaskId, k: TaskId)
    requires TreeInv(w) && k in Kids(w, c) && k in w.tasks && Under(w, a, k) && a != k
    ensures c in w.tasks && Under(w, a, c)
  {
    KidIsBelow(w, c, k);
  }

  lemma {:induction false} KidOnPath(w: World, c: TaskId, d: TaskId) returns (k: TaskId)
    requires TreeInv(w) && d in w.tasks && d != c && Under(w, c, d)
    ensures k in Kids(w, c) && k in w.tasks && Under(w, k, d)
    decreases w.tasks[d].link.born
  {
    assert LinkOk(w, d);
    if w.tasks[d].link.parent.value == c {
      k := d;
      assert IndexOk(w, c, d);
    } else {
      k := KidOnPath(w, c, w.tasks[d].link.parent.value);
    }
  }

  /** Two different children of one task are unrelated. */
  lemma SiblingsApart(w: World, c: TaskId, k: TaskId, l: TaskId)
    requires TreeInv(w) && k in Kids(w, c) && l in Kids(w, c) && k != l
    ensures Apart(w, k, l)
  {
    KidIsBelow(w, c, k);
    KidIsBelow(w, c, l);
    if Under(w, k, l) { AboveKid(w, k, c, l); }
    if Under(w, l, k) { AboveKid(w, l, c, k); }
  }

  /** A child of `c` is unrelated to anything unrelated to `c`. */
  lemma KidApart(w: World, c: TaskId, p: TaskId, k: TaskId)
    requires TreeInv(w) && k in Kids(w, c) && Apart(w, p, c)
    ensures Apart(w, p, k)
  {
    KidIsBelow(w, c, k);
    if Under(w, p, k) {
      if p != k { AboveKid(w, p, c, k); }
    }
    if Under(w, k, p) { UnderTransitive(w, c, k, p); }
  }

  lemma KidsDistinct(w: World, i: TaskId, kids: seq<TaskId>)
    requires TreeInv(w) && Distinct(kids) && forall k :: k in kids ==> k in Kids(w, i)
    ensures forall a, b :: 0 <= a < b < |kids| ==> Apart(w, kids[a], kids[b])
  {
    forall a, b | 0 <= a < b < |kids| ensures Apart(w, kids[a], kids[b]) {
      SiblingsApart(w, i, kids[a], kids[b]);
    }
  }

  lemma FrontierStart(w: World, i: TaskId, kids: seq<TaskId>)
    requires TreeInv(w) && Distinct(kids) && forall k :: k in kids <==> k in Kids(w, i)
    ensures Frontier(w, i, kids, {})
  {
    KidsDistinct(w, i, kids);
    forall k | k in kids ensures Below(w, i, k) { KidIsBelow(w, i, k); }
    forall d | Below(w, i, d) ensures Covers(w, kids, d) {
      var k := KidOnPath(w, i, d);
      assert k in kids;
    }
  }

  /** Taking `c` from the end and adding its children. */
  lemma FrontierApart(w: World, i: TaskId, pending: seq<TaskId>, visited: set<TaskId>, kids: seq<TaskId>)
    requires TreeInv(w) && pending != [] && Frontier(w, i, pending, visited)
    requires Distinct(kids) && forall k :: k in kids <==> k in Kids(w, Last(pending))
    ensures var next := Front(pending) + kids;
            forall a, b :: 0 <= a < b < |next| ==> Apart(w, next[a], next[b])
  {
    var c, next, n := Last(pending), Front(pending) + kids, |pending| - 1;
    KidsDistinct(w, c, kids);
    forall a, b | 0 <= a < b < |next| ensures Apart(w, next[a], next[b]) {
      if b < n {
        assert Apart(w, pending[a], pending[b]);
      } else if a < n {
        assert Apart(w, pending[a], pending[n]);
        KidApart(w, c, next[a], kids[b - n]);
      } else {
        assert Apart(w, kids[a - n], kids[b - n]);
      }
    }
  }

  lemma FrontierVisited(w: World, i: TaskId, pending: seq<TaskId>, visited: set<TaskId>, kids: seq<TaskId>,
        p: TaskId, v: TaskId)
    requires TreeInv(w) && pending != [] && Frontier(w, i, pending, visited)
    requires forall k :: k in kids <==> k in Kids(w, Last(pending))
    requires p in Front(pending) + kids && v in visited + {Last(pending)}
    ensures p in w.tasks && v in w.tasks && !Under(w, p, v)
  {
    var c, n := Last(pending), |pending| - 1;
    assert c in pending && Below(w, i, c);
    assert v in visited ==> Below(w, i, v);
    if p in kids {
      KidIsBelow(w, c, p);
      if v in visited && Under(w, p, v) {
        UnderTransitive(w, c, p, v);
      }
    } else {
      var a :| 0 <= a < n && pending[a] == p;
      assert p in pending && Below(w, i, p);
      assert Apart(w, pending[a], pending[n]);
    }
  }

  lemma FrontierStep(w: World, i: TaskId, pending: seq<TaskId>, visited: set<TaskId>, kids: seq<TaskId>)
    requires TreeInv(w) && pending != [] && Frontier(w, i, pending, visited)
    requires Distinct(kids) && forall k :: k in kids <==> k in Kids(w, Last(pending))
    ensures Frontier(w, i, Front(pending) + kids, visited + {Last(pending)}) && Last(pending) !in visited
  {
    var c, next := Last(pending), Front(pending) + kids;
    assert c in pending && Below(w, i, c);
    FrontierApart(w, i, pending, visited, kids);
    forall p | p in next ensures Below(w, i, p) {
      if p in kids { KidIsBelow(w, c, p); UnderTransitive(w, i, c, p); UnderIsTask(w, i, c); UnderIsTask(w, c, p); }
    }
    forall p, v | p in next && v in visited + {c} ensures !Under(w, p, v) {
      FrontierVisited(w, i, pending, visited, kids, p, v);
    }
    forall d | Below(w, i, d) ensures d in visited + {c} || Covers(w, next, d) {
      if d !in visited + {c} { FrontierCovers(w, i, pending, visited, kids, d); }
    }
  }

  lemma FrontierCovers(w: World, i: TaskId, pending: seq<TaskId>, visited: set<TaskId>, kids: seq<TaskId>, d: TaskId)
    requires TreeInv(w) && pending != [] && Frontier(w, i, pending, visited)
    requires forall k :: k in kids <==> k in Kids(w, Last(pending))
    requires Below(w, i, d) && d !in visited && d != Last(pending)
    ensures Covers(w, Front(pending) + kids, d)
  {
    var p :| p in pending && Under(w, p, d);
    if p == Last(pending) {
      var k := KidOnPath(w, p, d);
      assert k in Front(pending) + kids;
    } else {
      assert p in Front(pending) + kids;
    }
  }
}
