/** Topological order of the task graph (orchestrator.py). */
module TaskGraph {
  import opened Common
  import opened Ordering

  type Id = string

  /** Each task with its dependencies. */
  type Graph = map<Id, seq<Id>>

  datatype GraphError = UnknownDependency | CyclicGraph

  ghost predicate Closed(g: Graph) {
    forall t, d :: t in g && d in g[t] ==> d in g
  }

  /** Task lists drop repeated dependencies when they are built (models.py). */
  ghost predicate WellBuilt(g: Graph) {
    forall t :: t in g ==> Distinct(g[t])
  }

  predicate DependsOn(g: Graph, t: Id, d: Id) {
    t in g && d in g[t]
  }

  /** Each element depends on the next one. */
  ghost predicate Walk(g: Graph, p: seq<Id>) {
    forall i, k :: 0 <= i < k < |p| && k == i + 1 ==> DependsOn(g, p[i], p[k])
  }

  ghost predicate Cycle(g: Graph, p: seq<Id>) {
    |p| >= 2 && Walk(g, p) && p[0] == p[|p| - 1]
  }

  ghost predicate Acyclic(g: Graph) {
    forall p :: !Cycle(g, p)
  }

  ghost predicate Distinct(s: seq<Id>) {
    forall i, k :: 0 <= i < k < |s| ==> s[i] != s[k]
  }

  /** Every task whose dependencies all come earlier. */
  ghost predicate DependenciesFirst(g: Graph, order: seq<Id>) {
    forall i :: 0 <= i < |order| ==> order[i] in g && forall d :: d in g[order[i]] ==> d in order[..i]
  }

  function Elements(s: seq<Id>): set<Id> {
    set x | x in s
  }

  // ----- sorting -----

  function InsertId(s: seq<Id>, x: Id): (r: seq<Id>)
    ensures forall y :: y in r <==> y in s || y == x
    ensures Distinct(s) && x !in s ==> Distinct(r)
  {
    if |s| == 0 || StringLeq(s[|s| - 1], x) then s + [x]
    else
      assert s == s[..|s| - 1] + [s[|s| - 1]];
      assert Distinct(s) ==> s[|s| - 1] !in s[..|s| - 1];
      InsertId(s[..|s| - 1], x) + [s[|s| - 1]]
  }

  function SortIds(s: seq<Id>): (r: seq<Id>)
    ensures forall y :: y in r <==> y in s
    ensures Distinct(s) ==> Distinct(r)
  {
    if |s| == 0 then []
    else
      assert s == s[..|s| - 1] + [s[|s| - 1]];
      assert Distinct(s) ==> s[|s| - 1] !in s[..|s| - 1];
      InsertId(SortIds(s[..|s| - 1]), s[|s| - 1])
  }

  // ----- Kahn's algorithm -----

  /** How many dependencies are not done yet. */
  function Pending(deps: seq<Id>, done: set<Id>): nat {
    if |deps| == 0 then 0 else Pending(deps[..|deps| - 1], done) + if deps[|deps| - 1] in done then 0 else 1
  }

  lemma {:induction false} PendingZero(deps: seq<Id>, done: set<Id>)
    ensures Pending(deps, done) == 0 <==> forall d :: d in deps ==> d in done
  {
    if |deps| > 0 {
      PendingZero(deps[..|deps| - 1], done);
      assert deps == deps[..|deps| - 1] + [deps[|deps| - 1]];
    }
  }

  lemma {:induction false} PendingDone(deps: seq<Id>, done: set<Id>, x: Id)
    requires x !in done && Distinct(deps)
    ensures Pending(deps, done + {x}) == Pending(deps, done) - if x in deps then 1 else 0
  {
    if |deps| > 0 {
      PendingDone(deps[..|deps| - 1], done, x);
      assert deps == deps[..|deps| - 1] + [deps[|deps| - 1]];
    }
  }

  lemma {:induction false} PendingNone(deps: seq<Id>)
    ensures Pending(deps, {}) == |deps|
  {
    if |deps| > 0 {
      PendingNone(deps[..|deps| - 1]);
    }
  }

  /** `followers[d]` lists, once each, those of the given tasks that depend on `d`. */
  ghost predicate Reversed(g: Graph, tasks: seq<Id>, followers: map<Id, seq<Id>>) {
    && followers.Keys == g.Keys
    && (forall d :: d in g ==> Distinct(followers[d]))
    && forall d, t :: d in g ==> (t in followers[d] <==> t in tasks && DependsOn(g, t, d))
  }

  /** The task was added to the followers of these dependencies. */
  ghost predicate FollowersAfter(g: Graph, id: Id, before: map<Id, seq<Id>>, after: map<Id, seq<Id>>, deps: seq<Id>)
    requires before.Keys == g.Keys
  {
    after.Keys == g.Keys && forall d :: d in g ==> after[d] == if d in deps then before[d] + [id] else before[d]
  }

  lemma OneMoreFollower(g: Graph, id: Id, before: map<Id, seq<Id>>, after: map<Id, seq<Id>>, deps: seq<Id>, d: Id)
    requires before.Keys == g.Keys && FollowersAfter(g, id, before, after, deps) && d in g && d !in deps
    ensures FollowersAfter(g, id, before, after[d := after[d] + [id]], deps + [d])
  {
  }

  lemma TakeOneMore(s: seq<Id>, m: nat)
    requires Distinct(s) && m < |s|
    ensures s[m] !in s[..m] && s[..m + 1] == s[..m] + [s[m]]
  {
  }

  /** Adds one task to the followers of each of its dependencies. */
  method AddFollower(g: Graph, tasks: seq<Id>, id: Id, followers0: map<Id, seq<Id>>)
    returns (ok: bool, followers: map<Id, seq<Id>>)
    requires Reversed(g, tasks, followers0) && id in g && id !in tasks && Distinct(g[id])
    ensures ok <==> forall d :: d in g[id] ==> d in g
    ensures ok ==> Reversed(g, tasks + [id], followers)
  {
    followers := followers0;
    var deps := g[id];
    for m := 0 to |deps|
      invariant forall k :: 0 <= k < m ==> deps[k] in g
      invariant FollowersAfter(g, id, followers0, followers, deps[..m])
    {
      if deps[m] !in g {
        return false, followers;
      }
      TakeOneMore(deps, m);
      OneMoreFollower(g, id, followers0, followers, deps[..m], deps[m]);
      followers := followers[deps[m] := followers[deps[m]] + [id]];
    }
    assert deps[..|deps|] == deps;
    AddedFollower(g, tasks, id, followers0, followers);
    ok := true;
  }

  lemma AddedFollower(g: Graph, tasks: seq<Id>, id: Id, before: map<Id, seq<Id>>, after: map<Id, seq<Id>>)
    requires Reversed(g, tasks, before) && id in g && id !in tasks
    requires FollowersAfter(g, id, before, after, g[id])
    ensures Reversed(g, tasks + [id], after)
  {
    forall d | d in g
      ensures Distinct(after[d])
    {
      assert id !in before[d];
      DistinctAppend(before[d], id);
    }
    forall d, t | d in g
      ensures t in after[d] <==> t in tasks + [id] && DependsOn(g, t, d)
    {
      assert t in before[d] <==> t in tasks && DependsOn(g, t, d);
      assert t in after[d] <==> t in before[d] || (DependsOn(g, id, d) && t == id);
    }
  }

  lemma DistinctAppend(s: seq<Id>, x: Id)
    requires Distinct(s) && x !in s
    ensures Distinct(s + [x])
  {
  }

  /** The first loop: checks the dependencies and turns the edges round. */
  lemma ClosedByIds(g: Graph, ids: seq<Id>)
    requires Elements(ids) == g.Keys && forall k :: 0 <= k < |ids| ==> forall d :: d in g[ids[k]] ==> d in g
    ensures Closed(g)
  {
    forall t, d | t in g && d in g[t]
      ensures d in g
    {
      assert t in Elements(ids);
    }
  }

  method ReverseEdges(ids: seq<Id>, g: Graph) returns (r: Result<map<Id, seq<Id>>, GraphError>)
    requires WellBuilt(g) && Distinct(ids) && Elements(ids) == g.Keys
    ensures r.Ok? <==> Closed(g)
    ensures r.Ok? ==> Reversed(g, ids, r.value)
    ensures r.Err? ==> r.error == UnknownDependency
  {
    var followers: map<Id, seq<Id>> := map d | d in g :: [];
    for i := 0 to |ids|
      invariant Reversed(g, ids[..i], followers)
      invariant forall k :: 0 <= k < i ==> forall d :: d in g[ids[k]] ==> d in g
    {
      assert ids[i] in Elements(ids);
      assert ids[..i + 1] == ids[..i] + [ids[i]];
      var ok;
      ok, followers := AddFollower(g, ids[..i], ids[i], followers);
      if !ok {
        return Err(UnknownDependency);
      }
    }
    assert ids[..|ids|] == ids;
    ClosedByIds(g, ids);
    r := Ok(followers);
  }

  ghost predicate Counts(g: Graph, indegree: map<Id, int>, done: set<Id>) {
    indegree.Keys == g.Keys && forall t :: t in g ==> indegree[t] == Pending(g[t], done)
  }

  /** One round of the second loop: the followers of the task just placed lose one open dependency each. */
  method Relax(g: Graph, current: Id, fs: seq<Id>, indegree0: map<Id, int>, queue0: seq<Id>, ghost done: set<Id>)
    returns (indegree: map<Id, int>, queue: seq<Id>)
    requires WellBuilt(g) && current !in done && Counts(g, indegree0, done)
    requires Distinct(fs) && forall t :: t in fs <==> DependsOn(g, t, current)
    requires Distinct(queue0) && forall t :: t in queue0 ==> t in g && indegree0[t] == 0
    ensures Counts(g, indegree, done + {current})
    ensures Distinct(queue)
    ensures forall t :: t in queue <==> t in queue0 || (t in g && indegree0[t] > 0 && indegree[t] == 0)
  {
    forall t | t in g
      ensures Pending(g[t], done + {current}) == indegree0[t] - if t in fs then 1 else 0
    {
      PendingDone(g[t], done, current);
    }
    indegree, queue := indegree0, queue0;
    for k := 0 to |fs|
      invariant indegree.Keys == g.Keys
      invariant forall t :: t in g ==> indegree[t] == indegree0[t] - if t in fs[..k] then 1 else 0
      invariant Distinct(queue)
      invariant forall t :: t in queue <==> t in queue0 || (t in g && indegree0[t] > 0 && indegree[t] == 0)
    {
      var f := fs[k];
      assert f in fs && DependsOn(g, f, current);
      assert f !in fs[..k];
      assert forall t :: t in fs[..k + 1] <==> t in fs[..k] || t == f;
      indegree := indegree[f := indegree[f] - 1];
      if indegree[f] == 0 {
        queue := queue + [f];
      }
    }
    assert fs[..|fs|] == fs;
  }

  /** Tasks without dependencies, in sorted order. */
  method Roots(ids: seq<Id>, g: Graph, indegree: map<Id, int>) returns (queue: seq<Id>)
    requires Distinct(ids) && Elements(ids) == g.Keys && indegree.Keys == g.Keys
    ensures Distinct(queue) && forall t :: t in queue <==> t in g && indegree[t] == 0
  {
    var roots: seq<Id> := [];
    for i := 0 to |ids|
      invariant Distinct(roots)
      invariant forall t :: t in roots <==> t in ids[..i] && t in g && indegree[t] == 0
    {
      assert ids[i] in Elements(ids);
      assert forall t :: t in ids[..i + 1] <==> t in ids[..i] || t == ids[i];
      if indegree[ids[i]] == 0 {
        roots := roots + [ids[i]];
      }
    }
    assert ids[..|ids|] == ids;
    forall t | t in g
      ensures t in ids
    {
      assert t in Elements(ids);
    }
    queue := SortIds(roots);
  }

  /** The queue holds exactly the unplaced tasks without open dependencies. */
  ghost predicate Progress(g: Graph, indegree: map<Id, int>, queue: seq<Id>, order: seq<Id>) {
    && Counts(g, indegree, Elements(order))
    && Distinct(order) && Distinct(queue) && DependenciesFirst(g, order)
    && forall t :: t in queue <==> t in g && t !in order && indegree[t] == 0
  }

  /** One round of the main loop: the first task of the queue is placed next. */
  method PlaceFirst(g: Graph, ids: seq<Id>, followers: map<Id, seq<Id>>, indegree: map<Id, int>, queue: seq<Id>,
                    ghost order: seq<Id>)
    returns (indegree': map<Id, int>, queue': seq<Id>)
    requires WellBuilt(g) && Elements(ids) == g.Keys && Reversed(g, ids, followers)
    requires Progress(g, indegree, queue, order) && |queue| > 0
    ensures Progress(g, indegree', queue', order + [queue[0]]) && |order| < |g.Keys|
  {
    var current := queue[0];
    assert current in queue;
    var fs := SortIds(followers[current]);
    forall t
      ensures t in fs <==> DependsOn(g, t, current)
    {
      assert t in ids <==> t in Elements(ids);
    }
    assert forall t :: t in queue[1..] ==> t in queue;
    indegree', queue' := Relax(g, current, fs, indegree, queue[1..], Elements(order));
    StepProgress(g, indegree, indegree', queue, queue', order);
  }

  /**
   * Returns every task once with its dependencies before it exactly when all dependencies exist and the graph
   * has no cycle; otherwise it reports which of the two fails.
   */
  method TaskGraphOrder(ids: seq<Id>, g: Graph) returns (r: Result<seq<Id>, GraphError>)
    requires WellBuilt(g) && Distinct(ids) && Elements(ids) == g.Keys
    ensures r.Ok? <==> Closed(g) && Acyclic(g)
    ensures r.Ok? ==> Distinct(r.value) && Elements(r.value) == g.Keys && DependenciesFirst(g, r.value)
    ensures r.Err? ==> r.error == if Closed(g) then CyclicGraph else UnknownDependency
  {
    var reversed := ReverseEdges(ids, g);
    if reversed.Err? {
      return Err(reversed.error);
    }
    var followers := reversed.value;
    var indegree := map t | t in g :: |g[t]|;
    var queue := Roots(ids, g, indegree);
    var order: seq<Id> := [];
    InitialProgress(g, indegree, queue);
    while |queue| > 0
      invariant Progress(g, indegree, queue, order)
      decreases |g.Keys| - |order|
    {
      var current := queue[0];
      indegree, queue := PlaceFirst(g, ids, followers, indegree, queue, order);
      order := order + [current];
    }
    if |order| == |ids| {
      CompleteOrder(g, ids, order);
      return Ok(order);
    }
    IncompleteOrder(g, ids, indegree, order);
    r := Err(CyclicGraph);
  }

  lemma InitialProgress(g: Graph, indegree: map<Id, int>, queue: seq<Id>)
    requires indegree.Keys == g.Keys && forall t :: t in g ==> indegree[t] == |g[t]|
    requires Distinct(queue) && forall t :: t in queue <==> t in g && indegree[t] == 0
    ensures Progress(g, indegree, queue, [])
  {
    assert Elements([]) == {};
    forall t | t in g
      ensures indegree[t] == Pending(g[t], {})
    {
      PendingNone(g[t]);
    }
  }

  lemma StepProgress(g: Graph, before: map<Id, int>, after: map<Id, int>, queue: seq<Id>, rest: seq<Id>, order: seq<Id>)
    requires WellBuilt(g) && Progress(g, before, queue, order) && |queue| > 0
    requires Counts(g, after, Elements(order) + {queue[0]})
    requires Distinct(rest)
    requires forall t :: t in rest <==> t in queue[1..] || (t in g && before[t] > 0 && after[t] == 0)
    ensures Progress(g, after, rest, order + [queue[0]])
    ensures |order| < |g.Keys|
  {
    var current, next := queue[0], order + [queue[0]];
    assert current in queue;
    assert Elements(next) == Elements(order) + {current};
    PendingZero(g[current], Elements(order));
    PlaceNext(g, order, current);
    assert forall t :: t in queue <==> t == current || t in queue[1..];
    forall t
      ensures t in rest <==> t in g && t !in next && after[t] == 0
    {
      if t in g {
        PendingDone(g[t], Elements(order), current);
        if t in order {
          PlacedHaveNoPending(g, order, t);
        }
      }
    }
    DistinctBound(next, g.Keys);
  }

  lemma PlaceNext(g: Graph, order: seq<Id>, current: Id)
    requires Distinct(order) && DependenciesFirst(g, order) && current in g && current !in order
    requires forall d :: d in g[current] ==> d in Elements(order)
    ensures Distinct(order + [current]) && DependenciesFirst(g, order + [current])
  {
    var next := order + [current];
    forall i | 0 <= i < |next|
      ensures next[i] in g && forall d :: d in g[next[i]] ==> d in next[..i]
    {
      assert next[..i] == order[..i];
      if i == |order| {
        assert next[..i] == order;
      }
    }
  }

  /** A placed task has no open dependency left, so it cannot lose its last one again. */
  lemma PlacedHaveNoPending(g: Graph, order: seq<Id>, t: Id)
    requires DependenciesFirst(g, order) && t in order
    ensures t in g && Pending(g[t], Elements(order)) == 0
  {
    var i :| 0 <= i < |order| && order[i] == t;
    PendingZero(g[t], Elements(order));
  }

  lemma CompleteOrder(g: Graph, ids: seq<Id>, order: seq<Id>)
    requires Distinct(ids) && Elements(ids) == g.Keys && |order| == |ids|
    requires Distinct(order) && DependenciesFirst(g, order)
    ensures Elements(order) == g.Keys && Acyclic(g)
  {
    DistinctSize(ids);
    DistinctSize(order);
    SubsetOfSameSize(Elements(order), g.Keys);
    OrderedIsAcyclic(g, order);
  }

  lemma LeftoverIsStuck(g: Graph, indegree: map<Id, int>, order: seq<Id>, t: Id) returns (d: Id)
    requires Closed(g) && Progress(g, indegree, [], order) && t in g && t !in order
    ensures DependsOn(g, t, d) && d !in order
  {
    PendingZero(g[t], Elements(order));
    assert indegree[t] != 0;
    d :| d in g[t] && d !in Elements(order);
  }

  /** What is left over depends on itself in a circle. */
  lemma IncompleteOrder(g: Graph, ids: seq<Id>, indegree: map<Id, int>, order: seq<Id>)
    requires Closed(g) && Distinct(ids) && Elements(ids) == g.Keys && |order| != |ids|
    requires Progress(g, indegree, [], order)
    ensures !Acyclic(g)
  {
    var stuck := g.Keys - Elements(order);
    forall t | t in stuck
      ensures DependsInside(g, stuck, t)
    {
      var d := LeftoverIsStuck(g, indegree, order, t);
      assert DependsOn(g, t, d) && d in stuck;
    }
    LeftoverExists(g, ids, order);
    var p := StuckHasCycle(g, stuck);
  }

  lemma LeftoverExists(g: Graph, ids: seq<Id>, order: seq<Id>)
    requires Distinct(ids) && Elements(ids) == g.Keys && |order| != |ids|
    requires Distinct(order) && DependenciesFirst(g, order)
    ensures g.Keys - Elements(order) != {}
  {
    DistinctSize(ids);
    DistinctSize(order);
    var keys, placed := g.Keys, Elements(order);
    assert placed <= keys;
    assert keys == placed + (keys - placed);
  }

  // ----- facts about distinct sequences -----

  lemma {:induction false} DistinctSize(s: seq<Id>)
    requires Distinct(s)
    ensures |Elements(s)| == |s|
  {
    if |s| > 0 {
      var front := s[..|s| - 1];
      DistinctSize(front);
      assert Elements(s) == Elements(front) + {s[|s| - 1]};
      assert s[|s| - 1] !in Elements(front);
    }
  }

  lemma SubsetOfSameSize(a: set<Id>, b: set<Id>)
    requires a <= b && |a| == |b|
    ensures a == b
  {
    assert b == a + (b - a);
  }

  lemma DistinctBound(s: seq<Id>, keys: set<Id>)
    requires Distinct(s) && forall x :: x in s ==> x in keys
    ensures |s| <= |keys|
  {
    DistinctSize(s);
    SubsetSize(Elements(s), keys);
  }

  // ----- order and cycles -----

  lemma WalkTail(g: Graph, p: seq<Id>)
    requires Walk(g, p) && |p| >= 1
    ensures Walk(g, p[1..])
  {
    forall i, k | 0 <= i < k < |p[1..]| && k == i + 1
      ensures DependsOn(g, p[1..][i], p[1..][k])
    {
      assert DependsOn(g, p[i + 1], p[k + 1]);
    }
  }

  /** Along a walk positions in a dependencies-first order strictly fall. */
  lemma {:induction false} WalkDescends(g: Graph, order: seq<Id>, p: seq<Id>, i: nat)
    requires DependenciesFirst(g, order) && Walk(g, p) && |p| >= 2 && i < |order| && order[i] == p[0]
    ensures exists k :: 0 <= k < i && order[k] == p[|p| - 1]
    decreases |p|
  {
    assert DependsOn(g, p[0], p[1]);
    assert p[1] in order[..i];
    var k :| 0 <= k < i && order[k] == p[1];
    if |p| > 2 {
      WalkTail(g, p);
      WalkDescends(g, order, p[1..], k);
    }
  }

  lemma OrderedIsAcyclic(g: Graph, order: seq<Id>)
    requires Distinct(order) && Elements(order) == g.Keys && DependenciesFirst(g, order)
    ensures Acyclic(g)
  {
    forall p
      ensures !Cycle(g, p)
    {
      if Cycle(g, p) {
        assert DependsOn(g, p[0], p[1]);
        assert p[0] in Elements(order);
        var i :| 0 <= i < |order| && order[i] == p[0];
        WalkDescends(g, order, p, i);
        assert false;
      }
    }
  }

  ghost predicate DependsInside(g: Graph, s: set<Id>, t: Id) {
    exists d :: DependsOn(g, t, d) && d in s
  }

  /** A non-empty set in which every task depends on a member. */
  ghost predicate Stuck(g: Graph, stuck: set<Id>) {
    stuck != {} && forall t :: t in stuck ==> DependsInside(g, stuck, t)
  }

  lemma WalkAppend(g: Graph, p: seq<Id>, d: Id)
    requires Walk(g, p) && |p| >= 1 && DependsOn(g, p[|p| - 1], d)
    ensures Walk(g, p + [d])
  {
    var q := p + [d];
    forall i, k | 0 <= i < k < |q| && k == i + 1
      ensures DependsOn(g, q[i], q[k])
    {
      if k < |p| {
        assert DependsOn(g, p[i], p[k]);
      }
    }
  }

  lemma NextInside(g: Graph, stuck: set<Id>, t: Id) returns (d: Id)
    requires Stuck(g, stuck) && t in stuck
    ensures DependsOn(g, t, d) && d in stuck
  {
    assert DependsInside(g, stuck, t);
    d :| DependsOn(g, t, d) && d in stuck;
  }

  /** Inside a set where every task depends on a member there are walks of any length. */
  lemma {:induction false} StuckWalk(g: Graph, stuck: set<Id>, n: nat) returns (p: seq<Id>)
    requires Stuck(g, stuck)
    ensures |p| == n + 1 && Walk(g, p) && forall x :: x in p ==> x in stuck
  {
    if n == 0 {
      var t :| t in stuck;
      p := [t];
    } else {
      var q := StuckWalk(g, stuck, n - 1);
      assert q[n - 1] in q;
      var d := NextInside(g, stuck, q[n - 1]);
      WalkAppend(g, q, d);
      p := q + [d];
    }
  }

  lemma {:induction false} Pigeonhole(p: seq<Id>, s: set<Id>) returns (i: nat, k: nat)
    requires |p| > |s| && forall x :: x in p ==> x in s
    ensures i < k < |p| && p[i] == p[k]
    decreases |p|
  {
    var n := |p| - 1;
    if p[n] in p[..n] {
      i :| 0 <= i < n && p[..n][i] == p[n];
      k := n;
    } else {
      assert p[n] in s;
      forall x | x in p[..n]
        ensures x in s - {p[n]}
      {
        assert x in p;
      }
      i, k := Pigeonhole(p[..n], s - {p[n]});
    }
  }

  lemma SubWalk(g: Graph, w: seq<Id>, i: nat, k: nat)
    requires Walk(g, w) && i < k < |w|
    ensures Walk(g, w[i..k + 1])
  {
    var p := w[i..k + 1];
    forall a, b | 0 <= a < b < |p| && b == a + 1
      ensures DependsOn(g, p[a], p[b])
    {
      assert DependsOn(g, w[i + a], w[i + b]);
    }
  }

  lemma StuckHasCycle(g: Graph, stuck: set<Id>) returns (p: seq<Id>)
    requires Stuck(g, stuck)
    ensures Cycle(g, p)
  {
    var w := StuckWalk(g, stuck, |stuck|);
    var i, k := Pigeonhole(w, stuck);
    p := w[i..k + 1];
    SubWalk(g, w, i, k);
  }

  /** Adding a task whose dependencies already exist cannot close a cycle: create_task and approve_spawn rely on it. */
  lemma NewTaskKeepsAcyclic(g: Graph, t: Id, deps: seq<Id>)
    requires Closed(g) && Acyclic(g) && t !in g && forall d :: d in deps ==> d in g
    ensures Closed(g[t := deps]) && Acyclic(g[t := deps])
  {
    var g' := g[t := deps];
    forall p
      ensures !Cycle(g', p)
    {
      if Cycle(g', p) {
        forall i, k | 0 <= i < k < |p| && k == i + 1
          ensures DependsOn(g, p[i], p[k])
        {
          assert DependsOn(g', p[i], p[k]);
          // Nobody depends on the new task, so no element of a cycle is the new task.
          if i > 0 {
            assert DependsOn(g', p[i - 1], p[i]);
          } else {
            assert DependsOn(g', p[|p| - 2], p[|p| - 1]);
          }
        }
        assert Cycle(g, p);
      }
    }
  }
}
