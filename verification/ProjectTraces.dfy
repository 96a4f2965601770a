/** Runs of the orchestrator given by all their states, from a fresh project on. */
module ProjectTraces {
  import opened Common
  import opened RepoPaths
  import opened ProjectTransitions
  import opened ProjectInvariants
  import opened ProjectGuarantees
  import TaskGraph

  const LIMITS := Governance(10, 10, 1, 1, 10)

  function Fresh(commit: Commit): ProjectState {
    ProjectState(LIMITS, 1, [], commit, map[], map[], map[], [], [], [])
  }

  /** One step of a run. */
  ghost predicate Leads(s: ProjectState, op: Op, s': ProjectState, rule: ClassRule) {
    After(s, op, rule) == s' && Proper(s, op)
  }

  ghost predicate Trace(states: seq<ProjectState>, ops: seq<Op>, rule: ClassRule) {
    |states| == |ops| + 1 && forall k, n :: 0 <= k < n < |states| && n == k + 1 ==> Leads(states[k], ops[k], states[n], rule)
  }

  lemma {:induction false} TraceIsRun(states: seq<ProjectState>, ops: seq<Op>, rule: ClassRule)
    requires Trace(states, ops, rule)
    ensures RunAll(states[0], ops, rule) == states[|ops|] && ProperRun(states[0], ops, rule)
  {
    if |ops| > 0 {
      var n := |ops| - 1;
      TraceIsRun(states[..n + 1], ops[..n], rule);
      assert Leads(states[n], ops[n], states[n + 1], rule);
    }
  }

  lemma Joined(first: seq<ProjectState>, ops1: seq<Op>, second: seq<ProjectState>, ops2: seq<Op>, rule: ClassRule)
    requires Trace(first, ops1, rule) && Trace(second, ops2, rule) && first[|ops1|] == second[0]
    ensures Trace(first[..|ops1|] + second, ops1 + ops2, rule)
  {
    var m, states, ops := |ops1|, first[..|ops1|] + second, ops1 + ops2;
    forall k, n | 0 <= k < n < |states| && n == k + 1
      ensures Leads(states[k], ops[k], states[n], rule)
    {
      if k < m {
        assert states[k] == first[k] && ops[k] == ops1[k] && states[n] == first[n];
        assert Leads(first[k], ops1[k], first[n], rule);
      } else {
        assert states[k] == second[k - m] && ops[k] == ops2[k - m] && states[n] == second[n - m];
        assert Leads(second[k - m], ops2[k - m], second[n - m], rule);
      }
    }
  }

  /** A first task, or one more where no task has dependencies. */
  lemma CreateWithoutDependencies(s: ProjectState, tid: Id, t: Task)
    requires tid !in s.tasks && t.base == s.current && |t.spec.criteria| > 0 && t.spec.dependencies == []
    requires NormalizeScopes(t.spec.allowed) == Ok(t.spec.allowed) && NormalizeScopes(t.spec.denied) == Ok(t.spec.denied)
    requires forall x :: x in s.tasks ==> s.tasks[x].spec.dependencies == []
    ensures CreateTaskTx(s, tid, t) == Ok(WithTask(s, tid, t))
  {
    forall p
      ensures !TaskGraph.Cycle(GraphOf(s.tasks), p)
    {
      if |p| >= 2 {
        assert !TaskGraph.DependsOn(GraphOf(s.tasks), p[0], p[1]);
      }
    }
    CycleCheckNeverFires(s, tid, t);
  }

  lemma Creates(s: ProjectState, tid: Id, t: Task, rule: ClassRule)
    requires tid !in s.tasks && t.base == s.current && |t.spec.criteria| > 0 && t.spec.dependencies == []
    requires NormalizeScopes(t.spec.allowed) == Ok(t.spec.allowed) && NormalizeScopes(t.spec.denied) == Ok(t.spec.denied)
    requires forall x :: x in s.tasks ==> s.tasks[x].spec.dependencies == []
    requires Entering(s.agents, t)
    ensures Leads(s, CreateTask(tid, t), WithTask(s, tid, t), rule)
  {
    CreateWithoutDependencies(s, tid, t);
  }

  lemma IntegrateLeads(s: ProjectState, tid: Id, commit: Commit, rule: ClassRule)
    requires IntegrateTx(s, tid, commit).Ok?
    ensures Leads(s, Integrate(tid, commit), IntegrateTx(s, tid, commit).value, rule)
  {
  }

  lemma RecordQaLeads(s: ProjectState, tid: Id, aid: Id, tests: seq<TestExecution>, rule: ClassRule)
    requires RecordQaTx(s, tid, aid, tests).Ok?
    ensures Leads(s, RecordQa(tid, aid, tests), RecordQaTx(s, tid, aid, tests).value, rule)
  {
  }
}
