/** What holds after every sequence of orchestrator operations. */
module ProjectGuarantees {
  import opened Common
  import opened RepoPaths
  import opened ProjectTransitions
  import opened ProjectInvariants
  import TaskGraph

  // ----- gates, completion order, limits -----

  /**
   * Whatever was rejected, blocked, failed, reopened or rebased before: a task that is ready to integrate or
   * integrated has an approved review, an all-passed QA list, its required tests and, when required, a security
   * approval, each by an agent of the right role other than the author.
   */
  lemma MergeGatesOnEveryRun(s: ProjectState, ops: seq<Op>, rule: ClassRule, t: Id)
    requires Initial(s) && ProperRun(s, ops, rule)
    ensures var e := RunAll(s, ops, rule);
            t in e.tasks && (e.tasks[t].state.ReadyToIntegrate? || e.tasks[t].state.Integrated?) ==>
              GatesPassed(e.agents, e.tasks[t])
  {
    InitialInv(s);
    RunKeepsInv(s, ops, rule);
    var e := RunAll(s, ops, rule);
    assert t in e.tasks ==> TaskOk(e.agents, e.tasks[t]);
  }

  /** Nothing but the two ways of merging moves the stable commit. */
  lemma OnlyMergesMoveTheStableCommit(s: ProjectState, op: Op, rule: ClassRule)
    requires !op.Finalize? && !op.Integrate? && Transact(s, op, rule).Ok?
    ensures Transact(s, op, rule).value.current == s.current
  {
  }

  /**
   * A worker integration moves it from the expected commit to the commit of a run under integration whose post-merge
   * tests all passed and whose task has passed its gates.
   */
  lemma FinalizeMovesToTheRunsCommit(s: ProjectState, rid: Id, expected: Commit, given: Commit, tests: seq<TestExecution>)
    requires Inv(s) && FinalizeTx(s, rid, expected, given, tests).Ok?
    ensures rid in s.runs && s.runs[rid].state.Integrating? && s.runs[rid].implementation == Some(Strip(given))
    ensures |tests| > 0 && forall i :: 0 <= i < |tests| ==> tests[i].passed
    ensures expected == s.current && Strip(given) != s.current && s.runs[rid].task in s.tasks
    ensures var tid, s' := s.runs[rid].task, FinalizeTx(s, rid, expected, given, tests).value;
            && s.tasks[tid].state.ReadyToIntegrate? && GatesPassed(s.agents, s.tasks[tid])
            && s'.current == Strip(given) && s'.tasks[tid].state.Integrated? && s'.tasks[tid].integration == Some(Strip(given))
  {
    RunTaskExists(s, rid);
    StateIsLocal(s, s.runs[rid].task);
  }

  /** Direct integration moves it to the commit given for a ready task on the stable commit, which no run works on. */
  lemma IntegrateMovesToTheGivenCommit(s: ProjectState, tid: Id, given: Commit)
    requires Inv(s) && IntegrateTx(s, tid, given).Ok?
    ensures tid in s.tasks && s.tasks[tid].state.ReadyToIntegrate? && GatesPassed(s.agents, s.tasks[tid])
    ensures s.tasks[tid].base == s.current && given != s.current && Strip(given) != ""
    ensures s.tasks[tid].run.None? || s.tasks[tid].run == Some("")
    ensures s.tasks[tid].implementation.None? || s.tasks[tid].implementation.value == ""
            || s.tasks[tid].implementation.value == Strip(given)
    ensures var s' := IntegrateTx(s, tid, given).value;
            && s'.current == Strip(given) && s'.tasks[tid].state.Integrated? && s'.tasks[tid].integration == Some(Strip(given))
  {
    StateIsLocal(s, tid);
  }

  /** completed_tasks lists every dependency before its dependents, and the task graph never gets a cycle. */
  lemma CompletedIsInDependencyOrder(s: ProjectState, ops: seq<Op>, rule: ClassRule)
    requires Initial(s) && ProperRun(s, ops, rule)
    ensures var e := RunAll(s, ops, rule);
            TaskGraph.DependenciesFirst(GraphOf(e.tasks), e.completed)
            && TaskGraph.Closed(GraphOf(e.tasks)) && TaskGraph.Acyclic(GraphOf(e.tasks))
            && forall t :: t in e.tasks && e.tasks[t].state.Integrated? ==> t in e.completed
  {
    InitialInv(s);
    RunKeepsInv(s, ops, rule);
  }

  /** In a reachable state the sort that create_task and approve_spawn run on the new graph cannot fail. */
  lemma CycleCheckNeverFires(s: ProjectState, tid: Id, t: Task)
    requires Sortable(s.tasks) && tid !in s.tasks && forall d :: d in t.spec.dependencies ==> d in s.tasks
    ensures Sortable(s.tasks[tid := t])
  {
    assert GraphOf(s.tasks[tid := t]) == GraphOf(s.tasks)[tid := t.spec.dependencies];
    TaskGraph.NewTaskKeepsAcyclic(GraphOf(s.tasks), tid, t.spec.dependencies);
  }

  /** No cycle, current or past, registered more agents than allowed; the register is exactly the current ones. */
  lemma AgentsPerCycleOnEveryRun(s: ProjectState, ops: seq<Op>, rule: ClassRule, cycle: nat)
    requires Initial(s) && ProperRun(s, ops, rule)
    ensures var e := RunAll(s, ops, rule);
            |AgentsOfCycle(e.agents, cycle)| <= e.governance.maxPerCycle
            && |e.cycleAgents| == |AgentsOfCycle(e.agents, e.cycle)|
            && forall a :: a in e.cycleAgents <==> a in AgentsOfCycle(e.agents, e.cycle)
  {
    InitialInv(s);
    RunKeepsInv(s, ops, rule);
    RegisterSize(RunAll(s, ops, rule));
  }

  // ----- file locks -----

  /** An unfinished task that was handed to an agent. */
  predicate Open(t: Task) {
    t.assignee.Some? && !Settled(t.state)
  }

  predicate HoldsLocks(locks: seq<FileLock>, tid: Id, t: Task) {
    forall scope :: scope in t.spec.allowed ==> t.assignee.Some? && FileLock(scope, t.assignee.value, tid) in locks
  }

  ghost predicate LocksHeld(s: ProjectState) {
    forall t :: t in s.tasks && Open(s.tasks[t]) ==> HoldsLocks(s.locks, t, s.tasks[t])
  }

  /** completed_tasks is exactly the integrated tasks, once each. */
  ghost predicate CompletedExact(s: ProjectState) {
    TaskGraph.Distinct(s.completed) && forall t :: t in s.completed ==> t in s.tasks && s.tasks[t].state.Integrated?
  }

  ghost predicate Orderly(s: ProjectState) {
    LocksHeld(s) && CompletedExact(s)
  }

  /** fail_worker_run is not applied to a run whose task is already integrated or cancelled. */
  predicate Guarded(s: ProjectState, op: Op) {
    op.FailRun? && op.run in s.runs && s.runs[op.run].task in s.tasks ==> !Settled(s.tasks[s.runs[op.run].task].state)
  }

  ghost predicate GuardedRun(s: ProjectState, ops: seq<Op>, rule: ClassRule) {
    |ops| > 0 ==> var front := ops[..|ops| - 1];
                  GuardedRun(s, front, rule) && Guarded(RunAll(s, front, rule), ops[|ops| - 1])
  }

  /** Settled tasks stay settled, except through fail_worker_run; a task is completed when it is integrated. */
  ghost predicate CalmStep(s: ProjectState, s': ProjectState, tid: Id) {
    && TaskStep(s, s', tid)
    && (Settled(s.tasks[tid].state) ==> s'.tasks[tid].state == s.tasks[tid].state || s'.tasks[tid].state.Cancelled?)
    && (s.tasks[tid].state.Integrated? ==> s'.tasks[tid].state.Integrated?)
    && (s'.completed != s.completed ==> tid !in s.completed)
  }

  lemma CalmStepKeepsOrderly(s: ProjectState, s': ProjectState, tid: Id)
    requires Orderly(s) && CalmStep(s, s', tid)
    ensures Orderly(s')
  {
    forall t | t in s'.tasks && Open(s'.tasks[t])
      ensures HoldsLocks(s'.locks, t, s'.tasks[t])
    {
      assert Open(s.tasks[t]) && HoldsLocks(s.locks, t, s.tasks[t]);
    }
    if s'.completed != s.completed {
      TaskGraph.DistinctAppend(s.completed, tid);
    }
  }

  lemma RunOperationIsCalm(s: ProjectState, op: Op, rule: ClassRule)
    requires OnRuns(op) && Transact(s, op, rule).Ok? && Local(s, Subject(s, op))
    requires Guarded(s, op) && CompletedExact(s)
    ensures CalmStep(s, Transact(s, op, rule).value, Subject(s, op))
  {
    RunOperationIsGoodStep(s, op, rule);
  }

  lemma GateOperationsTouchUnsettled(s: ProjectState, op: Op, rule: ClassRule)
    requires OnGates(op) && Transact(s, op, rule).Ok?
    ensures Subject(s, op) in s.tasks && !Settled(s.tasks[Subject(s, op)].state)
    ensures Transact(s, op, rule).value.completed == s.completed
  {
  }

  lemma CalmWhenUnsettled(s: ProjectState, s': ProjectState, tid: Id)
    requires GoodStep(s, s', tid) && !Settled(s.tasks[tid].state) && s'.completed == s.completed
    ensures CalmStep(s, s', tid)
  {
  }

  lemma OperationIsCalm(s: ProjectState, op: Op, rule: ClassRule)
    requires OnOneTask(op) && Transact(s, op, rule).Ok? && Local(s, Subject(s, op))
    requires Guarded(s, op) && CompletedExact(s)
    ensures CalmStep(s, Transact(s, op, rule).value, Subject(s, op))
  {
    if OnRuns(op) {
      RunOperationIsCalm(s, op, rule);
    } else if OnGates(op) {
      GateOperationIsGoodStep(s, op, rule);
      GateOperationsTouchUnsettled(s, op, rule);
      CalmWhenUnsettled(s, Transact(s, op, rule).value, Subject(s, op));
    } else {
      OperationIsGoodStep(s, op, rule);
    }
  }

  lemma AssignKeepsOrderly(s: ProjectState, tid: Id, t: Task, id: Id, c: Contract)
    requires Orderly(s) && TasksOk(s) && Assignable(s, tid, t, id, c)
    ensures Orderly(Assign(s, tid, t, id, c))
  {
    var s' := Assign(s, tid, t, id, c);
    forall x | x in s'.tasks && Open(s'.tasks[x])
      ensures HoldsLocks(s'.locks, x, s'.tasks[x])
    {
      if x == tid {
        forall scope | scope in c.allowed
          ensures FileLock(scope, id, tid) in s'.locks
        {
          var k :| 0 <= k < |c.allowed| && c.allowed[k] == scope;
          assert NewLocks(c.allowed, id, tid)[k] == FileLock(scope, id, tid);
        }
      } else {
        assert HoldsLocks(s.locks, x, s.tasks[x]);
      }
    }
    forall x | x in s.completed
      ensures s'.tasks[x].state.Integrated?
    {
      assert TaskOk(s.agents, s.tasks[x]);
    }
  }

  lemma StartKeepsOrderly(s: ProjectState, tid: Id, role: Role, id: Id)
    requires Inv(s) && Orderly(s) && StartAgentTx(s, tid, role, id).Ok?
    ensures Orderly(StartAgentTx(s, tid, role, id).value)
  {
    StateIsLocal(s, tid);
    StartIsAssign(s, tid, role, id);
    AssignKeepsOrderly(s, tid, s.tasks[tid].(base := s.current), id, StartContract(s, tid, role));
  }

  lemma SpawnKeepsOrderly(s: ProjectState, q: SpawnRequest, id: Id)
    requires Inv(s) && Orderly(s) && ApproveSpawnTx(s, q, id).Ok? && id !in s.agents
    ensures Orderly(ApproveSpawnTx(s, q, id).value)
  {
    SpawnChecks(s, q, id);
    var c := SpawnContract(s, q);
    AssignKeepsOrderly(s, q.task, SpawnedTask(q, c.allowed, c.denied), id, c);
  }

  lemma CreationKeepsOrderly(s: ProjectState, op: Op, rule: ClassRule)
    requires Inv(s) && Orderly(s) && Proper(s, op) && !OnOneTask(op) && Transact(s, op, rule).Ok?
    ensures Orderly(Transact(s, op, rule).value)
  {
    if op.BeginCycle? {
    } else if op.CreateTask? {
      var t := CreatedTask(s, op.task, op.created);
    } else if op.StartAgent? {
      StartKeepsOrderly(s, op.task, op.role, op.agent);
    } else {
      SpawnKeepsOrderly(s, op.request, op.agent);
    }
  }

  /** With the guard, every unfinished task holds its locks and completed_tasks is exact after every run. */
  lemma {:induction false} OrderlyOnEveryGuardedRun(s: ProjectState, ops: seq<Op>, rule: ClassRule)
    requires Initial(s) && ProperRun(s, ops, rule) && GuardedRun(s, ops, rule)
    ensures Orderly(RunAll(s, ops, rule))
  {
    if |ops| > 0 {
      var front, op := ops[..|ops| - 1], ops[|ops| - 1];
      var e := RunAll(s, front, rule);
      OrderlyOnEveryGuardedRun(s, front, rule);
      InitialInv(s);
      RunKeepsInv(s, front, rule);
      if Transact(e, op, rule).Ok? {
        if OnOneTask(op) {
          SubjectIsLocal(e, op, rule);
          OperationIsCalm(e, op, rule);
          CalmStepKeepsOrderly(e, Transact(e, op, rule).value, Subject(e, op));
        } else {
          CreationKeepsOrderly(e, op, rule);
        }
      }
    }
  }

  /**
   * The guard is exact: failing a run keeps every unfinished task behind its locks and completed_tasks exact if
   * and only if the task of the run is not integrated, and not cancelled unless it has no scope at all.
   */
  lemma FailRunKeepsOrderlyIffGuarded(s: ProjectState, rid: Id, block: bool)
    requires Inv(s) && Orderly(s) && FailRunTx(s, rid, block).Ok?
    ensures var t := s.tasks[s.runs[rid].task];
            Orderly(FailRunTx(s, rid, block).value) <==>
              !t.state.Integrated? && (t.state.Cancelled? ==> t.spec.allowed == [])
  {
    var tid, s' := s.runs[rid].task, FailRunTx(s, rid, block).value;
    var t, t' := s.tasks[tid], s'.tasks[tid];
    RunTaskExists(s, rid);
    StateIsLocal(s, tid);
    FailRunStep(s, rid, block);
    if !Settled(t.state) {
      assert CalmStep(s, s', tid);
      CalmStepKeepsOrderly(s, s', tid);
    } else if t.state.Integrated? {
      assert tid in s'.completed && !t'.state.Integrated?;
    } else {
      SettledHasNoLocks(s, tid);
      if t.spec.allowed != [] {
        assert Open(t') && t'.spec.allowed[0] in t'.spec.allowed;
        assert FileLock(t'.spec.allowed[0], t'.assignee.value, tid) !in s'.locks;
        assert !HoldsLocks(s'.locks, tid, t');
      } else {
        CancelledWithoutScopes(s, s', tid);
      }
    }
  }

  lemma SettledHasNoLocks(s: ProjectState, tid: Id)
    requires LocksOk(s) && tid in s.tasks && Settled(s.tasks[tid].state)
    ensures forall l :: l in s.locks ==> l.task != tid
  {
    forall l | l in s.locks
      ensures l.task != tid
    {
      assert OwnedLock(s.tasks, l);
    }
  }

  lemma CancelledWithoutScopes(s: ProjectState, s': ProjectState, tid: Id)
    requires Orderly(s) && TaskStep(s, s', tid) && s'.completed == s.completed && s'.locks == s.locks
    requires s.tasks[tid].spec.allowed == [] && s.tasks[tid].state.Cancelled?
    ensures Orderly(s')
  {
    forall t | t in s'.tasks && Open(s'.tasks[t])
      ensures HoldsLocks(s'.locks, t, s'.tasks[t])
    {
      if t != tid {
        assert Open(s.tasks[t]) && HoldsLocks(s.locks, t, s.tasks[t]);
      }
    }
  }

  // ----- one writer per path -----

  /** Every scope the task may write to starts its first wildcard at the start of a component. */
  ghost predicate AlignedTask(t: Task) {
    forall scope :: scope in t.spec.allowed ==> AlignedScope(scope)
  }

  /** The agent of this unfinished task may submit the path. */
  predicate MayEdit(s: ProjectState, tid: Id, path: string, rule: ClassRule) {
    && tid in s.tasks && Open(s.tasks[tid]) && s.tasks[tid].assignee.value in s.agents
    && Writable(s.agents[s.tasks[tid].assignee.value].contract, path, rule)
  }

  /** Each file of an accepted submission is one the task may edit. */
  lemma SubmittedFilesMayBeEdited(s: ProjectState, aid: Id, files: seq<string>, tests: seq<TestExecution>,
                                  implementation: Option<Commit>, rid: Option<Id>, rule: ClassRule, path: string)
    requires SubmitTx(s, aid, files, tests, implementation, rid, rule).Ok?
    requires path in NormalizeFiles(files).value
    ensures MayEdit(s, s.agents[aid].contract.task, path, rule)
  {
  }

  lemma {:induction false} MatchedByOne(path: string, scopes: seq<string>, rule: ClassRule) returns (scope: string)
    requires AnyMatch(path, scopes, rule) == Ok(true)
    ensures scope in scopes && PathMatchesScope(path, scope, rule) == Ok(true)
  {
    var n := |scopes| - 1;
    if AnyMatch(path, scopes[..n], rule) == Ok(true) {
      scope := MatchedByOne(path, scopes[..n], rule);
    } else {
      scope := scopes[n];
    }
  }

  /** Two unfinished tasks that hold their locks share no editable path, whatever the other tasks do. */
  lemma OneWriterPerPath(s: ProjectState, t1: Id, t2: Id, path: string, rule: ClassRule)
    requires Linked(s) && LocksOk(s)
    requires MayEdit(s, t1, path, rule) && MayEdit(s, t2, path, rule)
    requires HoldsLocks(s.locks, t1, s.tasks[t1]) && HoldsLocks(s.locks, t2, s.tasks[t2])
    requires AlignedTask(s.tasks[t1]) && AlignedTask(s.tasks[t2])
    ensures t1 == t2
  {
    var a1, a2 := s.tasks[t1].assignee.value, s.tasks[t2].assignee.value;
    var x1 := MatchedByOne(path, s.agents[a1].contract.allowed, rule);
    var x2 := MatchedByOne(path, s.agents[a2].contract.allowed, rule);
    assert FileLock(x1, a1, t1) in s.locks && FileLock(x2, a2, t2) in s.locks;
    OverlapCheckIsSound(path, x1, x2, rule);
  }

  /** After every run: no path can be submitted for two different tasks that hold their locks over aligned scopes. */
  lemma OneWriterOnEveryRun(s: ProjectState, ops: seq<Op>, rule: ClassRule, t1: Id, t2: Id, path: string)
    requires Initial(s) && ProperRun(s, ops, rule)
    requires var e := RunAll(s, ops, rule);
             && MayEdit(e, t1, path, rule) && MayEdit(e, t2, path, rule)
             && HoldsLocks(e.locks, t1, e.tasks[t1]) && HoldsLocks(e.locks, t2, e.tasks[t2])
             && AlignedTask(e.tasks[t1]) && AlignedTask(e.tasks[t2])
    ensures t1 == t2
  {
    InitialInv(s);
    RunKeepsInv(s, ops, rule);
    OneWriterPerPath(RunAll(s, ops, rule), t1, t2, path, rule);
  }

  /** With the guard every unfinished task holds its locks, so no path can be submitted for two tasks over aligned scopes. */
  lemma OneWriterOnEveryGuardedRun(s: ProjectState, ops: seq<Op>, rule: ClassRule, t1: Id, t2: Id, path: string)
    requires Initial(s) && ProperRun(s, ops, rule) && GuardedRun(s, ops, rule)
    requires var e := RunAll(s, ops, rule);
             && MayEdit(e, t1, path, rule) && MayEdit(e, t2, path, rule)
             && AlignedTask(e.tasks[t1]) && AlignedTask(e.tasks[t2])
    ensures t1 == t2
  {
    OrderlyOnEveryGuardedRun(s, ops, rule);
    assert LocksHeld(RunAll(s, ops, rule));
    OneWriterOnEveryRun(s, ops, rule, t1, t2, path);
  }
}
