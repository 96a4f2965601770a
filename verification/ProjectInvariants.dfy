/**
 * What every transition of ProjectState keeps, and what follows for all runs: one lemma per transition,
 * gathered by kind of operation, then by induction over the run.
 */
module ProjectInvariants {
  import opened Common
  import opened RepoPaths
  import opened ProjectTransitions
  import TaskGraph

  // ----- merge gates -----

  datatype Desk = ReviewDesk | QaDesk | SecurityDesk

  predicate MayServe(desk: Desk, role: Role) {
    match desk
    case ReviewDesk => IsReviewRole(role)
    case QaDesk => IsQaRole(role)
    case SecurityDesk => IsSecurityRole(role)
  }

  predicate Registered(agents: map<Id, Agent>, who: Option<Id>, desk: Desk) {
    who.Some? && who.value in agents && MayServe(desk, agents[who.value].contract.role)
  }

  /** An agent of the right role that is not the author. */
  predicate Serves(agents: map<Id, Agent>, author: Option<Id>, who: Option<Id>, desk: Desk) {
    who != author && Registered(agents, who, desk)
  }

  /** What must have happened before a task is merged. */
  predicate GatesPassed(agents: map<Id, Agent>, t: Task) {
    && t.assignee.Some?
    && TestsCover(t.spec.requiredTests, t.gates.tests)
    && t.gates.review.Approved? && Serves(agents, t.assignee, t.gates.reviewer, ReviewDesk)
    && t.gates.qaStatus.Passed? && |t.gates.qaRuns| > 0 && AllPassed(t.gates.qaRuns)
    && Serves(agents, t.assignee, t.gates.qaAgent, QaDesk)
    && (t.spec.needsSecurity ==>
          t.gates.securityApproved == Some(true) && Serves(agents, t.assignee, t.gates.securityAgent, SecurityDesk))
  }

  /** A record that is filled in was filled in by somebody else than the author. */
  predicate RecordsHonest(agents: map<Id, Agent>, t: Task) {
    && (t.gates.reviewer.Some? ==> Serves(agents, t.assignee, t.gates.reviewer, ReviewDesk))
    && (t.gates.qaAgent.Some? ==> Serves(agents, t.assignee, t.gates.qaAgent, QaDesk))
    && (t.gates.securityApproved.Some? ==> Serves(agents, t.assignee, t.gates.securityAgent, SecurityDesk))
    && (t.gates.qaStatus.Passed? ==> t.gates.qaAgent.Some? && |t.gates.qaRuns| > 0 && AllPassed(t.gates.qaRuns))
  }

  /** Nothing is recorded yet; at most a reviewer and a QA agent are named. */
  predicate Unused(g: Gates) {
    g == FRESH_GATES.(reviewer := g.reviewer, qaAgent := g.qaAgent)
  }

  /** Whoever a new task names as reviewer or QA agent is registered already, in a role for that desk. */
  predicate HonestlyNamed(agents: map<Id, Agent>, g: Gates) {
    && (g.reviewer.Some? ==> Registered(agents, g.reviewer, ReviewDesk))
    && (g.qaAgent.Some? ==> Registered(agents, g.qaAgent, QaDesk))
  }

  predicate StageOk(agents: map<Id, Agent>, t: Task) {
    match t.state
    case Pending => false
    case TaskActive => Unused(t.gates)
    case ReviewPending =>
      t.gates.review.ReviewOpen? && t.gates.qaStatus.QaOpen? && TestsCover(t.spec.requiredTests, t.gates.tests)
    case QaPending =>
      t.gates.review.Approved? && t.gates.reviewer.Some? && TestsCover(t.spec.requiredTests, t.gates.tests)
    case ReadyToIntegrate => GatesPassed(agents, t)
    case Integrated => GatesPassed(agents, t)
    case TaskBlocked => true
    case TaskFailed => true
    case Cancelled => true
  }

  predicate TaskOk(agents: map<Id, Agent>, t: Task) {
    if t.assignee.None? then Unused(t.gates) && HonestlyNamed(agents, t.gates) && (t.state.Pending? || t.state.Cancelled?)
    else RecordsHonest(agents, t) && StageOk(agents, t)
  }

  ghost predicate TasksOk(s: ProjectState) {
    forall t :: t in s.tasks ==> TaskOk(s.agents, s.tasks[t])
  }

  // ----- the other parts of the invariant -----

  predicate RunLinked(tasks: map<Id, Task>, run: Run) {
    run.task in tasks && tasks[run.task].assignee == Some(run.agent)
  }

  /** Agents and the tasks they were started for belong to each other. */
  ghost predicate Linked(s: ProjectState) {
    && (forall a :: a in s.agents ==>
          var c := s.agents[a].contract;
          c.task in s.tasks && s.tasks[c.task].assignee == Some(a) && c.allowed == s.tasks[c.task].spec.allowed)
    && (forall t :: t in s.tasks && s.tasks[t].assignee.Some? ==>
          s.tasks[t].assignee.value in s.agents && s.agents[s.tasks[t].assignee.value].contract.task == t)
    && (forall r :: r in s.runs ==> RunLinked(s.tasks, s.runs[r]))
  }

  predicate Settled(st: TaskState) {
    st.Integrated? || st.Cancelled?
  }

  predicate OwnedLock(tasks: map<Id, Task>, l: FileLock) {
    && l.task in tasks && tasks[l.task].assignee == Some(l.agent) && !Settled(tasks[l.task].state)
    && l.scope in tasks[l.task].spec.allowed
  }

  /** Locks of different tasks never overlap. */
  ghost predicate LocksOk(s: ProjectState) {
    && (forall l :: l in s.locks ==> OwnedLock(s.tasks, l))
    && forall l, m :: l in s.locks && m in s.locks && l.task != m.task ==> ScopesOverlap(l.scope, m.scope) == Ok(false)
  }

  /** Integrated tasks are listed, and every listed task comes after its dependencies. */
  ghost predicate CompletedOk(s: ProjectState) {
    && (forall t :: t in s.tasks && s.tasks[t].state.Integrated? ==> t in s.completed)
    && (forall t, d :: t in s.tasks && s.tasks[t].assignee.Some? && d in s.tasks[t].spec.dependencies ==> d in s.completed)
    && TaskGraph.DependenciesFirst(GraphOf(s.tasks), s.completed)
  }

  ghost predicate BlockedListed(s: ProjectState) {
    forall t :: t in s.blocked <==> t in s.tasks && (s.tasks[t].state.TaskBlocked? || s.tasks[t].state.TaskFailed?)
  }

  predicate InForest(agents: map<Id, Agent>, c: Contract, maxDepth: nat) {
    c.generation <= maxDepth
    && match c.parent
       case None => c.generation == 0
       case Some(p) => p in agents && c.generation == agents[p].contract.generation + 1
  }

  ghost predicate ForestOk(s: ProjectState) {
    && (forall a :: a in s.agents ==> InForest(s.agents, s.agents[a].contract, s.governance.maxDepth))
    && forall a :: |ChildrenOf(s.agents, a)| <= s.governance.maxChildren
  }

  function AgentsOfCycle(agents: map<Id, Agent>, cycle: nat): set<Id> {
    set a | a in agents && agents[a].contract.cycle == cycle
  }

  /** The register lists the agents of the current cycle, once each. */
  ghost predicate CycleOk(s: ProjectState) {
    && TaskGraph.Distinct(s.cycleAgents)
    && (forall a :: a in s.cycleAgents <==> a in s.agents && s.agents[a].contract.cycle == s.cycle)
    && (forall a :: a in s.agents ==> s.agents[a].contract.cycle <= s.cycle)
    && forall c :: |AgentsOfCycle(s.agents, c)| <= s.governance.maxPerCycle
  }

  /** The task graph has no cycle and no dependency twice. */
  ghost predicate GraphOk(tasks: map<Id, Task>) {
    Sortable(tasks) && TaskGraph.WellBuilt(GraphOf(tasks))
  }

  ghost predicate Inv(s: ProjectState) {
    TasksOk(s) && Linked(s) && LocksOk(s) && CompletedOk(s) && GraphOk(s.tasks) && BlockedListed(s) && ForestOk(s) && CycleOk(s)
  }

  // ----- steps on one task -----

  ghost predicate ContractsKept(before: map<Id, Agent>, after: map<Id, Agent>) {
    after.Keys == before.Keys && forall a :: a in before ==> after[a].contract == before[a].contract
  }

  /** The lists that follow the state of the task. */
  predicate ListsFollow(s: ProjectState, s': ProjectState, tid: Id, was: TaskState, now: TaskState) {
    && (s'.locks == LocksWithout(s.locks, tid) || s'.locks == s.locks)
    && (s'.locks != s.locks ==> Settled(now))
    && (was != now && Settled(now) ==> s'.locks == LocksWithout(s.locks, tid))
    && (s'.completed == s.completed || s'.completed == s.completed + [tid])
    && (s'.completed != s.completed ==> now.Integrated?)
    && (now.Integrated? ==> tid in s'.completed)
  }

  /** What an operation other than creating a task, an agent or a cycle changes: one task and the lists about it. */
  ghost predicate TaskStep(s: ProjectState, s': ProjectState, tid: Id) {
    && tid in s.tasks && tid in s'.tasks && s'.tasks == s.tasks[tid := s'.tasks[tid]]
    && s'.tasks[tid].spec == s.tasks[tid].spec && s'.tasks[tid].assignee == s.tasks[tid].assignee
    && ContractsKept(s.agents, s'.agents)
    && (forall r :: r in s'.runs ==> RunLinked(s.tasks, s'.runs[r]))
    && ListsFollow(s, s', tid, s.tasks[tid].state, s'.tasks[tid].state)
    && (forall x :: x in s'.blocked <==>
          if x == tid then s'.tasks[tid].state.TaskBlocked? || s'.tasks[tid].state.TaskFailed? else x in s.blocked)
    && s'.governance == s.governance && s'.cycle == s.cycle && s'.cycleAgents == s.cycleAgents
  }

  lemma ServesKept(before: map<Id, Agent>, after: map<Id, Agent>, t: Task)
    requires forall a :: a in before ==> a in after && after[a].contract == before[a].contract
    requires TaskOk(before, t)
    ensures TaskOk(after, t)
  {
  }

  lemma StepKeepsTasks(s: ProjectState, s': ProjectState, tid: Id)
    requires TasksOk(s) && TaskStep(s, s', tid) && TaskOk(s'.agents, s'.tasks[tid])
    ensures TasksOk(s')
  {
    forall t | t in s'.tasks
      ensures TaskOk(s'.agents, s'.tasks[t])
    {
      if t != tid {
        ServesKept(s.agents, s'.agents, s.tasks[t]);
      }
    }
  }

  lemma StepKeepsLinked(s: ProjectState, s': ProjectState, tid: Id)
    requires Linked(s) && TaskStep(s, s', tid)
    ensures Linked(s')
  {
    forall a | a in s'.agents
      ensures var c := s'.agents[a].contract;
              c.task in s'.tasks && s'.tasks[c.task].assignee == Some(a) && c.allowed == s'.tasks[c.task].spec.allowed
    {
      assert a in s.agents && s.agents[a].contract.task in s.tasks;
    }
    forall r | r in s'.runs
      ensures RunLinked(s'.tasks, s'.runs[r])
    {
      assert RunLinked(s.tasks, s'.runs[r]);
    }
  }

  lemma StepKeepsLocks(s: ProjectState, s': ProjectState, tid: Id)
    requires LocksOk(s) && TaskStep(s, s', tid)
    ensures LocksOk(s')
  {
    forall l | l in s'.locks
      ensures l in s.locks && OwnedLock(s'.tasks, l)
    {
      assert OwnedLock(s.tasks, l);
    }
  }

  lemma SameGraph(s: ProjectState, s': ProjectState, tid: Id)
    requires TaskStep(s, s', tid)
    ensures GraphOf(s'.tasks) == GraphOf(s.tasks)
  {
  }

  lemma AppendKeepsOrder(g: TaskGraph.Graph, order: seq<Id>, t: Id)
    requires TaskGraph.DependenciesFirst(g, order) && t in g && forall d :: d in g[t] ==> d in order
    ensures TaskGraph.DependenciesFirst(g, order + [t])
  {
    var next := order + [t];
    forall i | 0 <= i < |next|
      ensures next[i] in g && forall d :: d in g[next[i]] ==> d in next[..i]
    {
      if i < |order| {
        assert next[..i] == order[..i];
      } else {
        assert next[..i] == order;
      }
    }
  }

  lemma StepKeepsCompleted(s: ProjectState, s': ProjectState, tid: Id)
    requires TasksOk(s) && CompletedOk(s) && TaskStep(s, s', tid) && TaskOk(s'.agents, s'.tasks[tid])
    ensures CompletedOk(s')
  {
    SameGraph(s, s', tid);
    if s'.completed != s.completed {
      AppendKeepsOrder(GraphOf(s.tasks), s.completed, tid);
    }
  }

  lemma StepKeepsForest(s: ProjectState, s': ProjectState, tid: Id)
    requires ForestOk(s) && CycleOk(s) && TaskStep(s, s', tid)
    ensures ForestOk(s') && CycleOk(s')
  {
    forall a
      ensures ChildrenOf(s'.agents, a) == ChildrenOf(s.agents, a)
    {
    }
    forall c
      ensures AgentsOfCycle(s'.agents, c) == AgentsOfCycle(s.agents, c)
    {
    }
  }

  lemma StepKeepsLists(s: ProjectState, s': ProjectState, tid: Id)
    requires TasksOk(s) && LocksOk(s) && CompletedOk(s) && GraphOk(s.tasks) && BlockedListed(s)
    requires TaskStep(s, s', tid) && TaskOk(s'.agents, s'.tasks[tid])
    ensures LocksOk(s') && CompletedOk(s') && GraphOk(s'.tasks) && BlockedListed(s')
  {
    StepKeepsLocks(s, s', tid);
    StepKeepsCompleted(s, s', tid);
    SameGraph(s, s', tid);
  }

  lemma StepKeepsInv(s: ProjectState, s': ProjectState, tid: Id)
    requires Inv(s) && TaskStep(s, s', tid) && TaskOk(s'.agents, s'.tasks[tid])
    ensures Inv(s')
  {
    StepKeepsTasks(s, s', tid);
    StepKeepsLinked(s, s', tid);
    StepKeepsLists(s, s', tid);
    StepKeepsForest(s, s', tid);
  }

  // ----- every operation on one task is such a step -----

  function Subject(s: ProjectState, op: Op): Id {
    match op
    case UpdateRun(r, _, _, _) => if r in s.runs then s.runs[r].task else ""
    case FailRun(r, _) => if r in s.runs then s.runs[r].task else ""
    case CompleteRun(r) => if r in s.runs then s.runs[r].task else ""
    case BeginIntegration(r, _) => if r in s.runs then s.runs[r].task else ""
    case RecordRebase(r, _, _, _, _) => if r in s.runs then s.runs[r].task else ""
    case Finalize(r, _, _, _) => if r in s.runs then s.runs[r].task else ""
    case ResetIntegration(r) => if r in s.runs then s.runs[r].task else ""
    case BeginRun(_, run) => run.task
    case Submit(a, _, _, _, _) => if a in s.agents then s.agents[a].contract.task else ""
    case AssignReviewer(t, _) => t
    case RecordReview(t, _, _) => t
    case AssignQa(t, _) => t
    case RecordQa(t, _, _) => t
    case RecordSecurity(t, _, _) => t
    case Reopen(t) => t
    case Cancel(t) => t
    case RebaseTask(t, _) => t
    case Integrate(t, _) => t
    case _ => ""
  }

  predicate OnOneTask(op: Op) {
    !op.BeginCycle? && !op.CreateTask? && !op.StartAgent? && !op.ApproveSpawn?
  }

  /** What the operations on one task need to know about the state. */
  ghost predicate Local(s: ProjectState, tid: Id) {
    && tid in s.tasks && TaskOk(s.agents, s.tasks[tid])
    && (tid in s.blocked <==> s.tasks[tid].state.TaskBlocked? || s.tasks[tid].state.TaskFailed?)
    && (s.tasks[tid].state.Integrated? ==> tid in s.completed)
    && forall r :: r in s.runs ==> RunLinked(s.tasks, s.runs[r])
  }

  ghost predicate GoodStep(s: ProjectState, s': ProjectState, tid: Id) {
    TaskStep(s, s', tid) && TaskOk(s'.agents, s'.tasks[tid])
  }

  lemma BeginRunStep(s: ProjectState, rid: Id, run: Run)
    requires BeginRunTx(s, rid, run).Ok? && Local(s, run.task)
    ensures GoodStep(s, BeginRunTx(s, rid, run).value, run.task)
  {
  }

  lemma UpdateRunStep(s: ProjectState, rid: Id, files: Option<seq<string>>, implementation: Option<Commit>, to: Option<RunState>)
    requires UpdateRunTx(s, rid, files, implementation, to).Ok? && Local(s, s.runs[rid].task)
    ensures GoodStep(s, UpdateRunTx(s, rid, files, implementation, to).value, s.runs[rid].task)
  {
    assert s.tasks == s.tasks[s.runs[rid].task := s.tasks[s.runs[rid].task]];
  }

  lemma CompleteRunStep(s: ProjectState, rid: Id)
    requires CompleteRunTx(s, rid).Ok? && Local(s, s.runs[rid].task)
    ensures GoodStep(s, CompleteRunTx(s, rid).value, s.runs[rid].task)
  {
    assert s.tasks == s.tasks[s.runs[rid].task := s.tasks[s.runs[rid].task]];
  }

  lemma BeginIntegrationStep(s: ProjectState, rid: Id, expected: Commit)
    requires BeginIntegrationTx(s, rid, expected).Ok? && Local(s, s.runs[rid].task)
    ensures GoodStep(s, BeginIntegrationTx(s, rid, expected).value, s.runs[rid].task)
  {
    assert s.tasks == s.tasks[s.runs[rid].task := s.tasks[s.runs[rid].task]];
  }

  lemma ResetIntegrationStep(s: ProjectState, rid: Id)
    requires ResetIntegrationTx(s, rid).Ok? && Local(s, s.runs[rid].task)
    ensures GoodStep(s, ResetIntegrationTx(s, rid).value, s.runs[rid].task)
  {
    assert s.tasks == s.tasks[s.runs[rid].task := s.tasks[s.runs[rid].task]];
  }

  lemma FailRunStep(s: ProjectState, rid: Id, block: bool)
    requires FailRunTx(s, rid, block).Ok? && Local(s, s.runs[rid].task)
    ensures GoodStep(s, FailRunTx(s, rid, block).value, s.runs[rid].task)
  {
    ServesKept(s.agents, FailRunTx(s, rid, block).value.agents, s.tasks[s.runs[rid].task]);
  }

  lemma RecordRebaseStep(s: ProjectState, rid: Id, oldBase: Commit, newBase: Commit, commit: Commit,
                         files: seq<string>)
    requires RecordRebaseTx(s, rid, oldBase, newBase, commit, files).Ok? && Local(s, s.runs[rid].task)
    ensures GoodStep(s, RecordRebaseTx(s, rid, oldBase, newBase, commit, files).value, s.runs[rid].task)
  {
    ServesKept(s.agents, RecordRebaseTx(s, rid, oldBase, newBase, commit, files).value.agents, s.tasks[s.runs[rid].task]);
  }

  lemma FinalizeStep(s: ProjectState, rid: Id, expected: Commit, commit: Commit, tests: seq<TestExecution>)
    requires FinalizeTx(s, rid, expected, commit, tests).Ok? && Local(s, s.runs[rid].task)
    ensures GoodStep(s, FinalizeTx(s, rid, expected, commit, tests).value, s.runs[rid].task)
  {
    ServesKept(s.agents, FinalizeTx(s, rid, expected, commit, tests).value.agents, s.tasks[s.runs[rid].task]);
  }

  lemma RebaseStep(s: ProjectState, tid: Id, newBase: Commit)
    requires RebaseTx(s, tid, newBase).Ok? && Local(s, tid)
    ensures GoodStep(s, RebaseTx(s, tid, newBase).value, tid)
  {
    ServesKept(s.agents, RebaseTx(s, tid, newBase).value.agents, s.tasks[tid]);
  }

  lemma IntegrateStep(s: ProjectState, tid: Id, commit: Commit)
    requires IntegrateTx(s, tid, commit).Ok? && Local(s, tid)
    ensures GoodStep(s, IntegrateTx(s, tid, commit).value, tid)
  {
    ServesKept(s.agents, IntegrateTx(s, tid, commit).value.agents, s.tasks[tid]);
  }

  lemma CancelStep(s: ProjectState, tid: Id)
    requires CancelTx(s, tid).Ok? && Local(s, tid)
    ensures GoodStep(s, CancelTx(s, tid).value, tid)
  {
    ServesKept(s.agents, CancelTx(s, tid).value.agents, s.tasks[tid]);
  }

  lemma AssignReviewerStep(s: ProjectState, tid: Id, aid: Id)
    requires AssignReviewerTx(s, tid, aid).Ok? && Local(s, tid)
    ensures GoodStep(s, AssignReviewerTx(s, tid, aid).value, tid)
  {
  }

  lemma RecordReviewStep(s: ProjectState, tid: Id, aid: Id, approved: bool)
    requires RecordReviewTx(s, tid, aid, approved).Ok? && Local(s, tid)
    ensures GoodStep(s, RecordReviewTx(s, tid, aid, approved).value, tid)
  {
    ServesKept(s.agents, RecordReviewTx(s, tid, aid, approved).value.agents, s.tasks[tid]);
  }

  lemma AssignQaStep(s: ProjectState, tid: Id, aid: Id)
    requires AssignQaTx(s, tid, aid).Ok? && Local(s, tid)
    ensures GoodStep(s, AssignQaTx(s, tid, aid).value, tid)
  {
  }

  /** A record changes one task that stays unsettled, and possibly blocks it. */
  lemma RecordIsGoodStep(s: ProjectState, tid: Id, t: Task, blocked: seq<Id>)
    requires Local(s, tid) && t.spec == s.tasks[tid].spec && t.assignee == s.tasks[tid].assignee
    requires !Settled(t.state) && !s.tasks[tid].state.Integrated? && TaskOk(s.agents, t)
    requires forall x :: x in blocked <==> if x == tid then t.state.TaskBlocked? || t.state.TaskFailed? else x in s.blocked
    ensures GoodStep(s, s.(tasks := s.tasks[tid := t], blocked := blocked), tid)
  {
  }

  lemma QaRecordOk(s: ProjectState, tid: Id, aid: Id, runs: seq<TestExecution>)
    requires RecordQaTx(s, tid, aid, runs).Ok? && Local(s, tid)
    ensures TaskOk(s.agents, RecordQaTx(s, tid, aid, runs).value.tasks[tid])
  {
  }

  lemma RecordQaStep(s: ProjectState, tid: Id, aid: Id, runs: seq<TestExecution>)
    requires RecordQaTx(s, tid, aid, runs).Ok? && Local(s, tid)
    ensures GoodStep(s, RecordQaTx(s, tid, aid, runs).value, tid)
  {
    var s' := RecordQaTx(s, tid, aid, runs).value;
    QaRecordOk(s, tid, aid, runs);
    RecordIsGoodStep(s, tid, s'.tasks[tid], s'.blocked);
  }

  lemma RecordSecurityStep(s: ProjectState, tid: Id, aid: Id, approved: bool)
    requires RecordSecurityTx(s, tid, aid, approved).Ok? && Local(s, tid)
    ensures GoodStep(s, RecordSecurityTx(s, tid, aid, approved).value, tid)
  {
    var s' := RecordSecurityTx(s, tid, aid, approved).value;
    RecordIsGoodStep(s, tid, s'.tasks[tid], s'.blocked);
  }

  lemma ReopenStep(s: ProjectState, tid: Id)
    requires ReopenTx(s, tid).Ok? && Local(s, tid)
    ensures GoodStep(s, ReopenTx(s, tid).value, tid)
  {
  }

  lemma SubmitStep(s: ProjectState, aid: Id, files: seq<string>, tests: seq<TestExecution>, implementation: Option<Commit>,
                   rid: Option<Id>, rule: ClassRule)
    requires SubmitTx(s, aid, files, tests, implementation, rid, rule).Ok? && Local(s, s.agents[aid].contract.task)
    ensures GoodStep(s, SubmitTx(s, aid, files, tests, implementation, rid, rule).value, s.agents[aid].contract.task)
  {
  }

  lemma StateIsLocal(s: ProjectState, tid: Id)
    requires Inv(s) && tid in s.tasks
    ensures Local(s, tid)
  {
  }

  lemma RunTaskExists(s: ProjectState, rid: Id)
    requires Inv(s) && rid in s.runs
    ensures s.runs[rid].task in s.tasks
  {
    assert RunLinked(s.tasks, s.runs[rid]);
  }

  predicate OnRuns(op: Op) {
    op.BeginRun? || op.UpdateRun? || op.FailRun? || op.CompleteRun? || op.BeginIntegration? || op.RecordRebase?
    || op.Finalize? || op.ResetIntegration?
  }

  predicate OnIntegration(op: Op) {
    op.BeginIntegration? || op.RecordRebase? || op.Finalize? || op.ResetIntegration?
  }

  lemma IntegrationIsGoodStep(s: ProjectState, op: Op, rule: ClassRule)
    requires OnIntegration(op) && Transact(s, op, rule).Ok? && Local(s, Subject(s, op))
    ensures GoodStep(s, Transact(s, op, rule).value, Subject(s, op))
  {
    match op
    case BeginIntegration(r, expected) => BeginIntegrationStep(s, r, expected);
    case RecordRebase(r, oldBase, newBase, commit, files) => RecordRebaseStep(s, r, oldBase, newBase, commit, files);
    case Finalize(r, expected, commit, tests) => FinalizeStep(s, r, expected, commit, tests);
    case ResetIntegration(r) => ResetIntegrationStep(s, r);
  }

  lemma RunOperationIsGoodStep(s: ProjectState, op: Op, rule: ClassRule)
    requires OnRuns(op) && Transact(s, op, rule).Ok? && Local(s, Subject(s, op))
    ensures GoodStep(s, Transact(s, op, rule).value, Subject(s, op))
  {
    if OnIntegration(op) {
      IntegrationIsGoodStep(s, op, rule);
    } else {
      match op
      case BeginRun(r, run) => BeginRunStep(s, r, run);
      case UpdateRun(r, files, implementation, to) => UpdateRunStep(s, r, files, implementation, to);
      case FailRun(r, block) => FailRunStep(s, r, block);
      case CompleteRun(r) => CompleteRunStep(s, r);
    }
  }

  predicate OnGates(op: Op) {
    op.Submit? || op.AssignReviewer? || op.RecordReview? || op.AssignQa? || op.RecordQa? || op.RecordSecurity?
  }

  lemma GateOperationIsGoodStep(s: ProjectState, op: Op, rule: ClassRule)
    requires OnGates(op) && Transact(s, op, rule).Ok? && Local(s, Subject(s, op))
    ensures GoodStep(s, Transact(s, op, rule).value, Subject(s, op))
  {
    match op
    case Submit(a, files, tests, implementation, r) => SubmitStep(s, a, files, tests, implementation, r, rule);
    case AssignReviewer(t, a) => AssignReviewerStep(s, t, a);
    case RecordReview(t, a, approved) => RecordReviewStep(s, t, a, approved);
    case AssignQa(t, a) => AssignQaStep(s, t, a);
    case RecordQa(t, a, runs) => RecordQaStep(s, t, a, runs);
    case RecordSecurity(t, a, approved) => RecordSecurityStep(s, t, a, approved);
  }

  /** Every operation but the four that create something works on one task. */
  lemma OperationIsGoodStep(s: ProjectState, op: Op, rule: ClassRule)
    requires OnOneTask(op) && Transact(s, op, rule).Ok? && Local(s, Subject(s, op))
    ensures GoodStep(s, Transact(s, op, rule).value, Subject(s, op))
  {
    if OnRuns(op) {
      RunOperationIsGoodStep(s, op, rule);
    } else if OnGates(op) {
      GateOperationIsGoodStep(s, op, rule);
    } else {
      match op
      case Reopen(t) => ReopenStep(s, t);
      case Cancel(t) => CancelStep(s, t);
      case RebaseTask(t, base) => RebaseStep(s, t, base);
      case Integrate(t, commit) => IntegrateStep(s, t, commit);
    }
  }

  // ----- creating tasks, agents and cycles -----

  /** How tasks enter: not started, nothing recorded, and only registered agents named for review and QA. */
  predicate Entering(agents: map<Id, Agent>, t: Task) {
    t.state.Pending? && t.assignee.None? && Unused(t.gates) && HonestlyNamed(agents, t.gates)
  }

  lemma NewCycleKeepsInv(s: ProjectState)
    requires Inv(s) && BeginCycleTx(s).Ok?
    ensures Inv(BeginCycleTx(s).value)
  {
    var s' := BeginCycleTx(s).value;
    assert TasksOk(s') && Linked(s') && LocksOk(s') && CompletedOk(s') && BlockedListed(s');
    assert ForestOk(s');
  }

  lemma OtherTasksSameOrder(before: TaskGraph.Graph, order: seq<Id>, t: Id, deps: seq<Id>)
    requires TaskGraph.DependenciesFirst(before, order) && (t in before ==> before[t] == deps)
    ensures TaskGraph.DependenciesFirst(before[t := deps], order)
  {
    var g := before[t := deps];
    forall i | 0 <= i < |order|
      ensures order[i] in g && forall d :: d in g[order[i]] ==> d in order[..i]
    {
      assert order[i] in before && g[order[i]] == before[order[i]];
    }
  }

  function WithTask(s: ProjectState, tid: Id, t: Task): ProjectState {
    s.(tasks := s.tasks[tid := t])
  }

  lemma NewTaskKeepsLinks(s: ProjectState, tid: Id, t: Task)
    requires TasksOk(s) && Linked(s) && LocksOk(s) && BlockedListed(s) && tid !in s.tasks && Entering(s.agents, t)
    ensures var s' := WithTask(s, tid, t); TasksOk(s') && Linked(s') && LocksOk(s') && BlockedListed(s')
  {
    var s' := WithTask(s, tid, t);
    forall r | r in s.runs
      ensures RunLinked(s'.tasks, s.runs[r])
    {
      assert RunLinked(s.tasks, s.runs[r]);
    }
    forall l | l in s.locks
      ensures OwnedLock(s'.tasks, l)
    {
      assert OwnedLock(s.tasks, l);
    }
  }

  lemma NewTaskKeepsCompleted(s: ProjectState, tid: Id, t: Task)
    requires CompletedOk(s) && tid !in s.tasks && Entering(s.agents, t)
    ensures CompletedOk(WithTask(s, tid, t))
  {
    assert GraphOf(WithTask(s, tid, t).tasks) == GraphOf(s.tasks)[tid := t.spec.dependencies];
    OtherTasksSameOrder(GraphOf(s.tasks), s.completed, tid, t.spec.dependencies);
  }

  lemma NewTaskKeepsAgents(s: ProjectState, tid: Id, t: Task)
    requires ForestOk(s) && CycleOk(s)
    ensures ForestOk(WithTask(s, tid, t)) && CycleOk(WithTask(s, tid, t))
  {
  }

  lemma CreatedTask(s: ProjectState, tid: Id, t: Task) returns (t': Task)
    requires CreateTaskTx(s, tid, t).Ok? && Entering(s.agents, t)
    ensures Entering(s.agents, t') && tid !in s.tasks && CreateTaskTx(s, tid, t).value == WithTask(s, tid, t')
    ensures Sortable(s.tasks[tid := t']) && t'.spec.dependencies == t.spec.dependencies
  {
    t' := t.(spec := t.spec.(allowed := NormalizeScopes(t.spec.allowed).value, denied := NormalizeScopes(t.spec.denied).value));
  }

  lemma WellBuiltWith(tasks: map<Id, Task>, tid: Id, t: Task)
    requires TaskGraph.WellBuilt(GraphOf(tasks)) && TaskGraph.Distinct(t.spec.dependencies)
    ensures TaskGraph.WellBuilt(GraphOf(tasks[tid := t]))
  {
    assert GraphOf(tasks[tid := t]) == GraphOf(tasks)[tid := t.spec.dependencies];
  }

  lemma NewTaskKeepsInv(s: ProjectState, tid: Id, t: Task)
    requires Inv(s) && CreateTaskTx(s, tid, t).Ok? && Entering(s.agents, t) && TaskGraph.Distinct(t.spec.dependencies)
    ensures Inv(CreateTaskTx(s, tid, t).value)
  {
    var t' := CreatedTask(s, tid, t);
    NewTaskKeepsLinks(s, tid, t');
    NewTaskKeepsCompleted(s, tid, t');
    NewTaskKeepsAgents(s, tid, t');
    WellBuiltWith(s.tasks, tid, t');
  }

  /** What start_agent and approve_spawn have checked when they assign a task. */
  ghost predicate Assignable(s: ProjectState, tid: Id, t: Task, id: Id, c: Contract) {
    && id !in s.agents && c.task == tid && c.cycle == s.cycle && c.allowed == t.spec.allowed
    && Unused(t.gates) && HonestlyNamed(s.agents, t.gates)
    && (tid in s.tasks ==> s.tasks[tid].assignee.None? && s.tasks[tid].spec == t.spec)
    && DependenciesIntegrated(s.tasks, t.spec.dependencies)
    && |s.cycleAgents| < s.governance.maxPerCycle
    && FirstCollision(c.allowed, s.locks).None?
    && InForest(s.agents, c, s.governance.maxDepth)
    && (c.parent.Some? ==> |ChildrenOf(s.agents, c.parent.value)| < s.governance.maxChildren)
  }

  predicate Disjoint(scope: string, l: FileLock) {
    ScopesOverlap(scope, l.scope) == Ok(false)
  }

  lemma CollisionNone(scope: string, locks: seq<FileLock>)
    ensures Collision(scope, locks).None? <==> forall l :: l in locks ==> Disjoint(scope, l)
  {
    FirstErrorNone(locks, ClashWith(scope));
    forall l
      ensures ClashWith(scope)(l).None? <==> Disjoint(scope, l)
    {
    }
  }

  /** The scope check passes exactly when no new scope overlaps any lock. */
  lemma NoCollision(scopes: seq<string>, locks: seq<FileLock>)
    ensures FirstCollision(scopes, locks).None? <==> forall x, l :: x in scopes && l in locks ==> Disjoint(x, l)
  {
    FirstErrorNone(scopes, CollisionWith(locks));
    forall x
      ensures CollisionWith(locks)(x).None? <==> forall l :: l in locks ==> Disjoint(x, l)
    {
      CollisionNone(x, locks);
    }
  }

  lemma AssignKeepsTasks(s: ProjectState, tid: Id, t: Task, id: Id, c: Contract)
    requires TasksOk(s) && BlockedListed(s) && Assignable(s, tid, t, id, c)
    ensures TasksOk(Assign(s, tid, t, id, c)) && BlockedListed(Assign(s, tid, t, id, c))
  {
    var s' := Assign(s, tid, t, id, c);
    forall x | x in s'.tasks
      ensures TaskOk(s'.agents, s'.tasks[x])
    {
      if x != tid {
        ServesKept(s.agents, s'.agents, s.tasks[x]);
      }
    }
    if tid in s.tasks {
      assert TaskOk(s.agents, s.tasks[tid]);
    }
  }

  lemma AssignKeepsLinked(s: ProjectState, tid: Id, t: Task, id: Id, c: Contract)
    requires Linked(s) && Assignable(s, tid, t, id, c)
    ensures Linked(Assign(s, tid, t, id, c))
  {
    var s' := Assign(s, tid, t, id, c);
    forall a | a in s'.agents
      ensures var k := s'.agents[a].contract;
              k.task in s'.tasks && s'.tasks[k.task].assignee == Some(a) && k.allowed == s'.tasks[k.task].spec.allowed
    {
      if a != id {
        assert a in s.agents && s.agents[a].contract.task != tid;
      }
    }
    forall r | r in s.runs
      ensures RunLinked(s'.tasks, s.runs[r])
    {
      assert RunLinked(s.tasks, s.runs[r]);
    }
  }

  lemma AssignKeepsLocks(s: ProjectState, tid: Id, t: Task, id: Id, c: Contract)
    requires LocksOk(s) && Assignable(s, tid, t, id, c)
    ensures LocksOk(Assign(s, tid, t, id, c))
  {
    var s' := Assign(s, tid, t, id, c);
    NoCollision(c.allowed, s.locks);
    forall l | l in s'.locks
      ensures OwnedLock(s'.tasks, l) && (l in s.locks || (l.task == tid && l.scope in c.allowed))
      ensures l in s.locks ==> l.task != tid
    {
      assert l in s.locks ==> OwnedLock(s.tasks, l);
    }
    forall l, m | l in s'.locks && m in s'.locks && l.task != m.task
      ensures ScopesOverlap(l.scope, m.scope) == Ok(false)
    {
      if l.task == tid {
        assert m in s.locks && Disjoint(l.scope, m);
      } else if m.task == tid {
        assert l in s.locks && Disjoint(m.scope, l);
        OverlapIsSymmetric(m.scope, l.scope);
      }
    }
  }

  lemma AssignKeepsGraph(s: ProjectState, tid: Id, t: Task, id: Id, c: Contract)
    ensures GraphOf(Assign(s, tid, t, id, c).tasks) == GraphOf(s.tasks)[tid := t.spec.dependencies] == GraphOf(s.tasks[tid := t])
  {
  }

  lemma AssignKeepsCompleted(s: ProjectState, tid: Id, t: Task, id: Id, c: Contract)
    requires CompletedOk(s) && Assignable(s, tid, t, id, c)
    requires tid in s.tasks ==> !s.tasks[tid].state.Integrated?
    ensures CompletedOk(Assign(s, tid, t, id, c))
  {
    AssignKeepsGraph(s, tid, t, id, c);
    OtherTasksSameOrder(GraphOf(s.tasks), s.completed, tid, t.spec.dependencies);
  }

  lemma AssignKeepsSortable(s: ProjectState, tid: Id, t: Task, id: Id, c: Contract)
    requires GraphOk(s.tasks[tid := t])
    ensures GraphOk(Assign(s, tid, t, id, c).tasks)
  {
    AssignKeepsGraph(s, tid, t, id, c);
  }

  lemma MoreChildren(agents: map<Id, Agent>, id: Id, agent: Agent, a: Id)
    requires id !in agents
    ensures |ChildrenOf(agents[id := agent], a)| == |ChildrenOf(agents, a)| + if agent.contract.parent == Some(a) then 1 else 0
  {
    assert ChildrenOf(agents[id := agent], a) ==
           if agent.contract.parent == Some(a) then ChildrenOf(agents, a) + {id} else ChildrenOf(agents, a);
  }

  lemma AssignKeepsForest(s: ProjectState, tid: Id, t: Task, id: Id, c: Contract)
    requires ForestOk(s) && id !in s.agents && InForest(s.agents, c, s.governance.maxDepth)
    requires c.parent.Some? ==> |ChildrenOf(s.agents, c.parent.value)| < s.governance.maxChildren
    ensures ForestOk(Assign(s, tid, t, id, c))
  {
    var s' := Assign(s, tid, t, id, c);
    forall a | a in s'.agents
      ensures InForest(s'.agents, s'.agents[a].contract, s.governance.maxDepth)
    {
      assert a != id ==> InForest(s.agents, s.agents[a].contract, s.governance.maxDepth);
    }
    forall a
      ensures |ChildrenOf(s'.agents, a)| <= s.governance.maxChildren
    {
      MoreChildren(s.agents, id, Agent(c, Active, t.base), a);
    }
  }

  lemma RegisterSize(s: ProjectState)
    requires CycleOk(s)
    ensures |AgentsOfCycle(s.agents, s.cycle)| == |s.cycleAgents|
  {
    TaskGraph.DistinctSize(s.cycleAgents);
    assert AgentsOfCycle(s.agents, s.cycle) == TaskGraph.Elements(s.cycleAgents);
  }

  lemma MoreAgentsOfCycle(agents: map<Id, Agent>, id: Id, agent: Agent, k: nat)
    requires id !in agents
    ensures |AgentsOfCycle(agents[id := agent], k)| == |AgentsOfCycle(agents, k)| + if k == agent.contract.cycle then 1 else 0
  {
    assert AgentsOfCycle(agents[id := agent], k) ==
           if k == agent.contract.cycle then AgentsOfCycle(agents, k) + {id} else AgentsOfCycle(agents, k);
  }

  lemma AssignKeepsCycle(s: ProjectState, tid: Id, t: Task, id: Id, c: Contract)
    requires CycleOk(s) && id !in s.agents && c.cycle == s.cycle && |s.cycleAgents| < s.governance.maxPerCycle
    ensures CycleOk(Assign(s, tid, t, id, c))
  {
    var s' := Assign(s, tid, t, id, c);
    RegisterSize(s);
    assert id !in s.cycleAgents;
    TaskGraph.DistinctAppend(s.cycleAgents, id);
    forall k
      ensures |AgentsOfCycle(s'.agents, k)| <= s.governance.maxPerCycle
    {
      MoreAgentsOfCycle(s.agents, id, Agent(c, Active, t.base), k);
      assert |AgentsOfCycle(s.agents, k)| <= s.governance.maxPerCycle;
    }
  }

  lemma AssignKeepsInv(s: ProjectState, tid: Id, t: Task, id: Id, c: Contract)
    requires Inv(s) && Assignable(s, tid, t, id, c) && GraphOk(s.tasks[tid := t])
    ensures Inv(Assign(s, tid, t, id, c))
  {
    AssignKeepsTasks(s, tid, t, id, c);
    AssignKeepsLinked(s, tid, t, id, c);
    AssignKeepsLocks(s, tid, t, id, c);
    assert tid in s.tasks ==> TaskOk(s.agents, s.tasks[tid]);
    AssignKeepsCompleted(s, tid, t, id, c);
    AssignKeepsSortable(s, tid, t, id, c);
    AssignKeepsForest(s, tid, t, id, c);
    AssignKeepsCycle(s, tid, t, id, c);
  }

  function StartContract(s: ProjectState, tid: Id, role: Role): Contract
    requires tid in s.tasks
  {
    Contract(role, None, 0, s.cycle, tid, s.tasks[tid].spec.allowed, s.tasks[tid].spec.denied)
  }

  lemma StartIsAssign(s: ProjectState, tid: Id, role: Role, id: Id)
    requires StartAgentTx(s, tid, role, id).Ok? && TaskOk(s.agents, s.tasks[tid])
    ensures Assignable(s, tid, s.tasks[tid].(base := s.current), id, StartContract(s, tid, role))
    ensures StartAgentTx(s, tid, role, id).value ==
            Assign(s, tid, s.tasks[tid].(base := s.current), id, StartContract(s, tid, role))
  {
  }

  lemma StartKeepsInv(s: ProjectState, tid: Id, role: Role, id: Id)
    requires Inv(s) && StartAgentTx(s, tid, role, id).Ok?
    ensures Inv(StartAgentTx(s, tid, role, id).value)
  {
    StateIsLocal(s, tid);
    StartIsAssign(s, tid, role, id);
    assert GraphOf(s.tasks[tid := s.tasks[tid].(base := s.current)]) == GraphOf(s.tasks);
    AssignKeepsInv(s, tid, s.tasks[tid].(base := s.current), id, StartContract(s, tid, role));
  }

  function SpawnContract(s: ProjectState, q: SpawnRequest): Contract
    requires q.parent in s.agents && NormalizeScopes(q.spec.allowed).Ok? && NormalizeScopes(q.spec.denied).Ok?
  {
    Contract(q.role, Some(q.parent), s.agents[q.parent].contract.generation + 1, s.cycle, q.task,
             NormalizeScopes(q.spec.allowed).value, NormalizeScopes(q.spec.denied).value)
  }

  lemma SpawnChecks(s: ProjectState, q: SpawnRequest, id: Id)
    requires ApproveSpawnTx(s, q, id).Ok?
    ensures q.parent in s.agents && NormalizeScopes(q.spec.allowed).Ok? && NormalizeScopes(q.spec.denied).Ok?
    ensures var c := SpawnContract(s, q);
            var t := SpawnedTask(q, c.allowed, c.denied);
            && SpawnRefused(s, q).None? && FirstCollision(c.allowed, s.locks).None?
            && DependenciesIntegrated(s.tasks, q.spec.dependencies) && Sortable(s.tasks[q.task := t])
            && ApproveSpawnTx(s, q, id).value == Assign(s, q.task, t, id, c)
  {
  }

  lemma SpawnKeepsInv(s: ProjectState, q: SpawnRequest, id: Id)
    requires Inv(s) && ApproveSpawnTx(s, q, id).Ok? && id !in s.agents && TaskGraph.Distinct(q.spec.dependencies)
    ensures Inv(ApproveSpawnTx(s, q, id).value)
  {
    SpawnChecks(s, q, id);
    var c := SpawnContract(s, q);
    WellBuiltWith(s.tasks, q.task, SpawnedTask(q, c.allowed, c.denied));
    AssignKeepsInv(s, q.task, SpawnedTask(q, c.allowed, c.denied), id, c);
  }

  // ----- all runs -----

  /** Tasks enter as they should, without repeated dependencies, and the generated id of a spawned agent is free. */
  ghost predicate Proper(s: ProjectState, op: Op) {
    && (op.CreateTask? ==> Entering(s.agents, op.created) && TaskGraph.Distinct(op.created.spec.dependencies))
    && (op.ApproveSpawn? ==> op.agent !in s.agents && TaskGraph.Distinct(op.request.spec.dependencies))
  }

  ghost predicate ProperRun(s: ProjectState, ops: seq<Op>, rule: ClassRule) {
    |ops| > 0 ==> var front := ops[..|ops| - 1];
                  ProperRun(s, front, rule) && Proper(RunAll(s, front, rule), ops[|ops| - 1])
  }

  lemma SubjectIsLocal(s: ProjectState, op: Op, rule: ClassRule)
    requires Inv(s) && Transact(s, op, rule).Ok? && OnOneTask(op)
    ensures Local(s, Subject(s, op))
  {
    if op.UpdateRun? || op.CompleteRun? || op.BeginIntegration? || op.ResetIntegration? || op.FailRun? || op.RecordRebase?
       || op.Finalize? {
      RunTaskExists(s, op.run);
    }
    StateIsLocal(s, Subject(s, op));
  }

  lemma OneTaskKeepsInv(s: ProjectState, op: Op, rule: ClassRule)
    requires Inv(s) && Transact(s, op, rule).Ok? && OnOneTask(op)
    ensures Inv(Transact(s, op, rule).value)
  {
    SubjectIsLocal(s, op, rule);
    OperationIsGoodStep(s, op, rule);
    StepKeepsInv(s, Transact(s, op, rule).value, Subject(s, op));
  }

  lemma OperationKeepsInv(s: ProjectState, op: Op, rule: ClassRule)
    requires Inv(s) && Proper(s, op)
    ensures Inv(After(s, op, rule))
  {
    if Transact(s, op, rule).Ok? {
      if OnOneTask(op) {
        OneTaskKeepsInv(s, op, rule);
      } else if op.BeginCycle? {
        NewCycleKeepsInv(s);
      } else if op.CreateTask? {
        NewTaskKeepsInv(s, op.task, op.created);
      } else if op.StartAgent? {
        StartKeepsInv(s, op.task, op.role, op.agent);
      } else {
        SpawnKeepsInv(s, op.request, op.agent);
      }
    }
  }

  lemma InitialInv(s: ProjectState)
    requires Initial(s)
    ensures Inv(s)
  {
    assert GraphOf(s.tasks) == map[];
    forall p
      ensures !TaskGraph.Cycle(map[], p)
    {
      if |p| >= 2 {
        assert !TaskGraph.DependsOn(map[], p[0], p[1]);
      }
    }
    forall a
      ensures ChildrenOf(s.agents, a) == {}
    {
    }
    forall c
      ensures AgentsOfCycle(s.agents, c) == {}
    {
    }
  }

  /** The invariant holds after every sequence of operations. */
  lemma {:induction false} RunKeepsInv(s: ProjectState, ops: seq<Op>, rule: ClassRule)
    requires Inv(s) && ProperRun(s, ops, rule)
    ensures Inv(RunAll(s, ops, rule))
  {
    if |ops| > 0 {
      RunKeepsInv(s, ops[..|ops| - 1], rule);
      OperationKeepsInv(RunAll(s, ops[..|ops| - 1], rule), ops[|ops| - 1], rule);
    }
  }
}
