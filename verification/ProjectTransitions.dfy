/** The transitions of ProjectState (tankai/dev_orchestrator/orchestrator.py). */
module ProjectTransitions {
  // Each `...Tx` is one transaction of the state store: it yields the new state, or the error after which
  // nothing is saved.

  import opened Common
  import opened RepoPaths
  import TaskGraph

  type Id = string
  type Commit = string
  type Role = string

  datatype OrchestrationError = ValidationError | ConflictError | TransitionError

  datatype AgentStatus =
    | Created | Initializing | Ready | Active | Blocked | WaitingForReview
    | Failed | Completed | Merged | Rejected | Terminated | Stopped

  datatype TaskState =
    | Pending | TaskActive | ReviewPending | QaPending | ReadyToIntegrate | Integrated
    | TaskBlocked | TaskFailed | Cancelled

  datatype RunState =
    | RunPending | Running | Submitted | RunReady | Integrating | RunIntegrated | RunBlocked | RunFailed

  datatype Review = ReviewOpen | Approved | ReviewRejected
  datatype QaStatus = QaOpen | Passed | QaFailed | NotTested

  datatype TestExecution = TestExecution(command: string, passed: bool)

  /** What a task was created with; lists hold no repetition, as the TaskSpec validator leaves them. */
  datatype TaskSpec = TaskSpec(dependencies: seq<Id>, allowed: seq<string>, denied: seq<string>, criteria: seq<string>,
                               requiredTests: seq<string>, modules: set<string>, needsSecurity: bool)

  datatype Gates = Gates(tests: seq<TestExecution>, reviewer: Option<Id>, review: Review,
                         qaAgent: Option<Id>, qaStatus: QaStatus, qaRuns: seq<TestExecution>,
                         securityAgent: Option<Id>, securityApproved: Option<bool>)

  const FRESH_GATES := Gates([], None, ReviewOpen, None, QaOpen, [], None, None)

  datatype Task = Task(spec: TaskSpec, state: TaskState, assignee: Option<Id>, base: Commit, run: Option<Id>,
                       implementation: Option<Commit>, changed: set<string>, integration: Option<Commit>, gates: Gates)

  /** The part of an agent that never changes. */
  datatype Contract = Contract(role: Role, parent: Option<Id>, generation: nat, cycle: nat, task: Id,
                               allowed: seq<string>, denied: seq<string>)

  datatype Agent = Agent(contract: Contract, status: AgentStatus, base: Commit)

  datatype Run = Run(agent: Id, task: Id, state: RunState, base: Commit, implementation: Option<Commit>, changed: set<string>)

  datatype FileLock = FileLock(scope: string, agent: Id, task: Id)

  datatype Governance = Governance(maxActive: nat, maxPerCycle: nat, maxDepth: nat, maxChildren: nat, maxPerModule: nat)

  datatype ProjectState = ProjectState(governance: Governance, cycle: nat, cycleAgents: seq<Id>, current: Commit,
                                       agents: map<Id, Agent>, tasks: map<Id, Task>, runs: map<Id, Run>,
                                       locks: seq<FileLock>, completed: seq<Id>, blocked: seq<Id>)

  type Step = Result<ProjectState, OrchestrationError>

  // ----- roles and statuses -----

  predicate IsQaRole(r: Role) {
    r in {"qa", "quality_lead", "unit_test", "integration_test", "e2e", "regression", "performance_test", "fuzz_test",
          "compatibility_test", "user_flow_test", "release_validation"}
  }

  predicate IsSecurityRole(r: Role) {
    r in {"security", "security_lead", "appsec", "infra_security", "secrets", "privacy", "threat_model", "red_team",
          "dependency_security", "ai_safety"}
  }

  predicate IsReviewRole(r: Role) {
    r in {"reviewer", "chief_architect", "solution_architect", "quality_lead", "release_validation"}
  }

  predicate NonTerminal(st: AgentStatus) {
    st.Created? || st.Initializing? || st.Ready? || st.Active? || st.Blocked? || st.WaitingForReview?
  }

  // ----- collections -----

  function AddTo(list: seq<Id>, x: Id): seq<Id> {
    if x in list then list else list + [x]
  }

  function Without(list: seq<Id>, x: Id): (r: seq<Id>)
    ensures forall y :: y in r <==> y in list && y != x
  {
    if |list| == 0 then []
    else
      assert list == list[..|list| - 1] + [list[|list| - 1]];
      Without(list[..|list| - 1], x) + if list[|list| - 1] == x then [] else [list[|list| - 1]]
  }

  function LocksWithout(locks: seq<FileLock>, tid: Id): (r: seq<FileLock>)
    ensures forall l :: l in r <==> l in locks && l.task != tid
  {
    if |locks| == 0 then []
    else
      assert locks == locks[..|locks| - 1] + [locks[|locks| - 1]];
      LocksWithout(locks[..|locks| - 1], tid)
      + if locks[|locks| - 1].task == tid then [] else [locks[|locks| - 1]]
  }

  function NewLocks(scopes: seq<string>, agent: Id, tid: Id): (r: seq<FileLock>)
    ensures |r| == |scopes| && forall i :: 0 <= i < |r| ==> r[i] == FileLock(scopes[i], agent, tid)
  {
    seq(|scopes|, i requires 0 <= i < |scopes| => FileLock(scopes[i], agent, tid))
  }

  function Cleaned(items: seq<string>): seq<string> {
    if |items| == 0 then []
    else
      var last := Strip(items[|items| - 1]);
      Cleaned(items[..|items| - 1]) + if last == "" then [] else [last]
  }

  function SetStatus(agents: map<Id, Agent>, a: Option<Id>, st: AgentStatus): map<Id, Agent> {
    if a.Some? && a.value in agents then agents[a.value := agents[a.value].(status := st)] else agents
  }

  function SetBase(agents: map<Id, Agent>, a: Option<Id>, base: Commit): map<Id, Agent> {
    if a.Some? && a.value in agents then agents[a.value := agents[a.value].(base := base)] else agents
  }

  function GraphOf(tasks: map<Id, Task>): TaskGraph.Graph {
    map t | t in tasks :: tasks[t].spec.dependencies
  }

  // ----- limits -----

  function NonTerminalAgents(agents: map<Id, Agent>): set<Id> {
    set a | a in agents && NonTerminal(agents[a].status)
  }

  function ChildrenOf(agents: map<Id, Agent>, parent: Id): set<Id> {
    set a | a in agents && agents[a].contract.parent == Some(parent)
  }

  predicate OnModule(agent: Agent, tasks: map<Id, Task>, m: string) {
    NonTerminal(agent.status) && agent.contract.task in tasks && m in tasks[agent.contract.task].spec.modules
  }

  function AgentsOnModule(s: ProjectState, m: string): set<Id> {
    set a | a in s.agents && OnModule(s.agents[a], s.tasks, m)
  }

  predicate AtCapacity(s: ProjectState) {
    |NonTerminalAgents(s.agents)| >= s.governance.maxActive || |s.cycleAgents| >= s.governance.maxPerCycle
  }

  predicate ModulesFull(s: ProjectState, modules: set<string>) {
    exists m :: m in modules && |AgentsOnModule(s, m)| >= s.governance.maxPerModule
  }

  predicate DependenciesIntegrated(tasks: map<Id, Task>, deps: seq<Id>) {
    forall d :: d in deps ==> d in tasks && tasks[d].state.Integrated?
  }

  // ----- scopes -----

  function NormalizeScopes(scopes: seq<string>): Result<seq<string>, PathError> {
    if |scopes| == 0 then Ok([])
    else
      var front, last := NormalizeScopes(scopes[..|scopes| - 1]), Normalize(scopes[|scopes| - 1]);
      if front.Err? then front
      else if last.Err? then Err(last.error)
      else Ok(AddTo(front.value, last.value))
  }

  function NormalizeFiles(paths: seq<string>): Result<set<string>, PathError> {
    if |paths| == 0 then Ok({})
    else
      var front, last := NormalizeFiles(paths[..|paths| - 1]), Normalize(paths[|paths| - 1]);
      if front.Err? then front
      else if last.Err? then Err(last.error)
      else Ok(front.value + {last.value})
  }

  /** What comparing one scope with one lock raises, if anything. */
  function Clash(scope: string, lock: FileLock): Option<OrchestrationError> {
    match ScopesOverlap(scope, lock.scope)
    case Err(_) => Some(ValidationError)
    case Ok(overlap) => if overlap then Some(ConflictError) else None
  }

  function ClashWith(scope: string): FileLock -> Option<OrchestrationError> {
    (lock: FileLock) => Clash(scope, lock)
  }

  function Collision(scope: string, locks: seq<FileLock>): Option<OrchestrationError> {
    FirstError(locks, ClashWith(scope))
  }

  function CollisionWith(locks: seq<FileLock>): string -> Option<OrchestrationError> {
    (scope: string) => Collision(scope, locks)
  }

  /** The first error of the scope check, scopes outside and locks inside. */
  function FirstCollision(scopes: seq<string>, locks: seq<FileLock>): Option<OrchestrationError> {
    FirstError(scopes, CollisionWith(locks))
  }

  function AnyMatch(path: string, scopes: seq<string>, rule: ClassRule): Result<bool, PathError> {
    if |scopes| == 0 then Ok(false)
    else
      var front := AnyMatch(path, scopes[..|scopes| - 1], rule);
      if front != Ok(false) then front else PathMatchesScope(path, scopes[|scopes| - 1], rule)
  }

  /** A changed file the agent may submit: inside an allowed scope and outside every denied one. */
  predicate Writable(c: Contract, path: string, rule: ClassRule) {
    AnyMatch(path, c.allowed, rule) == Ok(true) && AnyMatch(path, c.denied, rule) == Ok(false)
  }

  predicate AllPassed(tests: seq<TestExecution>) {
    forall i :: 0 <= i < |tests| ==> tests[i].passed
  }

  predicate Executed(tests: seq<TestExecution>, command: string) {
    exists i :: 0 <= i < |tests| && tests[i].passed && tests[i].command == command
  }

  predicate TestsCover(required: seq<string>, tests: seq<TestExecution>) {
    AllPassed(tests) && forall c :: c in required ==> Executed(tests, c)
  }

  // ----- tasks and agents -----

  ghost predicate Sortable(tasks: map<Id, Task>) {
    TaskGraph.Closed(GraphOf(tasks)) && TaskGraph.Acyclic(GraphOf(tasks))
  }

  function BeginCycleTx(s: ProjectState): Step {
    if NonTerminalAgents(s.agents) != {} then Err(TransitionError)
    else Ok(s.(cycle := s.cycle + 1, cycleAgents := []))
  }

  ghost function CreateTaskTx(s: ProjectState, tid: Id, t: Task): Step {
    var allowed, denied := NormalizeScopes(t.spec.allowed), NormalizeScopes(t.spec.denied);
    if tid in s.tasks then Err(ConflictError)
    else if t.base != s.current || allowed.Err? || denied.Err? || |t.spec.criteria| == 0 then Err(ValidationError)
    else if exists d :: d in t.spec.dependencies && d !in s.tasks then Err(ValidationError)
    else
      var tasks := s.tasks[tid := t.(spec := t.spec.(allowed := allowed.value, denied := denied.value))];
      if Sortable(tasks) then Ok(s.(tasks := tasks)) else Err(ValidationError)
  }

  function Assign(s: ProjectState, tid: Id, t: Task, id: Id, c: Contract): ProjectState {
    s.(tasks := s.tasks[tid := t.(assignee := Some(id), state := TaskActive)],
       agents := s.agents[id := Agent(c, Active, t.base)],
       cycleAgents := s.cycleAgents + [id],
       locks := s.locks + NewLocks(c.allowed, id, tid))
  }

  /** `id` is the caller's agent id or the next free one. */
  function StartAgentTx(s: ProjectState, tid: Id, role: Role, id: Id): Step {
    if tid !in s.tasks then Err(ValidationError)
    else
      var t := s.tasks[tid];
      var collision := FirstCollision(t.spec.allowed, s.locks);
      if t.assignee.Some? then Err(ConflictError)
      else if !DependenciesIntegrated(s.tasks, t.spec.dependencies) then Err(TransitionError)
      else if AtCapacity(s) || ModulesFull(s, t.spec.modules) then Err(ValidationError)
      else if collision.Some? then Err(collision.value)
      else if id in s.agents || id in s.cycleAgents then Err(ConflictError)
      else Ok(Assign(s, tid, t.(base := s.current), id,
                     Contract(role, None, 0, s.cycle, tid, t.spec.allowed, t.spec.denied)))
  }

  datatype SpawnRequest = SpawnRequest(parent: Id, role: Role, task: Id, base: Commit, spec: TaskSpec)

  /** The checks on the parent, in the order of the code. */
  function SpawnRefused(s: ProjectState, q: SpawnRequest): Option<OrchestrationError> {
    if q.parent !in s.agents then Some(ValidationError)
    else
      var p := s.agents[q.parent];
      if !p.status.Active? then Some(TransitionError)
      else if q.role != p.contract.role || q.base != s.current || q.base != p.base
              || p.contract.generation + 1 > s.governance.maxDepth
              || |ChildrenOf(s.agents, q.parent)| >= s.governance.maxChildren then Some(ValidationError)
      else if q.task in s.tasks then Some(ConflictError)
      else if AtCapacity(s) then Some(ValidationError)
      else None
  }

  function SpawnedTask(q: SpawnRequest, allowed: seq<string>, denied: seq<string>): Task {
    Task(q.spec.(allowed := allowed, denied := denied, criteria := Cleaned(q.spec.criteria)),
         TaskActive, None, q.base, None, None, {}, None, FRESH_GATES)
  }

  /** `id` is the next free agent id. */
  ghost function ApproveSpawnTx(s: ProjectState, q: SpawnRequest, id: Id): Step {
    var refused := SpawnRefused(s, q);
    var allowed, denied := NormalizeScopes(q.spec.allowed), NormalizeScopes(q.spec.denied);
    if refused.Some? then Err(refused.value)
    else if allowed.Err? || denied.Err? || |Cleaned(q.spec.criteria)| == 0 then Err(ValidationError)
    else
      var collision := FirstCollision(allowed.value, s.locks);
      var t := SpawnedTask(q, allowed.value, denied.value);
      if collision.Some? then Err(collision.value)
      else if exists d :: d in q.spec.dependencies && d !in s.tasks then Err(ValidationError)
      else if !DependenciesIntegrated(s.tasks, q.spec.dependencies) then Err(TransitionError)
      else if ModulesFull(s, q.spec.modules) || !Sortable(s.tasks[q.task := t]) then Err(ValidationError)
      else if id in s.cycleAgents then Err(ConflictError)
      else Ok(Assign(s, q.task, t, id,
                     Contract(q.role, Some(q.parent), s.agents[q.parent].contract.generation + 1, s.cycle, q.task,
                              allowed.value, denied.value)))
  }

  // ----- worker runs -----

  function BeginRunTx(s: ProjectState, rid: Id, run: Run): Step {
    if rid in s.runs then Err(ConflictError)
    else if run.agent !in s.agents || run.task !in s.tasks then Err(ValidationError)
    else
      var a, t := s.agents[run.agent], s.tasks[run.task];
      if a.contract.task != run.task || t.assignee != Some(run.agent) then Err(ValidationError)
      else if !a.status.Active? || !t.state.TaskActive? then Err(TransitionError)
      else if run.base != a.base || run.base != t.base then Err(ValidationError)
      else Ok(s.(runs := s.runs[rid := run.(state := Running)], tasks := s.tasks[run.task := t.(run := Some(rid))]))
  }

  function UpdateRunTx(s: ProjectState, rid: Id, files: Option<seq<string>>, implementation: Option<Commit>,
                       to: Option<RunState>): Step {
    if rid !in s.runs then Err(ValidationError)
    else
      var run := s.runs[rid];
      var changed := if files.Some? then NormalizeFiles(files.value) else Ok(run.changed);
      if run.state.RunIntegrated? || run.state.RunFailed? || run.state.RunBlocked? || run.state.RunReady? then
        Err(TransitionError)
      else if changed.Err? || (implementation.Some? && Strip(implementation.value) == "") then Err(ValidationError)
      else
        Ok(s.(runs := s.runs[rid := run.(
                changed := changed.value,
                implementation := if implementation.Some? then Some(Strip(implementation.value)) else run.implementation,
                state := if to.Some? then to.value else run.state)]))
  }

  function FailRunTx(s: ProjectState, rid: Id, block: bool): Step {
    if rid !in s.runs then Err(ValidationError)
    else
      var run := s.runs[rid];
      if run.state.RunIntegrated? then Err(TransitionError)
      else if run.task !in s.tasks || run.agent !in s.agents then Err(ValidationError)
      else
        Ok(s.(runs := s.runs[rid := run.(state := if block then RunBlocked else RunFailed)],
              tasks := s.tasks[run.task := s.tasks[run.task].(state := if block then TaskBlocked else TaskFailed)],
              agents := SetStatus(s.agents, Some(run.agent), if block then Blocked else Failed),
              blocked := AddTo(s.blocked, run.task)))
  }

  /** The task carries the commit of the run, and there is one. */
  predicate SameCommit(run: Run, t: Task) {
    run.implementation.Some? && run.implementation.value != "" && t.implementation == run.implementation
  }

  function CompleteRunTx(s: ProjectState, rid: Id): Step {
    if rid !in s.runs || s.runs[rid].task !in s.tasks then Err(ValidationError)
    else
      var run := s.runs[rid];
      if !s.tasks[run.task].state.ReadyToIntegrate? || !SameCommit(run, s.tasks[run.task]) then Err(TransitionError)
      else Ok(s.(runs := s.runs[rid := run.(state := RunReady)]))
  }

  function BeginIntegrationTx(s: ProjectState, rid: Id, expected: Commit): Step {
    if rid !in s.runs || s.runs[rid].task !in s.tasks then Err(ValidationError)
    else
      var run, t := s.runs[rid], s.tasks[s.runs[rid].task];
      if s.current != expected then Err(ConflictError)
      else if !run.state.RunReady? || !t.state.ReadyToIntegrate? then Err(TransitionError)
      else if t.run != Some(rid) then Err(ValidationError)
      else if !SameCommit(run, t) then Err(TransitionError)
      else Ok(s.(runs := s.runs[rid := run.(state := Integrating)]))
  }

  function RecordRebaseTx(s: ProjectState, rid: Id, oldBase: Commit, newBase: Commit, commit: Commit,
                          files: seq<string>): Step {
    if rid !in s.runs then Err(ValidationError)
    else
      var run, changed, rebased := s.runs[rid], NormalizeFiles(files), Strip(commit);
      if !run.state.Integrating? then Err(TransitionError)
      else if run.task !in s.tasks || run.agent !in s.agents then Err(ValidationError)
      else if s.current != newBase || run.base != oldBase || s.tasks[run.task].base != oldBase then Err(ConflictError)
      else if changed.Err? || changed.value != run.changed || rebased == "" then Err(ValidationError)
      else
        Ok(s.(runs := s.runs[rid := run.(base := newBase, implementation := Some(rebased))],
              tasks := s.tasks[run.task := s.tasks[run.task].(base := newBase, implementation := Some(rebased),
                                                              changed := changed.value)],
              agents := SetBase(s.agents, Some(run.agent), newBase)))
  }

  function FinalizeTx(s: ProjectState, rid: Id, expected: Commit, commit: Commit, tests: seq<TestExecution>): Step {
    if rid !in s.runs then Err(ValidationError)
    else
      var run, merged := s.runs[rid], Strip(commit);
      if run.task !in s.tasks || run.agent !in s.agents then Err(ValidationError)
      else if !run.state.Integrating? || !s.tasks[run.task].state.ReadyToIntegrate? then Err(TransitionError)
      else if s.current != expected then Err(ConflictError)
      else if merged == "" || merged == expected || Some(merged) != run.implementation then Err(ValidationError)
      else if |tests| == 0 || !AllPassed(tests) then Err(TransitionError)
      else
        Ok(s.(runs := s.runs[rid := run.(state := RunIntegrated)],
              tasks := s.tasks[run.task := s.tasks[run.task].(state := Integrated, integration := Some(merged))],
              agents := SetStatus(s.agents, Some(run.agent), Merged),
              current := merged,
              completed := AddTo(s.completed, run.task),
              blocked := Without(s.blocked, run.task),
              locks := LocksWithout(s.locks, run.task)))
  }

  function ResetIntegrationTx(s: ProjectState, rid: Id): Step {
    if rid !in s.runs || s.runs[rid].task !in s.tasks then Err(ValidationError)
    else
      var run := s.runs[rid];
      if !run.state.Integrating? then Ok(s)
      else if !s.tasks[run.task].state.ReadyToIntegrate? then Err(TransitionError)
      else Ok(s.(runs := s.runs[rid := run.(state := RunReady)]))
  }

  // ----- gates -----

  function SubmitTx(s: ProjectState, aid: Id, files: seq<string>, tests: seq<TestExecution>,
                    implementation: Option<Commit>, rid: Option<Id>, rule: ClassRule): Step {
    if aid !in s.agents then Err(ValidationError)
    else
      var a, changed := s.agents[aid], NormalizeFiles(files);
      if !a.status.Active? then Err(TransitionError)
      else if a.contract.task !in s.tasks then Err(ValidationError)
      else
        var tid, t := a.contract.task, s.tasks[a.contract.task];
        if t.assignee != Some(aid) || !t.state.TaskActive? then Err(TransitionError)
        else if changed.Err? || !(forall p :: p in changed.value ==> Writable(a.contract, p, rule)) then
          Err(ValidationError)
        else if !TestsCover(t.spec.requiredTests, tests) then Err(TransitionError)
        else if implementation.Some? && Strip(implementation.value) == "" then Err(ValidationError)
        else if rid.Some? && (rid.value !in s.runs || s.runs[rid.value].agent != aid || s.runs[rid.value].task != tid) then
          Err(ValidationError)
        else if rid.Some? && !s.runs[rid.value].state.Running? then Err(TransitionError)
        else
          Ok(s.(tasks := s.tasks[tid := t.(
                  changed := changed.value,
                  implementation := if implementation.Some? then Some(Strip(implementation.value)) else None,
                  run := if rid.Some? then rid else t.run,
                  state := ReviewPending,
                  gates := t.gates.(tests := tests))],
                agents := SetStatus(s.agents, Some(aid), WaitingForReview)))
  }

  function AssignReviewerTx(s: ProjectState, tid: Id, aid: Id): Step {
    if tid !in s.tasks || aid !in s.agents then Err(ValidationError)
    else
      var t := s.tasks[tid];
      if !t.state.ReviewPending? then Err(TransitionError)
      else if !IsReviewRole(s.agents[aid].contract.role) || t.assignee == Some(aid) then Err(ValidationError)
      else if !s.agents[aid].status.Active? then Err(TransitionError)
      else Ok(s.(tasks := s.tasks[tid := t.(gates := t.gates.(reviewer := Some(aid)))]))
  }

  function RecordReviewTx(s: ProjectState, tid: Id, aid: Id, approved: bool): Step {
    if tid !in s.tasks || s.tasks[tid].gates.reviewer != Some(aid) then Err(ValidationError)
    else
      var t := s.tasks[tid];
      if !t.state.ReviewPending? then Err(TransitionError)
      else if approved then
        Ok(s.(tasks := s.tasks[tid := t.(state := QaPending, gates := t.gates.(review := Approved))]))
      else
        Ok(s.(tasks := s.tasks[tid := t.(state := TaskBlocked, gates := t.gates.(review := ReviewRejected))],
              agents := SetStatus(s.agents, t.assignee, Rejected),
              blocked := AddTo(s.blocked, tid)))
  }

  function AssignQaTx(s: ProjectState, tid: Id, aid: Id): Step {
    if tid !in s.tasks || aid !in s.agents then Err(ValidationError)
    else
      var t := s.tasks[tid];
      if !t.state.QaPending? then Err(TransitionError)
      else if !IsQaRole(s.agents[aid].contract.role) || t.assignee == Some(aid) then Err(ValidationError)
      else if !s.agents[aid].status.Active? then Err(TransitionError)
      else Ok(s.(tasks := s.tasks[tid := t.(gates := t.gates.(qaAgent := Some(aid)))]))
  }

  /** `_refresh_ready_state`. */
  function Refreshed(t: Task): Task {
    if t.gates.review.Approved? && t.gates.qaStatus.Passed?
       && (!t.spec.needsSecurity || t.gates.securityApproved == Some(true))
    then t.(state := ReadyToIntegrate) else t
  }

  function RecordQaTx(s: ProjectState, tid: Id, aid: Id, runs: seq<TestExecution>): Step {
    if tid !in s.tasks || s.tasks[tid].gates.qaAgent != Some(aid) then Err(ValidationError)
    else
      var t, passed := s.tasks[tid], |runs| > 0 && AllPassed(runs);
      var judged := t.(gates := t.gates.(qaRuns := runs, qaStatus := if passed then Passed else QaFailed));
      if !t.state.QaPending? then Err(TransitionError)
      else if passed then Ok(s.(tasks := s.tasks[tid := Refreshed(judged)]))
      else Ok(s.(tasks := s.tasks[tid := judged.(state := TaskBlocked)], blocked := AddTo(s.blocked, tid)))
  }

  function RecordSecurityTx(s: ProjectState, tid: Id, aid: Id, approved: bool): Step {
    if tid !in s.tasks || aid !in s.agents || !IsSecurityRole(s.agents[aid].contract.role) then Err(ValidationError)
    else if !s.agents[aid].status.Active? then Err(TransitionError)
    else
      var t := s.tasks[tid];
      var judged := t.(gates := t.gates.(securityAgent := Some(aid), securityApproved := Some(approved)));
      if t.assignee == Some(aid) then Err(ValidationError)
      else if !t.state.ReviewPending? && !t.state.QaPending? then Err(TransitionError)
      else if approved then Ok(s.(tasks := s.tasks[tid := Refreshed(judged)]))
      else Ok(s.(tasks := s.tasks[tid := judged.(state := TaskBlocked)], blocked := AddTo(s.blocked, tid)))
  }

  // ----- rework, cancellation and direct integration -----

  predicate HasImplementation(t: Task) {
    t.implementation.Some? && t.implementation.value != ""
  }

  function ReopenTx(s: ProjectState, tid: Id): Step {
    if tid !in s.tasks then Err(ValidationError)
    else
      var t := s.tasks[tid];
      if !t.state.TaskBlocked? || t.assignee.None? then Err(TransitionError)
      else if t.assignee.value !in s.agents then Err(ValidationError)
      else
        var st := s.agents[t.assignee.value].status;
        if !(st.Completed? || st.Blocked? || st.Rejected? || st.WaitingForReview?) then Err(TransitionError)
        else if t.base != s.current && HasImplementation(t) then Err(TransitionError)
        else
          var agents := if t.base == s.current then s.agents else SetBase(s.agents, t.assignee, s.current);
          Ok(s.(tasks := s.tasks[tid := t.(state := TaskActive, base := s.current, run := None, implementation := None,
                                           changed := {}, gates := FRESH_GATES)],
                agents := SetStatus(agents, t.assignee, Active),
                blocked := Without(s.blocked, tid)))
  }

  function CancelTx(s: ProjectState, tid: Id): Step {
    if tid !in s.tasks then Err(ValidationError)
    else
      var t := s.tasks[tid];
      if t.state.Integrated? then Err(TransitionError)
      else if t.assignee.Some? && t.assignee.value !in s.agents then Err(ValidationError)
      else
        Ok(s.(tasks := s.tasks[tid := t.(state := Cancelled)],
              agents := SetStatus(s.agents, t.assignee, Terminated),
              locks := LocksWithout(s.locks, tid),
              blocked := Without(s.blocked, tid)))
  }

  function RebaseTx(s: ProjectState, tid: Id, newBase: Commit): Step {
    if tid !in s.tasks || newBase != s.current then Err(ValidationError)
    else
      var t := s.tasks[tid];
      if HasImplementation(t) then Err(TransitionError)
      else if !(t.state.TaskActive? || t.state.ReviewPending? || t.state.QaPending? || t.state.ReadyToIntegrate?) then
        Err(TransitionError)
      else Ok(s.(tasks := s.tasks[tid := t.(base := newBase)], agents := SetBase(s.agents, t.assignee, newBase)))
  }

  function IntegrateTx(s: ProjectState, tid: Id, commit: Commit): Step {
    if tid !in s.tasks then Err(ValidationError)
    else
      var t, merged := s.tasks[tid], Strip(commit);
      if !t.state.ReadyToIntegrate? || (t.run.Some? && t.run.value != "") || t.base != s.current then Err(TransitionError)
      else if merged == "" || commit == s.current || (HasImplementation(t) && t.implementation != Some(merged)) then
        Err(ValidationError)
      else if t.assignee.Some? && t.assignee.value !in s.agents then Err(ValidationError)
      else
        Ok(s.(tasks := s.tasks[tid := t.(state := Integrated, integration := Some(merged))],
              agents := SetStatus(s.agents, t.assignee, Merged),
              current := merged,
              completed := s.completed + [tid],
              blocked := Without(s.blocked, tid),
              locks := LocksWithout(s.locks, tid)))
  }

  // ----- runs over the transactions -----

  datatype Op =
    | BeginCycle
    | CreateTask(task: Id, created: Task)
    | StartAgent(task: Id, role: Role, agent: Id)
    | ApproveSpawn(request: SpawnRequest, agent: Id)
    | BeginRun(run: Id, record: Run)
    | UpdateRun(run: Id, files: Option<seq<string>>, implementation: Option<Commit>, to: Option<RunState>)
    | FailRun(run: Id, block: bool)
    | CompleteRun(run: Id)
    | BeginIntegration(run: Id, expected: Commit)
    | RecordRebase(run: Id, oldBase: Commit, newBase: Commit, commit: Commit, rebasedFiles: seq<string>)
    | Finalize(run: Id, expected: Commit, commit: Commit, tests: seq<TestExecution>)
    | ResetIntegration(run: Id)
    | Submit(agent: Id, changed: seq<string>, tests: seq<TestExecution>, implementation: Option<Commit>, via: Option<Id>)
    | AssignReviewer(task: Id, agent: Id)
    | RecordReview(task: Id, agent: Id, approved: bool)
    | AssignQa(task: Id, agent: Id)
    | RecordQa(task: Id, agent: Id, tests: seq<TestExecution>)
    | RecordSecurity(task: Id, agent: Id, approved: bool)
    | Reopen(task: Id)
    | Cancel(task: Id)
    | RebaseTask(task: Id, newBase: Commit)
    | Integrate(task: Id, commit: Commit)

  ghost function Transact(s: ProjectState, op: Op, rule: ClassRule): Step {
    match op
    case BeginCycle => BeginCycleTx(s)
    case CreateTask(tid, t) => CreateTaskTx(s, tid, t)
    case StartAgent(tid, role, id) => StartAgentTx(s, tid, role, id)
    case ApproveSpawn(q, id) => ApproveSpawnTx(s, q, id)
    case BeginRun(rid, run) => BeginRunTx(s, rid, run)
    case UpdateRun(rid, files, implementation, to) => UpdateRunTx(s, rid, files, implementation, to)
    case FailRun(rid, block) => FailRunTx(s, rid, block)
    case CompleteRun(rid) => CompleteRunTx(s, rid)
    case BeginIntegration(rid, expected) => BeginIntegrationTx(s, rid, expected)
    case RecordRebase(rid, oldBase, newBase, commit, files) => RecordRebaseTx(s, rid, oldBase, newBase, commit, files)
    case Finalize(rid, expected, commit, tests) => FinalizeTx(s, rid, expected, commit, tests)
    case ResetIntegration(rid) => ResetIntegrationTx(s, rid)
    case Submit(aid, files, tests, implementation, rid) => SubmitTx(s, aid, files, tests, implementation, rid, rule)
    case AssignReviewer(tid, aid) => AssignReviewerTx(s, tid, aid)
    case RecordReview(tid, aid, approved) => RecordReviewTx(s, tid, aid, approved)
    case AssignQa(tid, aid) => AssignQaTx(s, tid, aid)
    case RecordQa(tid, aid, tests) => RecordQaTx(s, tid, aid, tests)
    case RecordSecurity(tid, aid, approved) => RecordSecurityTx(s, tid, aid, approved)
    case Reopen(tid) => ReopenTx(s, tid)
    case Cancel(tid) => CancelTx(s, tid)
    case RebaseTask(tid, base) => RebaseTx(s, tid, base)
    case Integrate(tid, commit) => IntegrateTx(s, tid, commit)
  }

  /** The state after an operation; a refused one changes nothing. */
  ghost function After(s: ProjectState, op: Op, rule: ClassRule): ProjectState {
    var r := Transact(s, op, rule);
    if r.Ok? then r.value else s
  }

  ghost function RunAll(s: ProjectState, ops: seq<Op>, rule: ClassRule): ProjectState {
    if |ops| == 0 then s else After(RunAll(s, ops[..|ops| - 1], rule), ops[|ops| - 1], rule)
  }

  /** A fresh project. */
  predicate Initial(s: ProjectState) {
    s.agents == map[] && s.tasks == map[] && s.runs == map[] && s.locks == [] && s.completed == [] && s.blocked == []
    && s.cycleAgents == []
  }
}
