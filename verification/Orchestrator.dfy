/** The orchestrator over its persisted state (tankai/dev_orchestrator/orchestrator.py). */
module Orchestrator {
  // Every method is one transaction: it either does what the transition function says or reports that
  // function's error and saves nothing.

  import opened Common
  import opened RepoPaths
  import opened ProjectTransitions
  import opened ProjectInvariants
  import opened OrchestratorSteps
  import AgentIds
  import TaskGraph

  // ----- a check that failed on a prefix fails on the whole list -----

  lemma {:induction false} NormalizeScopesOfPrefix(scopes: seq<string>, k: nat)
    requires k <= |scopes| && NormalizeScopes(scopes[..k]).Err?
    ensures NormalizeScopes(scopes) == NormalizeScopes(scopes[..k])
  {
    if k == |scopes| {
      assert scopes[..k] == scopes;
    } else {
      assert scopes[..|scopes| - 1][..k] == scopes[..k];
      NormalizeScopesOfPrefix(scopes[..|scopes| - 1], k);
    }
  }

  lemma {:induction false} NormalizeFilesOfPrefix(paths: seq<string>, k: nat)
    requires k <= |paths| && NormalizeFiles(paths[..k]).Err?
    ensures NormalizeFiles(paths) == NormalizeFiles(paths[..k])
  {
    if k == |paths| {
      assert paths[..k] == paths;
    } else {
      assert paths[..|paths| - 1][..k] == paths[..k];
      NormalizeFilesOfPrefix(paths[..|paths| - 1], k);
    }
  }

  lemma {:induction false} AnyMatchOfPrefix(path: string, scopes: seq<string>, rule: ClassRule, k: nat)
    requires k <= |scopes| && AnyMatch(path, scopes[..k], rule) != Ok(false)
    ensures AnyMatch(path, scopes, rule) == AnyMatch(path, scopes[..k], rule)
  {
    if k == |scopes| {
      assert scopes[..k] == scopes;
    } else {
      assert scopes[..|scopes| - 1][..k] == scopes[..k];
      AnyMatchOfPrefix(path, scopes[..|scopes| - 1], rule, k);
    }
  }

  // ----- the loops -----

  method NormalizeAll(scopes: seq<string>) returns (r: Result<seq<string>, PathError>)
    ensures r == NormalizeScopes(scopes)
  {
    var out: seq<string> := [];
    for k := 0 to |scopes|
      invariant NormalizeScopes(scopes[..k]) == Ok(out)
    {
      var normalized := Normalize(scopes[k]);
      assert scopes[..k + 1][..k] == scopes[..k];
      if normalized.Err? {
        NormalizeScopesOfPrefix(scopes, k + 1);
        return Err(normalized.error);
      }
      if normalized.value !in out {
        out := out + [normalized.value];
      }
    }
    assert scopes[..|scopes|] == scopes;
    r := Ok(out);
  }

  method NormalizePaths(paths: seq<string>) returns (r: Result<set<string>, PathError>)
    ensures r == NormalizeFiles(paths)
  {
    var out: set<string> := {};
    for k := 0 to |paths|
      invariant NormalizeFiles(paths[..k]) == Ok(out)
    {
      var normalized := Normalize(paths[k]);
      assert paths[..k + 1][..k] == paths[..k];
      if normalized.Err? {
        NormalizeFilesOfPrefix(paths, k + 1);
        return Err(normalized.error);
      }
      out := out + {normalized.value};
    }
    assert paths[..|paths|] == paths;
    r := Ok(out);
  }

  method MatchesAny(path: string, scopes: seq<string>, rule: ClassRule) returns (r: Result<bool, PathError>)
    ensures r == AnyMatch(path, scopes, rule)
  {
    for k := 0 to |scopes|
      invariant AnyMatch(path, scopes[..k], rule) == Ok(false)
    {
      r := PathMatchesScope(path, scopes[k], rule);
      assert scopes[..k + 1][..k] == scopes[..k];
      if r != Ok(false) {
        AnyMatchOfPrefix(path, scopes, rule, k + 1);
        return;
      }
    }
    assert scopes[..|scopes|] == scopes;
    r := Ok(false);
  }

  method CollidesWithLock(scope: string, locks: seq<FileLock>) returns (error: Option<OrchestrationError>)
    ensures error == Collision(scope, locks)
  {
    for k := 0 to |locks|
      invariant Collision(scope, locks[..k]).None?
    {
      assert locks[..k + 1][..k] == locks[..k];
      error := Clash(scope, locks[k]);
      if error.Some? {
        FirstErrorOfPrefix(locks, ClashWith(scope), k + 1);
        return;
      }
    }
    assert locks[..|locks|] == locks;
    error := None;
  }

  method AssertScopesAvailable(scopes: seq<string>, locks: seq<FileLock>) returns (error: Option<OrchestrationError>)
    ensures error == FirstCollision(scopes, locks)
  {
    for k := 0 to |scopes|
      invariant FirstCollision(scopes[..k], locks).None?
    {
      assert scopes[..k + 1][..k] == scopes[..k];
      error := CollidesWithLock(scopes[k], locks);
      if error.Some? {
        FirstErrorOfPrefix(scopes, CollisionWith(locks), k + 1);
        return;
      }
    }
    assert scopes[..|scopes|] == scopes;
    error := None;
  }

  lemma ElementsAppend(ids: seq<Id>, t: Id)
    ensures TaskGraph.Elements(ids + [t]) == TaskGraph.Elements(ids) + {t}
  {
  }

  /** The task ids in some order. */
  method IdsOf(tasks: map<Id, Task>) returns (ids: seq<Id>)
    ensures TaskGraph.Distinct(ids) && TaskGraph.Elements(ids) == tasks.Keys
  {
    ids := [];
    var rest := tasks.Keys;
    while rest != {}
      invariant TaskGraph.Distinct(ids) && rest <= tasks.Keys && TaskGraph.Elements(ids) == tasks.Keys - rest
      decreases |rest|
    {
      var t :| t in rest;
      assert t !in TaskGraph.Elements(ids);
      ElementsAppend(ids, t);
      ids, rest := ids + [t], rest - {t};
    }
  }

  method CheckGraph(tasks: map<Id, Task>) returns (ok: bool)
    requires TaskGraph.WellBuilt(GraphOf(tasks))
    ensures ok == Sortable(tasks)
  {
    var ids := IdsOf(tasks);
    var order := TaskGraph.TaskGraphOrder(ids, GraphOf(tasks));
    ok := order.Ok?;
  }

  ghost predicate Outcome(before: ProjectState, r: Step, after: ProjectState, error: Option<OrchestrationError>) {
    if r.Ok? then error.None? && after == r.value else error == Some(r.error) && after == before
  }

  class DevelopmentOrchestrator {
    const governance: Governance
    const rule: ClassRule
    var cycle: nat
    var cycleAgents: seq<Id>
    var current: Commit
    var agents: map<Id, Agent>
    var tasks: map<Id, Task>
    var runs: map<Id, Run>
    var locks: seq<FileLock>
    var completed: seq<Id>
    var blocked: seq<Id>

    ghost function State(): ProjectState
      reads this
    {
      ProjectState(governance, cycle, cycleAgents, current, agents, tasks, runs, locks, completed, blocked)
    }

    constructor (governance: Governance, rule: ClassRule, current: Commit)
      ensures Initial(State()) && State().current == current && State().governance == governance && State().cycle == 1
      ensures this.rule == rule && Inv(State())
    {
      this.governance, this.rule, this.current, this.cycle := governance, rule, current, 1;
      cycleAgents, agents, tasks, runs := [], map[], map[], map[];
      locks, completed, blocked := [], [], [];
      new;
      InitialInv(State());
    }

    method BeginCycle() returns (error: Option<OrchestrationError>)
      modifies this
      ensures Outcome(old(State()), BeginCycleTx(old(State())), State(), error)
      ensures Inv(old(State())) ==> Inv(State())
    {
      if NonTerminalAgents(agents) != {} {
        return Some(TransitionError);
      }
      cycle, cycleAgents := cycle + 1, [];
      error := None;
      assert State() == Committed(old(State()), BeginCycleTx(old(State())));
      BeginCycleKeeps(old(State()));
    }

    /** The new task's lists hold no repetition: its validator has removed them. */
    method CreateTask(tid: Id, t: Task) returns (error: Option<OrchestrationError>)
      requires TaskGraph.WellBuilt(GraphOf(tasks)) && TaskGraph.Distinct(t.spec.dependencies)
      modifies this
      ensures Outcome(old(State()), CreateTaskTx(old(State()), tid, t), State(), error)
      ensures Inv(old(State())) && Entering(old(agents), t) ==> Inv(State())
    {
      if tid in tasks {
        return Some(ConflictError);
      }
      if t.base != current {
        return Some(ValidationError);
      }
      var allowed := NormalizeAll(t.spec.allowed);
      var denied := NormalizeAll(t.spec.denied);
      if allowed.Err? || denied.Err? || |t.spec.criteria| == 0 {
        return Some(ValidationError);
      }
      if exists d :: d in t.spec.dependencies && d !in tasks {
        return Some(ValidationError);
      }
      var created := t.(spec := t.spec.(allowed := allowed.value, denied := denied.value));
      WellBuiltWith(tasks, tid, created);
      var sortable := CheckGraph(tasks[tid := created]);
      if !sortable {
        return Some(ValidationError);
      }
      tasks := tasks[tid := created];
      error := None;
      assert State() == Committed(old(State()), CreateTaskTx(old(State()), tid, t));
      CreateTaskKeeps(old(State()), tid, t);
    }

    method AcquireLocks(scopes: seq<string>, agent: Id, tid: Id)
      modifies `locks
      ensures locks == old(locks) + NewLocks(scopes, agent, tid)
    {
      for k := 0 to |scopes|
        invariant locks == old(locks) + NewLocks(scopes, agent, tid)[..k]
      {
        locks := locks + [FileLock(scopes[k], agent, tid)];
      }
    }

    method AssignTask(tid: Id, t: Task, id: Id, c: Contract)
      requires id !in cycleAgents
      modifies this
      ensures State() == Assign(old(State()), tid, t, id, c)
    {
      agents := agents[id := Agent(c, Active, t.base)];
      cycleAgents := cycleAgents + [id];
      tasks := tasks[tid := t.(assignee := Some(id), state := TaskActive)];
      AcquireLocks(c.allowed, id, tid);
    }

    /** Without an agent id the next free one is taken. */
    method StartAgent(tid: Id, role: Role, wanted: Option<Id>) returns (id: Id, error: Option<OrchestrationError>)
      modifies this
      ensures wanted.Some? ==> id == wanted.value
      ensures wanted.None? ==> id !in old(agents)
      ensures Outcome(old(State()), StartAgentTx(old(State()), tid, role, id), State(), error)
      ensures Inv(old(State())) ==> Inv(State())
    {
      if wanted.Some? {
        id := wanted.value;
      } else {
        id := AgentIds.NextAgentId(agents.Keys, role);
      }
      if tid !in tasks {
        return id, Some(ValidationError);
      }
      var t := tasks[tid];
      if t.assignee.Some? {
        return id, Some(ConflictError);
      }
      if !DependenciesIntegrated(tasks, t.spec.dependencies) {
        return id, Some(TransitionError);
      }
      if |NonTerminalAgents(agents)| >= governance.maxActive || |cycleAgents| >= governance.maxPerCycle {
        return id, Some(ValidationError);
      }
      var saturated := ModulesSaturated(t.spec.modules);
      if saturated {
        return id, Some(ValidationError);
      }
      error := AssertScopesAvailable(t.spec.allowed, locks);
      if error.Some? {
        return;
      }
      if id in agents || id in cycleAgents {
        return id, Some(ConflictError);
      }
      AssignTask(tid, t.(base := current), id, Contract(role, None, 0, cycle, tid, t.spec.allowed, t.spec.denied));
      error := None;
      assert State() == Committed(old(State()), StartAgentTx(old(State()), tid, role, id));
      StartAgentKeeps(old(State()), tid, role, id);
    }

    /** `_assert_module_capacity`: one count per module over all agents that are not terminal. */
    method ModulesSaturated(modules: set<string>) returns (saturated: bool)
      ensures saturated == ModulesFull(State(), modules)
    {
      saturated := false;
      var rest := modules;
      while rest != {}
        invariant rest <= modules
        invariant saturated <==> exists m :: m in modules - rest && |AgentsOnModule(State(), m)| >= governance.maxPerModule
        decreases |rest|
      {
        var m :| m in rest;
        var n := CountOnModule(m);
        if n >= governance.maxPerModule {
          saturated := true;
        }
        rest := rest - {m};
      }
    }

    method CountOnModule(m: string) returns (n: nat)
      ensures n == |AgentsOnModule(State(), m)|
    {
      var rest := agents.Keys;
      ghost var counted: set<Id> := {};
      n := 0;
      while rest != {}
        invariant rest <= agents.Keys && n == |counted|
        invariant forall a :: a in counted <==> a in agents && a !in rest && OnModule(agents[a], tasks, m)
        decreases |rest|
      {
        var a :| a in rest;
        if OnModule(agents[a], tasks, m) {
          n, counted := n + 1, counted + {a};
        }
        rest := rest - {a};
      }
      assert counted == AgentsOnModule(State(), m);
    }

    method ApproveSpawn(q: SpawnRequest) returns (id: Id, error: Option<OrchestrationError>)
      requires TaskGraph.WellBuilt(GraphOf(tasks)) && TaskGraph.Distinct(q.spec.dependencies)
      modifies this
      ensures id !in old(agents)
      ensures Outcome(old(State()), ApproveSpawnTx(old(State()), q, id), State(), error)
      ensures Inv(old(State())) ==> Inv(State())
    {
      id := AgentIds.NextAgentId(agents.Keys, q.role);
      error := CheckParent(q);
      if error.Some? {
        return;
      }
      var allowed := NormalizeAll(q.spec.allowed);
      var denied := NormalizeAll(q.spec.denied);
      if allowed.Err? || denied.Err? || |Cleaned(q.spec.criteria)| == 0 {
        return id, Some(ValidationError);
      }
      error := AssertScopesAvailable(allowed.value, locks);
      if error.Some? {
        return;
      }
      if exists d :: d in q.spec.dependencies && d !in tasks {
        return id, Some(ValidationError);
      }
      if !DependenciesIntegrated(tasks, q.spec.dependencies) {
        return id, Some(TransitionError);
      }
      var t := SpawnedTask(q, allowed.value, denied.value);
      var saturated := ModulesSaturated(q.spec.modules);
      WellBuiltWith(tasks, q.task, t);
      var sortable := CheckGraph(tasks[q.task := t]);
      if saturated || !sortable {
        return id, Some(ValidationError);
      }
      if id in cycleAgents {
        return id, Some(ConflictError);
      }
      AssignTask(q.task, t, id, Contract(q.role, Some(q.parent), agents[q.parent].contract.generation + 1, cycle, q.task,
                                         allowed.value, denied.value));
      error := None;
      assert State() == Committed(old(State()), ApproveSpawnTx(old(State()), q, id));
      ApproveSpawnKeeps(old(State()), q, id);
    }

    method CheckParent(q: SpawnRequest) returns (error: Option<OrchestrationError>)
      ensures error == SpawnRefused(State(), q)
    {
      if q.parent !in agents {
        return Some(ValidationError);
      }
      var parent := agents[q.parent];
      if !parent.status.Active? {
        return Some(TransitionError);
      }
      if q.role != parent.contract.role || q.base != current || q.base != parent.base {
        return Some(ValidationError);
      }
      if parent.contract.generation + 1 > governance.maxDepth {
        return Some(ValidationError);
      }
      if |ChildrenOf(agents, q.parent)| >= governance.maxChildren {
        return Some(ValidationError);
      }
      if q.task in tasks {
        return Some(ConflictError);
      }
      if |NonTerminalAgents(agents)| >= governance.maxActive || |cycleAgents| >= governance.maxPerCycle {
        return Some(ValidationError);
      }
      error := None;
    }

    // ----- worker runs -----

    method BeginWorkerRun(rid: Id, record: Run) returns (error: Option<OrchestrationError>)
      modifies this
      ensures Outcome(old(State()), BeginRunTx(old(State()), rid, record), State(), error)
      ensures Inv(old(State())) ==> Inv(State())
    {
      if rid in runs {
        return Some(ConflictError);
      }
      if record.agent !in agents || record.task !in tasks {
        return Some(ValidationError);
      }
      var a, t := agents[record.agent], tasks[record.task];
      if a.contract.task != record.task || t.assignee != Some(record.agent) {
        return Some(ValidationError);
      }
      if !a.status.Active? || !t.state.TaskActive? {
        return Some(TransitionError);
      }
      if record.base != a.base || record.base != t.base {
        return Some(ValidationError);
      }
      runs := runs[rid := record.(state := Running)];
      tasks := tasks[record.task := t.(run := Some(rid))];
      error := None;
      assert State() == Committed(old(State()), BeginRunTx(old(State()), rid, record));
      BeginRunKeeps(old(State()), rid, record);
    }

    method UpdateWorkerRun(rid: Id, files: Option<seq<string>>, implementation: Option<Commit>, to: Option<RunState>)
      returns (error: Option<OrchestrationError>)
      modifies this
      ensures Outcome(old(State()), UpdateRunTx(old(State()), rid, files, implementation, to), State(), error)
      ensures Inv(old(State())) ==> Inv(State())
    {
      if rid !in runs {
        return Some(ValidationError);
      }
      var run := runs[rid];
      if run.state.RunIntegrated? || run.state.RunFailed? || run.state.RunBlocked? || run.state.RunReady? {
        return Some(TransitionError);
      }
      if files.Some? {
        var changed := NormalizePaths(files.value);
        if changed.Err? {
          return Some(ValidationError);
        }
        run := run.(changed := changed.value);
      }
      if implementation.Some? {
        var commit := Strip(implementation.value);
        if commit == "" {
          return Some(ValidationError);
        }
        run := run.(implementation := Some(commit));
      }
      if to.Some? {
        run := run.(state := to.value);
      }
      runs := runs[rid := run];
      error := None;
      assert State() == Committed(old(State()), UpdateRunTx(old(State()), rid, files, implementation, to));
      UpdateRunKeeps(old(State()), rid, files, implementation, to);
    }

    method SetAgentStatus(a: Option<Id>, st: AgentStatus)
      modifies `agents
      ensures agents == SetStatus(old(agents), a, st)
    {
      if a.Some? && a.value in agents {
        agents := agents[a.value := agents[a.value].(status := st)];
      }
    }

    method SetAgentBase(a: Option<Id>, base: Commit)
      modifies `agents
      ensures agents == SetBase(old(agents), a, base)
    {
      if a.Some? && a.value in agents {
        agents := agents[a.value := agents[a.value].(base := base)];
      }
    }

    method Block(tid: Id)
      modifies `blocked
      ensures blocked == AddTo(old(blocked), tid)
    {
      if tid !in blocked {
        blocked := blocked + [tid];
      }
    }

    method FailWorkerRun(rid: Id, block: bool) returns (error: Option<OrchestrationError>)
      modifies this
      ensures Outcome(old(State()), FailRunTx(old(State()), rid, block), State(), error)
      ensures Inv(old(State())) ==> Inv(State())
    {
      if rid !in runs {
        return Some(ValidationError);
      }
      var run := runs[rid];
      if run.state.RunIntegrated? {
        return Some(TransitionError);
      }
      if run.task !in tasks || run.agent !in agents {
        return Some(ValidationError);
      }
      runs := runs[rid := run.(state := if block then RunBlocked else RunFailed)];
      tasks := tasks[run.task := tasks[run.task].(state := if block then TaskBlocked else TaskFailed)];
      SetAgentStatus(Some(run.agent), if block then Blocked else Failed);
      Block(run.task);
      error := None;
      assert State() == Committed(old(State()), FailRunTx(old(State()), rid, block));
      FailRunKeeps(old(State()), rid, block);
    }

    method CompleteWorkerRun(rid: Id) returns (error: Option<OrchestrationError>)
      modifies this
      ensures Outcome(old(State()), CompleteRunTx(old(State()), rid), State(), error)
      ensures Inv(old(State())) ==> Inv(State())
    {
      if rid !in runs || runs[rid].task !in tasks {
        return Some(ValidationError);
      }
      var run := runs[rid];
      var t := tasks[run.task];
      if !t.state.ReadyToIntegrate? {
        return Some(TransitionError);
      }
      if run.implementation.None? || run.implementation.value == "" || t.implementation != run.implementation {
        return Some(TransitionError);
      }
      runs := runs[rid := run.(state := RunReady)];
      error := None;
      assert State() == Committed(old(State()), CompleteRunTx(old(State()), rid));
      CompleteRunKeeps(old(State()), rid);
    }

    method BeginWorkerIntegration(rid: Id, expected: Commit) returns (error: Option<OrchestrationError>)
      modifies this
      ensures Outcome(old(State()), BeginIntegrationTx(old(State()), rid, expected), State(), error)
      ensures Inv(old(State())) ==> Inv(State())
    {
      if rid !in runs || runs[rid].task !in tasks {
        return Some(ValidationError);
      }
      var run := runs[rid];
      var t := tasks[run.task];
      if current != expected {
        return Some(ConflictError);
      }
      if !run.state.RunReady? || !t.state.ReadyToIntegrate? {
        return Some(TransitionError);
      }
      if t.run != Some(rid) {
        return Some(ValidationError);
      }
      if run.implementation.None? || run.implementation.value == "" || t.implementation != run.implementation {
        return Some(TransitionError);
      }
      runs := runs[rid := run.(state := Integrating)];
      error := None;
      assert State() == Committed(old(State()), BeginIntegrationTx(old(State()), rid, expected));
      BeginIntegrationKeeps(old(State()), rid, expected);
    }

    method RecordWorkerRebase(rid: Id, oldBase: Commit, newBase: Commit, commit: Commit, files: seq<string>)
      returns (error: Option<OrchestrationError>)
      modifies this
      ensures Outcome(old(State()), RecordRebaseTx(old(State()), rid, oldBase, newBase, commit, files), State(), error)
      ensures Inv(old(State())) ==> Inv(State())
    {
      if rid !in runs {
        return Some(ValidationError);
      }
      var run := runs[rid];
      if !run.state.Integrating? {
        return Some(TransitionError);
      }
      if run.task !in tasks || run.agent !in agents {
        return Some(ValidationError);
      }
      var t := tasks[run.task];
      if current != newBase || run.base != oldBase || t.base != oldBase {
        return Some(ConflictError);
      }
      var changed := NormalizePaths(files);
      var rebased := Strip(commit);
      if changed.Err? || changed.value != run.changed || rebased == "" {
        return Some(ValidationError);
      }
      runs := runs[rid := run.(base := newBase, implementation := Some(rebased))];
      tasks := tasks[run.task := t.(base := newBase, implementation := Some(rebased), changed := changed.value)];
      SetAgentBase(Some(run.agent), newBase);
      error := None;
      assert State() == Committed(old(State()), RecordRebaseTx(old(State()), rid, oldBase, newBase, commit, files));
      RecordRebaseKeeps(old(State()), rid, oldBase, newBase, commit, files);
    }

    /** What both ways of integrating do besides listing the task as completed. */
    method Settle(tid: Id, t: Task, merged: Commit, author: Option<Id>)
      modifies `tasks, `agents, `current, `blocked, `locks
      ensures tasks == old(tasks)[tid := t.(state := Integrated, integration := Some(merged))]
      ensures agents == SetStatus(old(agents), author, Merged) && current == merged
      ensures blocked == Without(old(blocked), tid) && locks == LocksWithout(old(locks), tid)
    {
      tasks := tasks[tid := t.(state := Integrated, integration := Some(merged))];
      SetAgentStatus(author, Merged);
      current := merged;
      blocked := Without(blocked, tid);
      locks := LocksWithout(locks, tid);
    }

    method FinalizeWorkerIntegration(rid: Id, expected: Commit, commit: Commit, tests: seq<TestExecution>)
      returns (error: Option<OrchestrationError>)
      modifies this
      ensures Outcome(old(State()), FinalizeTx(old(State()), rid, expected, commit, tests), State(), error)
      ensures Inv(old(State())) ==> Inv(State())
    {
      if rid !in runs || runs[rid].task !in tasks || runs[rid].agent !in agents {
        return Some(ValidationError);
      }
      var run := runs[rid];
      if !run.state.Integrating? || !tasks[run.task].state.ReadyToIntegrate? {
        return Some(TransitionError);
      }
      if current != expected {
        return Some(ConflictError);
      }
      var merged := Strip(commit);
      if merged == "" || merged == expected || Some(merged) != run.implementation {
        return Some(ValidationError);
      }
      if |tests| == 0 || !AllPassed(tests) {
        return Some(TransitionError);
      }
      runs := runs[rid := run.(state := RunIntegrated)];
      Settle(run.task, tasks[run.task], merged, Some(run.agent));
      if run.task !in completed {
        completed := completed + [run.task];
      }
      error := None;
      assert State() == Committed(old(State()), FinalizeTx(old(State()), rid, expected, commit, tests));
      FinalizeKeeps(old(State()), rid, expected, commit, tests);
    }

    method ResetWorkerIntegration(rid: Id) returns (error: Option<OrchestrationError>)
      modifies this
      ensures Outcome(old(State()), ResetIntegrationTx(old(State()), rid), State(), error)
      ensures Inv(old(State())) ==> Inv(State())
    {
      if rid !in runs || runs[rid].task !in tasks {
        return Some(ValidationError);
      }
      var run := runs[rid];
      if !run.state.Integrating? {
        return None;
      }
      if !tasks[run.task].state.ReadyToIntegrate? {
        return Some(TransitionError);
      }
      runs := runs[rid := run.(state := RunReady)];
      error := None;
      assert State() == Committed(old(State()), ResetIntegrationTx(old(State()), rid));
      ResetIntegrationKeeps(old(State()), rid);
    }

    // ----- gates -----

    method WritesOnlyAllowed(c: Contract, files: set<string>) returns (ok: bool)
      ensures ok <==> forall p :: p in files ==> Writable(c, p, rule)
    {
      var rest := files;
      while rest != {}
        invariant rest <= files && forall p :: p in files - rest ==> Writable(c, p, rule)
        decreases |rest|
      {
        var p :| p in rest;
        var inside := MatchesAny(p, c.allowed, rule);
        if inside != Ok(true) {
          return false;
        }
        var outside := MatchesAny(p, c.denied, rule);
        if outside != Ok(false) {
          return false;
        }
        rest := rest - {p};
      }
      ok := true;
    }

    method SubmitTaskCompletion(aid: Id, files: seq<string>, tests: seq<TestExecution>, implementation: Option<Commit>,
                                rid: Option<Id>) returns (error: Option<OrchestrationError>)
      modifies this
      ensures Outcome(old(State()), SubmitTx(old(State()), aid, files, tests, implementation, rid, rule), State(), error)
      ensures Inv(old(State())) ==> Inv(State())
    {
      if aid !in agents {
        return Some(ValidationError);
      }
      var a := agents[aid];
      if !a.status.Active? {
        return Some(TransitionError);
      }
      var tid := a.contract.task;
      if tid !in tasks {
        return Some(ValidationError);
      }
      var t := tasks[tid];
      if t.assignee != Some(aid) || !t.state.TaskActive? {
        return Some(TransitionError);
      }
      var changed := NormalizePaths(files);
      if changed.Err? {
        return Some(ValidationError);
      }
      var allowed := WritesOnlyAllowed(a.contract, changed.value);
      if !allowed {
        return Some(ValidationError);
      }
      if !TestsCover(t.spec.requiredTests, tests) {
        return Some(TransitionError);
      }
      if implementation.Some? && Strip(implementation.value) == "" {
        return Some(ValidationError);
      }
      if rid.Some? {
        if rid.value !in runs || runs[rid.value].agent != aid || runs[rid.value].task != tid {
          return Some(ValidationError);
        }
        if !runs[rid.value].state.Running? {
          return Some(TransitionError);
        }
      }
      tasks := tasks[tid := t.(changed := changed.value,
                               implementation := if implementation.Some? then Some(Strip(implementation.value)) else None,
                               run := if rid.Some? then rid else t.run,
                               state := ReviewPending, gates := t.gates.(tests := tests))];
      SetAgentStatus(Some(aid), WaitingForReview);
      error := None;
      assert State() == Committed(old(State()), SubmitTx(old(State()), aid, files, tests, implementation, rid, rule));
      SubmitKeeps(old(State()), aid, files, tests, implementation, rid, rule);
    }

    method AssignReviewer(tid: Id, aid: Id) returns (error: Option<OrchestrationError>)
      modifies this
      ensures Outcome(old(State()), AssignReviewerTx(old(State()), tid, aid), State(), error)
      ensures Inv(old(State())) ==> Inv(State())
    {
      if tid !in tasks || aid !in agents {
        return Some(ValidationError);
      }
      var t := tasks[tid];
      if !t.state.ReviewPending? {
        return Some(TransitionError);
      }
      if !IsReviewRole(agents[aid].contract.role) || t.assignee == Some(aid) {
        return Some(ValidationError);
      }
      if !agents[aid].status.Active? {
        return Some(TransitionError);
      }
      tasks := tasks[tid := t.(gates := t.gates.(reviewer := Some(aid)))];
      error := None;
      assert State() == Committed(old(State()), AssignReviewerTx(old(State()), tid, aid));
      AssignReviewerKeeps(old(State()), tid, aid);
    }

    method RecordReview(tid: Id, aid: Id, approved: bool) returns (error: Option<OrchestrationError>)
      modifies this
      ensures Outcome(old(State()), RecordReviewTx(old(State()), tid, aid, approved), State(), error)
      ensures Inv(old(State())) ==> Inv(State())
    {
      if tid !in tasks || tasks[tid].gates.reviewer != Some(aid) {
        return Some(ValidationError);
      }
      var t := tasks[tid];
      if !t.state.ReviewPending? {
        return Some(TransitionError);
      }
      t := t.(gates := t.gates.(review := if approved then Approved else ReviewRejected));
      if approved {
        tasks := tasks[tid := t.(state := QaPending)];
      } else {
        tasks := tasks[tid := t.(state := TaskBlocked)];
        SetAgentStatus(t.assignee, Rejected);
        Block(tid);
      }
      error := None;
      assert State() == Committed(old(State()), RecordReviewTx(old(State()), tid, aid, approved));
      RecordReviewKeeps(old(State()), tid, aid, approved);
    }

    method AssignQa(tid: Id, aid: Id) returns (error: Option<OrchestrationError>)
      modifies this
      ensures Outcome(old(State()), AssignQaTx(old(State()), tid, aid), State(), error)
      ensures Inv(old(State())) ==> Inv(State())
    {
      if tid !in tasks || aid !in agents {
        return Some(ValidationError);
      }
      var t := tasks[tid];
      if !t.state.QaPending? {
        return Some(TransitionError);
      }
      if !IsQaRole(agents[aid].contract.role) || t.assignee == Some(aid) {
        return Some(ValidationError);
      }
      if !agents[aid].status.Active? {
        return Some(TransitionError);
      }
      tasks := tasks[tid := t.(gates := t.gates.(qaAgent := Some(aid)))];
      error := None;
      assert State() == Committed(old(State()), AssignQaTx(old(State()), tid, aid));
      AssignQaKeeps(old(State()), tid, aid);
    }

    method RecordQa(tid: Id, aid: Id, executions: seq<TestExecution>) returns (error: Option<OrchestrationError>)
      modifies this
      ensures Outcome(old(State()), RecordQaTx(old(State()), tid, aid, executions), State(), error)
      ensures Inv(old(State())) ==> Inv(State())
    {
      if tid !in tasks || tasks[tid].gates.qaAgent != Some(aid) {
        return Some(ValidationError);
      }
      var t := tasks[tid];
      if !t.state.QaPending? {
        return Some(TransitionError);
      }
      var passed := |executions| > 0 && AllPassed(executions);
      t := t.(gates := t.gates.(qaRuns := executions, qaStatus := if passed then Passed else QaFailed));
      if passed {
        tasks := tasks[tid := Refreshed(t)];
      } else {
        tasks := tasks[tid := t.(state := TaskBlocked)];
        Block(tid);
      }
      error := None;
      assert State() == Committed(old(State()), RecordQaTx(old(State()), tid, aid, executions));
      RecordQaKeeps(old(State()), tid, aid, executions);
    }

    method RecordSecurityReview(tid: Id, aid: Id, approved: bool) returns (error: Option<OrchestrationError>)
      modifies this
      ensures Outcome(old(State()), RecordSecurityTx(old(State()), tid, aid, approved), State(), error)
      ensures Inv(old(State())) ==> Inv(State())
    {
      if tid !in tasks || aid !in agents || !IsSecurityRole(agents[aid].contract.role) {
        return Some(ValidationError);
      }
      if !agents[aid].status.Active? {
        return Some(TransitionError);
      }
      var t := tasks[tid];
      if t.assignee == Some(aid) {
        return Some(ValidationError);
      }
      if !t.state.ReviewPending? && !t.state.QaPending? {
        return Some(TransitionError);
      }
      t := t.(gates := t.gates.(securityAgent := Some(aid), securityApproved := Some(approved)));
      if approved {
        tasks := tasks[tid := Refreshed(t)];
      } else {
        tasks := tasks[tid := t.(state := TaskBlocked)];
        Block(tid);
      }
      error := None;
      assert State() == Committed(old(State()), RecordSecurityTx(old(State()), tid, aid, approved));
      RecordSecurityKeeps(old(State()), tid, aid, approved);
    }

    // ----- rework, cancellation and direct integration -----

    method ReopenTask(tid: Id) returns (error: Option<OrchestrationError>)
      modifies this
      ensures Outcome(old(State()), ReopenTx(old(State()), tid), State(), error)
      ensures Inv(old(State())) ==> Inv(State())
    {
      if tid !in tasks {
        return Some(ValidationError);
      }
      var t := tasks[tid];
      if !t.state.TaskBlocked? || t.assignee.None? {
        return Some(TransitionError);
      }
      var author := t.assignee.value;
      if author !in agents {
        return Some(ValidationError);
      }
      var st := agents[author].status;
      if !(st.Completed? || st.Blocked? || st.Rejected? || st.WaitingForReview?) {
        return Some(TransitionError);
      }
      if t.base != current {
        if HasImplementation(t) {
          return Some(TransitionError);
        }
        SetAgentBase(t.assignee, current);
      }
      tasks := tasks[tid := t.(state := TaskActive, base := current, run := None, implementation := None, changed := {},
                               gates := FRESH_GATES)];
      SetAgentStatus(t.assignee, Active);
      blocked := Without(blocked, tid);
      error := None;
      assert State() == Committed(old(State()), ReopenTx(old(State()), tid));
      ReopenKeeps(old(State()), tid);
    }

    method CancelTask(tid: Id) returns (error: Option<OrchestrationError>)
      modifies this
      ensures Outcome(old(State()), CancelTx(old(State()), tid), State(), error)
      ensures Inv(old(State())) ==> Inv(State())
    {
      if tid !in tasks {
        return Some(ValidationError);
      }
      var t := tasks[tid];
      if t.state.Integrated? {
        return Some(TransitionError);
      }
      if t.assignee.Some? && t.assignee.value !in agents {
        return Some(ValidationError);
      }
      tasks := tasks[tid := t.(state := Cancelled)];
      SetAgentStatus(t.assignee, Terminated);
      locks := LocksWithout(locks, tid);
      blocked := Without(blocked, tid);
      error := None;
      assert State() == Committed(old(State()), CancelTx(old(State()), tid));
      CancelKeeps(old(State()), tid);
    }

    method RebaseTask(tid: Id, newBase: Commit) returns (error: Option<OrchestrationError>)
      modifies this
      ensures Outcome(old(State()), RebaseTx(old(State()), tid, newBase), State(), error)
      ensures Inv(old(State())) ==> Inv(State())
    {
      if tid !in tasks || newBase != current {
        return Some(ValidationError);
      }
      var t := tasks[tid];
      if HasImplementation(t) {
        return Some(TransitionError);
      }
      if !(t.state.TaskActive? || t.state.ReviewPending? || t.state.QaPending? || t.state.ReadyToIntegrate?) {
        return Some(TransitionError);
      }
      tasks := tasks[tid := t.(base := newBase)];
      SetAgentBase(t.assignee, newBase);
      error := None;
      assert State() == Committed(old(State()), RebaseTx(old(State()), tid, newBase));
      RebaseKeeps(old(State()), tid, newBase);
    }

    method IntegrateTask(tid: Id, commit: Commit) returns (error: Option<OrchestrationError>)
      modifies this
      ensures Outcome(old(State()), IntegrateTx(old(State()), tid, commit), State(), error)
      ensures Inv(old(State())) ==> Inv(State())
    {
      if tid !in tasks {
        return Some(ValidationError);
      }
      var t := tasks[tid];
      if !t.state.ReadyToIntegrate? || (t.run.Some? && t.run.value != "") || t.base != current {
        return Some(TransitionError);
      }
      var merged := Strip(commit);
      if merged == "" || commit == current {
        return Some(ValidationError);
      }
      if HasImplementation(t) && t.implementation != Some(merged) {
        return Some(ValidationError);
      }
      if t.assignee.Some? && t.assignee.value !in agents {
        return Some(ValidationError);
      }
      Settle(tid, t, merged, t.assignee);
      completed := completed + [tid];
      error := None;
      assert State() == Committed(old(State()), IntegrateTx(old(State()), tid, commit));
      IntegrateKeeps(old(State()), tid, commit);
    }
  }
}
