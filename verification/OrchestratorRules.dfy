/** When each orchestrator transaction is accepted (tankai/dev_orchestrator/orchestrator.py). */
module OrchestratorRules {
  // One lemma per operation: the exact conditions, over the fields of the state. Everything else is refused and
  // changes nothing.

  import opened Common
  import opened RepoPaths
  import opened ScopeOverlap
  import opened ProjectTransitions
  import opened ProjectInvariants
  import TaskGraph

  // ----- agents and tasks -----

  predicate Ended(st: AgentStatus) {
    st in {Failed, Completed, Merged, Rejected, Terminated, Stopped}
  }

  lemma CycleBegins(s: ProjectState)
    ensures BeginCycleTx(s).Ok? <==> forall a :: a in s.agents ==> Ended(s.agents[a].status)
    ensures BeginCycleTx(s).Ok? ==> BeginCycleTx(s).value == s.(cycle := s.cycle + 1, cycleAgents := [])
  {
    if BeginCycleTx(s).Ok? {
      forall a | a in s.agents
        ensures Ended(s.agents[a].status)
      {
        assert a !in NonTerminalAgents(s.agents);
      }
    } else {
      var a :| a in NonTerminalAgents(s.agents);
      assert !Ended(s.agents[a].status);
    }
  }

  ghost predicate AllNormal(scopes: seq<string>) {
    forall x :: x in scopes ==> Normalize(x).Ok?
  }

  lemma {:induction false} NormalizedScopes(scopes: seq<string>)
    ensures NormalizeScopes(scopes).Ok? <==> AllNormal(scopes)
    ensures NormalizeScopes(scopes).Ok? ==>
              forall y :: y in NormalizeScopes(scopes).value <==> exists x :: x in scopes && Normalize(x) == Ok(y)
  {
    if |scopes| > 0 {
      var n := |scopes| - 1;
      NormalizedScopes(scopes[..n]);
      assert scopes == scopes[..n] + [scopes[n]];
    }
  }

  /** A task enters on the stable commit, with usable scopes, a criterion and known dependencies, and closes no cycle. */
  lemma TaskIsCreated(s: ProjectState, tid: Id, t: Task)
    requires Sortable(s.tasks)
    ensures CreateTaskTx(s, tid, t).Ok? <==>
              && tid !in s.tasks && t.base == s.current && AllNormal(t.spec.allowed) && AllNormal(t.spec.denied)
              && t.spec.criteria != [] && forall d :: d in t.spec.dependencies ==> d in s.tasks
  {
    NormalizedScopes(t.spec.allowed);
    NormalizedScopes(t.spec.denied);
    if tid !in s.tasks && (forall d :: d in t.spec.dependencies ==> d in s.tasks) && AllNormal(t.spec.allowed)
       && AllNormal(t.spec.denied) {
      var created := t.(spec := t.spec.(allowed := NormalizeScopes(t.spec.allowed).value,
                                        denied := NormalizeScopes(t.spec.denied).value));
      assert GraphOf(s.tasks[tid := created]) == GraphOf(s.tasks)[tid := t.spec.dependencies];
      TaskGraph.NewTaskKeepsAcyclic(GraphOf(s.tasks), tid, t.spec.dependencies);
    }
  }

  function Working(s: ProjectState): set<Id> {
    set a | a in s.agents && !Ended(s.agents[a].status)
  }

  function WorkingOn(s: ProjectState, m: string): set<Id> {
    set a | a in s.agents && !Ended(s.agents[a].status) && s.agents[a].contract.task in s.tasks
            && m in s.tasks[s.agents[a].contract.task].spec.modules
  }

  /** Room for one more agent, in the project, in the cycle and on each of the modules. */
  ghost predicate Room(s: ProjectState, modules: set<string>) {
    && |Working(s)| < s.governance.maxActive && |s.cycleAgents| < s.governance.maxPerCycle
    && forall m :: m in modules ==> |WorkingOn(s, m)| < s.governance.maxPerModule
  }

  lemma RoomIsCapacity(s: ProjectState, modules: set<string>)
    ensures Room(s, modules) <==> !AtCapacity(s) && !ModulesFull(s, modules)
  {
    assert Working(s) == NonTerminalAgents(s.agents);
    forall m
      ensures WorkingOn(s, m) == AgentsOnModule(s, m)
    {
    }
  }

  /** Two usable scopes that do not overlap, component by component. */
  predicate Apart(x: string, y: string) {
    Normalize(x).Ok? && Normalize(y).Ok? && !Overlapping(NormalParts(x).value, NormalParts(y).value)
  }

  lemma ApartIsDisjoint(x: string, l: FileLock)
    ensures Apart(x, l.scope) <==> Disjoint(x, l)
  {
    if Normalize(x).Ok? && Normalize(l.scope).Ok? {
      OverlapByComponents(x, l.scope);
    }
  }

  /** None of the scopes overlaps a locked one. */
  ghost predicate Free(s: ProjectState, scopes: seq<string>) {
    forall x, l :: x in scopes && l in s.locks ==> Apart(x, l.scope)
  }

  lemma FreeIsDisjoint(s: ProjectState, scopes: seq<string>)
    ensures Free(s, scopes) <==> forall x, l :: x in scopes && l in s.locks ==> Disjoint(x, l)
  {
    forall x, l | x in scopes && l in s.locks
      ensures Apart(x, l.scope) <==> Disjoint(x, l)
    {
      ApartIsDisjoint(x, l);
    }
  }

  lemma FreeIsNoCollision(s: ProjectState, scopes: seq<string>)
    ensures Free(s, scopes) <==> FirstCollision(scopes, s.locks).None?
  {
    NoCollision(scopes, s.locks);
    FreeIsDisjoint(s, scopes);
  }

  ghost predicate AllIntegrated(s: ProjectState, deps: seq<Id>) {
    forall d :: d in deps ==> d in s.tasks && s.tasks[d].state.Integrated?
  }

  /** An agent starts on an unassigned task whose dependencies are integrated, when there is room and no scope is taken. */
  lemma AgentStarts(s: ProjectState, tid: Id, role: Role, id: Id)
    ensures StartAgentTx(s, tid, role, id).Ok? <==>
              && tid in s.tasks && s.tasks[tid].assignee.None? && AllIntegrated(s, s.tasks[tid].spec.dependencies)
              && Room(s, s.tasks[tid].spec.modules) && Free(s, s.tasks[tid].spec.allowed)
              && id !in s.agents && id !in s.cycleAgents
    ensures StartAgentTx(s, tid, role, id).Ok? ==>
              var t, s' := s.tasks[tid], StartAgentTx(s, tid, role, id).value;
              && s'.tasks == s.tasks[tid := t.(assignee := Some(id), state := TaskActive, base := s.current)]
              && s'.agents == s.agents[id := Agent(Contract(role, None, 0, s.cycle, tid, t.spec.allowed, t.spec.denied), Active, s.current)]
              && s'.cycleAgents == s.cycleAgents + [id] && |s'.locks| == |s.locks| + |t.spec.allowed|
              && forall l :: l in s'.locks <==> l in s.locks || (l.agent == id && l.task == tid && l.scope in t.spec.allowed)
  {
    if tid in s.tasks {
      RoomIsCapacity(s, s.tasks[tid].spec.modules);
      FreeIsNoCollision(s, s.tasks[tid].spec.allowed);
      LocksAdded(s.locks, s.tasks[tid].spec.allowed, id, tid);
    }
  }

  lemma LocksAdded(locks: seq<FileLock>, scopes: seq<string>, id: Id, tid: Id)
    ensures forall l :: l in locks + NewLocks(scopes, id, tid) <==>
              l in locks || (l.agent == id && l.task == tid && l.scope in scopes)
  {
    var added := NewLocks(scopes, id, tid);
    forall l
      ensures l in added <==> l.agent == id && l.task == tid && l.scope in scopes
    {
      if l.agent == id && l.task == tid && l.scope in scopes {
        var k :| 0 <= k < |scopes| && scopes[k] == l.scope;
        assert added[k] == l;
      }
    }
  }

  lemma {:induction false} SomeCriterion(items: seq<string>)
    ensures |Cleaned(items)| > 0 <==> exists i :: 0 <= i < |items| && Strip(items[i]) != ""
  {
    if |items| > 0 {
      var n := |items| - 1;
      SomeCriterion(items[..n]);
      if i :| 0 <= i < n && Strip(items[i]) != "" {
        assert items[..n][i] == items[i];
      }
    }
  }

  function NormalForms(scopes: seq<string>): seq<string> {
    var r := NormalizeScopes(scopes);
    if r.Ok? then r.value else []
  }

  /** The parent may have one more child of this kind. */
  ghost predicate MaySpawn(s: ProjectState, q: SpawnRequest) {
    && q.parent in s.agents && s.agents[q.parent].status.Active? && s.agents[q.parent].contract.role == q.role
    && q.base == s.current && s.agents[q.parent].base == s.current
    && s.agents[q.parent].contract.generation < s.governance.maxDepth
    && |set a | a in s.agents && s.agents[a].contract.parent == Some(q.parent)| < s.governance.maxChildren
  }

  lemma SpawnIsNotRefused(s: ProjectState, q: SpawnRequest)
    ensures SpawnRefused(s, q).None? <==> MaySpawn(s, q) && q.task !in s.tasks && !AtCapacity(s)
  {
    if q.parent in s.agents {
      assert ChildrenOf(s.agents, q.parent) == set a | a in s.agents && s.agents[a].contract.parent == Some(q.parent);
    }
  }

  lemma SpawnedGraph(s: ProjectState, q: SpawnRequest, allowed: seq<string>, denied: seq<string>)
    requires Sortable(s.tasks) && q.task !in s.tasks && forall d :: d in q.spec.dependencies ==> d in s.tasks
    ensures Sortable(s.tasks[q.task := SpawnedTask(q, allowed, denied)])
  {
    var t := SpawnedTask(q, allowed, denied);
    assert GraphOf(s.tasks[q.task := t]) == GraphOf(s.tasks)[q.task := q.spec.dependencies];
    TaskGraph.NewTaskKeepsAcyclic(GraphOf(s.tasks), q.task, q.spec.dependencies);
  }

  /** Usable scopes and a criterion that is not blank. */
  ghost predicate SpawnText(spec: TaskSpec) {
    && AllNormal(spec.allowed) && AllNormal(spec.denied)
    && exists i :: 0 <= i < |spec.criteria| && Strip(spec.criteria[i]) != ""
  }

  lemma SpawnTextMeans(spec: TaskSpec)
    ensures SpawnText(spec) <==>
              NormalizeScopes(spec.allowed).Ok? && NormalizeScopes(spec.denied).Ok? && |Cleaned(spec.criteria)| > 0
  {
    NormalizedScopes(spec.allowed);
    NormalizedScopes(spec.denied);
    SomeCriterion(spec.criteria);
  }

  lemma SpawnWithin(s: ProjectState, q: SpawnRequest, id: Id)
    requires Sortable(s.tasks)
    ensures ApproveSpawnTx(s, q, id).Ok? <==>
              && SpawnRefused(s, q).None?
              && NormalizeScopes(q.spec.allowed).Ok? && NormalizeScopes(q.spec.denied).Ok? && |Cleaned(q.spec.criteria)| > 0
              && FirstCollision(NormalForms(q.spec.allowed), s.locks).None?
              && (forall d :: d in q.spec.dependencies ==> d in s.tasks)
              && DependenciesIntegrated(s.tasks, q.spec.dependencies)
              && !ModulesFull(s, q.spec.modules) && id !in s.cycleAgents
  {
    if q.task !in s.tasks && forall d :: d in q.spec.dependencies ==> d in s.tasks {
      SpawnedGraph(s, q, NormalForms(q.spec.allowed), NormalForms(q.spec.denied));
    }
  }

  /** A child is spawned by an active parent of its role on the stable commit, within depth, children and all other limits. */
  lemma ChildIsSpawned(s: ProjectState, q: SpawnRequest, id: Id)
    requires Sortable(s.tasks)
    ensures ApproveSpawnTx(s, q, id).Ok? <==>
              && MaySpawn(s, q) && q.task !in s.tasks && Room(s, q.spec.modules) && SpawnText(q.spec)
              && Free(s, NormalForms(q.spec.allowed)) && AllIntegrated(s, q.spec.dependencies) && id !in s.cycleAgents
  {
    SpawnWithin(s, q, id);
    SpawnTextMeans(q.spec);
    RoomIsCapacity(s, q.spec.modules);
    SpawnIsNotRefused(s, q);
    FreeIsNoCollision(s, NormalForms(q.spec.allowed));
  }

  // ----- worker runs -----

  /** A run begins for the active agent of an active task, on the base of both. */
  lemma RunBegins(s: ProjectState, rid: Id, run: Run)
    ensures BeginRunTx(s, rid, run).Ok? <==>
              && rid !in s.runs && run.agent in s.agents && run.task in s.tasks
              && s.agents[run.agent].contract.task == run.task && s.tasks[run.task].assignee == Some(run.agent)
              && s.agents[run.agent].status.Active? && s.tasks[run.task].state.TaskActive?
              && run.base == s.agents[run.agent].base == s.tasks[run.task].base
    ensures BeginRunTx(s, rid, run).Ok? ==>
              var s' := BeginRunTx(s, rid, run).value;
              && s'.runs == s.runs[rid := run.(state := Running)]
              && s'.tasks == s.tasks[run.task := s.tasks[run.task].(run := Some(rid))] && s'.agents == s.agents
  {
  }

  lemma {:induction false} NormalizedFiles(paths: seq<string>)
    ensures NormalizeFiles(paths).Ok? <==> AllNormal(paths)
    ensures NormalizeFiles(paths).Ok? ==>
              forall y :: y in NormalizeFiles(paths).value <==> exists x :: x in paths && Normalize(x) == Ok(y)
  {
    if |paths| > 0 {
      var n := |paths| - 1;
      NormalizedFiles(paths[..n]);
      assert paths == paths[..n] + [paths[n]];
    }
  }

  /** A run that has not ended takes new files with usable names and a commit that is not blank. */
  lemma RunIsUpdated(s: ProjectState, rid: Id, files: Option<seq<string>>, implementation: Option<Commit>, to: Option<RunState>)
    ensures UpdateRunTx(s, rid, files, implementation, to).Ok? <==>
              && rid in s.runs && s.runs[rid].state in {RunPending, Running, Submitted, Integrating}
              && (files.Some? ==> AllNormal(files.value)) && (implementation.Some? ==> Strip(implementation.value) != "")
    ensures UpdateRunTx(s, rid, files, implementation, to).Ok? ==>
              var run := UpdateRunTx(s, rid, files, implementation, to).value.runs[rid];
              && (to.Some? ==> run.state == to.value) && (to.None? ==> run.state == s.runs[rid].state)
              && (implementation.Some? ==> run.implementation == Some(Strip(implementation.value)))
              && (implementation.None? ==> run.implementation == s.runs[rid].implementation)
              && (files.None? ==> run.changed == s.runs[rid].changed)
              && (files.Some? ==> forall y :: y in run.changed <==> exists x :: x in files.value && Normalize(x) == Ok(y))
  {
    if files.Some? {
      NormalizedFiles(files.value);
    }
  }

  /** Any run that is not integrated can be failed; its task and agent go with it. */
  lemma RunFails(s: ProjectState, rid: Id, block: bool)
    ensures FailRunTx(s, rid, block).Ok? <==>
              rid in s.runs && !s.runs[rid].state.RunIntegrated? && s.runs[rid].task in s.tasks && s.runs[rid].agent in s.agents
    ensures FailRunTx(s, rid, block).Ok? ==>
              var run, s' := s.runs[rid], FailRunTx(s, rid, block).value;
              && s'.runs[rid].state == (if block then RunBlocked else RunFailed)
              && s'.tasks[run.task].state == (if block then TaskBlocked else TaskFailed)
              && s'.agents[run.agent].status == (if block then Blocked else Failed) && run.task in s'.blocked
  {
  }

  predicate SameImplementation(run: Run, t: Task) {
    run.implementation.Some? && run.implementation != Some("") && t.implementation == run.implementation
  }

  /** A run is released once its task is ready and names the same commit. */
  lemma RunIsReleased(s: ProjectState, rid: Id)
    ensures CompleteRunTx(s, rid).Ok? <==>
              && rid in s.runs && s.runs[rid].task in s.tasks && s.tasks[s.runs[rid].task].state.ReadyToIntegrate?
              && SameImplementation(s.runs[rid], s.tasks[s.runs[rid].task])
    ensures CompleteRunTx(s, rid).Ok? ==>
              CompleteRunTx(s, rid).value == s.(runs := s.runs[rid := s.runs[rid].(state := RunReady)])
  {
  }

  /** A released run is reserved for integration on the stable commit the caller expects, if its task still names it. */
  lemma IntegrationBegins(s: ProjectState, rid: Id, expected: Commit)
    ensures BeginIntegrationTx(s, rid, expected).Ok? <==>
              && rid in s.runs && s.runs[rid].task in s.tasks && s.current == expected && s.runs[rid].state.RunReady?
              && s.tasks[s.runs[rid].task].state.ReadyToIntegrate? && s.tasks[s.runs[rid].task].run == Some(rid)
              && SameImplementation(s.runs[rid], s.tasks[s.runs[rid].task])
    ensures BeginIntegrationTx(s, rid, expected).Ok? ==>
              BeginIntegrationTx(s, rid, expected).value == s.(runs := s.runs[rid := s.runs[rid].(state := Integrating)])
  {
  }

  /** A rebase is recorded from the common old base to the stable commit, with the same files and a commit. */
  lemma RebaseIsRecorded(s: ProjectState, rid: Id, oldBase: Commit, newBase: Commit, commit: Commit, files: seq<string>)
    ensures RecordRebaseTx(s, rid, oldBase, newBase, commit, files).Ok? <==>
              && rid in s.runs && s.runs[rid].state.Integrating? && s.runs[rid].task in s.tasks && s.runs[rid].agent in s.agents
              && s.current == newBase && s.runs[rid].base == oldBase && s.tasks[s.runs[rid].task].base == oldBase
              && AllNormal(files) && Strip(commit) != ""
              && forall y :: y in s.runs[rid].changed <==> exists x :: x in files && Normalize(x) == Ok(y)
    ensures RecordRebaseTx(s, rid, oldBase, newBase, commit, files).Ok? ==>
              var run, s' := s.runs[rid], RecordRebaseTx(s, rid, oldBase, newBase, commit, files).value;
              && s'.runs[rid] == run.(base := newBase, implementation := Some(Strip(commit)))
              && s'.tasks[run.task].base == newBase && s'.tasks[run.task].implementation == Some(Strip(commit))
              && s'.agents[run.agent].base == newBase && s'.current == s.current
  {
    NormalizedFiles(files);
  }

  /** An integration is finalized with the run's own commit, a new one, when tests were run and all passed. */
  lemma IntegrationFinalizes(s: ProjectState, rid: Id, expected: Commit, commit: Commit, tests: seq<TestExecution>)
    ensures FinalizeTx(s, rid, expected, commit, tests).Ok? <==>
              && rid in s.runs && s.runs[rid].task in s.tasks && s.runs[rid].agent in s.agents
              && s.runs[rid].state.Integrating? && s.tasks[s.runs[rid].task].state.ReadyToIntegrate?
              && s.current == expected && Strip(commit) != "" && Strip(commit) != expected
              && s.runs[rid].implementation == Some(Strip(commit))
              && tests != [] && forall i :: 0 <= i < |tests| ==> tests[i].passed
    ensures FinalizeTx(s, rid, expected, commit, tests).Ok? ==>
              var run, s' := s.runs[rid], FinalizeTx(s, rid, expected, commit, tests).value;
              && s'.current == Strip(commit) && s'.runs[rid].state.RunIntegrated? && s'.tasks[run.task].state.Integrated?
              && s'.agents[run.agent].status.Merged? && run.task in s'.completed && run.task !in s'.blocked
              && forall l :: l in s'.locks <==> l in s.locks && l.task != run.task
  {
  }

  /** An interrupted integration is taken back while its task is still ready; a run not under integration is left alone. */
  lemma IntegrationResets(s: ProjectState, rid: Id)
    ensures ResetIntegrationTx(s, rid).Ok? <==>
              && rid in s.runs && s.runs[rid].task in s.tasks
              && (s.runs[rid].state.Integrating? ==> s.tasks[s.runs[rid].task].state.ReadyToIntegrate?)
    ensures ResetIntegrationTx(s, rid).Ok? ==>
              ResetIntegrationTx(s, rid).value ==
              if s.runs[rid].state.Integrating? then s.(runs := s.runs[rid := s.runs[rid].(state := RunReady)]) else s
  {
  }

  // ----- submission -----

  /** The scope at this place accepts the path and the ones before it reject it. */
  ghost predicate AcceptsAt(path: string, scopes: seq<string>, i: nat, rule: ClassRule) {
    && i < |scopes| && PathMatchesScope(path, scopes[i], rule) == Ok(true)
    && forall k :: 0 <= k < i ==> PathMatchesScope(path, scopes[k], rule) == Ok(false)
  }

  /** A scope accepts the path, and the ones before it reject it. */
  ghost predicate Accepts(path: string, scopes: seq<string>, rule: ClassRule) {
    exists i: nat :: AcceptsAt(path, scopes, i, rule)
  }

  ghost predicate Rejects(path: string, scopes: seq<string>, rule: ClassRule) {
    forall i :: 0 <= i < |scopes| ==> PathMatchesScope(path, scopes[i], rule) == Ok(false)
  }

  lemma {:induction false} MatchMeans(path: string, scopes: seq<string>, rule: ClassRule)
    ensures AnyMatch(path, scopes, rule) == Ok(true) <==> Accepts(path, scopes, rule)
    ensures AnyMatch(path, scopes, rule) == Ok(false) <==> Rejects(path, scopes, rule)
  {
    if |scopes| > 0 {
      var n := |scopes| - 1;
      MatchMeans(path, scopes[..n], rule);
      OneMoreRejects(path, scopes[..n], scopes[n], rule);
      OneMoreAccepts(path, scopes[..n], scopes[n], rule);
      assert scopes == scopes[..n] + [scopes[n]];
    }
  }

  lemma OneMoreRejects(path: string, front: seq<string>, last: string, rule: ClassRule)
    ensures Rejects(path, front + [last], rule) <==> Rejects(path, front, rule) && PathMatchesScope(path, last, rule) == Ok(false)
  {
    var scopes, n := front + [last], |front|;
    assert scopes[n] == last && forall k :: 0 <= k < n ==> scopes[k] == front[k];
  }

  lemma AcceptsThere(path: string, front: seq<string>, last: string, i: nat, rule: ClassRule)
    requires i < |front|
    ensures AcceptsAt(path, front + [last], i, rule) <==> AcceptsAt(path, front, i, rule)
  {
    assert forall k :: 0 <= k <= i ==> (front + [last])[k] == front[k];
  }

  lemma AcceptsLast(path: string, front: seq<string>, last: string, rule: ClassRule)
    ensures AcceptsAt(path, front + [last], |front|, rule) <==>
              Rejects(path, front, rule) && PathMatchesScope(path, last, rule) == Ok(true)
  {
    assert forall k :: 0 <= k < |front| ==> (front + [last])[k] == front[k];
  }

  lemma OneMoreAccepts(path: string, front: seq<string>, last: string, rule: ClassRule)
    ensures Accepts(path, front + [last], rule) <==>
              Accepts(path, front, rule) || (Rejects(path, front, rule) && PathMatchesScope(path, last, rule) == Ok(true))
  {
    AcceptsLast(path, front, last, rule);
    forall i: nat | i < |front|
      ensures AcceptsAt(path, front + [last], i, rule) <==> AcceptsAt(path, front, i, rule)
    {
      AcceptsThere(path, front, last, i, rule);
    }
  }

  /** The tests all passed, and every required command is among them. */
  ghost predicate Covered(required: seq<string>, tests: seq<TestExecution>) {
    && (forall i :: 0 <= i < |tests| ==> tests[i].passed)
    && forall c :: c in required ==> exists i :: 0 <= i < |tests| && tests[i].command == c
  }

  /** The agent's contract allows every one of the files. */
  ghost predicate AllWritable(c: Contract, files: seq<string>, rule: ClassRule) {
    forall x :: x in files ==>
      Normalize(x).Ok? && Accepts(Normalize(x).value, c.allowed, rule) && Rejects(Normalize(x).value, c.denied, rule)
  }

  lemma WritableMeans(c: Contract, files: seq<string>, rule: ClassRule)
    ensures AllWritable(c, files, rule) <==>
              NormalizeFiles(files).Ok? && forall p :: p in NormalizeFiles(files).value ==> Writable(c, p, rule)
  {
    NormalizedFiles(files);
    forall p
      ensures Writable(c, p, rule) <==> Accepts(p, c.allowed, rule) && Rejects(p, c.denied, rule)
    {
      MatchMeans(p, c.allowed, rule);
      MatchMeans(p, c.denied, rule);
    }
  }

  lemma CoveredMeans(required: seq<string>, tests: seq<TestExecution>)
    ensures Covered(required, tests) <==> TestsCover(required, tests)
  {
  }

  /** The run, if one is named, is the agent's running run on this task. */
  ghost predicate OwnRun(s: ProjectState, aid: Id, rid: Option<Id>) {
    rid.Some? && aid in s.agents ==>
      && rid.value in s.runs && s.runs[rid.value].agent == aid && s.runs[rid.value].task == s.agents[aid].contract.task
      && s.runs[rid.value].state.Running?
  }

  /** An active agent submits its active task when all files are writable, all required tests passed, and the run is its own. */
  lemma WorkIsSubmitted(s: ProjectState, aid: Id, files: seq<string>, tests: seq<TestExecution>, implementation: Option<Commit>,
                        rid: Option<Id>, rule: ClassRule)
    ensures SubmitTx(s, aid, files, tests, implementation, rid, rule).Ok? <==>
              && aid in s.agents && s.agents[aid].status.Active? && s.agents[aid].contract.task in s.tasks
              && s.tasks[s.agents[aid].contract.task].assignee == Some(aid)
              && s.tasks[s.agents[aid].contract.task].state.TaskActive?
              && AllWritable(s.agents[aid].contract, files, rule)
              && Covered(s.tasks[s.agents[aid].contract.task].spec.requiredTests, tests)
              && (implementation.Some? ==> Strip(implementation.value) != "") && OwnRun(s, aid, rid)
    ensures SubmitTx(s, aid, files, tests, implementation, rid, rule).Ok? ==>
              var tid, s' := s.agents[aid].contract.task, SubmitTx(s, aid, files, tests, implementation, rid, rule).value;
              && s'.tasks[tid].state.ReviewPending? && s'.tasks[tid].gates == s.tasks[tid].gates.(tests := tests)
              && s'.tasks[tid].implementation == (if implementation.Some? then Some(Strip(implementation.value)) else None)
              && s'.tasks[tid].run == (if rid.Some? then rid else s.tasks[tid].run)
              && s'.agents[aid].status.WaitingForReview?
  {
    if aid in s.agents && s.agents[aid].contract.task in s.tasks {
      WritableMeans(s.agents[aid].contract, files, rule);
      CoveredMeans(s.tasks[s.agents[aid].contract.task].spec.requiredTests, tests);
    }
  }

  // ----- gates -----

  /** A reviewer is an active agent of a review role other than the author, while the task waits for review. */
  lemma ReviewerIsAssigned(s: ProjectState, tid: Id, aid: Id)
    ensures AssignReviewerTx(s, tid, aid).Ok? <==>
              && tid in s.tasks && aid in s.agents && s.tasks[tid].state.ReviewPending? && s.tasks[tid].assignee != Some(aid)
              && s.agents[aid].contract.role in {"reviewer", "chief_architect", "solution_architect", "quality_lead", "release_validation"}
              && s.agents[aid].status.Active?
    ensures AssignReviewerTx(s, tid, aid).Ok? ==>
              AssignReviewerTx(s, tid, aid).value ==
              s.(tasks := s.tasks[tid := s.tasks[tid].(gates := s.tasks[tid].gates.(reviewer := Some(aid)))])
  {
  }

  /** The assigned reviewer sends the task on to QA, or blocks it and rejects the author's work. */
  lemma ReviewIsRecorded(s: ProjectState, tid: Id, aid: Id, approved: bool)
    ensures RecordReviewTx(s, tid, aid, approved).Ok? <==>
              tid in s.tasks && s.tasks[tid].gates.reviewer == Some(aid) && s.tasks[tid].state.ReviewPending?
    ensures RecordReviewTx(s, tid, aid, approved).Ok? ==>
              var t, s' := s.tasks[tid], RecordReviewTx(s, tid, aid, approved).value;
              && s'.tasks[tid] == t.(state := if approved then QaPending else TaskBlocked,
                                    gates := t.gates.(review := if approved then Approved else ReviewRejected))
              && (approved ==> s'.agents == s.agents && s'.blocked == s.blocked)
              && (!approved ==> tid in s'.blocked
                                && (t.assignee.Some? && t.assignee.value in s.agents ==> s'.agents[t.assignee.value].status.Rejected?))
  {
  }

  /** A QA agent is an active agent of a QA role other than the author, once the review is approved. */
  lemma QaIsAssigned(s: ProjectState, tid: Id, aid: Id)
    ensures AssignQaTx(s, tid, aid).Ok? <==>
              && tid in s.tasks && aid in s.agents && s.tasks[tid].state.QaPending? && s.tasks[tid].assignee != Some(aid)
              && s.agents[aid].contract.role in {"qa", "quality_lead", "unit_test", "integration_test", "e2e", "regression",
                                                 "performance_test", "fuzz_test", "compatibility_test", "user_flow_test",
                                                 "release_validation"}
              && s.agents[aid].status.Active?
    ensures AssignQaTx(s, tid, aid).Ok? ==>
              AssignQaTx(s, tid, aid).value ==
              s.(tasks := s.tasks[tid := s.tasks[tid].(gates := s.tasks[tid].gates.(qaAgent := Some(aid)))])
  {
  }

  /** Review and QA have passed, and security where it is required. */
  predicate AllPassedNow(t: Task) {
    t.gates.review.Approved? && t.gates.qaStatus.Passed? && (t.spec.needsSecurity ==> t.gates.securityApproved == Some(true))
  }

  /** The assigned QA agent passes a task with a non-empty list of passed runs, and blocks it otherwise. */
  lemma QaIsRecorded(s: ProjectState, tid: Id, aid: Id, runs: seq<TestExecution>)
    ensures RecordQaTx(s, tid, aid, runs).Ok? <==>
              tid in s.tasks && s.tasks[tid].gates.qaAgent == Some(aid) && s.tasks[tid].state.QaPending?
    ensures RecordQaTx(s, tid, aid, runs).Ok? ==>
              var t, s' := s.tasks[tid], RecordQaTx(s, tid, aid, runs).value;
              var passed := runs != [] && forall i :: 0 <= i < |runs| ==> runs[i].passed;
              var t' := s'.tasks[tid];
              && t'.gates == t.gates.(qaRuns := runs, qaStatus := if passed then Passed else QaFailed)
              && t'.state == (if !passed then TaskBlocked else if AllPassedNow(t') then ReadyToIntegrate else QaPending)
              && (tid in s'.blocked <==> tid in s.blocked || !passed)
  {
  }

  /** An active agent of a security role other than the author judges a task that waits for review or QA. */
  lemma SecurityIsRecorded(s: ProjectState, tid: Id, aid: Id, approved: bool)
    ensures RecordSecurityTx(s, tid, aid, approved).Ok? <==>
              && tid in s.tasks && aid in s.agents && s.agents[aid].status.Active? && s.tasks[tid].assignee != Some(aid)
              && s.agents[aid].contract.role in {"security", "security_lead", "appsec", "infra_security", "secrets", "privacy",
                                                 "threat_model", "red_team", "dependency_security", "ai_safety"}
              && (s.tasks[tid].state.ReviewPending? || s.tasks[tid].state.QaPending?)
    ensures RecordSecurityTx(s, tid, aid, approved).Ok? ==>
              var t, s' := s.tasks[tid], RecordSecurityTx(s, tid, aid, approved).value;
              var t' := s'.tasks[tid];
              && t'.gates == t.gates.(securityAgent := Some(aid), securityApproved := Some(approved))
              && t'.state == (if !approved then TaskBlocked else if AllPassedNow(t') then ReadyToIntegrate else t.state)
              && (tid in s'.blocked <==> tid in s.blocked || !approved)
  {
  }

  // ----- rework, cancellation and direct integration -----

  predicate Implemented(t: Task) {
    t.implementation.Some? && t.implementation != Some("")
  }

  /** A blocked task is reopened for an agent that has stopped working, on the stable commit unless it holds a commit. */
  lemma TaskIsReopened(s: ProjectState, tid: Id)
    ensures ReopenTx(s, tid).Ok? <==>
              && tid in s.tasks && s.tasks[tid].state.TaskBlocked? && s.tasks[tid].assignee.Some?
              && s.tasks[tid].assignee.value in s.agents
              && s.agents[s.tasks[tid].assignee.value].status in {Completed, Blocked, Rejected, WaitingForReview}
              && (s.tasks[tid].base != s.current ==> !Implemented(s.tasks[tid]))
    ensures ReopenTx(s, tid).Ok? ==>
              var t, s' := s.tasks[tid], ReopenTx(s, tid).value;
              && s'.tasks[tid].state.TaskActive? && s'.tasks[tid].base == s.current && s'.tasks[tid].run.None?
              && s'.tasks[tid].implementation.None? && s'.tasks[tid].changed == {} && s'.tasks[tid].gates == FRESH_GATES
              && s'.agents[t.assignee.value].status.Active? && tid !in s'.blocked
              && (t.base != s.current ==> s'.agents[t.assignee.value].base == s.current)
  {
  }

  /** Every task but an integrated one can be cancelled; its agent is terminated and its locks are released. */
  lemma TaskIsCancelled(s: ProjectState, tid: Id)
    ensures CancelTx(s, tid).Ok? <==>
              && tid in s.tasks && !s.tasks[tid].state.Integrated?
              && (s.tasks[tid].assignee.Some? ==> s.tasks[tid].assignee.value in s.agents)
    ensures CancelTx(s, tid).Ok? ==>
              var t, s' := s.tasks[tid], CancelTx(s, tid).value;
              && s'.tasks == s.tasks[tid := t.(state := Cancelled)] && tid !in s'.blocked
              && (t.assignee.Some? ==> s'.agents[t.assignee.value].status.Terminated?)
              && forall l :: l in s'.locks <==> l in s.locks && l.task != tid
  {
  }

  /** A task under way without a commit follows the stable commit. */
  lemma TaskIsRebased(s: ProjectState, tid: Id, newBase: Commit)
    ensures RebaseTx(s, tid, newBase).Ok? <==>
              && tid in s.tasks && newBase == s.current && !Implemented(s.tasks[tid])
              && s.tasks[tid].state in {TaskActive, ReviewPending, QaPending, ReadyToIntegrate}
    ensures RebaseTx(s, tid, newBase).Ok? ==>
              var t, s' := s.tasks[tid], RebaseTx(s, tid, newBase).value;
              && s'.tasks == s.tasks[tid := t.(base := newBase)]
              && (t.assignee.Some? && t.assignee.value in s.agents ==> s'.agents[t.assignee.value].base == newBase)
  {
  }

  /** A ready task on the stable commit is integrated directly if no run works on it and its commit, if any, is the given one. */
  lemma TaskIsIntegrated(s: ProjectState, tid: Id, commit: Commit)
    ensures IntegrateTx(s, tid, commit).Ok? <==>
              && tid in s.tasks && s.tasks[tid].state.ReadyToIntegrate? && (s.tasks[tid].run.None? || s.tasks[tid].run == Some(""))
              && s.tasks[tid].base == s.current && Strip(commit) != "" && commit != s.current
              && (Implemented(s.tasks[tid]) ==> s.tasks[tid].implementation == Some(Strip(commit)))
              && (s.tasks[tid].assignee.Some? ==> s.tasks[tid].assignee.value in s.agents)
    ensures IntegrateTx(s, tid, commit).Ok? ==>
              var t, s' := s.tasks[tid], IntegrateTx(s, tid, commit).value;
              && s'.current == Strip(commit) && s'.tasks[tid].state.Integrated? && s'.completed == s.completed + [tid]
              && tid !in s'.blocked && (t.assignee.Some? ==> s'.agents[t.assignee.value].status.Merged?)
              && forall l :: l in s'.locks <==> l in s.locks && l.task != tid
  {
  }
}
