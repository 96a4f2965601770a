/**
 * A run in which fail_worker_run and reopen_task bring back a cancelled task without its locks, so that two
 * unfinished tasks may edit the same path.
 */
module RevivedTask {
  import opened Common
  import opened RepoPaths
  import opened ProjectTransitions
  import opened ProjectInvariants
  import opened ProjectGuarantees
  import opened ProjectTraces

  /** Two tasks, their agents and a worker run of the first; any names do. */
  datatype Cast = Cast(path: string, a: Id, b: Id, x: Id, y: Id, run: Id, role: Role, commit: Commit)

  /** A path that is its own normal form and has no wildcard. */
  predicate Plain(path: string) {
    Normalize(path) == Ok(path) && FirstWildcard(path) == |path|
  }

  predicate Fits(c: Cast) {
    c.a != c.b && c.x != c.y && Plain(c.path)
  }

  function Start(c: Cast): ProjectState {
    Fresh(c.commit)
  }

  function NewTask(c: Cast): Task {
    Task(TaskSpec([], [c.path], [], ["done"], [], {}, false), Pending, None, c.commit, None, None, {}, None, FRESH_GATES)
  }

  function NewRun(c: Cast): Run {
    Run(c.x, c.a, Running, c.commit, None, {})
  }

  function StartFirst(c: Cast): seq<Op> {
    [CreateTask(c.a, NewTask(c)), StartAgent(c.a, c.role, c.x)]
  }

  function RunAndCancel(c: Cast): seq<Op> {
    [BeginRun(c.run, NewRun(c)), Cancel(c.a)]
  }

  function StartSecond(c: Cast): seq<Op> {
    [CreateTask(c.b, NewTask(c)), StartAgent(c.b, c.role, c.y)]
  }

  function FailAndReopen(c: Cast): seq<Op> {
    [FailRun(c.run, true), Reopen(c.a)]
  }

  function Revival(c: Cast): seq<Op> {
    StartFirst(c) + RunAndCancel(c) + StartSecond(c) + FailAndReopen(c)
  }

  // ----- the states of the run -----

  function ContractFor(c: Cast, tid: Id): Contract {
    Contract(c.role, None, 0, 1, tid, [c.path], [])
  }

  function TaskA(c: Cast, st: TaskState, run: Option<Id>): Task {
    NewTask(c).(state := st, assignee := Some(c.x), run := run)
  }

  function AgentA(c: Cast, st: AgentStatus): Agent {
    Agent(ContractFor(c, c.a), st, c.commit)
  }

  predicate Base(s: ProjectState, c: Cast) {
    s.governance == LIMITS && s.current == c.commit && s.cycle == 1
  }

  /** The first task and its agent exist, and nothing else does. */
  predicate OnlyA(s: ProjectState, c: Cast, st: TaskState, run: Option<Id>, agent: AgentStatus) {
    && Base(s, c) && s.cycleAgents == [c.x] && s.blocked == []
    && s.tasks.Keys == {c.a} && s.tasks[c.a] == TaskA(c, st, run)
    && s.agents.Keys == {c.x} && s.agents[c.x] == AgentA(c, agent)
    && s.runs.Keys == (if run.Some? then {c.run} else {}) && (run.Some? ==> s.runs[c.run] == NewRun(c))
  }

  /** The second task is being worked on and holds the only lock. */
  predicate WithB(s: ProjectState, c: Cast) {
    && Base(s, c) && s.locks == [FileLock(c.path, c.y, c.b)]
    && c.b in s.tasks && s.tasks[c.b] == NewTask(c).(state := TaskActive, assignee := Some(c.y))
    && c.y in s.agents && s.agents[c.y] == Agent(ContractFor(c, c.b), Active, c.commit)
  }

  predicate WithA(s: ProjectState, c: Cast, st: TaskState, run: Option<Id>, agent: AgentStatus) {
    && c.a in s.tasks && s.tasks[c.a] == TaskA(c, st, run)
    && c.x in s.agents && s.agents[c.x] == AgentA(c, agent)
  }

  // ----- its steps -----

  lemma OneScope(path: string)
    requires Plain(path)
    ensures NormalizeScopes([path]) == Ok([path]) && NormalizeScopes([]) == Ok([])
  {
    assert [path][..0] == [];
    assert NormalizeScopes([path][..0]) == Ok([]);
    assert AddTo([], path) == [path];
  }

  lemma CreatePlain(s: ProjectState, c: Cast, tid: Id, rule: ClassRule)
    requires Plain(c.path) && tid !in s.tasks && s.current == c.commit
    requires forall t :: t in s.tasks ==> s.tasks[t].spec.dependencies == []
    ensures Leads(s, CreateTask(tid, NewTask(c)), WithTask(s, tid, NewTask(c)), rule)
  {
    OneScope(c.path);
    Creates(s, tid, NewTask(c), rule);
  }

  /** An unassigned task without dependencies starts when no agent is running and no lock is held. */
  lemma StartPlain(s: ProjectState, c: Cast, tid: Id, id: Id)
    requires tid in s.tasks && s.tasks[tid] == NewTask(c) && s.locks == [] && s.current == c.commit && s.cycle == 1
    requires NonTerminalAgents(s.agents) == {} && |s.cycleAgents| < 10 && s.governance == LIMITS
    requires id !in s.agents && id !in s.cycleAgents
    ensures StartAgentTx(s, tid, c.role, id) == Ok(Assign(s, tid, NewTask(c), id, ContractFor(c, tid)))
    ensures Assign(s, tid, NewTask(c), id, ContractFor(c, tid)).locks == [FileLock(c.path, id, tid)]
  {
    assert [c.path][..0] == [];
    assert FirstCollision([c.path][..0], []).None?;
    assert NewLocks([c.path], id, tid) == [FileLock(c.path, id, tid)];
    assert [] + NewLocks([c.path], id, tid) == NewLocks([c.path], id, tid);
  }

  lemma CreatesA(c: Cast, rule: ClassRule) returns (s': ProjectState)
    requires Fits(c)
    ensures Leads(Start(c), CreateTask(c.a, NewTask(c)), s', rule)
    ensures s' == Start(c).(tasks := map[c.a := NewTask(c)])
  {
    var s := Start(c);
    CreatePlain(s, c, c.a, rule);
    s' := s.(tasks := s.tasks[c.a := NewTask(c)]);
    assert s.tasks[c.a := NewTask(c)] == map[c.a := NewTask(c)];
  }

  lemma StartsA(s: ProjectState, c: Cast, rule: ClassRule) returns (s': ProjectState)
    requires Fits(c) && s == Start(c).(tasks := map[c.a := NewTask(c)])
    ensures Leads(s, StartAgent(c.a, c.role, c.x), s', rule)
    ensures OnlyA(s', c, TaskActive, None, Active) && s'.locks == [FileLock(c.path, c.x, c.a)]
  {
    assert NonTerminalAgents(s.agents) == {};
    StartPlain(s, c, c.a, c.x);
    s' := StartAgentTx(s, c.a, c.role, c.x).value;
    assert [] + [c.x] == [c.x];
  }

  lemma RunsA(s: ProjectState, c: Cast, rule: ClassRule) returns (s': ProjectState)
    requires OnlyA(s, c, TaskActive, None, Active)
    ensures Leads(s, BeginRun(c.run, NewRun(c)), s', rule)
    ensures OnlyA(s', c, TaskActive, Some(c.run), Active) && s'.locks == s.locks
  {
    s' := BeginRunTx(s, c.run, NewRun(c)).value;
  }

  lemma CancelsA(s: ProjectState, c: Cast, rule: ClassRule) returns (s': ProjectState)
    requires OnlyA(s, c, TaskActive, Some(c.run), Active) && s.locks == [FileLock(c.path, c.x, c.a)]
    ensures Leads(s, Cancel(c.a), s', rule)
    ensures OnlyA(s', c, Cancelled, Some(c.run), Terminated) && s'.locks == []
  {
    assert s.locks[..0] == [];
    assert LocksWithout(s.locks, c.a) == LocksWithout([], c.a) + [];
    s' := CancelTx(s, c.a).value;
  }

  lemma CreatesB(s: ProjectState, c: Cast, rule: ClassRule) returns (s': ProjectState)
    requires Fits(c) && OnlyA(s, c, Cancelled, Some(c.run), Terminated)
    ensures Leads(s, CreateTask(c.b, NewTask(c)), s', rule)
    ensures s' == s.(tasks := s.tasks[c.b := NewTask(c)])
  {
    CreatePlain(s, c, c.b, rule);
    s' := s.(tasks := s.tasks[c.b := NewTask(c)]);
  }

  lemma StartsB(s: ProjectState, before: ProjectState, c: Cast, rule: ClassRule) returns (s': ProjectState)
    requires Fits(c) && OnlyA(before, c, Cancelled, Some(c.run), Terminated) && before.locks == []
    requires s == before.(tasks := before.tasks[c.b := NewTask(c)])
    ensures Leads(s, StartAgent(c.b, c.role, c.y), s', rule)
    ensures WithB(s', c) && WithA(s', c, Cancelled, Some(c.run), Terminated)
    ensures c.run in s'.runs && s'.runs[c.run] == NewRun(c)
  {
    assert NonTerminalAgents(s.agents) == {};
    StartPlain(s, c, c.b, c.y);
    s' := StartAgentTx(s, c.b, c.role, c.y).value;
  }

  lemma FailsA(s: ProjectState, c: Cast, rule: ClassRule) returns (s': ProjectState)
    requires Fits(c) && WithB(s, c) && WithA(s, c, Cancelled, Some(c.run), Terminated)
    requires c.run in s.runs && s.runs[c.run] == NewRun(c)
    ensures Leads(s, FailRun(c.run, true), s', rule)
    ensures WithB(s', c) && WithA(s', c, TaskBlocked, Some(c.run), Blocked)
  {
    s' := FailRunTx(s, c.run, true).value;
  }

  lemma ReopensA(s: ProjectState, c: Cast, rule: ClassRule) returns (s': ProjectState)
    requires Fits(c) && WithB(s, c) && WithA(s, c, TaskBlocked, Some(c.run), Blocked)
    ensures Leads(s, Reopen(c.a), s', rule)
    ensures WithB(s', c) && WithA(s', c, TaskActive, None, Active)
  {
    s' := ReopenTx(s, c.a).value;
  }

  // ----- the run -----

  lemma StartingFirst(c: Cast, rule: ClassRule) returns (t: seq<ProjectState>)
    requires Fits(c)
    ensures Trace(t, StartFirst(c), rule) && t[0] == Start(c)
    ensures OnlyA(t[2], c, TaskActive, None, Active) && t[2].locks == [FileLock(c.path, c.x, c.a)]
  {
    var s1 := CreatesA(c, rule);
    var s2 := StartsA(s1, c, rule);
    t := [Start(c), s1, s2];
  }

  lemma RunningAndCancelling(s: ProjectState, c: Cast, rule: ClassRule) returns (t: seq<ProjectState>)
    requires OnlyA(s, c, TaskActive, None, Active) && s.locks == [FileLock(c.path, c.x, c.a)]
    ensures Trace(t, RunAndCancel(c), rule) && t[0] == s
    ensures OnlyA(t[2], c, Cancelled, Some(c.run), Terminated) && t[2].locks == []
  {
    var s1 := RunsA(s, c, rule);
    var s2 := CancelsA(s1, c, rule);
    t := [s, s1, s2];
  }

  lemma StartingSecond(s: ProjectState, c: Cast, rule: ClassRule) returns (t: seq<ProjectState>)
    requires Fits(c) && OnlyA(s, c, Cancelled, Some(c.run), Terminated) && s.locks == []
    ensures Trace(t, StartSecond(c), rule) && t[0] == s
    ensures WithB(t[2], c) && WithA(t[2], c, Cancelled, Some(c.run), Terminated)
    ensures c.run in t[2].runs && t[2].runs[c.run] == NewRun(c)
  {
    var s1 := CreatesB(s, c, rule);
    var s2 := StartsB(s1, s, c, rule);
    t := [s, s1, s2];
  }

  lemma FailingAndReopening(s: ProjectState, c: Cast, rule: ClassRule) returns (t: seq<ProjectState>)
    requires Fits(c) && WithB(s, c) && WithA(s, c, Cancelled, Some(c.run), Terminated)
    requires c.run in s.runs && s.runs[c.run] == NewRun(c)
    ensures Trace(t, FailAndReopen(c), rule) && t[0] == s
    ensures WithB(t[2], c) && WithA(t[2], c, TaskActive, None, Active)
  {
    var s1 := FailsA(s, c, rule);
    var s2 := ReopensA(s1, c, rule);
    t := [s, s1, s2];
  }

  lemma BothMayEdit(s: ProjectState, c: Cast, rule: ClassRule)
    requires Fits(c) && WithB(s, c) && WithA(s, c, TaskActive, None, Active)
    ensures MayEdit(s, c.a, c.path, rule) && MayEdit(s, c.b, c.path, rule)
  {
    GlobItself(c.path, rule);
    assert |c.path| >= 3 ==> c.path[|c.path| - 3..][1] == c.path[|c.path| - 2];
    assert PathMatchesScope(c.path, c.path, rule) == Ok(true);
    assert [c.path][..0] == [];
    assert AnyMatch(c.path, [c.path][..0], rule) == Ok(false);
    assert AnyMatch(c.path, [c.path], rule) == Ok(true) && AnyMatch(c.path, [], rule) == Ok(false);
  }

  /**
   * Cancel a task with a running worker, start another task on the same path, let the stale run be recorded as
   * blocked and reopen the first task: now both tasks may edit the path, and only the second one holds a lock.
   */
  lemma RevivedTaskSharesAPath(c: Cast, rule: ClassRule)
    requires Fits(c)
    ensures Initial(Start(c)) && ProperRun(Start(c), Revival(c), rule)
    ensures var e := RunAll(Start(c), Revival(c), rule);
            MayEdit(e, c.a, c.path, rule) && MayEdit(e, c.b, c.path, rule) && e.locks == [FileLock(c.path, c.y, c.b)]
  {
    var t1 := StartingFirst(c, rule);
    var t2 := RunningAndCancelling(t1[2], c, rule);
    Joined(t1, StartFirst(c), t2, RunAndCancel(c), rule);
    var t12, ops12 := t1[..2] + t2, StartFirst(c) + RunAndCancel(c);
    var t3 := StartingSecond(t2[2], c, rule);
    Joined(t12, ops12, t3, StartSecond(c), rule);
    var t4 := FailingAndReopening(t3[2], c, rule);
    Joined(t12[..4] + t3, ops12 + StartSecond(c), t4, FailAndReopen(c), rule);
    TraceIsRun((t12[..4] + t3)[..6] + t4, Revival(c), rule);
    BothMayEdit(t4[2], c, rule);
  }
}
