/** A run in which fail_worker_run and reopen_task bring back an integrated task, which is then integrated again. */
module CompletedTwice {
  import opened Common
  import opened RepoPaths
  import opened ProjectTransitions
  import opened ProjectInvariants
  import opened ProjectGuarantees
  import opened ProjectTraces

  /** The task and its author, an agent for review and QA with a task of its own, a worker run, and three commits. */
  datatype Cast = Cast(a: Id, x: Id, role: Role, b: Id, y: Id, run: Id, start: Commit, first: Commit, second: Commit)

  predicate Fits(c: Cast) {
    && c.a != c.b && c.x != c.y && c.start != c.first && c.first != c.second
    && Strip(c.first) == c.first != "" && Strip(c.second) == c.second != ""
  }

  const CHECKER: Role := "quality_lead"
  const PASSED := [TestExecution("checks", true)]

  function NewTask(c: Cast): Task {
    Task(TaskSpec([], [], [], ["done"], [], {}, false), Pending, None, c.start, None, None, {}, None, FRESH_GATES)
  }

  function StartAuthor(c: Cast): seq<Op> {
    [CreateTask(c.a, NewTask(c)), StartAgent(c.a, c.role, c.x)]
  }

  function StartChecker(c: Cast): seq<Op> {
    [CreateTask(c.b, NewTask(c)), StartAgent(c.b, CHECKER, c.y)]
  }

  function SetUp(c: Cast): seq<Op> {
    StartAuthor(c) + StartChecker(c) + [BeginRun(c.run, Run(c.x, c.a, Running, c.start, None, {}))]
  }

  function FailAndReopen(c: Cast): seq<Op> {
    [FailRun(c.run, true), Reopen(c.a)]
  }

  function GetReviewed(c: Cast): seq<Op> {
    [Submit(c.x, [], [], None, None), AssignReviewer(c.a, c.y), RecordReview(c.a, c.y, true)]
  }

  function PassAndIntegrate(c: Cast, commit: Commit): seq<Op> {
    [AssignQa(c.a, c.y), RecordQa(c.a, c.y, PASSED), Integrate(c.a, commit)]
  }

  function Merge(c: Cast, commit: Commit): seq<Op> {
    GetReviewed(c) + PassAndIntegrate(c, commit)
  }

  function TwoMerges(c: Cast): seq<Op> {
    SetUp(c) + (FailAndReopen(c) + Merge(c, c.first)) + (FailAndReopen(c) + Merge(c, c.second))
  }

  // ----- the states of the run -----

  /** Author, checker and the stale run are there; the task is in this state, without an implementation commit. */
  predicate Stage(s: ProjectState, c: Cast, st: TaskState, status: AgentStatus, current: Commit, completed: seq<Id>) {
    && s.current == current && s.completed == completed
    && c.a in s.tasks && s.tasks[c.a].state == st && s.tasks[c.a].assignee == Some(c.x)
    && s.tasks[c.a].spec == NewTask(c).spec && s.tasks[c.a].implementation.None?
    && c.x in s.agents && s.agents[c.x].status == status && s.agents[c.x].contract.task == c.a
    && c.y in s.agents && s.agents[c.y].status.Active? && s.agents[c.y].contract.role == CHECKER
    && c.run in s.runs && s.runs[c.run].task == c.a && s.runs[c.run].agent == c.x && !s.runs[c.run].state.RunIntegrated?
  }

  /** At work again, on the current commit and outside any run. */
  predicate Working(s: ProjectState, c: Cast, current: Commit, completed: seq<Id>) {
    && Stage(s, c, TaskActive, Active, current, completed)
    && s.tasks[c.a].base == current && s.tasks[c.a].run.None? && s.tasks[c.a].gates == FRESH_GATES
  }

  predicate InReview(s: ProjectState, c: Cast, st: TaskState, current: Commit, completed: seq<Id>, g: Gates) {
    && Stage(s, c, st, WaitingForReview, current, completed)
    && s.tasks[c.a].base == current && s.tasks[c.a].run.None? && s.tasks[c.a].gates == g
  }

  /** Author and checker are there, and no run yet. */
  predicate Staffed(s: ProjectState, c: Cast) {
    && c.a in s.tasks && s.tasks[c.a] == NewTask(c).(state := TaskActive, assignee := Some(c.x))
    && c.x in s.agents && s.agents[c.x] == Agent(Contract(c.role, None, 0, 1, c.a, [], []), Active, c.start)
    && c.y in s.agents && s.agents[c.y].status.Active? && s.agents[c.y].contract.role == CHECKER
    && s.runs == map[] && s.current == c.start && s.completed == []
  }

  // ----- its steps -----

  lemma StartWithoutScopes(s: ProjectState, c: Cast, tid: Id, role: Role, id: Id)
    requires tid in s.tasks && s.tasks[tid] == NewTask(c) && s.current == c.start && s.governance == LIMITS
    requires |NonTerminalAgents(s.agents)| < 10 && |s.cycleAgents| < 10 && id !in s.agents && id !in s.cycleAgents
    ensures StartAgentTx(s, tid, role, id) ==
            Ok(Assign(s, tid, NewTask(c), id, Contract(role, None, 0, s.cycle, tid, [], [])))
  {
    assert FirstCollision([], s.locks).None?;
  }

  /** The state in which the author's task is started. */
  function AuthorStarted(c: Cast): ProjectState {
    Assign(WithTask(Fresh(c.start), c.a, NewTask(c)), c.a, NewTask(c), c.x, Contract(c.role, None, 0, 1, c.a, [], []))
  }

  lemma CreatesFirst(c: Cast, rule: ClassRule)
    requires Fits(c)
    ensures Leads(Fresh(c.start), CreateTask(c.a, NewTask(c)), WithTask(Fresh(c.start), c.a, NewTask(c)), rule)
  {
    Creates(Fresh(c.start), c.a, NewTask(c), rule);
  }

  lemma StartsAuthor(c: Cast, rule: ClassRule)
    requires Fits(c)
    ensures Leads(WithTask(Fresh(c.start), c.a, NewTask(c)), StartAgent(c.a, c.role, c.x), AuthorStarted(c), rule)
  {
    var s := WithTask(Fresh(c.start), c.a, NewTask(c));
    assert NonTerminalAgents(s.agents) == {};
    StartWithoutScopes(s, c, c.a, c.role, c.x);
  }

  lemma CreatesSecond(c: Cast, rule: ClassRule)
    requires Fits(c)
    ensures Leads(AuthorStarted(c), CreateTask(c.b, NewTask(c)), WithTask(AuthorStarted(c), c.b, NewTask(c)), rule)
  {
    Creates(AuthorStarted(c), c.b, NewTask(c), rule);
  }

  lemma StartsChecker(c: Cast, rule: ClassRule) returns (s': ProjectState)
    requires Fits(c)
    ensures Leads(WithTask(AuthorStarted(c), c.b, NewTask(c)), StartAgent(c.b, CHECKER, c.y), s', rule)
    ensures Staffed(s', c)
  {
    var s := WithTask(AuthorStarted(c), c.b, NewTask(c));
    assert NonTerminalAgents(s.agents) == {c.x};
    StartWithoutScopes(s, c, c.b, CHECKER, c.y);
    s' := StartAgentTx(s, c.b, CHECKER, c.y).value;
  }

  lemma BeginsRun(s: ProjectState, c: Cast, rule: ClassRule) returns (s': ProjectState)
    requires Staffed(s, c)
    ensures Leads(s, BeginRun(c.run, Run(c.x, c.a, Running, c.start, None, {})), s', rule)
    ensures Stage(s', c, TaskActive, Active, c.start, [])
  {
    s' := BeginRunTx(s, c.run, Run(c.x, c.a, Running, c.start, None, {})).value;
  }

  lemma AuthorSetUp(c: Cast, rule: ClassRule) returns (t: seq<ProjectState>)
    requires Fits(c)
    ensures Trace(t, StartAuthor(c), rule) && t[0] == Fresh(c.start) && t[2] == AuthorStarted(c)
  {
    CreatesFirst(c, rule);
    StartsAuthor(c, rule);
    t := [Fresh(c.start), WithTask(Fresh(c.start), c.a, NewTask(c)), AuthorStarted(c)];
  }

  lemma CheckerSetUp(c: Cast, rule: ClassRule) returns (t: seq<ProjectState>)
    requires Fits(c)
    ensures Trace(t, StartChecker(c), rule) && t[0] == AuthorStarted(c) && Staffed(t[2], c)
  {
    CreatesSecond(c, rule);
    var s := StartsChecker(c, rule);
    t := [AuthorStarted(c), WithTask(AuthorStarted(c), c.b, NewTask(c)), s];
  }

  lemma SetsUp(c: Cast, rule: ClassRule) returns (t: seq<ProjectState>)
    requires Fits(c)
    ensures Trace(t, SetUp(c), rule) && t[0] == Fresh(c.start) && Stage(t[5], c, TaskActive, Active, c.start, [])
  {
    var first := AuthorSetUp(c, rule);
    var second := CheckerSetUp(c, rule);
    var s := BeginsRun(second[2], c, rule);
    var begin := [BeginRun(c.run, Run(c.x, c.a, Running, c.start, None, {}))];
    Joined(first, StartAuthor(c), second, StartChecker(c), rule);
    Joined(first[..2] + second, StartAuthor(c) + StartChecker(c), [second[2], s], begin, rule);
    t := (first[..2] + second)[..4] + [second[2], s];
  }

  lemma Fails(s: ProjectState, c: Cast, st: TaskState, status: AgentStatus, current: Commit, completed: seq<Id>,
              rule: ClassRule) returns (s': ProjectState)
    requires Fits(c) && Stage(s, c, st, status, current, completed)
    ensures Leads(s, FailRun(c.run, true), s', rule) && Stage(s', c, TaskBlocked, Blocked, current, completed)
  {
    s' := FailRunTx(s, c.run, true).value;
  }

  lemma Reopens(s: ProjectState, c: Cast, current: Commit, completed: seq<Id>, rule: ClassRule) returns (s': ProjectState)
    requires Fits(c) && Stage(s, c, TaskBlocked, Blocked, current, completed)
    ensures Leads(s, Reopen(c.a), s', rule) && Working(s', c, current, completed)
  {
    s' := ReopenTx(s, c.a).value;
  }

  /** However far the task has come, its stale run brings it back to work. */
  lemma FailsAndReopens(s: ProjectState, c: Cast, st: TaskState, status: AgentStatus, current: Commit, completed: seq<Id>,
                        rule: ClassRule) returns (t: seq<ProjectState>)
    requires Fits(c) && Stage(s, c, st, status, current, completed)
    ensures Trace(t, FailAndReopen(c), rule) && t[0] == s && Working(t[2], c, current, completed)
  {
    var s1 := Fails(s, c, st, status, current, completed, rule);
    var s2 := Reopens(s1, c, current, completed, rule);
    t := [s, s1, s2];
  }

  lemma Submits(s: ProjectState, c: Cast, current: Commit, completed: seq<Id>, rule: ClassRule) returns (s': ProjectState)
    requires Fits(c) && Working(s, c, current, completed)
    ensures Leads(s, Submit(c.x, [], [], None, None), s', rule)
    ensures InReview(s', c, ReviewPending, current, completed, FRESH_GATES)
  {
    assert NormalizeFiles([]) == Ok({});
    s' := SubmitTx(s, c.x, [], [], None, None, rule).value;
  }

  lemma GetsReviewer(s: ProjectState, c: Cast, current: Commit, completed: seq<Id>, g: Gates, rule: ClassRule)
    returns (s': ProjectState)
    requires Fits(c) && InReview(s, c, ReviewPending, current, completed, g)
    ensures Leads(s, AssignReviewer(c.a, c.y), s', rule)
    ensures InReview(s', c, ReviewPending, current, completed, g.(reviewer := Some(c.y)))
  {
    s' := AssignReviewerTx(s, c.a, c.y).value;
  }

  lemma GetsApproved(s: ProjectState, c: Cast, current: Commit, completed: seq<Id>, g: Gates, rule: ClassRule)
    returns (s': ProjectState)
    requires Fits(c) && InReview(s, c, ReviewPending, current, completed, g) && g.reviewer == Some(c.y)
    ensures Leads(s, RecordReview(c.a, c.y, true), s', rule)
    ensures InReview(s', c, QaPending, current, completed, g.(review := Approved))
  {
    s' := RecordReviewTx(s, c.a, c.y, true).value;
  }

  lemma GetsQa(s: ProjectState, c: Cast, current: Commit, completed: seq<Id>, g: Gates, rule: ClassRule)
    returns (s': ProjectState)
    requires Fits(c) && InReview(s, c, QaPending, current, completed, g)
    ensures Leads(s, AssignQa(c.a, c.y), s', rule)
    ensures InReview(s', c, QaPending, current, completed, g.(qaAgent := Some(c.y)))
  {
    s' := AssignQaTx(s, c.a, c.y).value;
  }

  lemma QaPasses(s: ProjectState, c: Cast, current: Commit, completed: seq<Id>, g: Gates)
    requires Fits(c) && InReview(s, c, QaPending, current, completed, g) && g.qaAgent == Some(c.y) && g.review.Approved?
    ensures var r := RecordQaTx(s, c.a, c.y, PASSED);
            r.Ok? && InReview(r.value, c, ReadyToIntegrate, current, completed, g.(qaRuns := PASSED, qaStatus := Passed))
  {
  }

  lemma PassesQa(s: ProjectState, c: Cast, current: Commit, completed: seq<Id>, g: Gates, rule: ClassRule)
    returns (s': ProjectState)
    requires Fits(c) && InReview(s, c, QaPending, current, completed, g) && g.qaAgent == Some(c.y) && g.review.Approved?
    ensures Leads(s, RecordQa(c.a, c.y, PASSED), s', rule)
    ensures InReview(s', c, ReadyToIntegrate, current, completed, g.(qaRuns := PASSED, qaStatus := Passed))
  {
    QaPasses(s, c, current, completed, g);
    RecordQaLeads(s, c.a, c.y, PASSED, rule);
    s' := RecordQaTx(s, c.a, c.y, PASSED).value;
  }

  lemma Integrates(s: ProjectState, c: Cast, current: Commit, completed: seq<Id>, g: Gates, commit: Commit)
    requires Fits(c) && InReview(s, c, ReadyToIntegrate, current, completed, g)
    requires Strip(commit) == commit != "" && commit != current
    ensures var r := IntegrateTx(s, c.a, commit);
            r.Ok? && Stage(r.value, c, Integrated, Merged, commit, completed + [c.a])
  {
  }

  lemma GetsIntegrated(s: ProjectState, c: Cast, current: Commit, completed: seq<Id>, g: Gates, commit: Commit,
                       rule: ClassRule) returns (s': ProjectState)
    requires Fits(c) && InReview(s, c, ReadyToIntegrate, current, completed, g)
    requires Strip(commit) == commit != "" && commit != current
    ensures Leads(s, Integrate(c.a, commit), s', rule)
    ensures Stage(s', c, Integrated, Merged, commit, completed + [c.a])
  {
    Integrates(s, c, current, completed, g, commit);
    IntegrateLeads(s, c.a, commit, rule);
    s' := IntegrateTx(s, c.a, commit).value;
  }

  lemma Reviews(s: ProjectState, c: Cast, current: Commit, completed: seq<Id>, rule: ClassRule) returns (t: seq<ProjectState>)
    requires Fits(c) && Working(s, c, current, completed)
    ensures Trace(t, GetReviewed(c), rule) && t[0] == s
    ensures InReview(t[3], c, QaPending, current, completed, FRESH_GATES.(reviewer := Some(c.y), review := Approved))
  {
    var s1 := Submits(s, c, current, completed, rule);
    var s2 := GetsReviewer(s1, c, current, completed, FRESH_GATES, rule);
    var s3 := GetsApproved(s2, c, current, completed, FRESH_GATES.(reviewer := Some(c.y)), rule);
    t := [s, s1, s2, s3];
  }

  lemma Merges(s: ProjectState, c: Cast, current: Commit, completed: seq<Id>, commit: Commit, rule: ClassRule)
    returns (t: seq<ProjectState>)
    requires Fits(c) && Working(s, c, current, completed) && Strip(commit) == commit != "" && commit != current
    ensures Trace(t, Merge(c, commit), rule) && t[0] == s && Stage(t[6], c, Integrated, Merged, commit, completed + [c.a])
  {
    var first := Reviews(s, c, current, completed, rule);
    var g := FRESH_GATES.(reviewer := Some(c.y), review := Approved);
    var s4 := GetsQa(first[3], c, current, completed, g, rule);
    var s5 := PassesQa(s4, c, current, completed, g.(qaAgent := Some(c.y)), rule);
    var s6 := GetsIntegrated(s5, c, current, completed,
                             g.(qaAgent := Some(c.y), qaRuns := PASSED, qaStatus := Passed), commit, rule);
    Joined(first, GetReviewed(c), [first[3], s4, s5, s6], PassAndIntegrate(c, commit), rule);
    t := first[..3] + [first[3], s4, s5, s6];
  }

  // ----- the run -----

  /** Fail the worker run, reopen the task, and integrate it without a run. */
  lemma Reworks(s: ProjectState, c: Cast, st: TaskState, status: AgentStatus, current: Commit, completed: seq<Id>,
                commit: Commit, rule: ClassRule) returns (t: seq<ProjectState>)
    requires Fits(c) && Stage(s, c, st, status, current, completed) && Strip(commit) == commit != "" && commit != current
    ensures Trace(t, FailAndReopen(c) + Merge(c, commit), rule) && t[0] == s
    ensures Stage(t[8], c, Integrated, Merged, commit, completed + [c.a])
  {
    var first := FailsAndReopens(s, c, st, status, current, completed, rule);
    var second := Merges(first[2], c, current, completed, commit, rule);
    Joined(first, FailAndReopen(c), second, Merge(c, commit), rule);
    t := first[..2] + second;
  }

  /**
   * Fail a worker run, finish its task without a run and integrate it; the stale run is then failed again, the task
   * reopened, and integrated a second time: completed_tasks lists it twice.
   */
  lemma IntegratedTwice(c: Cast, rule: ClassRule)
    requires Fits(c)
    ensures Initial(Fresh(c.start)) && ProperRun(Fresh(c.start), TwoMerges(c), rule)
    ensures var e := RunAll(Fresh(c.start), TwoMerges(c), rule);
            e.completed == [c.a, c.a] && e.current == c.second && c.a in e.tasks && e.tasks[c.a].state.Integrated?
  {
    var t1 := SetsUp(c, rule);
    var t2 := Reworks(t1[5], c, TaskActive, Active, c.start, [], c.first, rule);
    var t3 := Reworks(t2[8], c, Integrated, Merged, c.first, [c.a], c.second, rule);
    var ops2, ops3 := FailAndReopen(c) + Merge(c, c.first), FailAndReopen(c) + Merge(c, c.second);
    Joined(t1, SetUp(c), t2, ops2, rule);
    var t12 := t1[..5] + t2;
    Joined(t12, SetUp(c) + ops2, t3, ops3, rule);
    TraceIsRun(t12[..13] + t3, TwoMerges(c), rule);
  }
}
