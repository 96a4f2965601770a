/** Tasks that enter with a reviewer or a QA agent already named. */
module PresetRecords {
  // create_task copies the record of the task it is given. What may be named there is exactly what is registered.

  import opened Common
  import opened RepoPaths
  import opened ProjectTransitions
  import opened ProjectInvariants
  import opened ProjectTraces

  /** The task an author takes through its gates, and what is submitted for it. */
  datatype Entry = Entry(tid: Id, task: Task, role: Role, author: Id, tests: seq<TestExecution>)

  function Enter(n: Entry): seq<Op> {
    [CreateTask(n.tid, n.task), StartAgent(n.tid, n.role, n.author)]
  }

  function EnterAndSubmit(n: Entry): seq<Op> {
    Enter(n) + [Submit(n.author, [], n.tests, None, None)]
  }

  /** The task enters with nothing recorded, may be started right away, and its required tests pass. */
  ghost predicate Starts(s: ProjectState, n: Entry) {
    && n.task.state.Pending? && n.task.assignee.None? && Unused(n.task.gates)
    && CreateTaskTx(s, n.tid, n.task).Ok?
    && StartAgentTx(CreateTaskTx(s, n.tid, n.task).value, n.tid, n.role, n.author).Ok?
    && TestsCover(n.task.spec.requiredTests, n.tests)
  }

  lemma OneMore(s: ProjectState, ops: seq<Op>, op: Op, rule: ClassRule)
    ensures RunAll(s, ops + [op], rule) == After(RunAll(s, ops, rule), op, rule)
  {
    assert (ops + [op])[..|ops|] == ops;
  }

  /** The agents of `s` are unchanged, and there is one more. */
  predicate OneMoreAgent(s: ProjectState, e: ProjectState, id: Id) {
    id !in s.agents && e.agents.Keys == s.agents.Keys + {id} && forall a :: a in s.agents ==> e.agents[a] == s.agents[a]
  }

  predicate SpecOf(t: Task, n: Entry) {
    t.spec.requiredTests == n.task.spec.requiredTests && t.spec.needsSecurity == n.task.spec.needsSecurity
  }

  /** The author works on the task. */
  predicate Working(s: ProjectState, e: ProjectState, n: Entry) {
    && OneMoreAgent(s, e, n.author) && e.agents[n.author].status.Active? && e.agents[n.author].contract.task == n.tid
    && n.tid in e.tasks && e.tasks[n.tid].state.TaskActive? && e.tasks[n.tid].assignee == Some(n.author)
    && e.tasks[n.tid].gates == n.task.gates && SpecOf(e.tasks[n.tid], n)
  }

  /** The task waits in `st`, with the record `g`; the only new agent is its author. */
  predicate Waiting(s: ProjectState, e: ProjectState, n: Entry, st: TaskState, g: Gates) {
    && OneMoreAgent(s, e, n.author)
    && n.tid in e.tasks && e.tasks[n.tid].state == st && e.tasks[n.tid].assignee == Some(n.author)
    && e.tasks[n.tid].gates == g && SpecOf(e.tasks[n.tid], n)
  }

  lemma Entered(s: ProjectState, n: Entry, rule: ClassRule)
    requires Starts(s, n)
    ensures var c := CreateTaskTx(s, n.tid, n.task).value;
            RunAll(s, Enter(n), rule) == StartAgentTx(c, n.tid, n.role, n.author).value
  {
    var first := CreateTask(n.tid, n.task);
    OneMore(s, [], first, rule);
    assert [] + [first] == [first];
    OneMore(s, [first], StartAgent(n.tid, n.role, n.author), rule);
  }

  lemma StartedWorks(s: ProjectState, n: Entry)
    requires Starts(s, n)
    ensures Working(s, StartAgentTx(CreateTaskTx(s, n.tid, n.task).value, n.tid, n.role, n.author).value, n)
  {
  }

  lemma SubmitWorks(s: ProjectState, e: ProjectState, n: Entry, rule: ClassRule)
    requires Working(s, e, n) && TestsCover(n.task.spec.requiredTests, n.tests)
    ensures var op := Submit(n.author, [], n.tests, None, None);
            Waiting(s, After(e, op, rule), n, ReviewPending, n.task.gates.(tests := n.tests))
  {
    assert NormalizeFiles([]) == Ok({});
    assert SubmitTx(e, n.author, [], n.tests, None, None, rule).Ok?;
  }

  lemma SubmittedAfter(s: ProjectState, n: Entry, rule: ClassRule)
    requires Starts(s, n)
    ensures Waiting(s, RunAll(s, EnterAndSubmit(n), rule), n, ReviewPending, n.task.gates.(tests := n.tests))
  {
    Entered(s, n, rule);
    StartedWorks(s, n);
    OneMore(s, Enter(n), Submit(n.author, [], n.tests, None, None), rule);
    SubmitWorks(s, RunAll(s, Enter(n), rule), n, rule);
  }

  lemma ReviewWaits(s: ProjectState, e: ProjectState, n: Entry, g: Gates, z: Id, rule: ClassRule)
    requires Waiting(s, e, n, ReviewPending, g) && g.reviewer == Some(z)
    ensures Waiting(s, After(e, RecordReview(n.tid, z, true), rule), n, QaPending, g.(review := Approved))
  {
    assert RecordReviewTx(e, n.tid, z, true).Ok?;
  }

  lemma AssignmentWaits(s: ProjectState, e: ProjectState, n: Entry, g: Gates, z: Id, rule: ClassRule)
    requires Waiting(s, e, n, ReviewPending, g)
    requires z in s.agents && s.agents[z].status.Active? && IsReviewRole(s.agents[z].contract.role)
    ensures Waiting(s, After(e, AssignReviewer(n.tid, z), rule), n, ReviewPending, g.(reviewer := Some(z)))
  {
    assert AssignReviewerTx(e, n.tid, z).Ok?;
  }

  lemma QaWaits(s: ProjectState, e: ProjectState, n: Entry, g: Gates, y: Id, runs: seq<TestExecution>, rule: ClassRule)
    requires Waiting(s, e, n, QaPending, g) && g.qaAgent == Some(y) && g.review.Approved?
    requires |runs| > 0 && AllPassed(runs) && !n.task.spec.needsSecurity
    ensures Waiting(s, After(e, RecordQa(n.tid, y, runs), rule), n, ReadyToIntegrate, g.(qaRuns := runs, qaStatus := Passed))
  {
    assert RecordQaTx(e, n.tid, y, runs).Ok?;
  }

  /** A name that is not registered for its desk is the author's, unless somebody else is registered under it. */
  predicate TakesFreeName(s: ProjectState, n: Entry, who: Option<Id>) {
    who.Some? && who.value !in s.agents ==> n.author == who.value
  }

  lemma NameServesIffRegistered(s: ProjectState, e: ProjectState, n: Entry, who: Option<Id>, desk: Desk)
    requires OneMoreAgent(s, e, n.author) && TakesFreeName(s, n, who)
    ensures Serves(e.agents, Some(n.author), who, desk) <==> Registered(s.agents, who, desk)
  {
  }

  function ReviewByName(n: Entry): seq<Op>
    requires n.task.gates.reviewer.Some?
  {
    EnterAndSubmit(n) + [RecordReview(n.tid, n.task.gates.reviewer.value, true)]
  }

  /**
   * The named reviewer approves the work without ever being assigned. Unless that agent was registered in a review
   * role before the task entered, it need not be eligible: a free name may become the author's own.
   */
  lemma NamedReviewerServesIffRegistered(s: ProjectState, n: Entry, rule: ClassRule)
    requires Starts(s, n) && n.task.gates.reviewer.Some? && TakesFreeName(s, n, n.task.gates.reviewer)
    ensures var e := RunAll(s, ReviewByName(n), rule);
            && Waiting(s, e, n, QaPending, n.task.gates.(tests := n.tests, review := Approved))
            && (Serves(e.agents, Some(n.author), n.task.gates.reviewer, ReviewDesk) <==>
                  Registered(s.agents, n.task.gates.reviewer, ReviewDesk))
  {
    var g, z := n.task.gates.(tests := n.tests), n.task.gates.reviewer.value;
    SubmittedAfter(s, n, rule);
    OneMore(s, EnterAndSubmit(n), RecordReview(n.tid, z, true), rule);
    ReviewWaits(s, RunAll(s, EnterAndSubmit(n), rule), n, g, z, rule);
    NameServesIffRegistered(s, RunAll(s, ReviewByName(n), rule), n, Some(z), ReviewDesk);
  }

  /** Review by an assigned reviewer, then QA by the name the task entered with. */
  function ReviewThenNamedQa(n: Entry, z: Id, runs: seq<TestExecution>): seq<Op>
    requires n.task.gates.qaAgent.Some?
  {
    EnterAndSubmit(n) + [AssignReviewer(n.tid, z)] + [RecordReview(n.tid, z, true)]
    + [RecordQa(n.tid, n.task.gates.qaAgent.value, runs)]
  }

  lemma ReviewedAfter(s: ProjectState, n: Entry, z: Id, rule: ClassRule)
    requires Starts(s, n) && z in s.agents && s.agents[z].status.Active? && IsReviewRole(s.agents[z].contract.role)
    ensures Waiting(s, RunAll(s, EnterAndSubmit(n) + [AssignReviewer(n.tid, z)] + [RecordReview(n.tid, z, true)], rule), n,
                    QaPending, n.task.gates.(tests := n.tests, reviewer := Some(z), review := Approved))
  {
    var ops, g := EnterAndSubmit(n), n.task.gates.(tests := n.tests);
    SubmittedAfter(s, n, rule);
    OneMore(s, ops, AssignReviewer(n.tid, z), rule);
    AssignmentWaits(s, RunAll(s, ops, rule), n, g, z, rule);
    OneMore(s, ops + [AssignReviewer(n.tid, z)], RecordReview(n.tid, z, true), rule);
    ReviewWaits(s, RunAll(s, ops + [AssignReviewer(n.tid, z)], rule), n, g.(reviewer := Some(z)), z, rule);
  }

  /**
   * The same for QA: after a proper review the named QA agent passes the work, and a task without security review is
   * then ready to integrate. Its gates were really passed exactly when that agent was registered for QA beforehand.
   */
  lemma NamedQaPassesGatesIffRegistered(s: ProjectState, n: Entry, z: Id, runs: seq<TestExecution>, rule: ClassRule)
    requires Starts(s, n) && n.task.gates.qaAgent.Some? && TakesFreeName(s, n, n.task.gates.qaAgent)
    requires z in s.agents && s.agents[z].status.Active? && IsReviewRole(s.agents[z].contract.role)
    requires |runs| > 0 && AllPassed(runs) && !n.task.spec.needsSecurity
    ensures var e := RunAll(s, ReviewThenNamedQa(n, z, runs), rule);
            && n.tid in e.tasks && e.tasks[n.tid].state.ReadyToIntegrate?
            && (GatesPassed(e.agents, e.tasks[n.tid]) <==> Registered(s.agents, n.task.gates.qaAgent, QaDesk))
  {
    var ops := EnterAndSubmit(n) + [AssignReviewer(n.tid, z)] + [RecordReview(n.tid, z, true)];
    ReviewedAfter(s, n, z, rule);
    var y, g := n.task.gates.qaAgent.value, n.task.gates.(tests := n.tests, reviewer := Some(z), review := Approved);
    OneMore(s, ops, RecordQa(n.tid, y, runs), rule);
    QaWaits(s, RunAll(s, ops, rule), n, g, y, runs, rule);
    NameServesIffRegistered(s, RunAll(s, ReviewThenNamedQa(n, z, runs), rule), n, Some(y), QaDesk);
  }

  // ----- from a fresh project -----

  /** A task without scopes whose reviewer is the id its author is going to have. */
  function OwnReviewer(tid: Id, me: Id, role: Role, commit: Commit): Entry {
    Entry(tid, Task(TaskSpec([], [], [], ["done"], [], {}, false), Pending, None, commit, None, None, {}, None,
                    FRESH_GATES.(reviewer := Some(me))),
          role, me, [])
  }

  lemma OwnReviewerStarts(tid: Id, me: Id, role: Role, commit: Commit)
    ensures Starts(Fresh(commit), OwnReviewer(tid, me, role, commit))
  {
    var s, n := Fresh(commit), OwnReviewer(tid, me, role, commit);
    CreateWithoutDependencies(s, n.tid, n.task);
    assert NonTerminalAgents(s.agents) == {};
    assert FirstCollision([], s.locks).None?;
  }

  /** From a fresh project: create the task, start its author, submit, review. The author has approved its own work. */
  lemma AuthorReviewsOwnWork(tid: Id, me: Id, role: Role, commit: Commit, rule: ClassRule)
    ensures var n := OwnReviewer(tid, me, role, commit);
            var e := RunAll(Fresh(commit), ReviewByName(n), rule);
            && Initial(Fresh(commit)) && tid in e.tasks && e.tasks[tid].state.QaPending?
            && e.tasks[tid].gates.review.Approved? && e.tasks[tid].gates.reviewer == Some(me) == e.tasks[tid].assignee
  {
    OwnReviewerStarts(tid, me, role, commit);
    NamedReviewerServesIffRegistered(Fresh(commit), OwnReviewer(tid, me, role, commit), rule);
  }
}
