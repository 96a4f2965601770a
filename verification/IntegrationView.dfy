/** The project writes of an integration are transactions of the orchestrator. */
module IntegrationView {
  // They are seen through the part of ProjectState that an integration works on.

  import opened Common
  import opened RepoPaths
  import opened ProjectTransitions
  import I = Integration

  function ViewRunState(st: RunState): I.RunState {
    match st
    case RunPending => I.Running
    case Running => I.Running
    case Submitted => I.Running
    case RunReady => I.ReadyToIntegrate
    case Integrating => I.Integrating
    case RunIntegrated => I.Integrated
    case RunBlocked => I.Blocked
    case RunFailed => I.Failed
  }

  function ViewTaskState(st: TaskState): I.TaskState {
    match st
    case ReadyToIntegrate => I.TaskReady
    case Integrated => I.TaskIntegrated
    case TaskBlocked => I.TaskBlocked
    case _ => I.TaskOther
  }

  function ViewRun(run: Run): I.RunRecord {
    I.RunRecord(run.task, ViewRunState(run.state), run.base, run.implementation)
  }

  function ViewTask(t: Task): I.TaskRecord {
    I.TaskRecord(ViewTaskState(t.state), t.run, t.base, t.implementation)
  }

  function View(s: ProjectState): I.Project {
    I.Project(s.current, map r | r in s.runs :: ViewRun(s.runs[r]), map t | t in s.tasks :: ViewTask(s.tasks[t]))
  }

  /** The durable world holds this project state, and the run and its parts exist. */
  predicate Shows(d: I.Durable, s: ProjectState, r: Id) {
    d.project == View(s) && I.Known(d, r) && r in s.runs && s.runs[r].agent in s.agents
  }

  lemma ViewAfter(s: ProjectState, s': ProjectState, r: Id, run: Run, t: Task)
    requires r in s.runs && run.task in s.tasks && s'.current == s.current
    requires s'.runs == s.runs[r := run] && s'.tasks == s.tasks[run.task := t]
    ensures View(s') == View(s).(runs := View(s).runs[r := ViewRun(run)], tasks := View(s).tasks[run.task := ViewTask(t)])
  {
  }

  /** begin_worker_integration on a ready run refuses exactly when task and run name different commits. */
  lemma BeginRefines(s: ProjectState, d: I.Durable, r: Id)
    requires Shows(d, s, r) && s.runs[r].state.RunReady? && s.runs[r].implementation != Some("")
    requires s.tasks[s.runs[r].task].state.ReadyToIntegrate? && s.tasks[s.runs[r].task].run == Some(r)
    ensures BeginIntegrationTx(s, r, s.current).Ok? <==> I.TaskOf(d, r).implementation == d.project.runs[r].implementation
    ensures BeginIntegrationTx(s, r, s.current).Ok? ==>
              View(BeginIntegrationTx(s, r, s.current).value) == I.Begin(d, r).project
  {
    if BeginIntegrationTx(s, r, s.current).Ok? {
      var s', run := BeginIntegrationTx(s, r, s.current).value, s.runs[r];
      assert s.tasks == s.tasks[run.task := s.tasks[run.task]];
      ViewAfter(s, s', r, run.(state := Integrating), s.tasks[run.task]);
    }
  }

  /** record_worker_rebase of an unchanged file set refuses exactly when task and run have different bases. */
  lemma RebaseRefines(s: ProjectState, d: I.Durable, r: Id, commit: Commit, files: seq<string>)
    requires Shows(d, s, r) && s.runs[r].state.Integrating?
    requires NormalizeFiles(files) == Ok(s.runs[r].changed) && Strip(commit) == commit != ""
    ensures var tx := RecordRebaseTx(s, r, s.runs[r].base, s.current, commit, files);
            && (tx.Ok? <==> I.TaskOf(d, r).base == d.project.runs[r].base)
            && (tx.Ok? ==> View(tx.value) == I.RecordRebase(d, r, commit).project)
  {
    var tx, run := RecordRebaseTx(s, r, s.runs[r].base, s.current, commit, files), s.runs[r];
    if tx.Ok? {
      ViewAfter(s, tx.value, r, run.(base := s.current, implementation := Some(commit)),
                s.tasks[run.task].(base := s.current, implementation := Some(commit), changed := run.changed));
    }
  }

  /** finalize_worker_integration of the run's own commit needs passed tests and a commit that is new. */
  lemma FinalizeRefines(s: ProjectState, d: I.Durable, r: Id, commit: Commit, tests: seq<TestExecution>)
    requires Shows(d, s, r) && s.runs[r].state.Integrating? && s.tasks[s.runs[r].task].state.ReadyToIntegrate?
    requires s.runs[r].implementation == Some(commit) && Strip(commit) == commit != ""
    ensures var tx := FinalizeTx(s, r, s.current, commit, tests);
            && (tx.Ok? <==> |tests| > 0 && AllPassed(tests) && commit != d.project.current)
            && (tx.Ok? ==> View(tx.value) == I.Finalize(d, r, commit).project)
  {
    var tx, run := FinalizeTx(s, r, s.current, commit, tests), s.runs[r];
    if tx.Ok? {
      ViewAfter(s, tx.value.(current := s.current), r, run.(state := RunIntegrated),
                s.tasks[run.task].(state := Integrated, integration := Some(commit)));
    }
  }

  /** What the exception handler writes for a run that is being integrated. */
  lemma FailRefines(s: ProjectState, d: I.Durable, r: Id)
    requires Shows(d, s, r) && s.runs[r].state.Integrating?
    ensures FailRunTx(s, r, true).Ok? && View(FailRunTx(s, r, true).value) == I.FailRun(d, r).project
  {
    var run := s.runs[r];
    ViewAfter(s, FailRunTx(s, r, true).value, r, run.(state := RunBlocked), s.tasks[run.task].(state := TaskBlocked));
  }

  /** What recovery writes: it is refused exactly when the task is no longer ready. */
  lemma ResetRefines(s: ProjectState, d: I.Durable, r: Id)
    requires Shows(d, s, r) && s.runs[r].state.Integrating?
    ensures ResetIntegrationTx(s, r).Ok? <==> I.TaskOf(d, r).state.TaskReady?
    ensures ResetIntegrationTx(s, r).Ok? ==> View(ResetIntegrationTx(s, r).value) == I.ResetRun(d, r).project
  {
    if ResetIntegrationTx(s, r).Ok? {
      var run := s.runs[r];
      assert s.tasks == s.tasks[run.task := s.tasks[run.task]];
      ViewAfter(s, ResetIntegrationTx(s, r).value, r, run.(state := RunReady), s.tasks[run.task]);
    }
  }
}
