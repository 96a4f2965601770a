/** Crash-recoverable integration (tankai/dev_orchestrator/integration.py). */
module Integration {
  // The durable world is MAIN, the worker branches, ProjectState and the integration journal. Every write to
  // one of them is atomic; a crash leaves the world as it was after some number of writes. Git's rebase,
  // fast-forward and reset act on abstract commits.

  import opened Common

  type Id = string
  type Commit = string

  datatype RunState = Running | ReadyToIntegrate | Integrating | Integrated | Blocked | Failed
  datatype TaskState = TaskReady | TaskIntegrated | TaskBlocked | TaskOther

  datatype RunRecord = RunRecord(task: Id, state: RunState, base: Commit, implementation: Option<Commit>)
  datatype TaskRecord = TaskRecord(state: TaskState, run: Option<Id>, base: Commit, implementation: Option<Commit>)
  datatype Project = Project(current: Commit, runs: map<Id, RunRecord>, tasks: map<Id, TaskRecord>)

  datatype Stage = Prepared | Rebased | Merged | StateCommitted
  datatype Journal = Journal(stage: Stage, run: Id, previous: Commit, original: Commit, integration: Option<Commit>)

  /** `heads` has the worker branch of every run whose workspace still exists. */
  datatype Durable = Durable(main: Commit, heads: map<Id, Commit>, project: Project, journal: Option<Journal>)

  /**
   * What the outside decides about one attempt. `stop` is the number of writes after which an exception is
   * raised, or SUCCESS. `mergeReported` says whether fast_forward_repository returned before an exception at
   * FAST_FORWARDED; `rollbackFails` whether git refuses the handler's reset.
   */
  datatype Env = Env(jobValid: bool, rebasedTo: Commit, testsPass: bool, stop: nat, mergeReported: bool, rollbackFails: bool)

  // The writes of an attempt, in order.
  const PREPARED: nat := 1
  const BEGUN: nat := 2
  const GIT_REBASED: nat := 3
  const REBASE_RECORDED: nat := 4
  const JOURNAL_REBASED: nat := 5
  const FAST_FORWARDED: nat := 6
  const JOURNAL_MERGED: nat := 7
  const FINALIZED: nat := 8
  const JOURNAL_COMMITTED: nat := 9
  const JOURNAL_CLEARED: nat := 10
  const SUCCESS: nat := 11

  predicate Known(d: Durable, r: Id) {
    r in d.heads && r in d.project.runs && d.project.runs[r].task in d.project.tasks
    && d.project.runs[r].implementation.Some?
  }

  function TaskOf(d: Durable, r: Id): TaskRecord
    requires Known(d, r)
  {
    d.project.tasks[d.project.runs[r].task]
  }

  function Implementation(d: Durable, r: Id): Commit
    requires Known(d, r)
  {
    d.project.runs[r].implementation.value
  }

  /** The checks before the first write. */
  predicate Startable(d: Durable, r: Id, env: Env) {
    Known(d, r) && env.jobValid
    && d.journal.None?
    && d.project.runs[r].state.ReadyToIntegrate?
    && TaskOf(d, r).state.TaskReady? && TaskOf(d, r).run == Some(r)
    && d.heads[r] == Implementation(d, r)
    && d.main == d.project.current
  }

  // ----- single writes -----

  function SetJournal(d: Durable, j: Option<Journal>): Durable {
    d.(journal := j)
  }

  function SetStage(d: Durable, stage: Stage, integration: Option<Commit>): Durable {
    if d.journal.None? then d else SetJournal(d, Some(d.journal.value.(stage := stage, integration := integration)))
  }

  function SetRun(d: Durable, r: Id, run: RunRecord, task: TaskRecord): (d': Durable)
    requires Known(d, r) && run.task == d.project.runs[r].task && run.implementation.Some?
    ensures Known(d', r)
  {
    d.(project := d.project.(runs := d.project.runs[r := run], tasks := d.project.tasks[run.task := task]))
  }

  function SetMain(d: Durable, commit: Commit): Durable {
    d.(main := commit)
  }

  function SetHead(d: Durable, r: Id, commit: Commit): (d': Durable)
    ensures Known(d, r) ==> Known(d', r)
  {
    d.(heads := d.heads[r := commit])
  }

  function Begin(d: Durable, r: Id): (d': Durable)
    requires Known(d, r)
    ensures Known(d', r)
  {
    SetRun(d, r, d.project.runs[r].(state := Integrating), TaskOf(d, r))
  }

  predicate NeedsRebase(d: Durable, r: Id)
    requires Known(d, r)
  {
    d.project.runs[r].base != d.project.current
  }

  function RecordRebase(d: Durable, r: Id, commit: Commit): (d': Durable)
    requires Known(d, r)
    ensures Known(d', r)
  {
    SetRun(d, r, d.project.runs[r].(base := d.project.current, implementation := Some(commit)),
           TaskOf(d, r).(base := d.project.current, implementation := Some(commit)))
  }

  function Finalize(d: Durable, r: Id, commit: Commit): (d': Durable)
    requires Known(d, r)
    ensures Known(d', r)
  {
    var done := SetRun(d, r, d.project.runs[r].(state := Integrated), TaskOf(d, r).(state := TaskIntegrated));
    done.(project := done.project.(current := commit))
  }

  function FailRun(d: Durable, r: Id): (d': Durable)
    requires Known(d, r)
    ensures Known(d', r)
  {
    SetRun(d, r, d.project.runs[r].(state := Blocked), TaskOf(d, r).(state := TaskBlocked))
  }

  function ResetRun(d: Durable, r: Id): (d': Durable)
    requires Known(d, r)
    ensures Known(d', r)
  {
    SetRun(d, r, d.project.runs[r].(state := ReadyToIntegrate), TaskOf(d, r))
  }

  // ----- the straight path, one write at a time -----

  function OpenJournal(d: Durable, r: Id): (d': Durable)
    requires Known(d, r)
    ensures Known(d', r)
  {
    SetJournal(d, Some(Journal(Prepared, r, d.project.current, Implementation(d, r), None)))
  }

  function GitRebase(d: Durable, r: Id, env: Env): (d': Durable)
    requires Known(d, r)
    ensures Known(d', r)
  {
    if NeedsRebase(d, r) then SetHead(d, r, env.rebasedTo) else d
  }

  function RecordIfRebased(d: Durable, r: Id, env: Env): (d': Durable)
    requires Known(d, r)
    ensures Known(d', r)
  {
    if NeedsRebase(d, r) then RecordRebase(d, r, env.rebasedTo) else d
  }

  function FastForward(d: Durable, r: Id): (d': Durable)
    requires Known(d, r)
    ensures Known(d', r)
  {
    SetMain(d, d.heads[r])
  }

  /** The k-th write of an attempt, on whatever the world is then. */
  function Write(s: Durable, r: Id, env: Env, k: nat): (s': Durable)
    requires Known(s, r)
    ensures Known(s', r)
  {
    if k == PREPARED then OpenJournal(s, r)
    else if k == BEGUN then Begin(s, r)
    else if k == GIT_REBASED then GitRebase(s, r, env)
    else if k == REBASE_RECORDED then RecordIfRebased(s, r, env)
    else if k == JOURNAL_REBASED then SetStage(s, Rebased, s.project.runs[r].implementation)
    else if k == FAST_FORWARDED then FastForward(s, r)
    else if k == JOURNAL_MERGED then SetStage(s, Merged, Some(s.main))
    else if k == FINALIZED then Finalize(s, r, s.main)
    else if k == JOURNAL_COMMITTED then SetStage(s, StateCommitted, Some(s.main))
    else SetJournal(s, None)
  }

  /** The commit an attempt tries to make MAIN. */
  function Candidate(d: Durable, r: Id, env: Env): Commit
    requires Known(d, r)
  {
    if NeedsRebase(d, r) then env.rebasedTo else Implementation(d, r)
  }

  function RunAfter(d: Durable, r: Id, env: Env, k: nat): RunRecord
    requires Known(d, r)
  {
    var run := d.project.runs[r];
    run.(state := if k < BEGUN then run.state else if k < FINALIZED then Integrating else Integrated,
         base := if k >= REBASE_RECORDED then d.project.current else run.base,
         implementation := if k >= REBASE_RECORDED then Some(Candidate(d, r, env)) else run.implementation)
  }

  function TaskAfter(d: Durable, r: Id, env: Env, k: nat): TaskRecord
    requires Known(d, r)
  {
    var task := TaskOf(d, r);
    var rebased := k >= REBASE_RECORDED && NeedsRebase(d, r);
    task.(state := if k < FINALIZED then task.state else TaskIntegrated,
          base := if rebased then d.project.current else task.base,
          implementation := if rebased then Some(env.rebasedTo) else task.implementation)
  }

  function JournalAfter(d: Durable, r: Id, env: Env, k: nat): Option<Journal>
    requires Known(d, r)
  {
    if k == 0 then d.journal
    else if k >= JOURNAL_CLEARED then None
    else Some(Journal(
      if k < JOURNAL_REBASED then Prepared else if k < JOURNAL_MERGED then Rebased else if k < JOURNAL_COMMITTED then Merged else StateCommitted,
      r, d.project.current, Implementation(d, r),
      if k < JOURNAL_REBASED then None else Some(Candidate(d, r, env))))
  }

  /** The world after `k` writes of an attempt that nothing interrupts, field by field. */
  function Straight(d: Durable, r: Id, env: Env, k: nat): (d': Durable)
    requires Known(d, r)
    ensures Known(d', r)
  {
    Durable(
      if k >= FAST_FORWARDED then Candidate(d, r, env) else d.main,
      if k >= GIT_REBASED && NeedsRebase(d, r) then d.heads[r := env.rebasedTo] else d.heads,
      Project(
        if k >= FINALIZED then Candidate(d, r, env) else d.project.current,
        d.project.runs[r := RunAfter(d, r, env, k)],
        d.project.tasks[d.project.runs[r].task := TaskAfter(d, r, env, k)]),
      JournalAfter(d, r, env, k))
  }

  lemma MapSelf<K, V>(m: map<K, V>, k: K)
    requires k in m
    ensures m[k := m[k]] == m
  {
  }

  lemma MapTwice<K, V>(m: map<K, V>, k: K, a: V, b: V)
    ensures m[k := a][k := b] == m[k := b]
  {
  }

  lemma StraightStart(d: Durable, r: Id, env: Env)
    requires Known(d, r)
    ensures Straight(d, r, env, 0) == d
  {
    MapSelf(d.project.runs, r);
    MapSelf(d.project.tasks, d.project.runs[r].task);
  }

  /** Writing step by step gives the field-by-field description. */
  lemma StraightStep(d: Durable, r: Id, env: Env, k: nat)
    requires Startable(d, r, env) && 1 <= k <= 10
    ensures Straight(d, r, env, k) == Write(Straight(d, r, env, k - 1), r, env, k)
  {
    var s, s' := Straight(d, r, env, k - 1), Straight(d, r, env, k);
    MapTwice(d.project.runs, r, RunAfter(d, r, env, k - 1), RunAfter(d, r, env, k));
    MapTwice(d.project.tasks, d.project.runs[r].task, TaskAfter(d, r, env, k - 1), TaskAfter(d, r, env, k));
    assert Write(s, r, env, k).project == s'.project;
    assert Write(s, r, env, k).journal == s'.journal;
  }

  /**
   * After how many writes the attempt leaves the straight path: where the environment raises, or earlier
   * where a transaction refuses (begin and record_worker_rebase check the task, finalize wants passing tests
   * and a changed commit).
   */
  function StopAt(d: Durable, r: Id, env: Env): (k: nat)
    requires Known(d, r)
    ensures k <= SUCCESS
  {
    var raised := Min(env.stop, SUCCESS);
    if raised >= PREPARED && TaskOf(d, r).implementation != d.project.runs[r].implementation then PREPARED
    else if raised >= GIT_REBASED && NeedsRebase(d, r) && TaskOf(d, r).base != d.project.runs[r].base then GIT_REBASED
    else if raised >= JOURNAL_MERGED && (!env.testsPass || Candidate(d, r, env) == d.project.current) then JOURNAL_MERGED
    else raised
  }

  // ----- the exception handler -----

  /** The local `merged_commit` is set only once fast_forward_repository has returned. */
  predicate MergeKnown(k: nat, env: Env) {
    k >= JOURNAL_MERGED || (k == FAST_FORWARDED && env.mergeReported)
  }

  datatype Rollback = Rollback(d: Durable, error: bool)

  /** Puts MAIN back if the merge is known, otherwise the worker branch if the rebase was not recorded. */
  function RollBack(d: Durable, r: Id, previous: Commit, original: Commit, mergeKnown: bool, rollbackFails: bool): (b: Rollback)
    requires Known(d, r)
    ensures Known(b.d, r)
  {
    if mergeKnown then
      if rollbackFails then Rollback(d, true) else Rollback(SetMain(d, previous), false)
    else if d.heads[r] != original && d.heads[r] != Implementation(d, r) then
      if rollbackFails then Rollback(d, true) else Rollback(SetHead(d, r, original), false)
    else Rollback(d, false)
  }

  /** The world after 1, 2 or 3 handler steps: roll back, clear the journal, block the run. */
  function Handled(d: Durable, r: Id, previous: Commit, original: Commit, k: nat, env: Env, steps: nat): (d': Durable)
    requires Known(d, r) && 1 <= steps <= 3
    ensures Known(d', r)
  {
    var b := RollBack(d, r, previous, original, MergeKnown(k, env), env.rollbackFails);
    if steps == 1 then b.d
    else
      var cleared := if b.error then b.d else SetJournal(b.d, None);
      if steps == 2 || k < BEGUN || !cleared.project.runs[r].state.Integrating? then cleared
      else FailRun(cleared, r)
  }

  /** Number of program points after the start at which the attempt can be interrupted. */
  function Points(d: Durable, r: Id, env: Env): nat
    requires Known(d, r)
  {
    var k := StopAt(d, r, env);
    if k == 0 then 0 else if k == SUCCESS then 10 else k + 3
  }

  /** The durable world at program point `i` of an attempt; the last point is how the attempt ends. */
  function At(d: Durable, r: Id, env: Env, i: nat): (d': Durable)
    requires Known(d, r) && i <= Points(d, r, env)
    ensures Known(d', r)
  {
    var k := StopAt(d, r, env);
    if i <= k then Straight(d, r, env, i)
    else Handled(Straight(d, r, env, k), r, d.project.current, Implementation(d, r), k, env, i - k)
  }

  // ----- what an attempt promises -----

  /**
   * Nothing raises, the tests pass, task and run name the same commit and, when MAIN has moved on, the same base, and
   * the merge would change MAIN.
   */
  predicate GoesThrough(d: Durable, r: Id, env: Env)
    requires Known(d, r)
  {
    var run, task := d.project.runs[r], TaskOf(d, r);
    && env.stop >= SUCCESS && env.testsPass && task.implementation == run.implementation
    && if run.base == d.project.current then run.implementation != Some(d.project.current)
       else task.base == run.base && env.rebasedTo != d.project.current
  }

  /** MAIN, ProjectState and the worker branch are at the commit; run and task are integrated and nothing else moved. */
  predicate MergedInto(d: Durable, w: Durable, r: Id, commit: Commit)
    requires Known(d, r)
  {
    var run := d.project.runs[r];
    && w.main == commit && w.project.current == commit && w.journal.None? && w.heads == d.heads[r := commit]
    && w.project.runs == d.project.runs[r := RunRecord(run.task, Integrated, d.project.current, Some(commit))]
    && w.project.tasks.Keys == d.project.tasks.Keys
    && (forall t :: t in d.project.tasks && t != run.task ==> w.project.tasks[t] == d.project.tasks[t])
    && w.project.tasks[run.task].state.TaskIntegrated? && w.project.tasks[run.task].implementation == Some(commit)
  }

  /** MAIN and ProjectState are where they were; the run is blocked, or still ready if it could not be reserved. */
  predicate BackedOut(d: Durable, w: Durable, r: Id)
    requires Known(d, r)
  {
    && w.main == d.main && w.project.current == d.project.current && w.journal.None?
    && Known(w, r) && w.heads[r] == Implementation(w, r)
    && w.project.runs[r].state ==
       (if TaskOf(d, r).implementation == d.project.runs[r].implementation then Blocked else ReadyToIntegrate)
    && forall q :: q in d.project.runs && q != r ==> q in w.project.runs && w.project.runs[q] == d.project.runs[q]
  }

  lemma SucceedsIffItGoesThrough(d: Durable, r: Id, env: Env)
    requires Startable(d, r, env)
    ensures StopAt(d, r, env) == SUCCESS <==> GoesThrough(d, r, env)
  {
  }

  lemma SuccessMerges(d: Durable, r: Id, env: Env)
    requires Startable(d, r, env) && GoesThrough(d, r, env)
    ensures var run := d.project.runs[r];
            MergedInto(d, At(d, r, env, Points(d, r, env)), r,
                       if run.base == d.project.current then run.implementation.value else env.rebasedTo)
  {
    SucceedsIffItGoesThrough(d, r, env);
    var w := Straight(d, r, env, JOURNAL_CLEARED);
    assert At(d, r, env, Points(d, r, env)) == w;
    MapSelf(d.heads, r);
  }

  lemma FailureBacksOut(d: Durable, r: Id, env: Env)
    requires Startable(d, r, env) && !GoesThrough(d, r, env) && env.stop >= SUCCESS && !env.rollbackFails
    ensures BackedOut(d, At(d, r, env, Points(d, r, env)), r)
  {
    var k := StopAt(d, r, env);
    assert k == PREPARED || k == GIT_REBASED || k == JOURNAL_MERGED;
    assert At(d, r, env, Points(d, r, env)) ==
           Handled(Straight(d, r, env, k), r, d.project.current, Implementation(d, r), k, env, 3);
  }

  lemma AttemptOutcome(d: Durable, r: Id, env: Env)
    requires Startable(d, r, env)
    ensures var w, run := At(d, r, env, Points(d, r, env)), d.project.runs[r];
            && (StopAt(d, r, env) == SUCCESS <==> GoesThrough(d, r, env))
            && (GoesThrough(d, r, env) ==>
                  MergedInto(d, w, r, if run.base == d.project.current then run.implementation.value else env.rebasedTo))
            && (!GoesThrough(d, r, env) && env.stop >= SUCCESS && !env.rollbackFails ==> BackedOut(d, w, r))
  {
    SucceedsIffItGoesThrough(d, r, env);
    if GoesThrough(d, r, env) {
      SuccessMerges(d, r, env);
    } else if env.stop >= SUCCESS && !env.rollbackFails {
      FailureBacksOut(d, r, env);
    }
  }

  // ----- recovery -----

  predicate AlreadyIntegrated(d: Durable, j: Journal) {
    j.integration.Some? && d.project.current == j.integration.value && d.main == j.integration.value
    && j.run in d.project.runs && d.project.runs[j.run].state.Integrated?
  }

  /** MAIN and ProjectState still are where the journal says they should be. */
  predicate Attributable(d: Durable, j: Journal) {
    match j.stage
    case Merged => j.integration.Some? && d.project.current == j.previous && d.main == j.integration.value
    case StateCommitted => false
    case _ =>
      d.main == j.previous && d.project.current == j.previous
      && (j.run in d.heads && j.run in d.project.runs && d.project.runs[j.run].implementation != Some(d.heads[j.run]) ==>
            d.project.runs[j.run].implementation == Some(j.original))
  }

  predicate Refuses(d: Durable) {
    d.journal.Some? && !AlreadyIntegrated(d, d.journal.value) && !Attributable(d, d.journal.value)
  }

  /** First recovery write: MAIN back after a merge, the worker branch back after an unrecorded rebase. */
  function R1(d: Durable, j: Journal): Durable {
    if j.stage.Merged? then SetMain(d, j.previous)
    else if j.run in d.heads && j.run in d.project.runs && d.project.runs[j.run].implementation != Some(d.heads[j.run]) then
      SetHead(d, j.run, j.original)
    else d
  }

  predicate RunStuck(d: Durable, r: Id) {
    r in d.project.runs && d.project.runs[r].state.Integrating?
  }

  /** reset_worker_integration refuses when the task has moved on meanwhile. */
  predicate ResetAllowed(d: Durable, r: Id) {
    RunStuck(d, r) ==> Known(d, r) && TaskOf(d, r).state.TaskReady?
  }

  function R2(d: Durable, j: Journal): Durable
    requires ResetAllowed(R1(d, j), j.run)
  {
    if RunStuck(R1(d, j), j.run) then ResetRun(R1(d, j), j.run) else R1(d, j)
  }

  /** The durable world after `i` of the three recovery writes. */
  function RecoveryAt(d: Durable, i: nat): Durable
    requires i <= 3
  {
    if d.journal.None? || Refuses(d) || i == 0 then d
    else
      var j := d.journal.value;
      if AlreadyIntegrated(d, j) then SetJournal(d, None)
      else if i == 1 || !ResetAllowed(R1(d, j), j.run) then R1(d, j)
      else if i == 2 then R2(d, j)
      else SetJournal(R2(d, j), None)
  }

  function Recovered(d: Durable): Durable {
    RecoveryAt(d, 3)
  }

  predicate RecoverySucceeds(d: Durable) {
    d.journal.None? || AlreadyIntegrated(d, d.journal.value)
    || (Attributable(d, d.journal.value) && ResetAllowed(R1(d, d.journal.value), d.journal.value.run))
  }

  // ----- the program points passed, as sequences -----

  function StraightTrace(d: Durable, r: Id, env: Env, k: nat): (t: seq<Durable>)
    requires Known(d, r)
    ensures |t| == k
  {
    if k == 0 then [] else StraightTrace(d, r, env, k - 1) + [Straight(d, r, env, k)]
  }

  function HandlerTrace(d: Durable, r: Id, previous: Commit, original: Commit, k: nat, env: Env): seq<Durable>
    requires Known(d, r)
  {
    [Handled(d, r, previous, original, k, env, 1), Handled(d, r, previous, original, k, env, 2),
     Handled(d, r, previous, original, k, env, 3)]
  }

  function AttemptTrace(d: Durable, r: Id, env: Env): seq<Durable>
    requires Known(d, r)
  {
    var k := StopAt(d, r, env);
    var straight := StraightTrace(d, r, env, Min(k, JOURNAL_CLEARED));
    if k == 0 || k == SUCCESS then straight
    else straight + HandlerTrace(Straight(d, r, env, k), r, d.project.current, Implementation(d, r), k, env)
  }

  function RecoveryTrace(d: Durable): seq<Durable> {
    if d.journal.None? || Refuses(d) then []
    else if AlreadyIntegrated(d, d.journal.value) then [RecoveryAt(d, 1)]
    else if !ResetAllowed(R1(d, d.journal.value), d.journal.value.run) then [RecoveryAt(d, 1)]
    else [RecoveryAt(d, 1), RecoveryAt(d, 2), RecoveryAt(d, 3)]
  }

  // ----- the runner -----

  class WorkerIntegrationRunner {
    var main: Commit
    var heads: map<Id, Commit>
    var project: Project
    var journal: Option<Journal>

    /** The durable world at every program point passed so far. */
    ghost var trace: seq<Durable>

    ghost function World(): Durable
      reads this
    {
      Durable(main, heads, project, journal)
    }

    constructor (d: Durable)
      ensures World() == d && trace == [d]
    {
      main, heads, project, journal := d.main, d.heads, d.project, d.journal;
      trace := [d];
    }

    ghost method Mark()
      modifies this`trace
      ensures trace == old(trace) + [World()]
    {
      trace := trace + [World()];
    }

    method WriteJournal(j: Option<Journal>)
      modifies `journal
      ensures World() == SetJournal(old(World()), j)
    {
      journal := j;
    }

    method MoveMain(commit: Commit)
      modifies `main
      ensures World() == SetMain(old(World()), commit)
    {
      main := commit;
    }

    method MoveBranch(r: Id, commit: Commit)
      modifies `heads
      ensures World() == SetHead(old(World()), r, commit)
    {
      heads := heads[r := commit];
    }

    /** One ProjectState transaction on a run and its task. */
    method Transact(r: Id, run: RunRecord, task: TaskRecord)
      requires Known(World(), r) && run.task == project.runs[r].task && run.implementation.Some?
      modifies `project
      ensures World() == SetRun(old(World()), r, run, task)
    {
      project := project.(runs := project.runs[r := run], tasks := project.tasks[run.task := task]);
    }

    method FinalizeWorkerIntegration(r: Id, commit: Commit)
      requires Known(World(), r)
      modifies `project
      ensures World() == Finalize(old(World()), r, commit)
    {
      var run := project.runs[r];
      Transact(r, run.(state := Integrated), project.tasks[run.task].(state := TaskIntegrated));
      project := project.(current := commit);
    }

    /** Undoes the git side of an interrupted attempt if it can be attributed to the journal. */
    method UndoGit(j: Journal) returns (ok: bool)
      modifies `main, `heads
      ensures ok == Attributable(old(World()), j)
      ensures World() == if ok then R1(old(World()), j) else old(World())
    {
      if j.stage.Merged? {
        if !(j.integration.Some? && project.current == j.previous && main == j.integration.value) {
          return false;
        }
        MoveMain(j.previous);
      } else if j.stage.StateCommitted? || main != j.previous || project.current != j.previous {
        return false;
      } else if j.run in heads && j.run in project.runs && project.runs[j.run].implementation != Some(heads[j.run]) {
        if project.runs[j.run].implementation != Some(j.original) {
          return false;
        }
        MoveBranch(j.run, j.original);
      }
      ok := true;
    }

    method ResetWorkerIntegration(r: Id) returns (ok: bool)
      modifies `project
      ensures ok == ResetAllowed(old(World()), r)
      ensures World() == if ok && RunStuck(old(World()), r) then ResetRun(old(World()), r) else old(World())
    {
      if r !in project.runs || !project.runs[r].state.Integrating? {
        return true;
      }
      var run := project.runs[r];
      if !(r in heads && run.implementation.Some? && run.task in project.tasks && project.tasks[run.task].state.TaskReady?) {
        return false;
      }
      Transact(r, run.(state := ReadyToIntegrate), project.tasks[run.task]);
      ok := true;
    }

    method RecoverInterruptedIntegration() returns (ok: bool)
      modifies this
      ensures ok == RecoverySucceeds(old(World()))
      ensures World() == Recovered(old(World()))
      ensures trace == old(trace) + RecoveryTrace(old(World()))
    {
      if journal.None? {
        return true;
      }
      ghost var d := World();
      var j := journal.value;
      if j.integration.Some? && project.current == j.integration.value && main == j.integration.value
         && j.run in project.runs && project.runs[j.run].state.Integrated?
      {
        WriteJournal(None);
        Mark();
        return true;
      }
      ok := UndoGit(j);
      if !ok {
        return;
      }
      assert World() == R1(d, j);
      Mark();
      ok := ResetWorkerIntegration(j.run);
      if !ok {
        return;
      }
      assert World() == R2(d, j);
      Mark();
      WriteJournal(None);
      Mark();
    }

    method RollBackGit(r: Id, previous: Commit, original: Commit, k: nat, env: Env) returns (rollbackError: bool)
      requires Known(World(), r)
      modifies `main, `heads
      ensures Rollback(World(), rollbackError) ==
              RollBack(old(World()), r, previous, original, MergeKnown(k, env), env.rollbackFails)
    {
      rollbackError := false;
      var merged := k >= JOURNAL_MERGED || (k == FAST_FORWARDED && env.mergeReported);
      if merged {
        if env.rollbackFails {
          rollbackError := true;
        } else {
          MoveMain(previous);
        }
      } else if heads[r] != original && heads[r] != project.runs[r].implementation.value {
        if env.rollbackFails {
          rollbackError := true;
        } else {
          MoveBranch(r, original);
        }
      }
    }

    /** Rolls back, clears the journal and blocks the run; the three marks are the handler's crash points. */
    method HandleException(r: Id, previous: Commit, original: Commit, k: nat, env: Env)
      requires Known(World(), r)
      modifies this
      ensures trace == old(trace) + HandlerTrace(old(World()), r, previous, original, k, env)
      ensures World() == Handled(old(World()), r, previous, original, k, env, 3)
    {
      var rollbackError := RollBackGit(r, previous, original, k, env);
      Mark();
      if !rollbackError {
        WriteJournal(None);
      }
      Mark();
      if k >= BEGUN && project.runs[r].state.Integrating? {
        var run := project.runs[r];
        Transact(r, run.(state := Blocked), project.tasks[run.task].(state := TaskBlocked));
      }
      Mark();
    }

    method Reserve(r: Id)
      requires Known(World(), r)
      modifies this
      ensures World() == Begin(old(World()), r) && trace == old(trace) + [World()]
    {
      Transact(r, project.runs[r].(state := Integrating), project.tasks[project.runs[r].task]);
      Mark();
    }

    method RebaseIfNeeded(r: Id, env: Env)
      requires Known(World(), r)
      modifies this
      ensures World() == GitRebase(old(World()), r, env) && trace == old(trace) + [World()]
    {
      if project.runs[r].base != project.current {
        MoveBranch(r, env.rebasedTo);
      }
      Mark();
    }

    method RecordWorkerRebase(r: Id, env: Env)
      requires Known(World(), r)
      modifies this
      ensures World() == RecordIfRebased(old(World()), r, env) && trace == old(trace) + [World()]
    {
      var run := project.runs[r];
      if run.base != project.current {
        Transact(r, run.(base := project.current, implementation := Some(env.rebasedTo)),
                 project.tasks[run.task].(base := project.current, implementation := Some(env.rebasedTo)));
      }
      Mark();
    }

    method AdvanceJournal(stage: Stage, integration: Option<Commit>)
      modifies this
      ensures World() == SetStage(old(World()), stage, integration) && trace == old(trace) + [World()]
    {
      if journal.Some? {
        WriteJournal(Some(journal.value.(stage := stage, integration := integration)));
      }
      Mark();
    }

    /** Journal and reservation. Returns how many writes were made. */
    method Prepare(r: Id, env: Env) returns (k: nat)
      requires Startable(World(), r, env) && env.stop > 0
      modifies this
      ensures k == Min(StopAt(old(World()), r, env), BEGUN)
      ensures World() == Straight(old(World()), r, env, k)
      ensures trace == old(trace) + StraightTrace(old(World()), r, env, k)
    {
      ghost var d, t := World(), trace;
      StraightStart(d, r, env);
      var run := project.runs[r];
      var task := project.tasks[run.task];
      WriteJournal(Some(Journal(Prepared, r, project.current, run.implementation.value, None)));
      Mark();
      StraightStep(d, r, env, PREPARED);
      assert World() == Straight(d, r, env, PREPARED) && trace == t + StraightTrace(d, r, env, PREPARED);
      if env.stop == PREPARED || task.implementation != run.implementation {
        return PREPARED;
      }
      Reserve(r);
      StraightStep(d, r, env, BEGUN);
      k := BEGUN;
    }

    /** Rebase if MAIN moved on, and record it. Returns how many writes of the attempt were made. */
    method Rebase(r: Id, taskBase: Commit, ghost d: Durable, ghost t: seq<Durable>, env: Env) returns (k: nat)
      requires Startable(d, r, env) && taskBase == TaskOf(d, r).base
      requires World() == Straight(d, r, env, BEGUN) && StopAt(d, r, env) > BEGUN
      requires trace == t + StraightTrace(d, r, env, BEGUN)
      modifies this
      ensures k == Min(StopAt(d, r, env), JOURNAL_REBASED)
      ensures World() == Straight(d, r, env, k)
      ensures trace == t + StraightTrace(d, r, env, k)
    {
      var runBase, rebase := project.runs[r].base, project.runs[r].base != project.current;
      RebaseIfNeeded(r, env);
      StraightStep(d, r, env, GIT_REBASED);
      assert World() == Straight(d, r, env, GIT_REBASED) && trace == t + StraightTrace(d, r, env, GIT_REBASED);
      if env.stop == GIT_REBASED || (rebase && taskBase != runBase) {
        return GIT_REBASED;
      }
      RecordWorkerRebase(r, env);
      StraightStep(d, r, env, REBASE_RECORDED);
      assert World() == Straight(d, r, env, REBASE_RECORDED) && trace == t + StraightTrace(d, r, env, REBASE_RECORDED);
      if env.stop == REBASE_RECORDED {
        return REBASE_RECORDED;
      }
      AdvanceJournal(Rebased, project.runs[r].implementation);
      StraightStep(d, r, env, JOURNAL_REBASED);
      assert World() == Straight(d, r, env, JOURNAL_REBASED) && trace == t + StraightTrace(d, r, env, JOURNAL_REBASED);
      k := JOURNAL_REBASED;
    }

    /** Fast-forward and the journal entry for it. Returns how many writes of the attempt were made. */
    method Merge(r: Id, ghost d: Durable, ghost t: seq<Durable>, env: Env) returns (k: nat)
      requires Startable(d, r, env)
      requires World() == Straight(d, r, env, JOURNAL_REBASED) && StopAt(d, r, env) > JOURNAL_REBASED
      requires trace == t + StraightTrace(d, r, env, JOURNAL_REBASED)
      modifies this
      ensures k == Min(StopAt(d, r, env), JOURNAL_MERGED)
      ensures World() == Straight(d, r, env, k)
      ensures trace == t + StraightTrace(d, r, env, k)
    {
      MoveMain(heads[r]);
      Mark();
      StraightStep(d, r, env, FAST_FORWARDED);
      assert World() == Straight(d, r, env, FAST_FORWARDED) && trace == t + StraightTrace(d, r, env, FAST_FORWARDED);
      if env.stop == FAST_FORWARDED {
        return FAST_FORWARDED;
      }
      AdvanceJournal(Merged, Some(main));
      StraightStep(d, r, env, JOURNAL_MERGED);
      k := JOURNAL_MERGED;
    }

    /** Test, finalize and close the journal. Returns how many writes of the attempt were made. */
    method TestAndFinalize(r: Id, previous: Commit, ghost d: Durable, ghost t: seq<Durable>, env: Env) returns (k: nat)
      requires Startable(d, r, env) && previous == d.project.current
      requires World() == Straight(d, r, env, JOURNAL_MERGED) && StopAt(d, r, env) >= JOURNAL_MERGED
      requires env.stop >= JOURNAL_MERGED
      requires trace == t + StraightTrace(d, r, env, JOURNAL_MERGED)
      modifies this
      ensures k == StopAt(d, r, env)
      ensures World() == Straight(d, r, env, Min(k, JOURNAL_CLEARED))
      ensures trace == t + StraightTrace(d, r, env, Min(k, JOURNAL_CLEARED))
    {
      if env.stop == JOURNAL_MERGED || !env.testsPass || main == previous {
        return JOURNAL_MERGED;
      }
      FinalizeWorkerIntegration(r, main);
      Mark();
      StraightStep(d, r, env, FINALIZED);
      assert World() == Straight(d, r, env, FINALIZED) && trace == t + StraightTrace(d, r, env, FINALIZED);
      if env.stop == FINALIZED {
        return FINALIZED;
      }
      k := CloseJournal(r, d, t, env);
    }

    method CloseJournal(r: Id, ghost d: Durable, ghost t: seq<Durable>, env: Env) returns (k: nat)
      requires Startable(d, r, env)
      requires World() == Straight(d, r, env, FINALIZED) && StopAt(d, r, env) == Min(env.stop, SUCCESS) > FINALIZED
      requires trace == t + StraightTrace(d, r, env, FINALIZED)
      modifies this
      ensures k == StopAt(d, r, env)
      ensures World() == Straight(d, r, env, Min(k, JOURNAL_CLEARED))
      ensures trace == t + StraightTrace(d, r, env, Min(k, JOURNAL_CLEARED))
    {
      AdvanceJournal(StateCommitted, Some(main));
      StraightStep(d, r, env, JOURNAL_COMMITTED);
      assert World() == Straight(d, r, env, JOURNAL_COMMITTED) && trace == t + StraightTrace(d, r, env, JOURNAL_COMMITTED);
      if env.stop == JOURNAL_COMMITTED {
        return JOURNAL_COMMITTED;
      }
      WriteJournal(None);
      Mark();
      StraightStep(d, r, env, JOURNAL_CLEARED);
      assert World() == Straight(d, r, env, JOURNAL_CLEARED) && trace == t + StraightTrace(d, r, env, JOURNAL_CLEARED);
      k := if env.stop == JOURNAL_CLEARED then JOURNAL_CLEARED else SUCCESS;
    }

    /** All the writes of an attempt up to where it leaves the straight path. */
    method Advance(r: Id, env: Env) returns (k: nat)
      requires Startable(World(), r, env) && env.stop > 0
      modifies this
      ensures k == StopAt(old(World()), r, env)
      ensures World() == Straight(old(World()), r, env, Min(k, JOURNAL_CLEARED))
      ensures trace == old(trace) + StraightTrace(old(World()), r, env, Min(k, JOURNAL_CLEARED))
    {
      ghost var d, n := World(), StopAt(World(), r, env);
      var previous := project.current;
      var taskBase := project.tasks[project.runs[r].task].base;
      k := Prepare(r, env);
      if k == BEGUN && env.stop > BEGUN {
        assert n > BEGUN;
        k := Rebase(r, taskBase, d, old(trace), env);
      }
      if k == JOURNAL_REBASED && env.stop > JOURNAL_REBASED {
        assert n > JOURNAL_REBASED;
        k := Merge(r, d, old(trace), env);
        if k == JOURNAL_MERGED {
          k := TestAndFinalize(r, previous, d, old(trace), env);
        }
      }
    }

    /** The writes of an attempt and, when one of them raises, those of the handler. */
    method Attempt(r: Id, env: Env) returns (ok: bool)
      requires Startable(World(), r, env)
      modifies this
      ensures ok <==> StopAt(old(World()), r, env) == SUCCESS
      ensures World() == At(old(World()), r, env, Points(old(World()), r, env))
      ensures trace == old(trace) + AttemptTrace(old(World()), r, env)
    {
      StraightStart(World(), r, env);
      if env.stop == 0 {
        return false;
      }
      var previous, original := project.current, project.runs[r].implementation.value;
      var k := Advance(r, env);
      if k < SUCCESS {
        HandleException(r, previous, original, k, env);
      }
      ok := k == SUCCESS;
    }

    /** One integration attempt, without the recovery that precedes it. */
    method Integrate(r: Id, env: Env) returns (ok: bool)
      requires Startable(World(), r, env)
      modifies this
      ensures ok <==> GoesThrough(old(World()), r, env)
      ensures ok ==> MergedInto(old(World()), World(), r, if old(project.runs[r].base == project.current)
                                                          then old(project.runs[r].implementation.value) else env.rebasedTo)
      ensures !ok && env.stop >= SUCCESS && !env.rollbackFails ==> BackedOut(old(World()), World(), r)
      ensures World() == At(old(World()), r, env, Points(old(World()), r, env))
      ensures trace == old(trace) + AttemptTrace(old(World()), r, env)
    {
      AttemptOutcome(World(), r, env);
      ok := Attempt(r, env);
    }

    /** The checks before the first write. */
    method MayStart(r: Id, env: Env) returns (ok: bool)
      ensures ok <==> Startable(World(), r, env)
    {
      if journal.Some? || !env.jobValid
         || !(r in heads && r in project.runs && project.runs[r].task in project.tasks && project.runs[r].implementation.Some?)
      {
        return false;
      }
      var run := project.runs[r];
      var task := project.tasks[run.task];
      ok := run.state.ReadyToIntegrate? && task.state.TaskReady? && task.run == Some(r)
            && heads[r] == run.implementation.value && main == project.current;
    }

    method RecoverAndCheck(r: Id, env: Env) returns (ok: bool)
      modifies this
      ensures ok <==> Starts(old(World()), r, env)
      ensures ok ==> Startable(World(), r, env)
      ensures World() == Recovered(old(World()))
      ensures trace == old(trace) + RecoveryTrace(old(World()))
    {
      ok := RecoverInterruptedIntegration();
      if ok {
        ok := MayStart(r, env);
      }
    }

    /** `run`: recovery first, then the checks, then the attempt. */
    method Run(r: Id, env: Env) returns (ok: bool)
      modifies this
      ensures !Starts(old(World()), r, env) ==>
                !ok && World() == Recovered(old(World())) && trace == old(trace) + RecoveryTrace(old(World()))
      ensures Starts(old(World()), r, env) ==>
                var s := Recovered(old(World()));
                && (ok <==> GoesThrough(s, r, env)) && World() == At(s, r, env, Points(s, r, env))
                && (ok ==> MergedInto(s, World(), r, if s.project.runs[r].base == s.project.current
                                                     then s.project.runs[r].implementation.value else env.rebasedTo))
                && (!ok && env.stop >= SUCCESS && !env.rollbackFails ==> BackedOut(s, World(), r))
                && trace == old(trace) + RecoveryTrace(old(World())) + AttemptTrace(s, r, env)
    {
      ok := RecoverAndCheck(r, env);
      if ok {
        ok := Integrate(r, env);
      }
    }
  }

  /** Recovery brought the world to where the attempt may start. */
  predicate Starts(d: Durable, r: Id, env: Env) {
    RecoverySucceeds(d) && Startable(Recovered(d), r, env)
  }
}
