/** What survives crashes, exceptions and recoveries of integrations. */
module IntegrationSafety {
  import opened Common
  import opened Integration

  /** Without a journal, git and ProjectState agree on the stable commit. */
  predicate InSync(d: Durable) {
    d.journal.None? ==> d.main == d.project.current
  }

  // ----- crashes on the straight path -----

  /**
   * A crash after any write of an undisturbed attempt: recovery refuses exactly when MAIN has been moved but
   * the journal does not say so yet. Otherwise the journal is gone, MAIN is ProjectState's commit, the run is
   * ready again or integrated, and its branch is at the recorded implementation.
   */
  lemma CrashOnStraightPath(d: Durable, r: Id, env: Env, k: nat)
    requires Startable(d, r, env) && k <= Min(StopAt(d, r, env), JOURNAL_CLEARED)
    ensures var s := Straight(d, r, env, k);
            var t := Recovered(s);
            && (Refuses(s) <==> k == FAST_FORWARDED && Candidate(d, r, env) != d.project.current)
            && (Refuses(s) ==> t == s && !RecoverySucceeds(s))
            && (!Refuses(s) ==>
                  && RecoverySucceeds(s)
                  && t.journal.None? && t.main == t.project.current
                  && Known(t, r) && t.heads[r] == Implementation(t, r)
                  && t.project.runs[r].state == if k >= FINALIZED then Integrated else ReadyToIntegrate)
  {
  }

  // ----- crashes anywhere, the exception handler included -----

  predicate RollbackFailed(d: Durable, r: Id, env: Env)
    requires Known(d, r)
  {
    var k := StopAt(d, r, env);
    RollBack(Straight(d, r, env, k), r, d.project.current, Implementation(d, r), MergeKnown(k, env), env.rollbackFails).error
  }

  /** The journal contradicts MAIN: it says "rebased" although MAIN moved, or "merged" although MAIN is back. */
  predicate Contradicted(d: Durable, r: Id, env: Env, i: nat)
    requires Known(d, r)
  {
    var k := StopAt(d, r, env);
    Candidate(d, r, env) != d.project.current &&
    if i <= k then i == FAST_FORWARDED
    else
      var journalKept := k <= JOURNAL_COMMITTED && (i == k + 1 || RollbackFailed(d, r, env));
      journalKept && if MergeKnown(k, env) && !env.rollbackFails then k >= JOURNAL_MERGED else k == FAST_FORWARDED
  }

  lemma RefusesExactlyWhenContradicted(d: Durable, r: Id, env: Env, i: nat)
    requires Startable(d, r, env) && i <= Points(d, r, env)
    ensures Refuses(At(d, r, env, i)) <==> Contradicted(d, r, env, i)
  {
    var k := StopAt(d, r, env);
    if i <= k {
      CrashOnStraightPath(d, r, env, i);
    }
  }

  /** The two places where an exception makes the handler drop the journal while git and state disagree. */
  predicate Harmful(d: Durable, r: Id, env: Env)
    requires Known(d, r)
  {
    var k := StopAt(d, r, env);
    Candidate(d, r, env) != d.project.current
    && ((k == FAST_FORWARDED && !env.mergeReported) || (FINALIZED <= k <= JOURNAL_CLEARED && !env.rollbackFails))
  }

  /**
   * An attempt that ends by itself leaves git and state in agreement, or a journal that says they are not,
   * exactly when it is not harmful: an exception after MAIN moved inside fast_forward_repository (the local
   * merged_commit is still unset) or after finalize committed (the handler then moves MAIN back under a
   * ProjectState that has advanced).
   */
  lemma InSyncUnlessHarmful(d: Durable, r: Id, env: Env)
    requires Startable(d, r, env)
    ensures InSync(At(d, r, env, Points(d, r, env))) <==> !Harmful(d, r, env)
  {
  }

  /** The same at every crash point: harm shows only once the handler has dropped the journal. */
  lemma InSyncAtEveryPoint(d: Durable, r: Id, env: Env, i: nat)
    requires Startable(d, r, env) && i <= Points(d, r, env)
    ensures InSync(At(d, r, env, i)) <==>
              !(Harmful(d, r, env) && i >= Min(StopAt(d, r, env) + 2, JOURNAL_CLEARED + 1))
  {
  }

  /** A concrete attempt that goes through although MAIN has moved on since the run was started. */
  lemma RebasedExample() returns (d: Durable, env: Env)
    ensures Startable(d, "run", env) && GoesThrough(d, "run", env)
    ensures d.project.runs["run"].base != d.project.current && RecoverySucceeds(d) && Recovered(d) == d
  {
    d := Durable("new", map["run" := "work"],
                 Project("new", map["run" := RunRecord("task", ReadyToIntegrate, "old", Some("work"))],
                         map["task" := TaskRecord(TaskReady, Some("run"), "old", Some("work"))]),
                 None);
    env := Env(true, "rebased", true, SUCCESS, true, false);
  }

  /** A concrete harmful attempt: the write of the last journal stage raises. */
  lemma HarmfulExample() returns (d: Durable, env: Env)
    ensures Startable(d, "run", env) && env.testsPass
    ensures var e := At(d, "run", env, Points(d, "run", env));
            e.journal.None? && e.main == "base" && e.project.current == "work"
            && e.project.runs["run"].state.Integrated?
  {
    d := Durable("base", map["run" := "work"],
                 Project("base", map["run" := RunRecord("task", ReadyToIntegrate, "base", Some("work"))],
                         map["task" := TaskRecord(TaskReady, Some("run"), "base", Some("work"))]),
                 None);
    env := Env(true, "", true, FINALIZED, true, false);
    assert StopAt(d, "run", env) == FINALIZED;
  }

  /** The crash point between the handler's clearing of the journal and its last transaction. */
  predicate Stranded(d: Durable, r: Id, env: Env, i: nat)
    requires Known(d, r)
  {
    var k := StopAt(d, r, env);
    BEGUN <= k <= JOURNAL_MERGED && i == k + 2 && !RollbackFailed(d, r, env)
  }

  /** What recovery makes of the run after a crash at point `i`. */
  function RunAfterCrash(d: Durable, r: Id, env: Env, i: nat): RunState
    requires Known(d, r)
  {
    var k := StopAt(d, r, env);
    if Min(i, k) >= FINALIZED then Integrated
    else if k >= BEGUN && i == k + 3 then Blocked
    else if Stranded(d, r, env, i) then Integrating
    else ReadyToIntegrate
  }

  /** Handler crash points at which no journal is left: recovery does nothing. */
  lemma HandlerWithoutJournal(d: Durable, r: Id, env: Env, i: nat)
    requires Startable(d, r, env) && StopAt(d, r, env) < i <= Points(d, r, env) && At(d, r, env, i).journal.None?
    ensures var t := At(d, r, env, i);
            Recovered(t) == t && t.heads[r] == Implementation(t, r) && t.project.runs[r].state == RunAfterCrash(d, r, env, i)
  {
  }

  /** How recovery from a usable journal ends. */
  lemma RecoveryEnds(s: Durable, r: Id)
    requires Known(s, r) && s.journal.Some? && s.journal.value.run == r && !Refuses(s)
    requires RunStuck(s, r) ==> TaskOf(s, r).state.TaskReady?
    requires s.journal.value.stage.Merged? || s.project.runs[r].state.Integrated? ==> s.heads[r] == Implementation(s, r)
    ensures var t := Recovered(s);
            RecoverySucceeds(s) && t.journal.None? && Known(t, r) && t.heads[r] == Implementation(t, r)
            && t.main == t.project.current
            && t.project.runs[r].state == if RunStuck(s, r) then ReadyToIntegrate else s.project.runs[r].state
  {
  }

  lemma HandlerState(d: Durable, r: Id, env: Env, i: nat)
    requires Startable(d, r, env) && StopAt(d, r, env) < i <= Points(d, r, env) && At(d, r, env, i).journal.Some?
    ensures var s, k := At(d, r, env, i), StopAt(d, r, env);
            && s.journal.value.run == r && (s.journal.value.stage.Merged? ==> k >= JOURNAL_MERGED)
            && (k >= REBASE_RECORDED ==> s.heads[r] == Implementation(s, r))
            && (RunStuck(s, r) ==> TaskOf(s, r).state.TaskReady?)
            && s.project.runs[r].state == (if k < BEGUN then ReadyToIntegrate else if k >= FINALIZED then Integrated
                                           else if i == k + 3 then Blocked else Integrating)
            && !Stranded(d, r, env, i)
  {
  }

  /** Handler crash points at which the journal is left and recovery can use it. */
  lemma HandlerWithJournal(d: Durable, r: Id, env: Env, i: nat)
    requires Startable(d, r, env) && StopAt(d, r, env) < i <= Points(d, r, env)
    requires At(d, r, env, i).journal.Some? && !Refuses(At(d, r, env, i))
    ensures var s := At(d, r, env, i);
            var t := Recovered(s);
            RecoverySucceeds(s) && t.journal.None? && Known(t, r) && t.heads[r] == Implementation(t, r)
            && t.project.runs[r].state == RunAfterCrash(d, r, env, i) && t.main == t.project.current
  {
    HandlerState(d, r, env, i);
    RecoveryEnds(At(d, r, env, i), r);
  }

  /**
   * Recovery after a crash at any program point of an attempt, the handler's included. It refuses and changes nothing
   * exactly when the journal contradicts MAIN. Otherwise the journal is gone and the worker branch is at the recorded
   * implementation; the run is ready again, integrated, blocked by the handler, or stranded; and MAIN is ProjectState's
   * commit exactly when the handler has not dropped the journal of a harmful attempt.
   */
  lemma RecoveryAfterAnyCrash(d: Durable, r: Id, env: Env, i: nat)
    requires Startable(d, r, env) && i <= Points(d, r, env)
    ensures var s := At(d, r, env, i);
            var t := Recovered(s);
            && (Refuses(s) <==> Contradicted(d, r, env, i))
            && (Refuses(s) ==> t == s && !RecoverySucceeds(s))
            && (!Refuses(s) ==>
                  && RecoverySucceeds(s) && t.journal.None?
                  && Known(t, r) && t.heads[r] == Implementation(t, r)
                  && t.project.runs[r].state == RunAfterCrash(d, r, env, i)
                  && (t.main == t.project.current <==>
                        !(Harmful(d, r, env) && i >= Min(StopAt(d, r, env) + 2, JOURNAL_CLEARED + 1))))
  {
    RefusesExactlyWhenContradicted(d, r, env, i);
    InSyncAtEveryPoint(d, r, env, i);
    if i <= Min(StopAt(d, r, env), JOURNAL_CLEARED) {
      CrashOnStraightPath(d, r, env, i);
    } else if StopAt(d, r, env) < i && !Refuses(At(d, r, env, i)) {
      if At(d, r, env, i).journal.None? {
        HandlerWithoutJournal(d, r, env, i);
      } else {
        HandlerWithJournal(d, r, env, i);
      }
    }
  }

  // ----- crashes during recovery -----

  /** Every run that is being integrated still owns a ready task. */
  ghost predicate RunsOwnTasks(d: Durable) {
    forall r :: RunStuck(d, r) ==> Known(d, r) && TaskOf(d, r).state.TaskReady? && TaskOf(d, r).run == Some(r)
  }

  /**
   * Recovery may itself be cut off after any write. Run again it either ends where the first one would have,
   * or refuses, and it refuses exactly when it had already moved MAIN back under a "merged" journal.
   */
  lemma RecoveryIsRestartable(d: Durable, i: nat)
    requires RunsOwnTasks(d) && !Refuses(d) && i <= 3
    ensures var m := RecoveryAt(d, i);
            && (Refuses(m) <==>
                  d.journal.Some? && d.journal.value.stage.Merged? && !AlreadyIntegrated(d, d.journal.value)
                  && 1 <= i <= 2 && d.journal.value.integration != Some(d.journal.value.previous))
            && (!Refuses(m) ==> Recovered(m) == Recovered(d) && RecoverySucceeds(m))
  {
    if d.journal.Some? {
      var j := d.journal.value;
      assert RunStuck(d, j.run) ==> Known(d, j.run);
      if !AlreadyIntegrated(d, j) && RunStuck(d, j.run) {
        var run := d.project.runs[j.run];
        MapTwice(d.project.runs, j.run, run.(state := ReadyToIntegrate), run.(state := ReadyToIntegrate));
        MapSelf(d.project.tasks, run.task);
      }
    }
  }

  // ----- all sequences -----

  datatype Event =
    | Attempt(run: Id, env: Env, crashAt: Option<nat>)
    | Recovery(writes: nat)

  function Happen(d: Durable, e: Event): Durable {
    match e
    case Recovery(i) => RecoveryAt(d, Min(i, 3))
    case Attempt(r, env, crashAt) =>
      var s := Recovered(d);
      if !RecoverySucceeds(d) || !Startable(s, r, env) then s
      else At(s, r, env, if crashAt.Some? then Min(crashAt.value, Points(s, r, env)) else Points(s, r, env))
  }

  predicate HarmlessFrom(d: Durable, e: Event) {
    e.Attempt? && RecoverySucceeds(d) && Startable(Recovered(d), e.run, e.env) ==> !Harmful(Recovered(d), e.run, e.env)
  }

  ghost predicate WorldInv(d: Durable) {
    InSync(d) && RunsOwnTasks(d)
  }

  /** Recovery's project write, if it makes it, makes the run of the journal ready again. */
  lemma RecoveredProject(d: Durable, i: nat)
    requires i <= 3
    ensures var m := RecoveryAt(d, i);
            && d.heads.Keys <= m.heads.Keys
            && (m.project == d.project
                || (d.journal.Some? && Known(d, d.journal.value.run) && m.project == ResetRun(d, d.journal.value.run).project))
  {
  }

  lemma RecoveryKeepsOwnership(d: Durable, i: nat)
    requires RunsOwnTasks(d) && i <= 3
    ensures RunsOwnTasks(RecoveryAt(d, i))
  {
    var m := RecoveryAt(d, i);
    RecoveredProject(d, i);
    forall r | RunStuck(m, r)
      ensures Known(m, r) && TaskOf(m, r).state.TaskReady? && TaskOf(m, r).run == Some(r)
    {
      assert RunStuck(d, r);
    }
  }

  lemma RecoveryKeepsSync(d: Durable, i: nat)
    requires WorldInv(d) && i <= 3
    ensures InSync(RecoveryAt(d, i))
    ensures !Refuses(d) ==> RecoverySucceeds(d) && Recovered(d).journal.None?
  {
    if d.journal.Some? {
      assert RunStuck(d, d.journal.value.run) ==> Known(d, d.journal.value.run);
    }
  }

  lemma StraightKeepsOwnership(d: Durable, r: Id, env: Env, k: nat)
    requires Startable(d, r, env) && RunsOwnTasks(d)
    ensures RunsOwnTasks(Straight(d, r, env, k))
  {
    var s := Straight(d, r, env, k);
    forall q | RunStuck(s, q)
      ensures Known(s, q) && TaskOf(s, q).state.TaskReady? && TaskOf(s, q).run == Some(q)
    {
      if q != r {
        assert RunStuck(d, q);
        assert d.project.runs[q].task != d.project.runs[r].task;
      }
    }
  }

  /** The handler's project write, if it makes it, blocks the run. */
  lemma HandledProject(s: Durable, r: Id, previous: Commit, original: Commit, k: nat, env: Env, steps: nat)
    requires Known(s, r) && 1 <= steps <= 3
    ensures var a := Handled(s, r, previous, original, k, env, steps);
            s.heads.Keys == a.heads.Keys && (a.project == s.project || a.project == FailRun(s, r).project)
  {
  }

  /** The handler blocks at most the run of the attempt, so the other runs keep their tasks. */
  lemma HandlerKeepsOthers(s: Durable, r: Id, previous: Commit, original: Commit, k: nat, env: Env, steps: nat)
    requires Known(s, r) && 1 <= steps <= 3
    ensures var a := Handled(s, r, previous, original, k, env, steps);
            && a.project.runs == s.project.runs[r := a.project.runs[r]]
            && a.project.tasks == s.project.tasks[s.project.runs[r].task := a.project.tasks[s.project.runs[r].task]]
            && s.heads.Keys == a.heads.Keys && a.project.runs[r].task == s.project.runs[r].task
            && a.project.runs[r].implementation == s.project.runs[r].implementation
            && (RunStuck(a, r) ==> RunStuck(s, r))
            && (RunStuck(a, r) ==> a.project.tasks[s.project.runs[r].task] == s.project.tasks[s.project.runs[r].task])
  {
    HandledProject(s, r, previous, original, k, env, steps);
    MapSelf(s.project.runs, r);
    MapSelf(s.project.tasks, s.project.runs[r].task);
  }

  lemma HandlerKeepsOwnership(s: Durable, r: Id, previous: Commit, original: Commit, k: nat, env: Env, steps: nat)
    requires Known(s, r) && TaskOf(s, r).run == Some(r) && RunsOwnTasks(s) && 1 <= steps <= 3
    ensures RunsOwnTasks(Handled(s, r, previous, original, k, env, steps))
  {
    var a := Handled(s, r, previous, original, k, env, steps);
    HandlerKeepsOthers(s, r, previous, original, k, env, steps);
    forall q | RunStuck(a, q)
      ensures Known(a, q) && TaskOf(a, q).state.TaskReady? && TaskOf(a, q).run == Some(q)
    {
      assert RunStuck(s, q);
      if q != r {
        assert s.project.runs[q].task != s.project.runs[r].task;
      }
    }
  }

  lemma StraightKeepsTask(d: Durable, r: Id, env: Env, k: nat)
    requires Startable(d, r, env)
    ensures Known(Straight(d, r, env, k), r) && TaskOf(Straight(d, r, env, k), r).run == Some(r)
  {
  }

  lemma AttemptKeepsOwnership(d: Durable, r: Id, env: Env, i: nat)
    requires Startable(d, r, env) && RunsOwnTasks(d) && i <= Points(d, r, env)
    ensures RunsOwnTasks(At(d, r, env, i))
  {
    var k := StopAt(d, r, env);
    if i <= k {
      StraightKeepsOwnership(d, r, env, i);
    } else {
      StraightKeepsOwnership(d, r, env, k);
      StraightKeepsTask(d, r, env, k);
      HandlerKeepsOwnership(Straight(d, r, env, k), r, d.project.current, Implementation(d, r), k, env, i - k);
    }
  }

  lemma HappenKeepsInv(d: Durable, e: Event)
    requires WorldInv(d) && HarmlessFrom(d, e)
    ensures WorldInv(Happen(d, e))
  {
    match e
    case Recovery(i) =>
      RecoveryKeepsOwnership(d, Min(i, 3));
      RecoveryKeepsSync(d, Min(i, 3));
    case Attempt(r, env, crashAt) =>
      var s := Recovered(d);
      RecoveryKeepsOwnership(d, 3);
      RecoveryKeepsSync(d, 3);
      if RecoverySucceeds(d) && Startable(s, r, env) {
        var i := if crashAt.Some? then Min(crashAt.value, Points(s, r, env)) else Points(s, r, env);
        AttemptKeepsOwnership(s, r, env, i);
        InSyncAtEveryPoint(s, r, env, i);
      }
  }

  function Sequence(d: Durable, events: seq<Event>): Durable
    decreases |events|
  {
    if |events| == 0 then d else Sequence(Happen(d, events[0]), events[1..])
  }

  predicate HarmlessSequence(d: Durable, events: seq<Event>)
    decreases |events|
  {
    |events| == 0 || (HarmlessFrom(d, events[0]) && HarmlessSequence(Happen(d, events[0]), events[1..]))
  }

  /**
   * Over every sequence of attempts, exceptions, crashes and recoveries without a harmful exception, an absent
   * journal means that MAIN is ProjectState's stable commit, and recovery either refuses and changes nothing
   * or brings the world to that point.
   */
  lemma {:induction false} NoJournalMeansInSync(d: Durable, events: seq<Event>)
    requires WorldInv(d) && HarmlessSequence(d, events)
    ensures WorldInv(Sequence(d, events))
    ensures var e := Sequence(d, events);
            if Refuses(e) then Recovered(e) == e
            else Recovered(e).journal.None? && Recovered(e).main == Recovered(e).project.current
    decreases |events|
  {
    if |events| > 0 {
      HappenKeepsInv(d, events[0]);
      NoJournalMeansInSync(Happen(d, events[0]), events[1..]);
    } else {
      RecoveryKeepsSync(d, 3);
    }
  }

  lemma AttemptAdvances(d: Durable, r: Id, env: Env, i: nat)
    requires Startable(d, r, env) && i <= Points(d, r, env)
    requires At(d, r, env, i).project.current != d.project.current
    ensures env.testsPass
    ensures var t := At(d, r, env, i);
            && t.project.current == Candidate(d, r, env)
            && t.project.runs[r].state.Integrated? && t.project.runs[r].implementation == Some(t.project.current)
  {
    var k := StopAt(d, r, env);
    assert k >= FINALIZED && Straight(d, r, env, k).project.runs[r] == RunAfter(d, r, env, k);
  }

  /**
   * The stable commit advances only to the implementation commit of a run that was ready with a ready task
   * and whose post-merge tests all passed; harmful exceptions are no exception to this.
   */
  lemma AdvancesOnlyToTestedCommits(d: Durable, e: Event)
    requires Happen(d, e).project.current != d.project.current
    ensures e.Attempt? && RecoverySucceeds(d) && e.env.testsPass
    ensures var s, t := Recovered(d), Happen(d, e);
            && Startable(s, e.run, e.env)
            && t.project.current == Candidate(s, e.run, e.env)
            && t.project.runs[e.run].state.Integrated? && t.project.runs[e.run].implementation == Some(t.project.current)
  {
    var s := Recovered(d);
    assert s.project.current == d.project.current;
    if e.Attempt? && RecoverySucceeds(d) && Startable(s, e.run, e.env) {
      AttemptAdvances(s, e.run, e.env,
                      if e.crashAt.Some? then Min(e.crashAt.value, Points(s, e.run, e.env)) else Points(s, e.run, e.env));
    }
  }

  lemma LastOfTrace(d: Durable, r: Id, env: Env, k: nat)
    requires Known(d, r) && k > 0
    ensures var t, front := StraightTrace(d, r, env, k), StraightTrace(d, r, env, k - 1);
            |front| == k - 1 && t[..k - 1] == front && t[k - 1] == Straight(d, r, env, k)
  {
  }

  lemma {:induction false} StraightTraceIsStraight(d: Durable, r: Id, env: Env, k: nat, i: nat)
    requires Known(d, r) && i < k
    ensures StraightTrace(d, r, env, k)[i] == Straight(d, r, env, i + 1)
  {
    LastOfTrace(d, r, env, k);
    if i < k - 1 {
      StraightTraceIsStraight(d, r, env, k - 1, i);
    }
  }

  /** The runner's trace is the sequence of crash points the lemmas above quantify over. */
  lemma TraceIsTheCrashPoints(d: Durable, r: Id, env: Env, i: nat)
    requires Known(d, r) && i < Points(d, r, env)
    ensures |AttemptTrace(d, r, env)| == Points(d, r, env)
    ensures AttemptTrace(d, r, env)[i] == At(d, r, env, i + 1)
  {
    var k := StopAt(d, r, env);
    if i < k {
      StraightTraceIsStraight(d, r, env, Min(k, JOURNAL_CLEARED), i);
    }
  }
}
