/** Each orchestrator transaction by itself keeps the invariant, committed or refused: what the methods of the class call. */
module OrchestratorSteps {
  import opened Common
  import opened RepoPaths
  import opened ProjectTransitions
  import opened ProjectInvariants
  import TaskGraph

  /** The state after a transaction: the committed one, or the old one after an error. */
  function Committed(s: ProjectState, r: Step): ProjectState {
    if r.Ok? then r.value else s
  }

  lemma BeginCycleKeeps(s: ProjectState)
    ensures Inv(s) ==> Inv(Committed(s, BeginCycleTx(s)))
  {
    if Inv(s) && BeginCycleTx(s).Ok? {
      NewCycleKeepsInv(s);
    }
  }

  lemma CreateTaskKeeps(s: ProjectState, tid: Id, t: Task)
    requires TaskGraph.Distinct(t.spec.dependencies)
    ensures Inv(s) && Entering(s.agents, t) ==> Inv(Committed(s, CreateTaskTx(s, tid, t)))
  {
    if Inv(s) && Entering(s.agents, t) && CreateTaskTx(s, tid, t).Ok? {
      NewTaskKeepsInv(s, tid, t);
    }
  }

  lemma StartAgentKeeps(s: ProjectState, tid: Id, role: Role, id: Id)
    ensures Inv(s) ==> Inv(Committed(s, StartAgentTx(s, tid, role, id)))
  {
    if Inv(s) && StartAgentTx(s, tid, role, id).Ok? {
      StartKeepsInv(s, tid, role, id);
    }
  }

  lemma ApproveSpawnKeeps(s: ProjectState, q: SpawnRequest, id: Id)
    requires id !in s.agents && TaskGraph.Distinct(q.spec.dependencies)
    ensures Inv(s) ==> Inv(Committed(s, ApproveSpawnTx(s, q, id)))
  {
    if Inv(s) && ApproveSpawnTx(s, q, id).Ok? {
      SpawnKeepsInv(s, q, id);
    }
  }

  lemma BeginRunKeeps(s: ProjectState, rid: Id, run: Run)
    ensures Inv(s) ==> Inv(Committed(s, BeginRunTx(s, rid, run)))
  {
    if Inv(s) && BeginRunTx(s, rid, run).Ok? {
      StateIsLocal(s, run.task);
      BeginRunStep(s, rid, run);
      StepKeepsInv(s, BeginRunTx(s, rid, run).value, run.task);
    }
  }

  lemma UpdateRunKeeps(s: ProjectState, rid: Id, files: Option<seq<string>>, implementation: Option<Commit>,
                       to: Option<RunState>)
    ensures Inv(s) ==> Inv(Committed(s, UpdateRunTx(s, rid, files, implementation, to)))
  {
    if Inv(s) && UpdateRunTx(s, rid, files, implementation, to).Ok? {
      RunTaskExists(s, rid);
      StateIsLocal(s, s.runs[rid].task);
      UpdateRunStep(s, rid, files, implementation, to);
      StepKeepsInv(s, UpdateRunTx(s, rid, files, implementation, to).value, s.runs[rid].task);
    }
  }

  lemma FailRunKeeps(s: ProjectState, rid: Id, block: bool)
    ensures Inv(s) ==> Inv(Committed(s, FailRunTx(s, rid, block)))
  {
    if Inv(s) && FailRunTx(s, rid, block).Ok? {
      RunTaskExists(s, rid);
      StateIsLocal(s, s.runs[rid].task);
      FailRunStep(s, rid, block);
      StepKeepsInv(s, FailRunTx(s, rid, block).value, s.runs[rid].task);
    }
  }

  lemma CompleteRunKeeps(s: ProjectState, rid: Id)
    ensures Inv(s) ==> Inv(Committed(s, CompleteRunTx(s, rid)))
  {
    if Inv(s) && CompleteRunTx(s, rid).Ok? {
      RunTaskExists(s, rid);
      StateIsLocal(s, s.runs[rid].task);
      CompleteRunStep(s, rid);
      StepKeepsInv(s, CompleteRunTx(s, rid).value, s.runs[rid].task);
    }
  }

  lemma BeginIntegrationKeeps(s: ProjectState, rid: Id, expected: Commit)
    ensures Inv(s) ==> Inv(Committed(s, BeginIntegrationTx(s, rid, expected)))
  {
    if Inv(s) && BeginIntegrationTx(s, rid, expected).Ok? {
      RunTaskExists(s, rid);
      StateIsLocal(s, s.runs[rid].task);
      BeginIntegrationStep(s, rid, expected);
      StepKeepsInv(s, BeginIntegrationTx(s, rid, expected).value, s.runs[rid].task);
    }
  }

  lemma RecordRebaseKeeps(s: ProjectState, rid: Id, oldBase: Commit, newBase: Commit, commit: Commit,
                          files: seq<string>)
    ensures Inv(s) ==> Inv(Committed(s, RecordRebaseTx(s, rid, oldBase, newBase, commit, files)))
  {
    if Inv(s) && RecordRebaseTx(s, rid, oldBase, newBase, commit, files).Ok? {
      RunTaskExists(s, rid);
      StateIsLocal(s, s.runs[rid].task);
      RecordRebaseStep(s, rid, oldBase, newBase, commit, files);
      StepKeepsInv(s, RecordRebaseTx(s, rid, oldBase, newBase, commit, files).value, s.runs[rid].task);
    }
  }

  lemma FinalizeKeeps(s: ProjectState, rid: Id, expected: Commit, commit: Commit, tests: seq<TestExecution>)
    ensures Inv(s) ==> Inv(Committed(s, FinalizeTx(s, rid, expected, commit, tests)))
  {
    if Inv(s) && FinalizeTx(s, rid, expected, commit, tests).Ok? {
      RunTaskExists(s, rid);
      StateIsLocal(s, s.runs[rid].task);
      FinalizeStep(s, rid, expected, commit, tests);
      StepKeepsInv(s, FinalizeTx(s, rid, expected, commit, tests).value, s.runs[rid].task);
    }
  }

  lemma ResetIntegrationKeeps(s: ProjectState, rid: Id)
    ensures Inv(s) ==> Inv(Committed(s, ResetIntegrationTx(s, rid)))
  {
    if Inv(s) && ResetIntegrationTx(s, rid).Ok? {
      RunTaskExists(s, rid);
      StateIsLocal(s, s.runs[rid].task);
      ResetIntegrationStep(s, rid);
      StepKeepsInv(s, ResetIntegrationTx(s, rid).value, s.runs[rid].task);
    }
  }

  lemma SubmitKeeps(s: ProjectState, aid: Id, files: seq<string>, tests: seq<TestExecution>,
                    implementation: Option<Commit>, rid: Option<Id>, rule: ClassRule)
    ensures Inv(s) ==> Inv(Committed(s, SubmitTx(s, aid, files, tests, implementation, rid, rule)))
  {
    if Inv(s) && SubmitTx(s, aid, files, tests, implementation, rid, rule).Ok? {
      StateIsLocal(s, s.agents[aid].contract.task);
      SubmitStep(s, aid, files, tests, implementation, rid, rule);
      StepKeepsInv(s, SubmitTx(s, aid, files, tests, implementation, rid, rule).value, s.agents[aid].contract.task);
    }
  }

  lemma AssignReviewerKeeps(s: ProjectState, tid: Id, aid: Id)
    ensures Inv(s) ==> Inv(Committed(s, AssignReviewerTx(s, tid, aid)))
  {
    if Inv(s) && AssignReviewerTx(s, tid, aid).Ok? {
      StateIsLocal(s, tid);
      AssignReviewerStep(s, tid, aid);
      StepKeepsInv(s, AssignReviewerTx(s, tid, aid).value, tid);
    }
  }

  lemma RecordReviewKeeps(s: ProjectState, tid: Id, aid: Id, approved: bool)
    ensures Inv(s) ==> Inv(Committed(s, RecordReviewTx(s, tid, aid, approved)))
  {
    if Inv(s) && RecordReviewTx(s, tid, aid, approved).Ok? {
      StateIsLocal(s, tid);
      RecordReviewStep(s, tid, aid, approved);
      StepKeepsInv(s, RecordReviewTx(s, tid, aid, approved).value, tid);
    }
  }

  lemma AssignQaKeeps(s: ProjectState, tid: Id, aid: Id)
    ensures Inv(s) ==> Inv(Committed(s, AssignQaTx(s, tid, aid)))
  {
    if Inv(s) && AssignQaTx(s, tid, aid).Ok? {
      StateIsLocal(s, tid);
      AssignQaStep(s, tid, aid);
      StepKeepsInv(s, AssignQaTx(s, tid, aid).value, tid);
    }
  }

  lemma RecordQaKeeps(s: ProjectState, tid: Id, aid: Id, runs: seq<TestExecution>)
    ensures Inv(s) ==> Inv(Committed(s, RecordQaTx(s, tid, aid, runs)))
  {
    if Inv(s) && RecordQaTx(s, tid, aid, runs).Ok? {
      StateIsLocal(s, tid);
      RecordQaStep(s, tid, aid, runs);
      StepKeepsInv(s, RecordQaTx(s, tid, aid, runs).value, tid);
    }
  }

  lemma RecordSecurityKeeps(s: ProjectState, tid: Id, aid: Id, approved: bool)
    ensures Inv(s) ==> Inv(Committed(s, RecordSecurityTx(s, tid, aid, approved)))
  {
    if Inv(s) && RecordSecurityTx(s, tid, aid, approved).Ok? {
      StateIsLocal(s, tid);
      RecordSecurityStep(s, tid, aid, approved);
      StepKeepsInv(s, RecordSecurityTx(s, tid, aid, approved).value, tid);
    }
  }

  lemma ReopenKeeps(s: ProjectState, tid: Id)
    ensures Inv(s) ==> Inv(Committed(s, ReopenTx(s, tid)))
  {
    if Inv(s) && ReopenTx(s, tid).Ok? {
      StateIsLocal(s, tid);
      ReopenStep(s, tid);
      StepKeepsInv(s, ReopenTx(s, tid).value, tid);
    }
  }

  lemma CancelKeeps(s: ProjectState, tid: Id)
    ensures Inv(s) ==> Inv(Committed(s, CancelTx(s, tid)))
  {
    if Inv(s) && CancelTx(s, tid).Ok? {
      StateIsLocal(s, tid);
      CancelStep(s, tid);
      StepKeepsInv(s, CancelTx(s, tid).value, tid);
    }
  }

  lemma RebaseKeeps(s: ProjectState, tid: Id, newBase: Commit)
    ensures Inv(s) ==> Inv(Committed(s, RebaseTx(s, tid, newBase)))
  {
    if Inv(s) && RebaseTx(s, tid, newBase).Ok? {
      StateIsLocal(s, tid);
      RebaseStep(s, tid, newBase);
      StepKeepsInv(s, RebaseTx(s, tid, newBase).value, tid);
    }
  }

  lemma IntegrateKeeps(s: ProjectState, tid: Id, commit: Commit)
    ensures Inv(s) ==> Inv(Committed(s, IntegrateTx(s, tid, commit)))
  {
    if Inv(s) && IntegrateTx(s, tid, commit).Ok? {
      StateIsLocal(s, tid);
      IntegrateStep(s, tid, commit);
      StepKeepsInv(s, IntegrateTx(s, tid, commit).value, tid);
    }
  }
}
