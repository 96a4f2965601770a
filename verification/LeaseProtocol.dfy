/** The job table and the fence store together, under every interleaving. */
module LeaseProtocol {
  // Queue transactions, fence transactions, crashes between the two commits of a claim or a heartbeat, operators
  // and recovery interleave; a job table may even be replaced by an older snapshot.

  import opened Common
  import opened Fencing
  import opened JobQueue
  import opened QueueInvariants

  // ----- safety with any job table at all -----

  /** `assert_lease_active`: the worker may go on with a mutating stage. */
  predicate Passes(jobs: seq<Job>, rows: FenceTable, id: Id, token: string, now: Time, fenceNow: Time) {
    LeasedRow(jobs, rows, id, token, {Leased, Running}, now, fenceNow).Ok?
  }

  function RepositoryOf(jobs: seq<Job>, id: Id): Id
    requires IndexOf(jobs, id) >= 0
  {
    jobs[IndexOf(jobs, id)].repository
  }

  function EpochClaimed(jobs: seq<Job>, id: Id): Option<nat> {
    if IndexOf(jobs, id) < 0 then None else jobs[IndexOf(jobs, id)].fenceEpoch
  }

  lemma PassesHolds(jobs: seq<Job>, rows: FenceTable, id: Id, token: string, now: Time, fenceNow: Time)
    requires Passes(jobs, rows, id, token, now, fenceNow)
    ensures IndexOf(jobs, id) >= 0 && EpochClaimed(jobs, id).Some?
    ensures Holds(rows, RepositoryOf(jobs, id), id, EpochClaimed(jobs, id).value, token, fenceNow)
  {
  }

  /** Mutual exclusion: two workers that pass for one repository on the same fence are the same worker. */
  lemma OneWorkerPerRepository(rows: FenceTable,
                               jobs1: seq<Job>, id1: Id, token1: string, now1: Time, fenceNow1: Time,
                               jobs2: seq<Job>, id2: Id, token2: string, now2: Time, fenceNow2: Time)
    requires Passes(jobs1, rows, id1, token1, now1, fenceNow1)
    requires Passes(jobs2, rows, id2, token2, now2, fenceNow2)
    requires RepositoryOf(jobs1, id1) == RepositoryOf(jobs2, id2)
    ensures id1 == id2 && token1 == token2 && EpochClaimed(jobs1, id1) == EpochClaimed(jobs2, id2)
  {
    PassesHolds(jobs1, rows, id1, token1, now1, fenceNow1);
    PassesHolds(jobs2, rows, id2, token2, now2, fenceNow2);
    OneHolderPerScope(rows, RepositoryOf(jobs1, id1),
                      id1, EpochClaimed(jobs1, id1).value, token1, fenceNow1,
                      id2, EpochClaimed(jobs2, id2).value, token2, fenceNow2);
  }

  /** Tokens are drawn fresh for every claim. */
  predicate NeverReissued(ops: seq<FenceOp>, token: string) {
    forall k :: 0 <= k < |ops| ==> ops[k].Acquire? ==> ops[k].token != token
  }

  lemma {:induction false} LostTokenStaysLost(db: FenceDb, ops: seq<FenceOp>, scope: Id, token: string)
    requires NeverReissued(ops, token)
    requires scope in db.rows ==> db.rows[scope].tokenHash != Some(Sha256(token))
    ensures scope in Run(db, ops).rows ==> Run(db, ops).rows[scope].tokenHash != Some(Sha256(token))
    decreases |ops|
  {
    if |ops| > 0 {
      LostTokenStaysLost(Apply(db, ops[0]), ops[1..], scope, token);
    }
  }

  /**
   * Once another worker has passed for the repository, the earlier worker is locked out for good: no later
   * job table, restored snapshot or not, lets it pass for that repository again.
   */
  lemma StaleWorkerIsLockedOut(db: FenceDb, between: seq<FenceOp>, after: seq<FenceOp>,
                               jobs1: seq<Job>, id1: Id, token1: string, now1: Time, fenceNow1: Time,
                               jobs2: seq<Job>, id2: Id, token2: string, now2: Time, fenceNow2: Time,
                               jobs3: seq<Job>, now3: Time, fenceNow3: Time)
    requires Passes(jobs1, db.rows, id1, token1, now1, fenceNow1)
    requires Passes(jobs2, Run(db, between).rows, id2, token2, now2, fenceNow2)
    requires RepositoryOf(jobs1, id1) == RepositoryOf(jobs2, id2) && token1 != token2
    requires NeverReissued(after, token1)
    ensures EpochClaimed(jobs1, id1).value < EpochClaimed(jobs2, id2).value
    ensures IndexOf(jobs3, id1) >= 0 && RepositoryOf(jobs3, id1) == RepositoryOf(jobs1, id1) ==>
              !Passes(jobs3, Run(Run(db, between), after).rows, id1, token1, now3, fenceNow3)
  {
    PassesHolds(jobs1, db.rows, id1, token1, now1, fenceNow1);
    PassesHolds(jobs2, Run(db, between).rows, id2, token2, now2, fenceNow2);
    var scope := RepositoryOf(jobs1, id1);
    AcceptedEpochsNeverGoBack(db, between, scope,
                              id1, EpochClaimed(jobs1, id1).value, token1, fenceNow1,
                              id2, EpochClaimed(jobs2, id2).value, token2, fenceNow2);
    LostTokenStaysLost(Run(db, between), after, scope, token1);
  }

  // ----- the joint machine -----

  /** `pending` is the uncommitted table of a claim or heartbeat that holds the queue's write lock. */
  datatype World = World(db: Db, fence: FenceDb, now: Time, pending: Option<Db>)

  datatype WorldOp =
    | FenceTx(op: FenceOp)
    | UserTx(enqueueOrCancel: QueueOp)
    | WorkerTx(worker: QueueOp)
    | HeartbeatBegin(heartbeat: HeartbeatRequest)
    | ClaimBegin(claim: ClaimRequest)
    | QueueCommit
    | QueueCrash

  predicate Enabled(w: World, op: WorldOp) {
    match op
    case FenceTx(f) => w.now <= f.at && WellTimed(f)
    case UserTx(u) => w.pending.None? && (u.DoEnqueue? || u.DoCancel? || u.DoNote?)
    case WorkerTx(u) =>
      w.pending.None? && (u.DoStart? || u.DoComplete? || u.DoFail?) && u.rows == w.fence.rows
    case HeartbeatBegin(q) => w.pending.None? && w.now <= q.readAt <= q.at
    case ClaimBegin(q) => w.pending.None? && q.token != "" && w.now <= q.fenceNow <= q.readAt
    case QueueCommit => w.pending.Some?
    case QueueCrash => w.pending.Some?
  }

  function Step(cfg: Config, w: World, op: WorldOp): World {
    if !Enabled(w, op) then w
    else match op
      case FenceTx(f) => w.(fence := Apply(w.fence, f), now := f.at)
      case UserTx(u) => w.(db := Commit(cfg, w.db, u))
      case WorkerTx(u) => w.(db := Commit(cfg, w.db, u))
      case HeartbeatBegin(q) =>
        if !HeartbeatAccepted(w.db, w.fence.rows, q) then w
        else
          var i := LeasedRow(w.db.jobs, w.fence.rows, q.id, q.token, {Leased, Running}, q.now, q.fenceNow).value;
          w.(fence := Apply(w.fence, HeartbeatFenceOp(w.db.jobs[i], q)), pending := Some(HeartbeatTx(w.db, w.fence.rows, q)),
             now := q.at)
      case ClaimBegin(q) =>
        var s := ClaimScan(cfg, w.db, w.fence.rows, q);
        if s.chosen.None? then w.(db := s.db, now := q.fenceNow)
        else w.(fence := Apply(w.fence, ClaimFenceOp(s.db.jobs[s.chosen.value], q)),
                pending := Some(ClaimTx(cfg, w.db, w.fence.rows, q)), now := q.readAt)
      case QueueCommit => w.(db := w.pending.value, pending := None)
      case QueueCrash => w.(pending := None)
  }

  function Exec(cfg: Config, w: World, ops: seq<WorldOp>): World
    decreases |ops|
  {
    if |ops| == 0 then w else Exec(cfg, Step(cfg, w, ops[0]), ops[1..])
  }

  const START: World := World(Db([], []), FenceDb(map[], []), 0, None)

  // ----- every active row is backed by an issued epoch -----

  predicate Backed(j: Job, rows: FenceTable) {
    Active(j.state) ==>
      && j.fenceEpoch.Some? && 1 <= j.fenceEpoch.value <= EpochOf(rows, j.repository)
      && (j.fenceEpoch.value == EpochOf(rows, j.repository) && rows[j.repository].tokenHash.Some? ==>
            rows[j.repository].job == Some(j.id) && rows[j.repository].tokenHash == j.leaseHash)
  }

  ghost predicate AllBacked(jobs: seq<Job>, rows: FenceTable) {
    forall i :: 0 <= i < |jobs| ==> Backed(jobs[i], rows)
  }

  predicate SameLease(a: Job, b: Job) {
    Active(b.state) ==>
      Active(a.state) && a.id == b.id && a.repository == b.repository && a.fenceEpoch == b.fenceEpoch && a.leaseHash == b.leaseHash
  }

  /** No row of `b` holds a lease that the same row of `a` did not hold. */
  ghost predicate NoNewLeases(a: seq<Job>, b: seq<Job>) {
    |a| <= |b|
    && (forall i :: 0 <= i < |a| ==> SameLease(a[i], b[i]))
    && (forall i :: |a| <= i < |b| ==> !Active(b[i].state))
  }

  lemma NoNewLeasesStayBacked(a: seq<Job>, b: seq<Job>, rows: FenceTable)
    requires NoNewLeases(a, b) && AllBacked(a, rows)
    ensures AllBacked(b, rows)
  {
    forall i | 0 <= i < |b|
      ensures Backed(b[i], rows)
    {
      if i < |a| {
        assert Backed(a[i], rows) && SameLease(a[i], b[i]);
      }
    }
  }

  lemma FenceStepKeepsBacked(jobs: seq<Job>, fence: FenceDb, op: FenceOp)
    requires AllBacked(jobs, fence.rows)
    ensures AllBacked(jobs, Apply(fence, op).rows)
  {
    forall i | 0 <= i < |jobs|
      ensures Backed(jobs[i], Apply(fence, op).rows)
    {
      assert Backed(jobs[i], fence.rows);
      StepKeepsLeaseOrder(fence, op, jobs[i].repository);
    }
  }

  lemma {:induction false} RecoverGivesNoLeases(db: Db, i: nat, rows: FenceTable, now: Time, fenceNow: Time)
    requires i <= |db.jobs|
    ensures NoNewLeases(db.jobs, RecoverFrom(db, i, rows, now, fenceNow).jobs)
    decreases |db.jobs| - i
  {
    if i < |db.jobs| {
      RecoverGivesNoLeases(RecoverAt(db, i, rows, now, fenceNow), i + 1, rows, now, fenceNow);
    }
  }

  lemma {:induction false} ScanGivesNoLeases(cfg: Config, db: Db, order: seq<nat>, corrupt: set<Id>, rows: FenceTable, now: Time, readAt: Time)
    requires forall k :: 0 <= k < |order| ==> order[k] < |db.jobs|
    ensures NoNewLeases(db.jobs, Scan(cfg, db, order, corrupt, rows, now, readAt).db.jobs)
    decreases |order|
  {
    if |order| > 0 {
      var j := db.jobs[order[0]];
      if j.id in corrupt {
        ScanGivesNoLeases(cfg, Put(db, order[0], j.(state := Failed), JobIntegrityFailed, now), order[1..], corrupt, rows, now, readAt);
      } else if !Claimable(cfg, db.jobs, j, rows, readAt) {
        ScanGivesNoLeases(cfg, db, order[1..], corrupt, rows, now, readAt);
      }
    }
  }

  lemma ClaimScanGivesNoLeases(cfg: Config, db: Db, rows: FenceTable, q: ClaimRequest)
    ensures NoNewLeases(db.jobs, ClaimScan(cfg, db, rows, q).db.jobs)
  {
    var recovered := RecoverFrom(db, 0, rows, q.now, q.fenceNow);
    RecoverGivesNoLeases(db, 0, rows, q.now, q.fenceNow);
    ScanGivesNoLeases(cfg, recovered, ClaimOrder(cfg, recovered.jobs, q.now), q.corrupt, rows, q.now, q.readAt);
  }

  lemma ClaimKeepsBacked(cfg: Config, db: Db, fence: FenceDb, q: ClaimRequest)
    requires AllBacked(db.jobs, fence.rows) && q.token != ""
    requires ClaimScan(cfg, db, fence.rows, q).chosen.Some?
    ensures var s := ClaimScan(cfg, db, fence.rows, q);
            AllBacked(ClaimTx(cfg, db, fence.rows, q).jobs, Apply(fence, ClaimFenceOp(s.db.jobs[s.chosen.value], q)).rows)
  {
    var s := ClaimScan(cfg, db, fence.rows, q);
    var op := ClaimFenceOp(s.db.jobs[s.chosen.value], q);
    ClaimScanGivesNoLeases(cfg, db, fence.rows, q);
    NoNewLeasesStayBacked(db.jobs, s.db.jobs, fence.rows);
    FenceStepKeepsBacked(s.db.jobs, fence, op);
    var after := ClaimTx(cfg, db, fence.rows, q).jobs;
    forall i | 0 <= i < |after|
      ensures Backed(after[i], Apply(fence, op).rows)
    {
      assert Backed(s.db.jobs[i], Apply(fence, op).rows);
    }
  }

  ghost predicate WorldInv(cfg: Config, w: World) {
    && QueueInv(cfg, w.db) && AllBacked(w.db.jobs, w.fence.rows)
    && (w.pending.Some? ==> QueueInv(cfg, w.pending.value) && AllBacked(w.pending.value.jobs, w.fence.rows))
  }

  lemma WorkerStepsGiveNoLeases(cfg: Config, db: Db, u: QueueOp)
    requires WellFormed(u) && !u.DoClaim?
    ensures NoNewLeases(db.jobs, Commit(cfg, db, u).jobs)
  {
  }

  lemma ClaimBeginKeepsWorldInv(cfg: Config, w: World, q: ClaimRequest)
    requires WorldInv(cfg, w) && Enabled(w, ClaimBegin(q))
    ensures WorldInv(cfg, Step(cfg, w, ClaimBegin(q)))
  {
    var s := ClaimScan(cfg, w.db, w.fence.rows, q);
    ClaimScanKeepsInv(cfg, w.db, w.fence.rows, q);
    ClaimScanGivesNoLeases(cfg, w.db, w.fence.rows, q);
    NoNewLeasesStayBacked(w.db.jobs, s.db.jobs, w.fence.rows);
    if s.chosen.Some? {
      ClaimKeepsInv(cfg, w.db, w.fence.rows, q);
      ClaimKeepsBacked(cfg, w.db, w.fence, q);
      FenceStepKeepsBacked(w.db.jobs, w.fence, ClaimFenceOp(s.db.jobs[s.chosen.value], q));
    }
  }

  /** Queue transactions other than a claim keep the invariant of the queue and give out no lease. */
  lemma CommitKeepsBacked(cfg: Config, w: World, u: QueueOp)
    requires WorldInv(cfg, w) && WellFormed(u) && !u.DoClaim?
    ensures QueueInv(cfg, Commit(cfg, w.db, u)) && AllBacked(Commit(cfg, w.db, u).jobs, w.fence.rows)
  {
    CommitKeepsInv(cfg, w.db, u);
    WorkerStepsGiveNoLeases(cfg, w.db, u);
    NoNewLeasesStayBacked(w.db.jobs, Commit(cfg, w.db, u).jobs, w.fence.rows);
  }

  lemma StepKeepsWorldInv(cfg: Config, w: World, op: WorldOp)
    requires WorldInv(cfg, w)
    ensures WorldInv(cfg, Step(cfg, w, op))
  {
    if Enabled(w, op) {
      match op
      case FenceTx(f) =>
        FenceStepKeepsBacked(w.db.jobs, w.fence, f);
        if w.pending.Some? {
          FenceStepKeepsBacked(w.pending.value.jobs, w.fence, f);
        }
      case UserTx(u) => CommitKeepsBacked(cfg, w, u);
      case WorkerTx(u) => CommitKeepsBacked(cfg, w, u);
      case HeartbeatBegin(q) =>
        if HeartbeatAccepted(w.db, w.fence.rows, q) {
          var u := DoHeartbeat(w.fence.rows, q);
          var i := LeasedRow(w.db.jobs, w.fence.rows, q.id, q.token, {Leased, Running}, q.now, q.fenceNow).value;
          CommitKeepsBacked(cfg, w, u);
          FenceStepKeepsBacked(w.db.jobs, w.fence, HeartbeatFenceOp(w.db.jobs[i], q));
          FenceStepKeepsBacked(Commit(cfg, w.db, u).jobs, w.fence, HeartbeatFenceOp(w.db.jobs[i], q));
        }
      case ClaimBegin(q) => ClaimBeginKeepsWorldInv(cfg, w, q);
      case QueueCommit =>
      case QueueCrash =>
    }
  }

  lemma {:induction false} ExecKeepsWorldInv(cfg: Config, w: World, ops: seq<WorldOp>)
    requires WorldInv(cfg, w)
    ensures WorldInv(cfg, Exec(cfg, w, ops))
    decreases |ops|
  {
    if |ops| > 0 {
      StepKeepsWorldInv(cfg, w, ops[0]);
      ExecKeepsWorldInv(cfg, Step(cfg, w, ops[0]), ops[1..]);
    }
  }

  /** The lease a row holds, if any, was taken away between `a` and `b`. */
  predicate LeaseTaken(a: Job, b: Job) {
    Active(a.state) && !(Active(b.state) && b.fenceEpoch == a.fenceEpoch)
  }

  lemma {:induction false} RecoverTakesDeadLeases(db: Db, i: nat, rows: FenceTable, now: Time, fenceNow: Time, k: nat)
    requires AllBacked(db.jobs, rows) && i <= |db.jobs| && k < |db.jobs|
    requires LeaseTaken(db.jobs[k], RecoverFrom(db, i, rows, now, fenceNow).jobs[k])
    ensures Dead(rows, db.jobs[k].repository, db.jobs[k].id, db.jobs[k].fenceEpoch.value, fenceNow)
    decreases |db.jobs| - i
  {
    assert Backed(db.jobs[k], rows);
    if i < |db.jobs| {
      var db' := RecoverAt(db, i, rows, now, fenceNow);
      if LeaseTaken(db.jobs[k], db'.jobs[k]) {
        assert k == i && !FenceStillLive(db.jobs[k], rows, fenceNow);
      } else {
        assert NoNewLeases(db.jobs, db'.jobs);
        NoNewLeasesStayBacked(db.jobs, db'.jobs, rows);
        RecoverTakesDeadLeases(db', i + 1, rows, now, fenceNow, k);
      }
    }
  }

  /**
   * On every interleaving, recovery takes a lease away only when no token can pass the fence for it any
   * more, then or ever after: the job it hands out again has no live worker left.
   */
  lemma RecoveredJobsHaveNoLiveWorker(cfg: Config, ops: seq<WorldOp>, now: Time, fenceNow: Time, k: nat,
                                      after: seq<FenceOp>, token: string, later: Time)
    requires var w := Exec(cfg, START, ops);
             && k < |w.db.jobs| && Chronological(after, fenceNow) && EndTime(after, fenceNow) <= later
             && LeaseTaken(w.db.jobs[k], RecoverFrom(w.db, 0, w.fence.rows, now, fenceNow).jobs[k])
    ensures var w := Exec(cfg, START, ops);
            var j := w.db.jobs[k];
            j.fenceEpoch.Some? && !Holds(Run(w.fence, after).rows, j.repository, j.id, j.fenceEpoch.value, token, later)
  {
    EmptyQueueInv(cfg);
    ExecKeepsWorldInv(cfg, START, ops);
    var w := Exec(cfg, START, ops);
    var j := w.db.jobs[k];
    assert Backed(j, w.fence.rows);
    RecoverTakesDeadLeases(w.db, 0, w.fence.rows, now, fenceNow, k);
    DeadMeansNobodyPasses(w.fence.rows, j.repository, j.id, j.fenceEpoch.value, fenceNow);
    DeadStaysDead(w.fence, after, j.repository, j.id, j.fenceEpoch.value, fenceNow, later);
  }

  // ----- the container reaper -----

  datatype Container = Container(id: Id, scopeLabelsMatch: bool, job: Id, run: Id, phase: string, epoch: int, createdAt: Time)

  datatype ReapAction =
    | Skipped(reason: string)
    | Protected(reason: string)
    | WouldRemove
    | Removed
    | RemovalFailed

  datatype ReapRequest = ReapRequest(
    minAge: Time, dryRun: bool, staleJob: Option<Id>, staleEpoch: Option<int>, removable: set<Id>)

  predicate LiveInQueue(c: Container, jobs: seq<Job>, repository: Id, now: Time) {
    var i := IndexOf(jobs, c.job);
    i >= 0 && jobs[i].repository == repository && Active(jobs[i].state)
    && jobs[i].fenceEpoch.Some? && jobs[i].fenceEpoch.value == c.epoch
    && jobs[i].leaseExpires.Some? && jobs[i].leaseExpires.value > now
  }

  predicate LiveInFence(c: Container, status: Option<FenceStatus>) {
    status.Some? && status.value.active && status.value.job == Some(c.job) && status.value.epoch == c.epoch
  }

  /** What the reaper does with one container, given the rows and the fence it read before. */
  function Decide(c: Container, jobs: seq<Job>, repository: Id, status: Option<FenceStatus>, q: ReapRequest, now: Time): ReapAction {
    var i := IndexOf(jobs, c.job);
    var known := i >= 0 && jobs[i].repository == repository;
    if !c.scopeLabelsMatch then Skipped("invalid_scope_labels")
    else if c.job == "" || c.run == "" || c.phase == "" || c.epoch < 1 then Skipped("incomplete_identity_labels")
    else if Max(0, now - c.createdAt) < q.minAge then Skipped("below_minimum_age")
    else if LiveInQueue(c, jobs, repository, now) || LiveInFence(c, status) then
      Protected(if !LiveInFence(c, status) then "protected_by_live_queue"
                else if !LiveInQueue(c, jobs, repository, now) then "protected_by_live_fence"
                else "protected_by_live_queue_and_fence")
    else if known && jobs[i].state.Queued? then Protected("job_not_started")
    else if (!known || Active(jobs[i].state)) && !(q.staleJob == Some(c.job) && q.staleEpoch == Some(c.epoch)) then
      Skipped("exact_stale_confirmation_required")
    else if q.dryRun then WouldRemove
    else if c.id in q.removable then Removed
    else RemovalFailed
  }

  predicate Confirmed(c: Container, q: ReapRequest) {
    q.staleJob == Some(c.job) && q.staleEpoch == Some(c.epoch)
  }

  /** The job is finished, or it or its lease is gone and the caller has named just this job and epoch as stale. */
  predicate Abandoned(c: Container, row: Option<Job>, q: ReapRequest, now: Time) {
    match row
    case None => Confirmed(c, q)
    case Some(j) =>
      && !j.state.Queued?
      && (j.state.Leased? || j.state.Running? ==>
            && Confirmed(c, q)
            && !(j.fenceEpoch.Some? && j.fenceEpoch.value == c.epoch && j.leaseExpires.Some? && now < j.leaseExpires.value))
  }

  /** The fence is held by this job and epoch. */
  predicate HeldInFence(c: Container, repository: Id, rows: FenceTable, fenceNow: Time) {
    && repository in rows && rows[repository].job == Some(c.job) && rows[repository].epoch == c.epoch
    && rows[repository].tokenHash.Some? && rows[repository].expires.Some? && fenceNow < rows[repository].expires.value
  }

  /** Fully labelled for this scope, and old enough. */
  predicate Eligible(c: Container, q: ReapRequest, now: Time) {
    && c.scopeLabelsMatch && c.job != "" && c.run != "" && c.phase != "" && 1 <= c.epoch
    && (q.minAge <= 0 || q.minAge <= now - c.createdAt)
  }

  /** The row of the container's job in this repository, if there is one. */
  predicate IsRowOf(c: Container, jobs: seq<Job>, repository: Id, row: Option<Job>) {
    if row.Some? then row.value in jobs && row.value.id == c.job && row.value.repository == repository
    else forall k :: 0 <= k < |jobs| ==> jobs[k].id != c.job || jobs[k].repository != repository
  }

  /**
   * What the reaper decides, told by the fields: a container is up for removal exactly when it is eligible, abandoned and
   * not held in the fence; a dry run removes nothing and announces just what would be removed.
   */
  lemma ReaperRemovesIff(c: Container, jobs: seq<Job>, repository: Id, rows: FenceTable, q: ReapRequest, fenceNow: Time,
                         now: Time, row: Option<Job>)
    requires IsRowOf(c, jobs, repository, row)
    requires forall i, k :: 0 <= i < k < |jobs| ==> jobs[i].id != jobs[k].id
    ensures var a := Decide(c, jobs, repository, CurrentStatus(rows, repository, fenceNow), q, now);
            var removable := Eligible(c, q, now) && Abandoned(c, row, q, now) && !HeldInFence(c, repository, rows, fenceNow);
            && (a.WouldRemove? <==> removable && q.dryRun)
            && (a.Removed? <==> removable && !q.dryRun && c.id in q.removable)
            && (a.RemovalFailed? <==> removable && !q.dryRun && c.id !in q.removable)
  {
    var i := IndexOf(jobs, c.job);
    if row.Some? {
      var k :| 0 <= k < |jobs| && jobs[k] == row.value;
      assert i == k;
    }
  }

  method ReapContainers(queue: DevelopmentJobQueue, repository: Id, containers: seq<Container>, q: ReapRequest,
                        fenceNow: Time, now: Time)
    returns (actions: seq<ReapAction>, failures: nat)
    ensures |actions| == |containers|
    ensures forall k :: 0 <= k < |actions| ==>
              actions[k] == Decide(containers[k], queue.jobs, repository, CurrentStatus(queue.fence.rows, repository, fenceNow), q, now)
    ensures failures == 0 <==> RemovalFailed !in actions
  {
    var status := queue.fence.Current(repository, fenceNow);
    actions, failures := [], 0;
    for k := 0 to |containers|
      invariant |actions| == k
      invariant forall m :: 0 <= m < k ==>
                  actions[m] == Decide(containers[m], queue.jobs, repository, CurrentStatus(queue.fence.rows, repository, fenceNow), q, now)
      invariant failures == 0 <==> RemovalFailed !in actions
    {
      var action := Decide(containers[k], queue.jobs, repository, status, q, now);
      if action.RemovalFailed? {
        failures := failures + 1;
      }
      actions := actions + [action];
    }
  }

  /**
   * The reaper never removes a container whose worker could still, or ever again, pass. The container was
   * started under a lease that passed at `db`; the reaper reads rows and fence after any further
   * transactions, and removes after yet more of them.
   */
  lemma ReaperSparesEveryLiveWorker(db: FenceDb, before: seq<FenceOp>, after: seq<FenceOp>,
                                    jobs0: seq<Job>, token0: string, now0: Time, fenceNow0: Time,
                                    c: Container, jobs: seq<Job>, q: ReapRequest, fenceNow: Time, now: Time,
                                    token: string, later: Time)
    requires Passes(jobs0, db.rows, c.job, token0, now0, fenceNow0)
    requires EpochClaimed(jobs0, c.job) == Some(c.epoch)
    requires var repository := RepositoryOf(jobs0, c.job);
             var action := Decide(c, jobs, repository, CurrentStatus(Run(db, before).rows, repository, fenceNow), q, now);
             action.Removed? || action.WouldRemove? || action.RemovalFailed?
    requires Chronological(after, fenceNow) && EndTime(after, fenceNow) <= later
    ensures !Holds(Run(Run(db, before), after).rows, RepositoryOf(jobs0, c.job), c.job, c.epoch, token, later)
    ensures !Holds(Run(db, before).rows, RepositoryOf(jobs0, c.job), c.job, c.epoch, token, fenceNow)
  {
    PassesHolds(jobs0, db.rows, c.job, token0, now0, fenceNow0);
    var repository := RepositoryOf(jobs0, c.job);
    RunKeepsLeaseOrder(db, before, repository);
    var rows := Run(db, before).rows;
    assert Dead(rows, repository, c.job, c.epoch, fenceNow);
    DeadMeansNobodyPasses(rows, repository, c.job, c.epoch, fenceNow);
    DeadStaysDead(Run(db, before), after, repository, c.job, c.epoch, fenceNow, later);
  }
}
