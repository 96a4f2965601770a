/** What the holder of a lease can do with it, told by the fields of the rows (job_queue.py, fencing.py). */
module LeaseLifecycle {
  import opened Common
  import opened Fencing
  import opened JobQueue
  import opened QueueInvariants
  import opened ClaimPriority

  /** A duration in seconds, kept between the two bounds. */
  function Clamped(seconds: int, low: int, high: int): Time {
    (if seconds < low then low else if seconds > high then high else seconds) * 1_000_000
  }

  /** Row and fence name this token, at the same epoch, and neither has expired. */
  predicate HoldsBoth(j: Job, rows: FenceTable, token: string, now: Time, fenceNow: Time) {
    && j.leaseHash == Some(Sha256(token)) && j.leaseExpires.Some? && now < j.leaseExpires.value
    && j.repository in rows && j.fenceEpoch == Some(rows[j.repository].epoch)
    && rows[j.repository].job == Some(j.id) && rows[j.repository].tokenHash == Some(Sha256(token))
    && rows[j.repository].expires.Some? && fenceNow < rows[j.repository].expires.value
  }

  lemma IndexOfRow(jobs: seq<Job>, i: nat)
    requires DistinctIds(jobs) && i < |jobs|
    ensures IndexOf(jobs, jobs[i].id) == i
  {
  }

  /** A worker is let through exactly when it holds both leases of a row in one of the states. */
  lemma PassesIffHoldsBoth(jobs: seq<Job>, rows: FenceTable, i: nat, token: string, states: set<JobState>, now: Time,
                           fenceNow: Time)
    requires DistinctIds(jobs) && i < |jobs|
    ensures LeasedRow(jobs, rows, jobs[i].id, token, states, now, fenceNow).Ok?
            <==> jobs[i].state in states && HoldsBoth(jobs[i], rows, token, now, fenceNow)
    ensures LeasedRow(jobs, rows, jobs[i].id, token, states, now, fenceNow).Ok? ==>
              LeasedRow(jobs, rows, jobs[i].id, token, states, now, fenceNow) == Ok(i)
  {
    IndexOfRow(jobs, i);
  }

  /** The holder of a leased row starts it; everybody else changes nothing. */
  lemma StartEffect(db: Db, rows: FenceTable, i: nat, token: string, now: Time, fenceNow: Time)
    requires DistinctIds(db.jobs) && i < |db.jobs|
    ensures StartTx(db, rows, db.jobs[i].id, token, now, fenceNow) ==
            if db.jobs[i].state.Leased? && HoldsBoth(db.jobs[i], rows, token, now, fenceNow)
            then Db(db.jobs[i := db.jobs[i].(state := Running)], db.events + [JobEvent(db.jobs[i].id, JobStarted, now)])
            else db
  {
    PassesIffHoldsBoth(db.jobs, rows, i, token, {Leased}, now, fenceNow);
  }

  /** The holder of a running row completes it, which takes the lease off the row. */
  lemma CompleteEffect(db: Db, rows: FenceTable, i: nat, token: string, now: Time, fenceNow: Time)
    requires DistinctIds(db.jobs) && i < |db.jobs|
    ensures CompleteTx(db, rows, db.jobs[i].id, token, now, fenceNow) ==
            if db.jobs[i].state.Running? && HoldsBoth(db.jobs[i], rows, token, now, fenceNow)
            then Db(db.jobs[i := db.jobs[i].(state := Succeeded, leaseOwner := None, leaseHash := None, leaseExpires := None)],
                    db.events + [JobEvent(db.jobs[i].id, JobSucceeded, now)])
            else db
  {
    PassesIffHoldsBoth(db.jobs, rows, i, token, {Running}, now, fenceNow);
  }

  /**
   * The holder of an active row gives it up: with attempts left and a retryable failure it is queued again, available
   * after the delay, otherwise it has failed.
   */
  lemma FailEffect(db: Db, rows: FenceTable, q: FailRequest, i: nat)
    requires DistinctIds(db.jobs) && i < |db.jobs| && db.jobs[i].id == q.id
    ensures var j := db.jobs[i];
            var available := q.now + Clamped(q.delaySeconds, 0, 86400);
            FailTx(db, rows, q) ==
            if !((j.state.Leased? || j.state.Running?) && HoldsBoth(j, rows, q.token, q.now, q.fenceNow)) then db
            else if q.retryable && j.attempts < j.maxAttempts then
              Db(db.jobs[i := j.(state := Queued, availableAt := available, leaseOwner := None, leaseHash := None,
                                 leaseExpires := None, fenceEpoch := None)],
                 db.events + [JobEvent(q.id, JobRequeued, q.now)])
            else
              Db(db.jobs[i := j.(state := Failed, availableAt := available, leaseOwner := None, leaseHash := None,
                                 leaseExpires := None)],
                 db.events + [JobEvent(q.id, JobFailed, q.now)])
  {
    PassesIffHoldsBoth(db.jobs, rows, i, q.token, {Leased, Running}, q.now, q.fenceNow);
  }

  /** A heartbeat moves both expiries to the same instant, for the holder only. */
  lemma HeartbeatEffect(db: Db, fence: FenceDb, q: HeartbeatRequest, i: nat)
    requires DistinctIds(db.jobs) && i < |db.jobs| && db.jobs[i].id == q.id
    ensures var j := db.jobs[i];
            var until := q.readAt + Clamped(q.seconds, 30, 86400);
            var ok := (j.state.Leased? || j.state.Running?) && HoldsBoth(j, fence.rows, q.token, q.now, q.fenceNow)
                      && HoldsBoth(j, fence.rows, q.token, q.now, q.at);
            && HeartbeatTx(db, fence.rows, q) == (if ok then Db(db.jobs[i := j.(leaseExpires := Some(until))], db.events) else db)
            && (ok ==> Apply(fence, HeartbeatFenceOp(j, q)).rows ==
                       fence.rows[j.repository := fence.rows[j.repository].(expires := Some(until))])
  {
    PassesIffHoldsBoth(db.jobs, fence.rows, i, q.token, {Leased, Running}, q.now, q.fenceNow);
  }

  /** Row and fence name this token, at the same epoch, until the same instant. */
  predicate HeldUntil(j: Job, rows: FenceTable, token: string, until: Time) {
    && j.leaseHash == Some(Sha256(token)) && j.leaseExpires == Some(until)
    && j.repository in rows && j.fenceEpoch == Some(rows[j.repository].epoch)
    && rows[j.repository].job == Some(j.id) && rows[j.repository].tokenHash == Some(Sha256(token))
    && rows[j.repository].expires == Some(until)
  }

  /** The row of a claimed job: on the epoch after the last one, with one more attempt. */
  function Claimed(j: Job, rows: FenceTable, q: ClaimRequest): Job {
    j.(state := Leased, attempts := j.attempts + 1, leaseOwner := Some(q.worker), leaseHash := Some(Sha256(q.token)),
       leaseExpires := Some(q.readAt + Clamped(q.seconds, 30, 86400)),
       fenceEpoch := Some(1 + if j.repository in rows then rows[j.repository].epoch else 0))
  }

  lemma AcquireGrants(fence: FenceDb, j: Job, q: ClaimRequest)
    requires q.token != "" && !(j.repository in fence.rows && fence.rows[j.repository].expires.Some?
                                && q.readAt < fence.rows[j.repository].expires.value)
    ensures AcquireResult(fence.rows, ClaimFenceOp(j, q)).Ok?
    ensures var rows, row := Apply(fence, ClaimFenceOp(j, q)).rows, Claimed(j, fence.rows, q);
            && LeasedTo(j, q, AcquireResult(fence.rows, ClaimFenceOp(j, q)).value) == row
            && HeldUntil(row, rows, q.token, row.leaseExpires.value)
            && rows == fence.rows[j.repository := FenceRow(row.fenceEpoch.value, Some(j.id), Some(q.worker),
                                                          Some(Sha256(q.token)), row.leaseExpires)]
  {
  }

  lemma ChosenIsFree(cfg: Config, db: Db, rows: FenceTable, q: ClaimRequest)
    requires ClaimScan(cfg, db, rows, q).chosen.Some?
    ensures var s := ClaimScan(cfg, db, rows, q);
            var j := s.db.jobs[s.chosen.value];
            !(j.repository in rows && rows[j.repository].expires.Some? && q.readAt < rows[j.repository].expires.value)
  {
  }

  /** A claim leaves its holder with both leases, on a fresh epoch, until the same instant. */
  lemma ClaimGrantsBothLeases(cfg: Config, db: Db, fence: FenceDb, q: ClaimRequest)
    requires q.token != "" && ClaimScan(cfg, db, fence.rows, q).chosen.Some?
    ensures var s := ClaimScan(cfg, db, fence.rows, q);
            var j := s.db.jobs[s.chosen.value];
            var row := Claimed(j, fence.rows, q);
            && ClaimTx(cfg, db, fence.rows, q) ==
               Db(s.db.jobs[s.chosen.value := row], s.db.events + [JobEvent(j.id, JobLeased, q.now)])
            && HeldUntil(row, Apply(fence, ClaimFenceOp(j, q)).rows, q.token, row.leaseExpires.value)
  {
    var s := ClaimScan(cfg, db, fence.rows, q);
    ChosenIsFree(cfg, db, fence.rows, q);
    AcquireGrants(fence, s.db.jobs[s.chosen.value], q);
  }

  /** Giving the lease back frees the repository and keeps its epoch. */
  lemma ReleaseFreesRepository(fence: FenceDb, j: Job, token: string, until: Time, at: Time)
    requires HeldUntil(j, fence.rows, token, until) && at < until
    ensures Apply(fence, TerminalRelease(j, token, at)).rows ==
            fence.rows[j.repository := FenceRow(j.fenceEpoch.value, None, None, None, None)]
  {
  }

  /**
   * What is claimed can be finished: a job started and completed by its holder before the lease expires has succeeded,
   * and after the release neither row nor fence stands in the way of the next claim on its repository.
   */
  lemma HolderCanFinish(db: Db, fence: FenceDb, i: nat, token: string, until: Time, t1: Time, t2: Time, t3: Time)
    requires DistinctIds(db.jobs) && i < |db.jobs| && db.jobs[i].state.Leased?
    requires HeldUntil(db.jobs[i], fence.rows, token, until) && t1 < until && t2 < until && t3 < until
    ensures var j := db.jobs[i];
            var started := StartTx(db, fence.rows, j.id, token, t1, t1);
            var done := CompleteTx(started, fence.rows, j.id, token, t2, t2);
            && started.jobs == db.jobs[i := j.(state := Running)]
            && done.jobs == db.jobs[i := j.(state := Succeeded, leaseOwner := None, leaseHash := None, leaseExpires := None)]
            && forall next: ClaimRequest :: next.token != "" ==>
                 AcquireResult(Apply(fence, TerminalRelease(j, token, t3)).rows, ClaimFenceOp(j, next)).Ok?
  {
    var j := db.jobs[i];
    StartEffect(db, fence.rows, i, token, t1, t1);
    var started := StartTx(db, fence.rows, j.id, token, t1, t1);
    assert DistinctIds(started.jobs);
    CompleteEffect(started, fence.rows, i, token, t2, t2);
    ReleaseFreesRepository(fence, j, token, until, t3);
  }

  // ----- admission -----

  /** The user's jobs of the last hour, the hour's first instant included. */
  function Recent(jobs: seq<Job>, user: Id, now: Time): set<nat> {
    set m: nat | m < |jobs| && jobs[m].user == user && now - 3_600_000_000 <= jobs[m].createdAt
  }

  lemma {:induction false} InsertTimeSize(times: seq<Time>, t: Time)
    ensures |InsertTime(times, t)| == |times| + 1
  {
    if |times| > 0 && times[|times| - 1] > t {
      InsertTimeSize(times[..|times| - 1], t);
    }
  }

  lemma {:induction false} RecentIsSize(jobs: seq<Job>, user: Id, now: Time)
    ensures |RecentTimes(jobs, user, now - HOUR)| == |Recent(jobs, user, now)|
  {
    if |jobs| > 0 {
      var n := |jobs| - 1;
      var front, last := jobs[..n], jobs[n];
      RecentIsSize(front, user, now);
      InsertTimeSize(RecentTimes(front, user, now - HOUR), last.createdAt);
      assert Recent(jobs, user, now) ==
             if last.user == user && now - 3_600_000_000 <= last.createdAt then Recent(front, user, now) + {n}
             else Recent(front, user, now);
    }
  }

  /**
   * A new job is accepted exactly when the caller may, its key and id are new, the workspace's queue has room and the user
   * has made fewer jobs than allowed in the last hour; the row is then queued, available at once, and nobody's.
   */
  lemma NewJobIsAcceptedIff(cfg: Config, db: Db, q: EnqueueRequest)
    requires Admissible(cfg, q)
    requires forall k :: 0 <= k < |db.jobs| ==>
               !(db.jobs[k].user == q.user && db.jobs[k].workspace == q.workspace && db.jobs[k].key == q.key)
    ensures var policy := cfg.policies[q.workspace];
            var ok :=
              && |QueuedInWorkspace(db.jobs, q.workspace)| < policy.maxQueued
              && |Recent(db.jobs, q.user, q.now)| < policy.maxJobsPerUserHour
              && forall k :: 0 <= k < |db.jobs| ==> db.jobs[k].id != q.id;
            var after := EnqueueTx(cfg, db, q);
            && (Admission(cfg, db.jobs, q) == Ok(Outcome(q.id, false)) <==> ok)
            && after.jobs == if ok then db.jobs + [Job(q.id, q.user, q.workspace, q.repository, q.key, q.payload, q.priority,
                                                     Queued, 0, policy.maxAttempts, q.now, q.now, None, None, None, None)]
                             else db.jobs
  {
    CountIsSize(db.jobs, QueuedIn(q.workspace));
    assert QueuedInWorkspace(db.jobs, q.workspace) == MatchingRows(db.jobs, QueuedIn(q.workspace));
    RecentIsSize(db.jobs, q.user, q.now);
  }

  /** The same key again gives the job back unless something else is asked for, whatever the limits; nothing is stored. */
  lemma SameKeyIsReplayed(cfg: Config, db: Db, q: EnqueueRequest, k: nat)
    requires Admissible(cfg, q) && k < |db.jobs| && Keys(db)
    requires db.jobs[k].user == q.user && db.jobs[k].workspace == q.workspace && db.jobs[k].key == q.key
    ensures EnqueueTx(cfg, db, q) == db
    ensures Admission(cfg, db.jobs, q) ==
            if db.jobs[k].payload == q.payload && db.jobs[k].repository == q.repository
            then Ok(Outcome(db.jobs[k].id, true)) else Err(KeyReused)
  {
    assert IndexOfKey(db.jobs, q.user, q.workspace, q.key) == k;
  }

  /** Whoever may cancel cancels queued jobs only, and those always. */
  lemma CancelEffect(db: Db, i: nat, may: bool, now: Time)
    requires DistinctIds(db.jobs) && i < |db.jobs|
    ensures CancelTx(db, db.jobs[i].id, may, now).jobs ==
            if may && db.jobs[i].state.Queued? then db.jobs[i := db.jobs[i].(state := Cancelled)] else db.jobs
  {
    IndexOfRow(db.jobs, i);
  }

  // ----- what no transaction changes -----

  /** What was asked for, by whom and where. */
  predicate SameOrder(a: Job, b: Job) {
    && a.id == b.id && a.user == b.user && a.workspace == b.workspace && a.repository == b.repository
    && a.key == b.key && a.payload == b.payload && a.priority == b.priority && a.createdAt == b.createdAt
  }

  /** Every job keeps its place and its order, and new ones are for a repository of their own workspace. */
  ghost predicate Kept(cfg: Config, before: seq<Job>, after: seq<Job>) {
    && |before| <= |after|
    && (forall k :: 0 <= k < |before| ==> SameOrder(before[k], after[k]))
    && forall k :: |before| <= k < |after| ==>
         after[k].repository in cfg.repositories && cfg.repositories[after[k].repository] == after[k].workspace
  }

  lemma OneRowKept(cfg: Config, jobs: seq<Job>, i: nat, row: Job)
    requires i < |jobs| && SameOrder(jobs[i], row)
    ensures Kept(cfg, jobs, jobs[i := row])
  {
  }

  lemma KeptThrough(cfg: Config, a: seq<Job>, b: seq<Job>, c: seq<Job>)
    requires Kept(cfg, a, b) && Kept(cfg, b, c)
    ensures Kept(cfg, a, c)
  {
    forall k | |a| <= k < |c|
      ensures c[k].repository in cfg.repositories && cfg.repositories[c[k].repository] == c[k].workspace
    {
      if k < |b| {
        assert SameOrder(b[k], c[k]);
      }
    }
  }

  lemma RecoveryKeepsJobs(cfg: Config, db: Db, rows: FenceTable, now: Time, fenceNow: Time)
    ensures Kept(cfg, db.jobs, RecoverFrom(db, 0, rows, now, fenceNow).jobs)
  {
    RecoveryRowByRow(db, 0, rows, now, fenceNow);
  }

  lemma FailingKeepsJobs(cfg: Config, before: seq<Job>, after: seq<Job>, passed: seq<nat>, corrupt: set<Id>)
    requires OnlyCorruptFailed(before, after, passed, corrupt)
    ensures Kept(cfg, before, after)
  {
  }

  lemma ScanKeepsJobs(cfg: Config, db: Db, rows: FenceTable, q: ClaimRequest)
    ensures Kept(cfg, db.jobs, ClaimScan(cfg, db, rows, q).db.jobs)
  {
    var recovered := RecoverFrom(db, 0, rows, q.now, q.fenceNow);
    var order, s := ClaimOrder(cfg, recovered.jobs, q.now), ClaimScan(cfg, db, rows, q);
    RecoveryKeepsJobs(cfg, db, rows, q.now, q.fenceNow);
    ClaimOrderQueuedDistinct(cfg, recovered.jobs, q.now);
    var c := ScanOutcome(cfg, recovered, order, q.corrupt, rows, q.now, q.readAt);
    FailingKeepsJobs(cfg, recovered.jobs, s.db.jobs, order[..c], q.corrupt);
    KeptThrough(cfg, db.jobs, recovered.jobs, s.db.jobs);
  }

  lemma ClaimKeepsJobs(cfg: Config, db: Db, rows: FenceTable, q: ClaimRequest)
    requires q.token != ""
    ensures Kept(cfg, db.jobs, ClaimTx(cfg, db, rows, q).jobs)
  {
    var s := ClaimScan(cfg, db, rows, q);
    ScanKeepsJobs(cfg, db, rows, q);
    if s.chosen.Some? {
      var j := s.db.jobs[s.chosen.value];
      var row := LeasedTo(j, q, AcquireResult(rows, ClaimFenceOp(j, q)).value);
      OneRowKept(cfg, s.db.jobs, s.chosen.value, row);
      KeptThrough(cfg, db.jobs, s.db.jobs, ClaimTx(cfg, db, rows, q).jobs);
    }
  }

  lemma WorkerKeepsJobs(cfg: Config, db: Db, op: QueueOp)
    requires WellFormed(op) && ByWorker(op)
    ensures Kept(cfg, db.jobs, Commit(cfg, db, op).jobs)
  {
  }

  lemma CommitKeepsJobs(cfg: Config, db: Db, op: QueueOp)
    requires WellFormed(op)
    ensures Kept(cfg, db.jobs, Commit(cfg, db, op).jobs)
  {
    if ByWorker(op) {
      WorkerKeepsJobs(cfg, db, op);
    } else if op.DoClaim? {
      ClaimKeepsJobs(cfg, db, op.rows, op.claim);
    }
  }

  /** On every run no job is lost, moved or reassigned, and all are for a repository of their own workspace. */
  lemma {:induction false} NoJobIsLost(cfg: Config, db: Db, ops: seq<QueueOp>)
    requires forall k :: 0 <= k < |ops| ==> WellFormed(ops[k])
    ensures Kept(cfg, db.jobs, CommitAll(cfg, db, ops).jobs)
    decreases |ops|
  {
    if |ops| > 0 {
      var next := Commit(cfg, db, ops[0]);
      CommitKeepsJobs(cfg, db, ops[0]);
      NoJobIsLost(cfg, next, ops[1..]);
      KeptThrough(cfg, db.jobs, next.jobs, CommitAll(cfg, db, ops).jobs);
    }
  }
}
