/** The way of one job through queue and fence together, from the claim to the release (job_queue.py). */
module WorkerRun {
  import opened Common
  import opened Fencing
  import opened JobQueue
  import opened QueueInvariants
  import opened ClaimPriority
  import opened LeaseLifecycle
  import opened LeaseProtocol

  /** A worker with this token holds the job in the row until this instant, and nobody else is at work on the queue. */
  predicate Holding(w: World, i: nat, id: Id, st: JobState, token: string, until: Time) {
    && w.pending.None? && i < |w.db.jobs| && w.db.jobs[i].id == id && w.db.jobs[i].state == st
    && HeldUntil(w.db.jobs[i], w.fence.rows, token, until)
  }

  /** No other row has changed, and this one is still for the same job. */
  ghost predicate OnlyRow(a: seq<Job>, b: seq<Job>, i: nat) {
    && |a| == |b| && i < |a| && b[i].id == a[i].id && b[i].repository == a[i].repository
    && forall k :: 0 <= k < |a| && k != i ==> b[k] == a[k]
  }

  lemma ScanKeepsIds(cfg: Config, db: Db, rows: FenceTable, q: ClaimRequest)
    requires DistinctIds(db.jobs)
    ensures DistinctIds(ClaimScan(cfg, db, rows, q).db.jobs)
  {
    RecoveryKeepsIds(db, rows, q.now, q.fenceNow);
    ClaimTakesTheFirstAvailable(cfg, db, rows, q);
  }

  /** A claim in two commits: the fence's, and then the queue's. */
  lemma ClaimSteps(cfg: Config, w: World, q: ClaimRequest)
    requires w.pending.None? && DistinctIds(w.db.jobs) && q.token != "" && w.now <= q.fenceNow <= q.readAt
    requires ClaimScan(cfg, w.db, w.fence.rows, q).chosen.Some?
    ensures var s := ClaimScan(cfg, w.db, w.fence.rows, q);
            var i, w' := s.chosen.value, Step(cfg, Step(cfg, w, ClaimBegin(q)), QueueCommit);
            && Holding(w', i, s.db.jobs[i].id, Leased, q.token, q.readAt + Clamped(q.seconds, 30, 86400))
            && w'.now == q.readAt && DistinctIds(w'.db.jobs) && w'.db == ClaimTx(cfg, w.db, w.fence.rows, q)
            && OnlyRow(s.db.jobs, w'.db.jobs, i)
  {
    ClaimGrantsBothLeases(cfg, w.db, w.fence, q);
    ScanKeepsIds(cfg, w.db, w.fence.rows, q);
  }

  /** After a crash between the two commits the queue is as it was, and the fence keeps the repository taken. */
  lemma CrashedClaim(cfg: Config, w: World, q: ClaimRequest)
    requires w.pending.None? && q.token != "" && w.now <= q.fenceNow <= q.readAt
    requires ClaimScan(cfg, w.db, w.fence.rows, q).chosen.Some?
    ensures var s := ClaimScan(cfg, w.db, w.fence.rows, q);
            var j, w' := s.db.jobs[s.chosen.value], Step(cfg, Step(cfg, w, ClaimBegin(q)), QueueCrash);
            && w'.db == w.db && w'.pending.None? && j.repository in w'.fence.rows
            && w'.fence.rows[j.repository].expires == Some(q.readAt + Clamped(q.seconds, 30, 86400))
  {
    ClaimGrantsBothLeases(cfg, w.db, w.fence, q);
  }

  lemma StartStep(cfg: Config, w: World, i: nat, id: Id, token: string, until: Time, at: Time)
    requires DistinctIds(w.db.jobs) && Holding(w, i, id, Leased, token, until) && at < until
    ensures var w' := Step(cfg, w, WorkerTx(DoStart(w.fence.rows, id, token, at, at)));
            && Holding(w', i, id, Running, token, until) && DistinctIds(w'.db.jobs) && w'.now == w.now
            && OnlyRow(w.db.jobs, w'.db.jobs, i)
  {
    StartEffect(w.db, w.fence.rows, i, token, at, at);
  }

  /** A heartbeat in two commits moves the end of both leases. */
  lemma HeartbeatSteps(cfg: Config, w: World, i: nat, token: string, until: Time, q: HeartbeatRequest)
    requires DistinctIds(w.db.jobs) && Holding(w, i, q.id, Running, token, until) && q.token == token
    requires w.now <= q.readAt <= q.at < until && q.now < until && q.fenceNow < until
    ensures var w' := Step(cfg, Step(cfg, w, HeartbeatBegin(q)), QueueCommit);
            && Holding(w', i, q.id, Running, token, q.readAt + Clamped(q.seconds, 30, 86400))
            && DistinctIds(w'.db.jobs) && w'.now == q.at && OnlyRow(w.db.jobs, w'.db.jobs, i)
  {
    HeartbeatEffect(w.db, w.fence, q, i);
    PassesIffHoldsBoth(w.db.jobs, w.fence.rows, i, token, {Leased, Running}, q.now, q.fenceNow);
  }

  lemma CompleteStep(cfg: Config, w: World, i: nat, id: Id, token: string, until: Time, at: Time)
    requires DistinctIds(w.db.jobs) && Holding(w, i, id, Running, token, until) && at < until
    ensures var w' := Step(cfg, w, WorkerTx(DoComplete(w.fence.rows, id, token, at, at)));
            && w'.pending.None? && w'.now == w.now && w'.fence == w.fence
            && OnlyRow(w.db.jobs, w'.db.jobs, i) && w'.db.jobs[i].state.Succeeded?
  {
    CompleteEffect(w.db, w.fence.rows, i, token, at, at);
  }

  lemma ReleaseStep(cfg: Config, w: World, j: Job, token: string, until: Time, at: Time)
    requires HeldUntil(j, w.fence.rows, token, until) && w.now <= at < until
    ensures var w' := Step(cfg, w, FenceTx(TerminalRelease(j, token, at)));
            && w'.db == w.db
            && w'.fence.rows == w.fence.rows[j.repository := FenceRow(j.fenceEpoch.value, None, None, None, None)]
  {
    ReleaseFreesRepository(w.fence, j, token, until, at);
  }

  lemma {:induction false} ExecConcat(cfg: Config, w: World, a: seq<WorldOp>, b: seq<WorldOp>)
    ensures Exec(cfg, w, a + b) == Exec(cfg, Exec(cfg, w, a), b)
    decreases |a|
  {
    if |a| == 0 {
      assert a + b == b;
    } else {
      assert (a + b)[1..] == a[1..] + b;
      ExecConcat(cfg, Step(cfg, w, a[0]), a[1..], b);
    }
  }

  lemma TwoSteps(cfg: Config, w: World, a: WorldOp, b: WorldOp)
    ensures Exec(cfg, w, [a, b]) == Step(cfg, Step(cfg, w, a), b)
  {
    assert [a, b][1..] == [b] && [b][1..] == [];
    assert Exec(cfg, Step(cfg, w, a), [b]) == Step(cfg, Step(cfg, w, a), b);
  }

  /** The requests are in time: each comes before the lease it relies on ends. */
  predicate InTime(w: World, q: ClaimRequest, h: HeartbeatRequest, start: Time, end: Time, release: Time) {
    var first, second := q.readAt + Clamped(q.seconds, 30, 86400), h.readAt + Clamped(h.seconds, 30, 86400);
    && w.now <= q.fenceNow <= q.readAt && start < first
    && q.readAt <= h.readAt <= h.at < first && h.now < first && h.fenceNow < first
    && end < second && h.at <= release < second
  }

  /** The claim. */
  lemma Claims(cfg: Config, w: World, q: ClaimRequest) returns (ops: seq<WorldOp>, w': World)
    requires w.pending.None? && DistinctIds(w.db.jobs) && q.token != "" && w.now <= q.fenceNow <= q.readAt
    requires ClaimScan(cfg, w.db, w.fence.rows, q).chosen.Some?
    ensures w' == Exec(cfg, w, ops) && w'.now == q.readAt && DistinctIds(w'.db.jobs)
    ensures var s := ClaimScan(cfg, w.db, w.fence.rows, q);
            var i := s.chosen.value;
            && Holding(w', i, s.db.jobs[i].id, Leased, q.token, q.readAt + Clamped(q.seconds, 30, 86400))
            && OnlyRow(s.db.jobs, w'.db.jobs, i)
  {
    ops := [ClaimBegin(q), QueueCommit];
    w' := Step(cfg, Step(cfg, w, ClaimBegin(q)), QueueCommit);
    TwoSteps(cfg, w, ClaimBegin(q), QueueCommit);
    ClaimSteps(cfg, w, q);
  }

  /** The start of the job and a heartbeat. */
  lemma StartsAndLives(cfg: Config, w: World, i: nat, token: string, until: Time, start: Time, h: HeartbeatRequest)
    returns (ops: seq<WorldOp>, w': World)
    requires DistinctIds(w.db.jobs) && Holding(w, i, h.id, Leased, token, until) && h.token == token && start < until
    requires w.now <= h.readAt <= h.at < until && h.now < until && h.fenceNow < until
    ensures w' == Exec(cfg, w, ops) && w'.now == h.at && DistinctIds(w'.db.jobs)
    ensures Holding(w', i, h.id, Running, token, h.readAt + Clamped(h.seconds, 30, 86400)) && OnlyRow(w.db.jobs, w'.db.jobs, i)
  {
    var begin := WorkerTx(DoStart(w.fence.rows, h.id, token, start, start));
    var w1 := Step(cfg, w, begin);
    StartStep(cfg, w, i, h.id, token, until, start);
    w' := Step(cfg, Step(cfg, w1, HeartbeatBegin(h)), QueueCommit);
    HeartbeatSteps(cfg, w1, i, token, until, h);
    TwoSteps(cfg, w1, HeartbeatBegin(h), QueueCommit);
    ops := [begin] + [HeartbeatBegin(h), QueueCommit];
    ExecConcat(cfg, w, [begin], [HeartbeatBegin(h), QueueCommit]);
    assert [begin][1..] == [] && Exec(cfg, w, [begin]) == w1;
  }

  /** Its end: the job has succeeded, and the repository is free for any next claim. */
  lemma EndsAndReleases(cfg: Config, w: World, i: nat, id: Id, token: string, until: Time, end: Time, release: Time)
    returns (ops: seq<WorldOp>, w': World)
    requires DistinctIds(w.db.jobs) && Holding(w, i, id, Running, token, until) && end < until && w.now <= release < until
    ensures w' == Exec(cfg, w, ops) && OnlyRow(w.db.jobs, w'.db.jobs, i) && w'.db.jobs[i].state.Succeeded?
    ensures forall next: ClaimRequest :: next.token != "" ==>
              AcquireResult(w'.fence.rows, ClaimFenceOp(w'.db.jobs[i], next)).Ok?
  {
    var j, done := w.db.jobs[i], WorkerTx(DoComplete(w.fence.rows, id, token, end, end));
    var w1, free := Step(cfg, w, done), FenceTx(TerminalRelease(j, token, release));
    CompleteStep(cfg, w, i, id, token, until, end);
    w' := Step(cfg, w1, free);
    ReleaseStep(cfg, w1, j, token, until, release);
    ops := [done, free];
    TwoSteps(cfg, w, done, free);
  }

  /**
   * Whenever a claim finds a row, its worker can start the job, keep it alive by a heartbeat before the lease ends,
   * complete it before the renewed lease ends, and leave the repository free for any next claim.
   */
  lemma AClaimedJobCanBeDone(cfg: Config, w: World, q: ClaimRequest, h: HeartbeatRequest, start: Time, end: Time, release: Time)
    returns (ops: seq<WorldOp>)
    requires w.pending.None? && DistinctIds(w.db.jobs) && q.token != "" && InTime(w, q, h, start, end, release)
    requires ClaimScan(cfg, w.db, w.fence.rows, q).chosen.Some? && h.token == q.token
    requires var s := ClaimScan(cfg, w.db, w.fence.rows, q); h.id == s.db.jobs[s.chosen.value].id
    ensures var s, w' := ClaimScan(cfg, w.db, w.fence.rows, q), Exec(cfg, w, ops);
            var i := s.chosen.value;
            && OnlyRow(s.db.jobs, w'.db.jobs, i) && w'.db.jobs[i].state.Succeeded?
            && forall next: ClaimRequest :: next.token != "" ==>
                 AcquireResult(w'.fence.rows, ClaimFenceOp(w'.db.jobs[i], next)).Ok?
  {
    var i := ClaimScan(cfg, w.db, w.fence.rows, q).chosen.value;
    var first, second := q.readAt + Clamped(q.seconds, 30, 86400), h.readAt + Clamped(h.seconds, 30, 86400);
    var ops1, w1 := Claims(cfg, w, q);
    var ops2, w2 := StartsAndLives(cfg, w1, i, q.token, first, start, h);
    var ops3, w3 := EndsAndReleases(cfg, w2, i, h.id, q.token, second, end, release);
    ops := ops1 + (ops2 + ops3);
    ExecConcat(cfg, w, ops1, ops2 + ops3);
    ExecConcat(cfg, w1, ops2, ops3);
  }
}
