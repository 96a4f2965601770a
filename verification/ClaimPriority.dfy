/** Which job a claim takes, told by the fields of the rows (tankai/dev_orchestrator/job_queue.py). */
module ClaimPriority {
  import opened Common
  import opened Ordering
  import opened Fencing
  import opened JobQueue
  import opened QueueInvariants

  /** Queued, not in backoff, in an enabled workspace and a registered repository. */
  predicate Due(cfg: Config, j: Job, now: Time) {
    && j.state.Queued? && j.availableAt <= now
    && j.workspace in cfg.policies && cfg.policies[j.workspace].enabled && j.repository in cfg.repositories
  }

  /** Of higher priority, or as high and older; the id decides between jobs of the same instant. */
  predicate Ahead(a: Job, b: Job) {
    a.priority > b.priority
    || (a.priority == b.priority
        && (a.createdAt < b.createdAt || (a.createdAt == b.createdAt && a.id != b.id && StringLeq(a.id, b.id))))
  }

  function DueAhead(cfg: Config, jobs: seq<Job>, now: Time, k: nat): set<nat>
    requires k < |jobs|
  {
    set m: nat | m < |jobs| && Due(cfg, jobs[m], now) && Ahead(jobs[m], jobs[k])
  }

  /** Due, and among the first 200 that are. */
  predicate Considered(cfg: Config, jobs: seq<Job>, now: Time, k: nat)
    requires k < |jobs|
  {
    Due(cfg, jobs[k], now) && |DueAhead(cfg, jobs, now, k)| < 200
  }

  /** The workspace is at its limit, or somebody works on the repository, or its fence has not expired. */
  predicate Blocked(cfg: Config, jobs: seq<Job>, j: Job, rows: FenceTable, at: Time)
    requires j.workspace in cfg.policies
  {
    || |ActiveInWorkspace(jobs, j.workspace)| >= cfg.policies[j.workspace].maxRunning
    || (exists m :: 0 <= m < |jobs| && jobs[m].repository == j.repository && (jobs[m].state.Leased? || jobs[m].state.Running?))
    || (j.repository in rows && rows[j.repository].expires.Some? && at < rows[j.repository].expires.value)
  }

  ghost predicate DistinctIds(jobs: seq<Job>) {
    forall i, k :: 0 <= i < k < |jobs| ==> jobs[i].id != jobs[k].id
  }

  // ----- recovery -----

  /** What recovery makes of a row: a lease that ran out is extended with the fence's, or taken away. */
  function RecoveredRow(j: Job, rows: FenceTable, now: Time, fenceNow: Time): Job {
    if !(j.state.Leased? || j.state.Running?) || j.leaseExpires.None? || now < j.leaseExpires.value then j
    else if j.repository in rows && rows[j.repository].job == Some(j.id) && rows[j.repository].tokenHash.Some?
            && j.fenceEpoch == Some(rows[j.repository].epoch)
            && rows[j.repository].expires.Some? && fenceNow < rows[j.repository].expires.value then
      j.(leaseExpires := rows[j.repository].expires)
    else if j.attempts < j.maxAttempts then
      j.(state := Queued, availableAt := now, leaseOwner := None, leaseHash := None, leaseExpires := None, fenceEpoch := None)
    else j.(state := Failed, availableAt := now, leaseOwner := None, leaseHash := None, leaseExpires := None)
  }

  lemma {:induction false} RecoveryRowByRow(db: Db, i: nat, rows: FenceTable, now: Time, fenceNow: Time)
    requires i <= |db.jobs|
    ensures var after := RecoverFrom(db, i, rows, now, fenceNow).jobs;
            && |after| == |db.jobs|
            && forall k :: 0 <= k < |after| ==> after[k] == if k < i then db.jobs[k] else RecoveredRow(db.jobs[k], rows, now, fenceNow)
    decreases |db.jobs| - i
  {
    if i < |db.jobs| {
      var db' := RecoverAt(db, i, rows, now, fenceNow);
      RecoveryOfOneRow(db, i, rows, now, fenceNow);
      RecoveryRowByRow(db', i + 1, rows, now, fenceNow);
    }
  }

  lemma RecoveryOfOneRow(db: Db, i: nat, rows: FenceTable, now: Time, fenceNow: Time)
    requires i < |db.jobs|
    ensures RecoverAt(db, i, rows, now, fenceNow).jobs == db.jobs[i := RecoveredRow(db.jobs[i], rows, now, fenceNow)]
  {
    assert db.jobs == db.jobs[i := db.jobs[i]];
  }

  lemma RecoveryKeepsIds(db: Db, rows: FenceTable, now: Time, fenceNow: Time)
    requires DistinctIds(db.jobs)
    ensures DistinctIds(RecoverFrom(db, 0, rows, now, fenceNow).jobs)
  {
    RecoveryRowByRow(db, 0, rows, now, fenceNow);
  }

  // ----- counting is the size of a set -----

  lemma NotClaimableMeansBlocked(cfg: Config, jobs: seq<Job>, j: Job, rows: FenceTable, at: Time)
    requires j.workspace in cfg.policies
    ensures !Claimable(cfg, jobs, j, rows, at) <==> Blocked(cfg, jobs, j, rows, at)
  {
    CountIsSize(jobs, ActiveIn(j.workspace));
    CountIsSize(jobs, ActiveOn(j.repository));
    assert ActiveInWorkspace(jobs, j.workspace) == MatchingRows(jobs, ActiveIn(j.workspace));
    var on := MatchingRows(jobs, ActiveOn(j.repository));
    if Count(jobs, ActiveOn(j.repository)) > 0 {
      var m :| m in on;
      assert jobs[m].repository == j.repository && (jobs[m].state.Leased? || jobs[m].state.Running?);
    } else {
      assert on == {};
      forall m | 0 <= m < |jobs|
        ensures !(jobs[m].repository == j.repository && (jobs[m].state.Leased? || jobs[m].state.Running?))
      {
        assert m !in on;
      }
    }
  }

  // ----- the candidates in order are the considered rows -----

  lemma DueIsCandidate(cfg: Config, j: Job, now: Time)
    ensures Due(cfg, j, now) <==> IsCandidate(cfg, j, now)
  {
  }

  lemma AheadIsBefore(a: Job, b: Job)
    requires a.id != b.id
    ensures (Ahead(a, b) <==> Before(a, b)) && !(Ahead(a, b) && Ahead(b, a))
  {
    StringLeqTotal(a.id, b.id);
  }

  function Members(order: seq<nat>): set<nat> {
    set m: nat | m in order
  }

  lemma {:induction false} PrefixSize(order: seq<nat>, p: nat)
    requires p <= |order| && forall i, k :: 0 <= i < k < |order| ==> order[i] != order[k]
    ensures |Members(order[..p])| == p
  {
    if p > 0 {
      PrefixSize(order, p - 1);
      assert order[..p] == order[..p - 1] + [order[p - 1]];
      assert order[p - 1] !in order[..p - 1];
      assert Members(order[..p]) == Members(order[..p - 1]) + {order[p - 1]};
    }
  }

  /** As many due rows are ahead of a candidate as stand before it in the sorted list. */
  lemma PositionIsDueAhead(cfg: Config, jobs: seq<Job>, now: Time, order: seq<nat>, p: nat)
    requires DistinctIds(jobs) && p < |order| && InClaimOrder(jobs, order)
    requires GoodCandidates(cfg, jobs, order, |jobs|, now)
    ensures |DueAhead(cfg, jobs, now, order[p])| == p
  {
    var k := order[p];
    forall m: nat
      ensures m in DueAhead(cfg, jobs, now, k) <==> m in order[..p]
    {
      if m in order[..p] {
        var i :| 0 <= i < p && order[i] == m;
        DueIsCandidate(cfg, jobs[m], now);
        AheadIsBefore(jobs[m], jobs[k]);
      }
      if m < |jobs| && Due(cfg, jobs[m], now) && Ahead(jobs[m], jobs[k]) {
        DueIsCandidate(cfg, jobs[m], now);
        assert m in order;
        var i :| 0 <= i < |order| && order[i] == m;
        if i > p {
          AheadIsBefore(jobs[m], jobs[k]);
          AheadIsBefore(jobs[k], jobs[m]);
        }
        assert i < p;
      }
    }
    assert DueAhead(cfg, jobs, now, k) == Members(order[..p]);
    PrefixSize(order, p);
  }

  lemma OrderIsConsidered(cfg: Config, jobs: seq<Job>, now: Time, k: nat)
    requires DistinctIds(jobs) && k < |jobs|
    ensures k in ClaimOrder(cfg, jobs, now) <==> Considered(cfg, jobs, now, k)
  {
    var all := SortedCandidates(cfg, jobs, |jobs|, now);
    SortedCandidatesMembers(cfg, jobs, |jobs|, now);
    SortedCandidatesSorted(cfg, jobs, |jobs|, now);
    DueIsCandidate(cfg, jobs[k], now);
    if k in all {
      var p :| 0 <= p < |all| && all[p] == k;
      PositionIsDueAhead(cfg, jobs, now, all, p);
      var order := ClaimOrder(cfg, jobs, now);
      if p < |order| {
        assert order[p] == k;
      }
    }
  }

  // ----- the scan -----

  lemma FailedRowBlocksAlike(cfg: Config, jobs: seq<Job>, i: nat, j: Job, rows: FenceTable, at: Time)
    requires i < |jobs| && jobs[i].state.Queued?
    ensures Claimable(cfg, jobs[i := jobs[i].(state := Failed)], j, rows, at) <==> Claimable(cfg, jobs, j, rows, at)
  {
    CountUpdate(jobs, i, jobs[i].(state := Failed), ActiveIn(j.workspace));
    CountUpdate(jobs, i, jobs[i].(state := Failed), ActiveOn(j.repository));
  }

  predicate PassedOver(cfg: Config, jobs: seq<Job>, j: Job, corrupt: set<Id>, rows: FenceTable, at: Time) {
    j.id in corrupt || !Claimable(cfg, jobs, j, rows, at)
  }

  /** The first `c` candidates were passed over and the next one, if any, was chosen. */
  ghost predicate StopsAt(cfg: Config, jobs: seq<Job>, order: seq<nat>, corrupt: set<Id>, rows: FenceTable, at: Time, c: nat) {
    && c <= |order| && (forall m :: 0 <= m < |order| ==> order[m] < |jobs|)
    && (c < |order| ==> !PassedOver(cfg, jobs, jobs[order[c]], corrupt, rows, at))
    && forall m :: 0 <= m < c ==> PassedOver(cfg, jobs, jobs[order[m]], corrupt, rows, at)
  }

  /** The corrupt rows among those passed over have failed; all others are as they were. */
  ghost predicate OnlyCorruptFailed(before: seq<Job>, after: seq<Job>, passed: seq<nat>, corrupt: set<Id>) {
    && |after| == |before|
    && forall k :: 0 <= k < |before| ==>
         after[k] == if k in passed && before[k].id in corrupt then before[k].(state := Failed) else before[k]
  }

  lemma StopsOneLater(cfg: Config, jobs: seq<Job>, after: seq<Job>, order: seq<nat>, corrupt: set<Id>, rows: FenceTable,
                      at: Time, c: nat)
    requires QueuedDistinct(jobs, order) && |order| > 0 && PassedOver(cfg, jobs, jobs[order[0]], corrupt, rows, at)
    requires after == jobs || after == jobs[order[0] := jobs[order[0]].(state := Failed)]
    requires StopsAt(cfg, after, order[1..], corrupt, rows, at, c)
    ensures StopsAt(cfg, jobs, order, corrupt, rows, at, c + 1)
  {
    var rest := order[1..];
    forall m | 0 <= m < |rest|
      ensures rest[m] == order[m + 1]
      ensures PassedOver(cfg, after, after[rest[m]], corrupt, rows, at)
              <==> PassedOver(cfg, jobs, jobs[order[m + 1]], corrupt, rows, at)
    {
      assert order[m + 1] != order[0];
      FailedRowBlocksAlike(cfg, jobs, order[0], jobs[rest[m]], rows, at);
    }
    forall m | 0 <= m < c + 1
      ensures PassedOver(cfg, jobs, jobs[order[m]], corrupt, rows, at)
    {
      if m > 0 {
        assert PassedOver(cfg, after, after[rest[m - 1]], corrupt, rows, at);
      }
    }
  }

  lemma FailedOneMore(before: seq<Job>, middle: seq<Job>, after: seq<Job>, i: nat, passed: seq<nat>, corrupt: set<Id>)
    requires i < |before| && i !in passed && OnlyCorruptFailed(middle, after, passed, corrupt)
    requires middle == if before[i].id in corrupt then before[i := before[i].(state := Failed)] else before
    ensures OnlyCorruptFailed(before, after, [i] + passed, corrupt)
  {
  }

  /** The database after passing over the first candidate. */
  function Passed(db: Db, i: nat, corrupt: set<Id>, now: Time): Db
    requires i < |db.jobs|
  {
    if db.jobs[i].id in corrupt then Put(db, i, db.jobs[i].(state := Failed), JobIntegrityFailed, now) else db
  }

  lemma ScanStep(cfg: Config, db: Db, order: seq<nat>, corrupt: set<Id>, rows: FenceTable, now: Time, readAt: Time)
    requires QueuedDistinct(db.jobs, order) && |order| > 0
    ensures var i := order[0];
            && QueuedDistinct(Passed(db, i, corrupt, now).jobs, order[1..])
            && Scan(cfg, db, order, corrupt, rows, now, readAt) ==
               if PassedOver(cfg, db.jobs, db.jobs[i], corrupt, rows, readAt)
               then Scan(cfg, Passed(db, i, corrupt, now), order[1..], corrupt, rows, now, readAt)
               else Scanned(db, Some(i))
  {
    QueuedStayQueued(db.jobs, order, db.jobs[order[0]].(state := Failed));
  }

  /** The scan stops at the first candidate that is neither corrupt nor blocked, and fails the corrupt ones before it. */
  ghost predicate ScanEnds(cfg: Config, db: Db, order: seq<nat>, corrupt: set<Id>, rows: FenceTable, at: Time, s: Scanned, c: nat) {
    && StopsAt(cfg, db.jobs, order, corrupt, rows, at, c)
    && s.chosen == (if c < |order| then Some(order[c]) else None)
    && OnlyCorruptFailed(db.jobs, s.db.jobs, order[..c], corrupt)
  }

  lemma ScanEndsOneLater(cfg: Config, db: Db, order: seq<nat>, corrupt: set<Id>, rows: FenceTable, now: Time, at: Time,
                         s: Scanned, c: nat)
    requires QueuedDistinct(db.jobs, order) && |order| > 0
    requires PassedOver(cfg, db.jobs, db.jobs[order[0]], corrupt, rows, at)
    requires ScanEnds(cfg, Passed(db, order[0], corrupt, now), order[1..], corrupt, rows, at, s, c)
    ensures ScanEnds(cfg, db, order, corrupt, rows, at, s, c + 1)
  {
    var i, rest, db' := order[0], order[1..], Passed(db, order[0], corrupt, now);
    StopsOneLater(cfg, db.jobs, db'.jobs, order, corrupt, rows, at, c);
    assert order[..c + 1] == [i] + rest[..c] && i !in rest[..c];
    FailedOneMore(db.jobs, db'.jobs, s.db.jobs, i, rest[..c], corrupt);
  }

  lemma {:induction false} ScanOutcome(cfg: Config, db: Db, order: seq<nat>, corrupt: set<Id>, rows: FenceTable, now: Time,
                                       readAt: Time) returns (c: nat)
    requires QueuedDistinct(db.jobs, order)
    ensures ScanEnds(cfg, db, order, corrupt, rows, readAt, Scan(cfg, db, order, corrupt, rows, now, readAt), c)
    decreases |order|
  {
    c := 0;
    if |order| > 0 {
      ScanStep(cfg, db, order, corrupt, rows, now, readAt);
      if PassedOver(cfg, db.jobs, db.jobs[order[0]], corrupt, rows, readAt) {
        var db' := Passed(db, order[0], corrupt, now);
        var c' := ScanOutcome(cfg, db', order[1..], corrupt, rows, now, readAt);
        ScanEndsOneLater(cfg, db, order, corrupt, rows, now, readAt,
                         Scan(cfg, db', order[1..], corrupt, rows, now, readAt), c');
        c := c' + 1;
      }
    }
  }

  // ----- what a claim takes -----

  /** In terms of the recovered table: the row may not be taken. */
  ghost predicate Unavailable(cfg: Config, jobs: seq<Job>, k: nat, rows: FenceTable, q: ClaimRequest)
    requires k < |jobs| && jobs[k].workspace in cfg.policies
  {
    jobs[k].id in q.corrupt || Blocked(cfg, jobs, jobs[k], rows, q.readAt)
  }

  lemma ConsideredIsPassedOver(cfg: Config, jobs: seq<Job>, k: nat, rows: FenceTable, q: ClaimRequest)
    requires k < |jobs| && Considered(cfg, jobs, q.now, k)
    ensures PassedOver(cfg, jobs, jobs[k], q.corrupt, rows, q.readAt) <==> Unavailable(cfg, jobs, k, rows, q)
  {
    NotClaimableMeansBlocked(cfg, jobs, jobs[k], rows, q.readAt);
  }

  /** The candidates in the order in which they are tried: the considered rows, each ahead of the next. */
  ghost predicate TriesConsidered(cfg: Config, jobs: seq<Job>, now: Time, order: seq<nat>) {
    && QueuedDistinct(jobs, order)
    && (forall k :: 0 <= k < |jobs| ==> (k in order <==> Considered(cfg, jobs, now, k)))
    && forall a, b :: 0 <= a < |order| && 0 <= b < |order| ==> (a < b <==> Ahead(jobs[order[a]], jobs[order[b]]))
  }

  lemma CandidateOrder(cfg: Config, jobs: seq<Job>, now: Time)
    requires DistinctIds(jobs)
    ensures TriesConsidered(cfg, jobs, now, ClaimOrder(cfg, jobs, now))
  {
    var order := ClaimOrder(cfg, jobs, now);
    ClaimOrderQueuedDistinct(cfg, jobs, now);
    SortedCandidatesSorted(cfg, jobs, |jobs|, now);
    forall k | 0 <= k < |jobs|
      ensures k in order <==> Considered(cfg, jobs, now, k)
    {
      OrderIsConsidered(cfg, jobs, now, k);
    }
    forall a, b | 0 <= a < |order| && 0 <= b < |order|
      ensures a < b <==> Ahead(jobs[order[a]], jobs[order[b]])
    {
      if a != b {
        AheadIsBefore(jobs[order[a]], jobs[order[b]]);
        AheadIsBefore(jobs[order[b]], jobs[order[a]]);
      }
    }
  }

  /** No considered row that is available is ahead of the chosen one, or there is none at all. */
  ghost predicate FirstAvailable(cfg: Config, jobs: seq<Job>, rows: FenceTable, q: ClaimRequest, chosen: Option<nat>) {
    && (forall k :: 0 <= k < |jobs| && Considered(cfg, jobs, q.now, k)
                    && (chosen.Some? ==> chosen.value < |jobs| && Ahead(jobs[k], jobs[chosen.value])) ==>
          Unavailable(cfg, jobs, k, rows, q))
    && (chosen.Some? ==>
          && chosen.value < |jobs| && Considered(cfg, jobs, q.now, chosen.value)
          && !Unavailable(cfg, jobs, chosen.value, rows, q))
  }

  /** The considered rows ahead of the chosen one that are corrupt have failed; all other rows are as they were. */
  ghost predicate CorruptAheadFailed(cfg: Config, before: seq<Job>, after: seq<Job>, q: ClaimRequest, chosen: Option<nat>) {
    && |after| == |before|
    && forall k :: 0 <= k < |before| ==>
         after[k] ==
         if Considered(cfg, before, q.now, k) && before[k].id in q.corrupt
            && (chosen.Some? ==> chosen.value < |before| && Ahead(before[k], before[chosen.value]))
         then before[k].(state := Failed) else before[k]
  }

  lemma StoppingIsTakingTheFirst(cfg: Config, jobs: seq<Job>, after: seq<Job>, rows: FenceTable, q: ClaimRequest,
                                 order: seq<nat>, c: nat)
    requires TriesConsidered(cfg, jobs, q.now, order) && StopsAt(cfg, jobs, order, q.corrupt, rows, q.readAt, c)
    requires OnlyCorruptFailed(jobs, after, order[..c], q.corrupt)
    ensures var chosen := if c < |order| then Some(order[c]) else None;
            FirstAvailable(cfg, jobs, rows, q, chosen) && CorruptAheadFailed(cfg, jobs, after, q, chosen)
  {
    forall k | 0 <= k < |jobs| && Considered(cfg, jobs, q.now, k)
      ensures PassedOver(cfg, jobs, jobs[k], q.corrupt, rows, q.readAt) <==> Unavailable(cfg, jobs, k, rows, q)
      ensures k in order[..c] <==> (c < |order| ==> Ahead(jobs[k], jobs[order[c]]))
    {
      ConsideredIsPassedOver(cfg, jobs, k, rows, q);
      var a :| 0 <= a < |order| && order[a] == k;
      if a < c {
        assert order[..c][a] == k;
      }
      if k in order[..c] {
        var b :| 0 <= b < c && order[b] == k;
      }
    }
    forall k | 0 <= k < |jobs| && !Considered(cfg, jobs, q.now, k)
      ensures k !in order[..c]
    {
      assert k !in order;
    }
  }

  /**
   * A claim takes the first of the considered rows that is available, and nothing exactly when none is: every considered
   * row ahead of it is corrupt or blocked. On the way it fails the corrupt ones, and touches no other row.
   */
  lemma ClaimTakesTheFirstAvailable(cfg: Config, db: Db, rows: FenceTable, q: ClaimRequest)
    requires DistinctIds(db.jobs)
    ensures var jobs, s := RecoverFrom(db, 0, rows, q.now, q.fenceNow).jobs, ClaimScan(cfg, db, rows, q);
            FirstAvailable(cfg, jobs, rows, q, s.chosen) && CorruptAheadFailed(cfg, jobs, s.db.jobs, q, s.chosen)
  {
    var recovered := RecoverFrom(db, 0, rows, q.now, q.fenceNow);
    var jobs, order := recovered.jobs, ClaimOrder(cfg, recovered.jobs, q.now);
    RecoveryKeepsIds(db, rows, q.now, q.fenceNow);
    CandidateOrder(cfg, jobs, q.now);
    var c := ScanOutcome(cfg, recovered, order, q.corrupt, rows, q.now, q.readAt);
    StoppingIsTakingTheFirst(cfg, jobs, ClaimScan(cfg, db, rows, q).db.jobs, rows, q, order, c);
  }
}
