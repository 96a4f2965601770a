/** The rolling hourly limit of enqueue_with_outcome. */
module RateLimit {
  import opened Common
  import opened Fencing
  import opened JobQueue
  import opened QueueInvariants

  // ----- the limit as an invariant -----

  /** When row `i` was accepted, fewer than its policy's limit were younger than an hour by its own clock. */
  ghost predicate AcceptedWithinLimit(cfg: Config, jobs: seq<Job>, i: nat)
    requires i < |jobs|
  {
    var j := jobs[i];
    j.workspace in cfg.policies
    && Count(jobs[..i], CreatedBy(j.user, j.createdAt - HOUR, None)) < cfg.policies[j.workspace].maxJobsPerUserHour
  }

  ghost predicate RateInv(cfg: Config, jobs: seq<Job>) {
    forall i :: 0 <= i < |jobs| ==> AcceptedWithinLimit(cfg, jobs, i)
  }

  ghost predicate LimitsAtMost(cfg: Config, limit: nat) {
    forall w :: w in cfg.policies ==> cfg.policies[w].maxJobsPerUserHour <= limit
  }

  lemma {:induction false} CountMonotone(jobs: seq<Job>, f: Filter, g: Filter)
    requires forall j :: Matches(f, j) ==> Matches(g, j)
    ensures Count(jobs, f) <= Count(jobs, g)
  {
    if |jobs| > 0 {
      CountMonotone(jobs[..|jobs| - 1], f, g);
    }
  }

  /**
   * No closed one-hour window holds more than the limit, although the timestamps are read before the
   * write lock is taken and so may be out of transaction order.
   */
  lemma {:induction false} EveryHourWithinLimit(cfg: Config, jobs: seq<Job>, limit: nat, user: Id, t: Time)
    requires RateInv(cfg, jobs) && LimitsAtMost(cfg, limit)
    ensures Count(jobs, CreatedBy(user, t, Some(t + HOUR))) <= limit
  {
    if |jobs| > 0 {
      var n := |jobs| - 1;
      var window := CreatedBy(user, t, Some(t + HOUR));
      var last := jobs[n];
      if Matches(window, last) {
        assert AcceptedWithinLimit(cfg, jobs, n);
        CountMonotone(jobs[..n], window, CreatedBy(user, last.createdAt - HOUR, None));
      } else {
        forall i | 0 <= i < n
          ensures AcceptedWithinLimit(cfg, jobs[..n], i)
        {
          assert AcceptedWithinLimit(cfg, jobs, i);
          assert jobs[..n][..i] == jobs[..i];
        }
        EveryHourWithinLimit(cfg, jobs[..n], limit, user, t);
      }
    }
  }

  // ----- every transaction keeps it -----

  /** Same rows in the same places; only their changeable columns may differ. */
  ghost predicate SameRows(a: seq<Job>, b: seq<Job>) {
    |a| == |b| && forall i :: 0 <= i < |a| ==> SameIdentity(a[i], b[i])
  }

  lemma {:induction false} SameRowsSameCount(a: seq<Job>, b: seq<Job>, user: Id, from: Time, to: Option<Time>)
    requires SameRows(a, b)
    ensures Count(a, CreatedBy(user, from, to)) == Count(b, CreatedBy(user, from, to))
  {
    if |a| > 0 {
      SameRowsSameCount(a[..|a| - 1], b[..|b| - 1], user, from, to);
    }
  }

  lemma SameRowsKeepRateInv(cfg: Config, a: seq<Job>, b: seq<Job>)
    requires SameRows(a, b) && RateInv(cfg, a)
    ensures RateInv(cfg, b)
  {
    forall i | 0 <= i < |b|
      ensures AcceptedWithinLimit(cfg, b, i)
    {
      assert AcceptedWithinLimit(cfg, a, i);
      SameRowsSameCount(a[..i], b[..i], b[i].user, b[i].createdAt - HOUR, None);
    }
  }

  lemma {:induction false} RecoverKeepsRows(db: Db, i: nat, rows: FenceTable, now: Time, fenceNow: Time)
    requires i <= |db.jobs|
    ensures SameRows(db.jobs, RecoverFrom(db, i, rows, now, fenceNow).jobs)
    decreases |db.jobs| - i
  {
    if i < |db.jobs| {
      var db' := RecoverAt(db, i, rows, now, fenceNow);
      assert SameRows(db.jobs, db'.jobs);
      RecoverKeepsRows(db', i + 1, rows, now, fenceNow);
    }
  }

  lemma {:induction false} ScanKeepsRows(cfg: Config, db: Db, order: seq<nat>, corrupt: set<Id>, rows: FenceTable, now: Time, readAt: Time)
    requires forall k :: 0 <= k < |order| ==> order[k] < |db.jobs|
    ensures SameRows(db.jobs, Scan(cfg, db, order, corrupt, rows, now, readAt).db.jobs)
    decreases |order|
  {
    if |order| > 0 {
      var j := db.jobs[order[0]];
      if j.id in corrupt {
        ScanKeepsRows(cfg, Put(db, order[0], j.(state := Failed), JobIntegrityFailed, now), order[1..], corrupt, rows, now, readAt);
      } else if !Claimable(cfg, db.jobs, j, rows, readAt) {
        ScanKeepsRows(cfg, db, order[1..], corrupt, rows, now, readAt);
      }
    }
  }

  lemma OtherCommitsKeepRows(cfg: Config, db: Db, op: QueueOp)
    requires WellFormed(op) && !op.DoEnqueue?
    ensures SameRows(db.jobs, Commit(cfg, db, op).jobs)
  {
    if op.DoClaim? {
      var q := op.claim;
      RecoverKeepsRows(db, 0, op.rows, q.now, q.fenceNow);
      var recovered := RecoverFrom(db, 0, op.rows, q.now, q.fenceNow);
      ScanKeepsRows(cfg, recovered, ClaimOrder(cfg, recovered.jobs, q.now), q.corrupt, op.rows, q.now, q.readAt);
    }
  }

  lemma {:induction false} InsertTimeLength(times: seq<Time>, t: Time)
    ensures |InsertTime(times, t)| == |times| + 1
  {
    if |times| > 0 {
      InsertTimeLength(times[..|times| - 1], t);
    }
  }

  lemma {:induction false} RecentCounts(jobs: seq<Job>, user: Id, cutoff: Time)
    ensures |RecentTimes(jobs, user, cutoff)| == Count(jobs, CreatedBy(user, cutoff, None))
  {
    if |jobs| > 0 {
      RecentCounts(jobs[..|jobs| - 1], user, cutoff);
      InsertTimeLength(RecentTimes(jobs[..|jobs| - 1], user, cutoff), jobs[|jobs| - 1].createdAt);
    }
  }

  lemma EnqueueKeepsRateInv(cfg: Config, db: Db, q: EnqueueRequest)
    requires RateInv(cfg, db.jobs)
    ensures RateInv(cfg, EnqueueTx(cfg, db, q).jobs)
  {
    var jobs' := EnqueueTx(cfg, db, q).jobs;
    RecentCounts(db.jobs, q.user, q.now - HOUR);
    forall i | 0 <= i < |jobs'|
      ensures AcceptedWithinLimit(cfg, jobs', i)
    {
      if i < |db.jobs| {
        assert AcceptedWithinLimit(cfg, db.jobs, i);
        assert jobs'[..i] == db.jobs[..i];
      } else {
        assert jobs'[..i] == db.jobs;
      }
    }
  }

  lemma {:induction false} CommitsKeepRateInv(cfg: Config, db: Db, ops: seq<QueueOp>)
    requires RateInv(cfg, db.jobs)
    requires forall k :: 0 <= k < |ops| ==> WellFormed(ops[k])
    ensures RateInv(cfg, CommitAll(cfg, db, ops).jobs)
    decreases |ops|
  {
    if |ops| > 0 {
      var db' := Commit(cfg, db, ops[0]);
      if ops[0].DoEnqueue? {
        EnqueueKeepsRateInv(cfg, db, ops[0].enqueue);
      } else {
        OtherCommitsKeepRows(cfg, db, ops[0]);
        SameRowsKeepRateInv(cfg, db.jobs, db'.jobs);
      }
      CommitsKeepRateInv(cfg, db', ops[1..]);
    }
  }

  /** The hourly limit holds on every run of queue transactions, for every user and every window. */
  lemma HourlyLimitOnEveryRun(cfg: Config, ops: seq<QueueOp>, limit: nat, user: Id, t: Time)
    requires forall k :: 0 <= k < |ops| ==> WellFormed(ops[k])
    requires LimitsAtMost(cfg, limit)
    ensures Count(CommitAll(cfg, Db([], []), ops).jobs, CreatedBy(user, t, Some(t + HOUR))) <= limit
  {
    CommitsKeepRateInv(cfg, Db([], []), ops);
    EveryHourWithinLimit(cfg, CommitAll(cfg, Db([], []), ops).jobs, limit, user, t);
  }

  // ----- retry_after -----

  predicate Sorted(times: seq<Time>) {
    forall i, k :: 0 <= i < k < |times| ==> times[i] <= times[k]
  }

  function CountFrom(times: seq<Time>, cutoff: Time): nat {
    if |times| == 0 then 0
    else CountFrom(times[..|times| - 1], cutoff) + if cutoff <= times[|times| - 1] then 1 else 0
  }

  lemma {:induction false} InsertTimeMembers(times: seq<Time>, t: Time)
    ensures forall x :: x in InsertTime(times, t) <==> x == t || x in times
  {
    var n := |times| - 1;
    if n >= 0 && times[n] > t {
      InsertTimeMembers(times[..n], t);
      assert times == times[..n] + [times[n]];
    }
  }

  lemma {:induction false} InsertTimeSorted(times: seq<Time>, t: Time)
    requires Sorted(times)
    ensures Sorted(InsertTime(times, t))
  {
    var n := |times| - 1;
    if n >= 0 && times[n] > t {
      InsertTimeSorted(times[..n], t);
      InsertTimeMembers(times[..n], t);
      var front := InsertTime(times[..n], t);
      forall i | 0 <= i < |front|
        ensures front[i] <= times[n]
      {
        assert front[i] in front;
      }
    }
  }

  lemma {:induction false} InsertTimeCounts(times: seq<Time>, t: Time, cutoff: Time)
    ensures CountFrom(InsertTime(times, t), cutoff) == CountFrom(times, cutoff) + if cutoff <= t then 1 else 0
  {
    var n := |times| - 1;
    if n < 0 || times[n] <= t {
      assert (times + [t])[..|times|] == times;
    } else {
      InsertTimeCounts(times[..n], t, cutoff);
      var front := InsertTime(times[..n], t);
      assert (front + [times[n]])[..|front|] == front;
    }
  }

  lemma {:induction false} RecentSorted(jobs: seq<Job>, user: Id, cutoff: Time)
    ensures Sorted(RecentTimes(jobs, user, cutoff))
  {
    if |jobs| > 0 {
      var n := |jobs| - 1;
      RecentSorted(jobs[..n], user, cutoff);
      InsertTimeSorted(RecentTimes(jobs[..n], user, cutoff), jobs[n].createdAt);
    }
  }

  lemma {:induction false} RecentCountFrom(jobs: seq<Job>, user: Id, cutoff: Time, later: Time)
    requires cutoff <= later
    ensures CountFrom(RecentTimes(jobs, user, cutoff), later) == Count(jobs, CreatedBy(user, later, None))
  {
    if |jobs| > 0 {
      var n := |jobs| - 1;
      RecentCountFrom(jobs[..n], user, cutoff, later);
      InsertTimeCounts(RecentTimes(jobs[..n], user, cutoff), jobs[n].createdAt, later);
    }
  }

  /** In a sorted list, fewer than `limit` entries reach the cutoff iff the limit-th newest does not. */
  lemma {:induction false} LimitDecidedByOneEntry(times: seq<Time>, limit: nat, cutoff: Time)
    requires Sorted(times) && 1 <= limit <= |times|
    ensures CountFrom(times, cutoff) < limit <==> times[|times| - limit] < cutoff
  {
    var n := |times| - 1;
    if limit > 1 {
      LimitDecidedByOneEntry(times[..n], limit - 1, cutoff);
    } else {
      NoneBelow(times[..n], cutoff);
    }
  }

  lemma {:induction false} NoneBelow(times: seq<Time>, cutoff: Time)
    requires Sorted(times)
    ensures (|times| == 0 || times[|times| - 1] < cutoff) ==> CountFrom(times, cutoff) == 0
  {
    if |times| > 0 {
      NoneBelow(times[..|times| - 1], cutoff);
    }
  }

  predicate WithinLimit(jobs: seq<Job>, user: Id, limit: pos, now: Time) {
    Count(jobs, CreatedBy(user, now - HOUR, None)) < limit
  }

  predicate ClearsAfter(jobs: seq<Job>, user: Id, limit: pos, now: Time, wait: Time) {
    WithinLimit(jobs, user, limit, now + wait)
  }

  /** The moment after which the rate check lets the user in again. */
  function Deadline(jobs: seq<Job>, user: Id, limit: pos, now: Time): Time
    requires limit <= |RecentTimes(jobs, user, now - HOUR)|
  {
    var recent := RecentTimes(jobs, user, now - HOUR);
    recent[|recent| - limit] + HOUR - now
  }

  lemma {:induction false} RecentBounded(jobs: seq<Job>, user: Id, now: Time, cutoff: Time)
    requires forall i :: 0 <= i < |jobs| && jobs[i].user == user ==> jobs[i].createdAt <= now
    ensures forall x :: x in RecentTimes(jobs, user, cutoff) ==> cutoff <= x <= now
  {
    if |jobs| > 0 {
      var n := |jobs| - 1;
      RecentBounded(jobs[..n], user, now, cutoff);
      InsertTimeMembers(RecentTimes(jobs[..n], user, cutoff), jobs[n].createdAt);
    }
  }

  /** If nothing else is accepted meanwhile, a wait clears the check exactly when it exceeds the deadline. */
  lemma WaitClearsIffPastDeadline(jobs: seq<Job>, user: Id, limit: pos, now: Time, wait: Time)
    requires limit <= |RecentTimes(jobs, user, now - HOUR)| && wait >= 0
    ensures ClearsAfter(jobs, user, limit, now, wait) <==> wait > Deadline(jobs, user, limit, now)
  {
    var recent := RecentTimes(jobs, user, now - HOUR);
    var cutoff := now + wait - HOUR;
    RecentSorted(jobs, user, now - HOUR);
    RecentCountFrom(jobs, user, now - HOUR, cutoff);
    LimitDecidedByOneEntry(recent, limit, cutoff);
    assert ClearsAfter(jobs, user, limit, now, wait) <==> CountFrom(recent, cutoff) < limit;
  }

  lemma CeilBounds(d: Time)
    requires 0 <= d
    ensures (CeilSeconds(d) - 1) * SECOND < d || d == 0
    ensures d <= CeilSeconds(d) * SECOND
    ensures d == 0 ==> CeilSeconds(d) == 0
    ensures d == CeilSeconds(d) * SECOND <==> d % SECOND == 0
  {
  }

  /**
   * With no stored timestamp in the future, waiting strictly longer than `retry_after` clears the check and
   * no shorter whole-second wait does. Waiting exactly `retry_after` is refused once more when the deadline
   * is a positive whole number of seconds, because the window is closed.
   */
  lemma RetryAfterIsTight(jobs: seq<Job>, user: Id, limit: pos, now: Time)
    requires forall i :: 0 <= i < |jobs| && jobs[i].user == user ==> jobs[i].createdAt <= now
    requires limit <= |RecentTimes(jobs, user, now - HOUR)|
    ensures var r := RetryAfter(RecentTimes(jobs, user, now - HOUR), limit, now);
            && 1 <= r <= 3600
            && (forall wait :: wait > r * SECOND ==> ClearsAfter(jobs, user, limit, now, wait))
            && (forall k :: 0 <= k < r ==> !ClearsAfter(jobs, user, limit, now, k * SECOND))
            && (ClearsAfter(jobs, user, limit, now, r * SECOND) <==>
                  Deadline(jobs, user, limit, now) == 0 || Deadline(jobs, user, limit, now) % SECOND != 0)
  {
    var recent := RecentTimes(jobs, user, now - HOUR);
    var r := RetryAfter(recent, limit, now);
    var d := Deadline(jobs, user, limit, now);
    RecentBounded(jobs, user, now, now - HOUR);
    assert recent[|recent| - limit] in recent;
    assert 0 <= d <= HOUR;
    CeilBounds(d);
    assert d <= r * SECOND && (d == 0 || (r - 1) * SECOND < d);
    forall wait | wait > r * SECOND
      ensures ClearsAfter(jobs, user, limit, now, wait)
    {
      WaitClearsIffPastDeadline(jobs, user, limit, now, wait);
    }
    forall k | 0 <= k < r
      ensures !ClearsAfter(jobs, user, limit, now, k * SECOND)
    {
      WaitClearsIffPastDeadline(jobs, user, limit, now, k * SECOND);
    }
    WaitClearsIffPastDeadline(jobs, user, limit, now, r * SECOND);
  }
}
