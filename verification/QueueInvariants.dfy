/** What every queue transaction keeps, in whatever order they commit. */
module QueueInvariants {
  import opened Common
  import opened Fencing
  import opened JobQueue

  // ----- counting -----

  lemma {:induction false} CountAppend(jobs: seq<Job>, j: Job, f: Filter)
    ensures Count(jobs + [j], f) == Count(jobs, f) + if Matches(f, j) then 1 else 0
  {
    assert (jobs + [j])[..|jobs|] == jobs;
  }

  lemma {:induction false} CountUpdate(jobs: seq<Job>, i: nat, j: Job, f: Filter)
    requires i < |jobs|
    ensures Count(jobs[i := j], f)
         == Count(jobs, f) - (if Matches(f, jobs[i]) then 1 else 0) + (if Matches(f, j) then 1 else 0)
  {
    var n := |jobs| - 1;
    if i == n {
      assert jobs[i := j][..n] == jobs[..n];
    } else {
      assert jobs[i := j][..n] == jobs[..n][i := j];
      CountUpdate(jobs[..n], i, j, f);
    }
  }

  lemma {:induction false} CountPositive(jobs: seq<Job>, i: nat, f: Filter)
    requires i < |jobs| && Matches(f, jobs[i])
    ensures Count(jobs, f) >= 1
  {
    if i < |jobs| - 1 {
      CountPositive(jobs[..|jobs| - 1], i, f);
    }
  }

  /** Two different matching rows count at least two. */
  lemma {:induction false} CountTwo(jobs: seq<Job>, i: nat, k: nat, f: Filter)
    requires i < k < |jobs| && Matches(f, jobs[i]) && Matches(f, jobs[k])
    ensures Count(jobs, f) >= 2
  {
    if k == |jobs| - 1 {
      CountPositive(jobs[..k], i, f);
    } else {
      CountTwo(jobs[..|jobs| - 1], i, k, f);
    }
  }

  // ----- counting is the size of a set -----

  function MatchingRows(jobs: seq<Job>, f: Filter): set<nat> {
    set m: nat | m < |jobs| && Matches(f, jobs[m])
  }

  lemma OneMoreMatching(front: seq<Job>, j: Job, f: Filter)
    ensures |MatchingRows(front + [j], f)| == |MatchingRows(front, f)| + if Matches(f, j) then 1 else 0
  {
    var n, more := |front|, front + [j];
    var before, after := MatchingRows(front, f), MatchingRows(more, f);
    forall m: nat
      ensures m in after <==> m in before || (m == n && Matches(f, j))
    {
      assert m < n ==> more[m] == front[m];
    }
    if Matches(f, j) {
      assert after == before + {n};
    } else {
      assert after == before;
    }
  }

  lemma {:induction false} CountIsSize(jobs: seq<Job>, f: Filter)
    ensures Count(jobs, f) == |MatchingRows(jobs, f)|
  {
    if |jobs| > 0 {
      var n := |jobs| - 1;
      CountIsSize(jobs[..n], f);
      OneMoreMatching(jobs[..n], jobs[n], f);
      assert jobs == jobs[..n] + [jobs[n]];
    }
  }

  function ActiveInWorkspace(jobs: seq<Job>, w: Id): set<nat> {
    set m: nat | m < |jobs| && jobs[m].workspace == w && (jobs[m].state.Leased? || jobs[m].state.Running?)
  }

  function QueuedInWorkspace(jobs: seq<Job>, w: Id): set<nat> {
    set m: nat | m < |jobs| && jobs[m].workspace == w && jobs[m].state.Queued?
  }

  // ----- the invariant -----

  predicate Legal(a: JobState, b: JobState) {
    match a
    case Queued => b.Leased? || b.Cancelled? || b.Failed?
    case Leased => b.Running? || b.Queued? || b.Failed?
    case Running => b.Succeeded? || b.Queued? || b.Failed?
    case _ => false
  }

  predicate LegalHistory(h: seq<PublicEvent>) {
    |h| > 0 && h[0].state.Queued?
    && forall k :: 0 < k < |h| ==> Legal(h[k - 1].state, h[k].state)
  }

  function LeasedEvents(events: seq<JobEvent>, id: Id): nat {
    if |events| == 0 then 0
    else
      var e := events[|events| - 1];
      LeasedEvents(events[..|events| - 1], id) + if e.job == id && e.kind.JobLeased? then 1 else 0
  }

  /** The row agrees with its own part of the log. */
  predicate AgreesWithLog(events: seq<JobEvent>, j: Job) {
    var h := History(events, j.id);
    && LegalHistory(h) && h[|h| - 1].state == j.state
    && LeasedEvents(events, j.id) == j.attempts
  }

  predicate RowOk(j: Job) {
    && j.attempts <= j.maxAttempts
    && (j.state.Queued? ==> j.attempts < j.maxAttempts)
    && (Active(j.state) ==> j.leaseHash.Some? && j.leaseExpires.Some? && j.fenceEpoch.Some?)
    && (!Active(j.state) ==> j.leaseHash.None? && j.leaseExpires.None?)
  }

  ghost predicate RowsOk(jobs: seq<Job>) {
    && (forall i, k :: 0 <= i < k < |jobs| ==> jobs[i].id != jobs[k].id)
    && (forall i :: 0 <= i < |jobs| ==> RowOk(jobs[i]))
  }

  ghost predicate AllAgree(db: Db) {
    forall i :: 0 <= i < |db.jobs| ==> AgreesWithLog(db.events, db.jobs[i])
  }

  ghost predicate EventsKnown(db: Db) {
    forall k :: 0 <= k < |db.events| ==> IndexOf(db.jobs, db.events[k].job) >= 0
  }

  ghost predicate Rows(db: Db) {
    RowsOk(db.jobs) && AllAgree(db) && EventsKnown(db)
  }

  ghost predicate Keys(db: Db) {
    forall i, k :: 0 <= i < k < |db.jobs| ==>
      !(db.jobs[i].user == db.jobs[k].user && db.jobs[i].workspace == db.jobs[k].workspace && db.jobs[i].key == db.jobs[k].key)
  }

  ghost predicate Capacity(cfg: Config, jobs: seq<Job>) {
    && (forall w :: w in cfg.policies ==>
         && Count(jobs, ActiveIn(w)) <= cfg.policies[w].maxRunning
         && Count(jobs, QueuedIn(w)) + Count(jobs, ActiveIn(w)) <= cfg.policies[w].maxQueued + cfg.policies[w].maxRunning)
    && (forall r :: Count(jobs, ActiveOn(r)) <= 1)
  }

  ghost predicate QueueInv(cfg: Config, db: Db) {
    Rows(db) && Keys(db) && Capacity(cfg, db.jobs)
  }

  // ----- one-row updates -----

  predicate SameIdentity(a: Job, b: Job) {
    a.id == b.id && a.user == b.user && a.workspace == b.workspace && a.repository == b.repository
    && a.key == b.key && a.createdAt == b.createdAt && a.maxAttempts == b.maxAttempts
  }

  /** The log entry a row change comes with: none keeps the state, a public one moves it there legally. */
  predicate LoggedChange(a: Job, b: Job, kind: Option<EventKind>) {
    var target := if kind.Some? then EventState(kind.value) else None;
    && (if target.Some? then b.state == target.value && Legal(a.state, b.state) else b.state == a.state)
    && b.attempts == a.attempts + if kind == Some(JobLeased) then 1 else 0
  }

  predicate RowStep(a: Job, b: Job, kind: Option<EventKind>) {
    SameIdentity(a, b) && LoggedChange(a, b, kind) && (RowOk(a) ==> RowOk(b))
  }

  function Write(db: Db, i: nat, row: Job, kind: Option<EventKind>, at: Time): Db
    requires i < |db.jobs|
  {
    Db(db.jobs[i := row], db.events + if kind.Some? then [JobEvent(row.id, kind.value, at)] else [])
  }

  lemma {:induction false} LogAppend(events: seq<JobEvent>, e: JobEvent, id: Id)
    ensures History(events + [e], id)
         == History(events, id) + (if e.job == id && EventState(e.kind).Some? then [PublicEvent(EventState(e.kind).value, e.at)] else [])
    ensures LeasedEvents(events + [e], id) == LeasedEvents(events, id) + if e.job == id && e.kind.JobLeased? then 1 else 0
  {
    assert (events + [e])[..|events|] == events;
  }

  lemma AgreesAppend(events: seq<JobEvent>, e: JobEvent, j: Job)
    requires AgreesWithLog(events, j)
    requires e.job == j.id ==> EventState(e.kind).None?
    ensures AgreesWithLog(events + [e], j)
  {
    LogAppend(events, e, j.id);
  }

  lemma {:induction false} IndexOfUpdate(jobs: seq<Job>, i: nat, row: Job, id: Id)
    requires i < |jobs| && row.id == jobs[i].id
    ensures IndexOf(jobs[i := row], id) == IndexOf(jobs, id)
  {
    var n := |jobs| - 1;
    if i == n {
      assert jobs[i := row][..n] == jobs[..n];
    } else {
      assert jobs[i := row][..n] == jobs[..n][i := row];
      if jobs[n].id != id {
        IndexOfUpdate(jobs[..n], i, row, id);
      }
    }
  }

  lemma AgreesStep(events: seq<JobEvent>, e: JobEvent, a: Job, b: Job)
    requires AgreesWithLog(events, a) && RowStep(a, b, Some(e.kind)) && e.job == a.id
    ensures AgreesWithLog(events + [e], b)
  {
    LogAppend(events, e, a.id);
  }

  lemma WriteAgrees(db: Db, i: nat, row: Job, kind: Option<EventKind>, at: Time, k: nat)
    requires Rows(db) && i < |db.jobs| && RowStep(db.jobs[i], row, kind) && k < |db.jobs|
    ensures var db' := Write(db, i, row, kind, at); AgreesWithLog(db'.events, db'.jobs[k])
  {
    assert AgreesWithLog(db.events, db.jobs[k]);
    if kind.Some? {
      var e := JobEvent(row.id, kind.value, at);
      if k == i {
        AgreesStep(db.events, e, db.jobs[i], row);
      } else {
        AgreesAppend(db.events, e, db.jobs[k]);
      }
    } else {
      assert db.events + [] == db.events;
    }
  }

  lemma WriteKeepsKnown(db: Db, i: nat, row: Job, kind: Option<EventKind>, at: Time)
    requires EventsKnown(db) && i < |db.jobs| && row.id == db.jobs[i].id
    ensures EventsKnown(Write(db, i, row, kind, at))
  {
    var db' := Write(db, i, row, kind, at);
    forall k | 0 <= k < |db'.events|
      ensures IndexOf(db'.jobs, db'.events[k].job) >= 0
    {
      IndexOfUpdate(db.jobs, i, row, db'.events[k].job);
      assert k < |db.events| ==> db'.events[k] == db.events[k];
    }
  }

  lemma WriteKeepsRows(db: Db, i: nat, row: Job, kind: Option<EventKind>, at: Time)
    requires Rows(db) && i < |db.jobs| && RowStep(db.jobs[i], row, kind)
    ensures Rows(Write(db, i, row, kind, at))
  {
    var db' := Write(db, i, row, kind, at);
    forall k | 0 <= k < |db'.jobs|
      ensures AgreesWithLog(db'.events, db'.jobs[k])
    {
      WriteAgrees(db, i, row, kind, at, k);
    }
    WriteKeepsKnown(db, i, row, kind, at);
  }

  /** Room for a newly active row: what `claim_next` counts before it leases. */
  ghost predicate RoomFor(cfg: Config, jobs: seq<Job>, a: Job, b: Job) {
    Active(b.state) && !Active(a.state) ==>
      && (a.workspace in cfg.policies ==> Count(jobs, ActiveIn(a.workspace)) < cfg.policies[a.workspace].maxRunning)
      && Count(jobs, ActiveOn(a.repository)) == 0
  }

  lemma WriteKeepsCapacity(cfg: Config, db: Db, i: nat, row: Job, kind: Option<EventKind>, at: Time)
    requires Capacity(cfg, db.jobs) && i < |db.jobs| && RowStep(db.jobs[i], row, kind)
    requires RoomFor(cfg, db.jobs, db.jobs[i], row)
    ensures Capacity(cfg, Write(db, i, row, kind, at).jobs)
  {
    var jobs := db.jobs[i := row];
    forall w | w in cfg.policies
      ensures Count(jobs, ActiveIn(w)) <= cfg.policies[w].maxRunning
      ensures Count(jobs, QueuedIn(w)) + Count(jobs, ActiveIn(w)) <= cfg.policies[w].maxQueued + cfg.policies[w].maxRunning
    {
      CountUpdate(db.jobs, i, row, ActiveIn(w));
      CountUpdate(db.jobs, i, row, QueuedIn(w));
    }
    forall r
      ensures Count(jobs, ActiveOn(r)) <= 1
    {
      assert Count(db.jobs, ActiveOn(r)) <= 1;
      CountUpdate(db.jobs, i, row, ActiveOn(r));
    }
  }

  lemma WriteKeepsInv(cfg: Config, db: Db, i: nat, row: Job, kind: Option<EventKind>, at: Time)
    requires QueueInv(cfg, db) && i < |db.jobs| && RowStep(db.jobs[i], row, kind)
    requires RoomFor(cfg, db.jobs, db.jobs[i], row)
    ensures QueueInv(cfg, Write(db, i, row, kind, at))
  {
    WriteKeepsRows(db, i, row, kind, at);
    WriteKeepsCapacity(cfg, db, i, row, kind, at);
  }

  lemma PutKeepsInv(cfg: Config, db: Db, i: nat, row: Job, kind: EventKind, at: Time)
    requires QueueInv(cfg, db) && i < |db.jobs| && RowStep(db.jobs[i], row, Some(kind))
    requires RoomFor(cfg, db.jobs, db.jobs[i], row)
    ensures QueueInv(cfg, Put(db, i, row, kind, at))
  {
    WriteKeepsInv(cfg, db, i, row, Some(kind), at);
  }

  // ----- the transactions -----

  lemma {:induction false} UnknownIdHasNoLog(db: Db, n: nat, id: Id)
    requires Rows(db) && n <= |db.events| && IndexOf(db.jobs, id) < 0
    ensures History(db.events[..n], id) == [] && LeasedEvents(db.events[..n], id) == 0
  {
    if n > 0 {
      assert db.events[..n][..n - 1] == db.events[..n - 1];
      assert IndexOf(db.jobs, db.events[n - 1].job) >= 0;
      UnknownIdHasNoLog(db, n - 1, id);
    }
  }

  lemma IndexOfAppend(jobs: seq<Job>, row: Job, id: Id)
    ensures IndexOf(jobs, id) >= 0 || id == row.id ==> IndexOf(jobs + [row], id) >= 0
  {
    assert (jobs + [row])[|jobs|] == row;
    if IndexOf(jobs, id) >= 0 {
      assert (jobs + [row])[IndexOf(jobs, id)].id == id;
    }
  }

  lemma NewJobAgrees(db: Db, row: Job, at: Time)
    requires Rows(db) && IndexOf(db.jobs, row.id) < 0 && row.state.Queued? && row.attempts == 0
    ensures AgreesWithLog(db.events + [JobEvent(row.id, JobEnqueued, at)], row)
  {
    UnknownIdHasNoLog(db, |db.events|, row.id);
    assert db.events[..|db.events|] == db.events;
    LogAppend(db.events, JobEvent(row.id, JobEnqueued, at), row.id);
  }

  lemma AppendAgrees(db: Db, row: Job, at: Time, k: nat)
    requires Rows(db) && IndexOf(db.jobs, row.id) < 0 && row.state.Queued? && row.attempts == 0 && k <= |db.jobs|
    ensures AgreesWithLog(db.events + [JobEvent(row.id, JobEnqueued, at)], (db.jobs + [row])[k])
  {
    if k < |db.jobs| {
      assert AgreesWithLog(db.events, db.jobs[k]);
      AgreesAppend(db.events, JobEvent(row.id, JobEnqueued, at), db.jobs[k]);
    } else {
      NewJobAgrees(db, row, at);
    }
  }

  lemma AppendKeepsRowsOk(jobs: seq<Job>, row: Job)
    requires RowsOk(jobs) && IndexOf(jobs, row.id) < 0 && RowOk(row)
    ensures RowsOk(jobs + [row])
  {
  }

  lemma AppendKeepsEventsKnown(db: Db, row: Job, at: Time)
    requires EventsKnown(db)
    ensures EventsKnown(Db(db.jobs + [row], db.events + [JobEvent(row.id, JobEnqueued, at)]))
  {
    var db' := Db(db.jobs + [row], db.events + [JobEvent(row.id, JobEnqueued, at)]);
    forall k | 0 <= k < |db'.events|
      ensures IndexOf(db'.jobs, db'.events[k].job) >= 0
    {
      IndexOfAppend(db.jobs, row, db'.events[k].job);
    }
  }

  lemma AppendKeepsRows(db: Db, row: Job, at: Time)
    requires Rows(db) && IndexOf(db.jobs, row.id) < 0 && row.state.Queued? && row.attempts == 0 && RowOk(row)
    ensures Rows(Db(db.jobs + [row], db.events + [JobEvent(row.id, JobEnqueued, at)]))
  {
    AppendKeepsRowsOk(db.jobs, row);
    AppendKeepsEventsKnown(db, row, at);
    forall k | 0 <= k < |db.jobs| + 1
      ensures AgreesWithLog(db.events + [JobEvent(row.id, JobEnqueued, at)], (db.jobs + [row])[k])
    {
      AppendAgrees(db, row, at, k);
    }
  }

  lemma AppendKeepsCapacity(cfg: Config, jobs: seq<Job>, row: Job)
    requires Capacity(cfg, jobs) && row.state.Queued?
    requires row.workspace in cfg.policies ==> Count(jobs, QueuedIn(row.workspace)) < cfg.policies[row.workspace].maxQueued
    ensures Capacity(cfg, jobs + [row])
  {
    forall w | w in cfg.policies
      ensures Count(jobs + [row], ActiveIn(w)) <= cfg.policies[w].maxRunning
      ensures Count(jobs + [row], QueuedIn(w)) + Count(jobs + [row], ActiveIn(w)) <= cfg.policies[w].maxQueued + cfg.policies[w].maxRunning
    {
      CountAppend(jobs, row, ActiveIn(w));
      CountAppend(jobs, row, QueuedIn(w));
    }
    forall x
      ensures Count(jobs + [row], ActiveOn(x)) <= 1
    {
      assert Count(jobs, ActiveOn(x)) <= 1;
      CountAppend(jobs, row, ActiveOn(x));
    }
  }

  lemma EnqueueKeepsInv(cfg: Config, db: Db, q: EnqueueRequest)
    requires QueueInv(cfg, db)
    ensures QueueInv(cfg, EnqueueTx(cfg, db, q))
  {
    var r := Admission(cfg, db.jobs, q);
    if r.Ok? && !r.value.replay {
      var row := NewRow(cfg.policies[q.workspace], q);
      AppendKeepsRows(db, row, q.now);
      AppendKeepsCapacity(cfg, db.jobs, row);
    }
  }

  lemma ReturnKeepsInv(cfg: Config, db: Db, i: nat, retry: bool, kind: EventKind, available: Time, at: Time)
    requires QueueInv(cfg, db) && i < |db.jobs| && Active(db.jobs[i].state)
    requires retry ==> db.jobs[i].attempts < db.jobs[i].maxAttempts
    requires EventState(kind) == Some(if retry then Queued else Failed) && !kind.JobLeased?
    ensures QueueInv(cfg, Put(db, i, Returned(db.jobs[i], retry, available), kind, at))
  {
    PutKeepsInv(cfg, db, i, Returned(db.jobs[i], retry, available), kind, at);
  }

  lemma RecoverAtKeepsInv(cfg: Config, db: Db, i: nat, rows: FenceTable, now: Time, fenceNow: Time)
    requires QueueInv(cfg, db) && i < |db.jobs|
    ensures QueueInv(cfg, RecoverAt(db, i, rows, now, fenceNow))
  {
    var j := db.jobs[i];
    if LeaseRanOut(j, now) {
      if FenceStillLive(j, rows, fenceNow) {
        PutKeepsInv(cfg, db, i, j.(leaseExpires := rows[j.repository].expires), QueueLeaseReconciled, now);
      } else {
        var retry := CanRetry(j, true);
        ReturnKeepsInv(cfg, db, i, retry, LeaseExpired(retry), now, now);
      }
    }
  }

  lemma {:induction false} RecoverKeepsInv(cfg: Config, db: Db, i: nat, rows: FenceTable, now: Time, fenceNow: Time)
    requires QueueInv(cfg, db) && i <= |db.jobs|
    ensures QueueInv(cfg, RecoverFrom(db, i, rows, now, fenceNow))
    decreases |db.jobs| - i
  {
    if i < |db.jobs| {
      var db' := RecoverAt(db, i, rows, now, fenceNow);
      RecoverAtKeepsInv(cfg, db, i, rows, now, fenceNow);
      RecoverKeepsInv(cfg, db', i + 1, rows, now, fenceNow);
      assert RecoverFrom(db, i, rows, now, fenceNow) == RecoverFrom(db', i + 1, rows, now, fenceNow);
    }
  }

  /** Candidate positions are distinct and every one of them is a queued row. */
  ghost predicate QueuedDistinct(jobs: seq<Job>, order: seq<nat>) {
    && (forall k :: 0 <= k < |order| ==> order[k] < |jobs| && jobs[order[k]].state.Queued?)
    && (forall k, m :: 0 <= k < m < |order| ==> order[k] != order[m])
  }

  lemma {:induction false} InsertRowMembers(jobs: seq<Job>, order: seq<nat>, i: nat)
    requires i < |jobs| && i !in order && QueuedDistinct(jobs, order) && jobs[i].state.Queued?
    ensures QueuedDistinct(jobs, InsertRow(jobs, order, i))
    ensures forall x :: x in InsertRow(jobs, order, i) <==> x in order || x == i
  {
    if |order| != 0 && !Before(jobs[order[|order| - 1]], jobs[i]) {
      var front, last := order[..|order| - 1], order[|order| - 1];
      assert order == front + [last];
      InsertRowMembers(jobs, front, i);
      assert last !in InsertRow(jobs, front, i);
    }
  }

  /** The order lists exactly the candidates among the first `n` rows. */
  ghost predicate ListsCandidates(cfg: Config, jobs: seq<Job>, order: seq<nat>, n: nat, now: Time)
    requires n <= |jobs|
  {
    forall x :: x in order <==> 0 <= x < n && IsCandidate(cfg, jobs[x], now)
  }

  lemma OneMoreCandidate(cfg: Config, jobs: seq<Job>, rest: seq<nat>, n: nat, now: Time)
    requires n < |jobs| && ListsCandidates(cfg, jobs, rest, n, now) && QueuedDistinct(jobs, rest)
    requires IsCandidate(cfg, jobs[n], now)
    ensures QueuedDistinct(jobs, InsertRow(jobs, rest, n)) && ListsCandidates(cfg, jobs, InsertRow(jobs, rest, n), n + 1, now)
  {
    assert n !in rest;
    InsertRowMembers(jobs, rest, n);
  }

  ghost predicate GoodCandidates(cfg: Config, jobs: seq<Job>, order: seq<nat>, n: nat, now: Time)
    requires n <= |jobs|
  {
    QueuedDistinct(jobs, order) && ListsCandidates(cfg, jobs, order, n, now)
  }

  lemma NextRow(cfg: Config, jobs: seq<Job>, rest: seq<nat>, order: seq<nat>, n: nat, now: Time)
    requires n < |jobs| && GoodCandidates(cfg, jobs, rest, n, now)
    requires IsCandidate(cfg, jobs[n], now) ==> order == InsertRow(jobs, rest, n)
    requires !IsCandidate(cfg, jobs[n], now) ==> order == rest
    ensures GoodCandidates(cfg, jobs, order, n + 1, now)
  {
    if IsCandidate(cfg, jobs[n], now) {
      OneMoreCandidate(cfg, jobs, rest, n, now);
    }
  }

  lemma {:induction false} SortedCandidatesMembers(cfg: Config, jobs: seq<Job>, n: nat, now: Time)
    requires n <= |jobs|
    ensures GoodCandidates(cfg, jobs, SortedCandidates(cfg, jobs, n, now), n, now)
  {
    if n > 0 {
      var rest, order := SortedCandidates(cfg, jobs, n - 1, now), SortedCandidates(cfg, jobs, n, now);
      assert order == if IsCandidate(cfg, jobs[n - 1], now) then InsertRow(jobs, rest, n - 1) else rest;
      SortedCandidatesMembers(cfg, jobs, n - 1, now);
      NextRow(cfg, jobs, rest, order, n - 1, now);
    }
  }

  lemma ClaimOrderQueuedDistinct(cfg: Config, jobs: seq<Job>, now: Time)
    ensures QueuedDistinct(jobs, ClaimOrder(cfg, jobs, now))
  {
    SortedCandidatesMembers(cfg, jobs, |jobs|, now);
  }

  /** Failing one queued row leaves the other candidates queued. */
  lemma QueuedStayQueued(jobs: seq<Job>, order: seq<nat>, row: Job)
    requires QueuedDistinct(jobs, order) && |order| > 0
    ensures QueuedDistinct(jobs[order[0] := row], order[1..])
  {
  }

  lemma CorruptKeepsInv(cfg: Config, db: Db, i: nat, now: Time)
    requires QueueInv(cfg, db) && i < |db.jobs| && db.jobs[i].state.Queued?
    ensures QueueInv(cfg, Put(db, i, db.jobs[i].(state := Failed), JobIntegrityFailed, now))
  {
    PutKeepsInv(cfg, db, i, db.jobs[i].(state := Failed), JobIntegrityFailed, now);
  }

  lemma {:induction false} ScanKeepsInv(cfg: Config, db: Db, order: seq<nat>, corrupt: set<Id>, rows: FenceTable, now: Time, readAt: Time)
    requires QueueInv(cfg, db) && QueuedDistinct(db.jobs, order)
    ensures var s := Scan(cfg, db, order, corrupt, rows, now, readAt);
            QueueInv(cfg, s.db) && (s.chosen.Some? ==> s.db.jobs[s.chosen.value].state.Queued?)
    decreases |order|
  {
    if |order| > 0 {
      var j := db.jobs[order[0]];
      if j.id in corrupt {
        CorruptKeepsInv(cfg, db, order[0], now);
        QueuedStayQueued(db.jobs, order, j.(state := Failed));
        ScanKeepsInv(cfg, Put(db, order[0], j.(state := Failed), JobIntegrityFailed, now), order[1..], corrupt, rows, now, readAt);
      } else if !Claimable(cfg, db.jobs, j, rows, readAt) {
        ScanKeepsInv(cfg, db, order[1..], corrupt, rows, now, readAt);
      }
    }
  }

  lemma ClaimScanKeepsInv(cfg: Config, db: Db, rows: FenceTable, q: ClaimRequest)
    requires QueueInv(cfg, db)
    ensures var s := ClaimScan(cfg, db, rows, q);
            QueueInv(cfg, s.db) && (s.chosen.Some? ==> s.db.jobs[s.chosen.value].state.Queued?)
  {
    var recovered := RecoverFrom(db, 0, rows, q.now, q.fenceNow);
    RecoverKeepsInv(cfg, db, 0, rows, q.now, q.fenceNow);
    ClaimOrderQueuedDistinct(cfg, recovered.jobs, q.now);
    ScanKeepsInv(cfg, recovered, ClaimOrder(cfg, recovered.jobs, q.now), q.corrupt, rows, q.now, q.readAt);
  }

  lemma ClaimKeepsInv(cfg: Config, db: Db, rows: FenceTable, q: ClaimRequest)
    requires QueueInv(cfg, db) && q.token != ""
    ensures QueueInv(cfg, ClaimTx(cfg, db, rows, q))
  {
    ClaimScanKeepsInv(cfg, db, rows, q);
    var s := ClaimScan(cfg, db, rows, q);
    if s.chosen.Some? {
      var j := s.db.jobs[s.chosen.value];
      PutKeepsInv(cfg, s.db, s.chosen.value, LeasedTo(j, q, AcquireResult(rows, ClaimFenceOp(j, q)).value), JobLeased, q.now);
    }
  }

  lemma WorkerStepsKeepInv(cfg: Config, db: Db, rows: FenceTable, id: Id, token: string, now: Time, fenceNow: Time)
    requires QueueInv(cfg, db)
    ensures QueueInv(cfg, StartTx(db, rows, id, token, now, fenceNow))
    ensures QueueInv(cfg, CompleteTx(db, rows, id, token, now, fenceNow))
  {
    var s := LeasedRow(db.jobs, rows, id, token, {Leased}, now, fenceNow);
    if s.Ok? {
      PutKeepsInv(cfg, db, s.value, db.jobs[s.value].(state := Running), JobStarted, now);
    }
    var c := LeasedRow(db.jobs, rows, id, token, {Running}, now, fenceNow);
    if c.Ok? {
      PutKeepsInv(cfg, db, c.value, Unleased(db.jobs[c.value], Succeeded), JobSucceeded, now);
    }
  }

  lemma FailKeepsInv(cfg: Config, db: Db, rows: FenceTable, q: FailRequest)
    requires QueueInv(cfg, db)
    ensures QueueInv(cfg, FailTx(db, rows, q))
  {
    var r := LeasedRow(db.jobs, rows, q.id, q.token, {Leased, Running}, q.now, q.fenceNow);
    if r.Ok? {
      var i := r.value;
      var retry := CanRetry(db.jobs[i], q.retryable);
      var kind := if retry then JobRequeued else JobFailed;
      var available := q.now + Max(0, Min(q.delaySeconds, 86400)) * SECOND;
      assert FailTx(db, rows, q) == Put(db, i, Returned(db.jobs[i], retry, available), kind, q.now);
      ReturnKeepsInv(cfg, db, i, retry, kind, available, q.now);
    }
  }

  lemma HeartbeatKeepsInv(cfg: Config, db: Db, rows: FenceTable, q: HeartbeatRequest)
    requires QueueInv(cfg, db)
    ensures QueueInv(cfg, HeartbeatTx(db, rows, q))
  {
    if HeartbeatAccepted(db, rows, q) {
      var i := LeasedRow(db.jobs, rows, q.id, q.token, {Leased, Running}, q.now, q.fenceNow).value;
      var row := db.jobs[i].(leaseExpires := Some(q.readAt + LeaseDuration(q.seconds)));
      WriteKeepsInv(cfg, db, i, row, None, q.at);
      assert HeartbeatTx(db, rows, q) == Write(db, i, row, None, q.at);
    }
  }

  lemma NoteAgrees(db: Db, id: Id, at: Time, k: nat)
    requires Rows(db) && k < |db.jobs|
    ensures AgreesWithLog(db.events + [JobEvent(id, FenceReleaseFailed, at)], db.jobs[k])
  {
    assert AgreesWithLog(db.events, db.jobs[k]);
    AgreesAppend(db.events, JobEvent(id, FenceReleaseFailed, at), db.jobs[k]);
  }

  lemma NoteKeepsRows(db: Db, id: Id, at: Time)
    requires Rows(db) && IndexOf(db.jobs, id) >= 0
    ensures Rows(Db(db.jobs, db.events + [JobEvent(id, FenceReleaseFailed, at)]))
  {
    forall k | 0 <= k < |db.jobs|
      ensures AgreesWithLog(db.events + [JobEvent(id, FenceReleaseFailed, at)], db.jobs[k])
    {
      NoteAgrees(db, id, at, k);
    }
  }

  lemma NoteKeepsInv(cfg: Config, db: Db, id: Id, at: Time)
    requires QueueInv(cfg, db) && IndexOf(db.jobs, id) >= 0
    ensures QueueInv(cfg, Db(db.jobs, db.events + [JobEvent(id, FenceReleaseFailed, at)]))
  {
    NoteKeepsRows(db, id, at);
  }

  // ----- runs -----

  /** One committed queue transaction, with whatever fence table it observed. */
  datatype QueueOp =
    | DoEnqueue(enqueue: EnqueueRequest)
    | DoCancel(id: Id, allowed: bool, at: Time)
    | DoClaim(rows: FenceTable, claim: ClaimRequest)
    | DoStart(rows: FenceTable, id: Id, token: string, at: Time, fenceNow: Time)
    | DoHeartbeat(rows: FenceTable, heartbeat: HeartbeatRequest)
    | DoComplete(rows: FenceTable, id: Id, token: string, at: Time, fenceNow: Time)
    | DoFail(rows: FenceTable, fail: FailRequest)
    | DoNote(id: Id, at: Time)

  predicate WellFormed(op: QueueOp) {
    op.DoClaim? ==> op.claim.token != ""
  }

  function Commit(cfg: Config, db: Db, op: QueueOp): Db
    requires WellFormed(op)
  {
    match op
    case DoEnqueue(q) => EnqueueTx(cfg, db, q)
    case DoCancel(id, allowed, at) => CancelTx(db, id, allowed, at)
    case DoClaim(rows, q) => ClaimTx(cfg, db, rows, q)
    case DoStart(rows, id, token, at, fenceNow) => StartTx(db, rows, id, token, at, fenceNow)
    case DoHeartbeat(rows, q) => HeartbeatTx(db, rows, q)
    case DoComplete(rows, id, token, at, fenceNow) => CompleteTx(db, rows, id, token, at, fenceNow)
    case DoFail(rows, q) => FailTx(db, rows, q)
    case DoNote(id, at) =>
      if IndexOf(db.jobs, id) < 0 then db else db.(events := db.events + [JobEvent(id, FenceReleaseFailed, at)])
  }

  lemma CancelKeepsInv(cfg: Config, db: Db, id: Id, allowed: bool, at: Time)
    requires QueueInv(cfg, db)
    ensures QueueInv(cfg, CancelTx(db, id, allowed, at))
  {
    var i := IndexOf(db.jobs, id);
    if i >= 0 && allowed && db.jobs[i].state.Queued? {
      PutKeepsInv(cfg, db, i, db.jobs[i].(state := Cancelled), JobCancelled, at);
    }
  }

  lemma NoteCommitKeepsInv(cfg: Config, db: Db, id: Id, at: Time)
    requires QueueInv(cfg, db)
    ensures QueueInv(cfg, Commit(cfg, db, DoNote(id, at)))
  {
    if IndexOf(db.jobs, id) < 0 {
      assert Commit(cfg, db, DoNote(id, at)) == db;
    } else {
      NoteKeepsInv(cfg, db, id, at);
    }
  }

  predicate ByWorker(op: QueueOp) {
    op.DoStart? || op.DoHeartbeat? || op.DoComplete? || op.DoFail?
  }

  lemma WorkerKeepsInv(cfg: Config, db: Db, op: QueueOp)
    requires QueueInv(cfg, db) && WellFormed(op) && ByWorker(op)
    ensures QueueInv(cfg, Commit(cfg, db, op))
  {
    match op
    case DoStart(rows, id, token, at, fenceNow) => WorkerStepsKeepInv(cfg, db, rows, id, token, at, fenceNow);
    case DoHeartbeat(rows, q) => HeartbeatKeepsInv(cfg, db, rows, q);
    case DoComplete(rows, id, token, at, fenceNow) => WorkerStepsKeepInv(cfg, db, rows, id, token, at, fenceNow);
    case DoFail(rows, q) => FailKeepsInv(cfg, db, rows, q);
  }

  lemma CommitKeepsInv(cfg: Config, db: Db, op: QueueOp)
    requires QueueInv(cfg, db) && WellFormed(op)
    ensures QueueInv(cfg, Commit(cfg, db, op))
  {
    if ByWorker(op) {
      WorkerKeepsInv(cfg, db, op);
    } else {
      match op
      case DoEnqueue(q) => EnqueueKeepsInv(cfg, db, q);
      case DoCancel(id, allowed, at) => CancelKeepsInv(cfg, db, id, allowed, at);
      case DoClaim(rows, q) => ClaimKeepsInv(cfg, db, rows, q);
      case DoNote(id, at) => NoteCommitKeepsInv(cfg, db, id, at);
    }
  }

  function CommitAll(cfg: Config, db: Db, ops: seq<QueueOp>): Db
    requires forall k :: 0 <= k < |ops| ==> WellFormed(ops[k])
    decreases |ops|
  {
    if |ops| == 0 then db else CommitAll(cfg, Commit(cfg, db, ops[0]), ops[1..])
  }

  lemma {:induction false} CommitAllKeepsInv(cfg: Config, db: Db, ops: seq<QueueOp>)
    requires QueueInv(cfg, db)
    requires forall k :: 0 <= k < |ops| ==> WellFormed(ops[k])
    ensures QueueInv(cfg, CommitAll(cfg, db, ops))
    decreases |ops|
  {
    if |ops| > 0 {
      CommitKeepsInv(cfg, db, ops[0]);
      CommitAllKeepsInv(cfg, Commit(cfg, db, ops[0]), ops[1..]);
    }
  }

  lemma EmptyQueueInv(cfg: Config)
    ensures QueueInv(cfg, Db([], []))
  {
  }

  /**
   * On every run the public history of a job ends in the job's current state, moves only along legal
   * transitions, and counts exactly `attempts` leases, never more than `max_attempts`.
   */
  lemma HistoryAgreesWithRow(cfg: Config, ops: seq<QueueOp>, i: nat)
    requires forall k :: 0 <= k < |ops| ==> WellFormed(ops[k])
    requires i < |CommitAll(cfg, Db([], []), ops).jobs|
    ensures var db := CommitAll(cfg, Db([], []), ops);
            var j := db.jobs[i];
            var h := History(db.events, j.id);
            && LegalHistory(h) && h[|h| - 1].state == j.state
            && LeasedEvents(db.events, j.id) == j.attempts <= j.maxAttempts
            && (j.state.Queued? ==> j.attempts < j.maxAttempts)
            && forall k :: 0 <= k < |h| - 1 ==> !h[k].state.Succeeded? && !h[k].state.Failed? && !h[k].state.Cancelled?
  {
    EmptyQueueInv(cfg);
    CommitAllKeepsInv(cfg, Db([], []), ops);
    var db := CommitAll(cfg, Db([], []), ops);
    assert AgreesWithLog(db.events, db.jobs[i]) && RowOk(db.jobs[i]);
    var h := History(db.events, db.jobs[i].id);
    forall k | 0 <= k < |h| - 1
      ensures !h[k].state.Succeeded? && !h[k].state.Failed? && !h[k].state.Cancelled?
    {
      assert Legal(h[k].state, h[k + 1].state);
    }
  }

  /** On every run each workspace stays within its limits, although requeues skip the queue limit. */
  lemma CapacityOnEveryRun(cfg: Config, ops: seq<QueueOp>, w: Id)
    requires (forall m :: 0 <= m < |ops| ==> WellFormed(ops[m])) && w in cfg.policies
    ensures var jobs := CommitAll(cfg, Db([], []), ops).jobs;
            && |ActiveInWorkspace(jobs, w)| <= cfg.policies[w].maxRunning
            && |QueuedInWorkspace(jobs, w)| + |ActiveInWorkspace(jobs, w)|
               <= cfg.policies[w].maxQueued + cfg.policies[w].maxRunning
  {
    EmptyQueueInv(cfg);
    CommitAllKeepsInv(cfg, Db([], []), ops);
    var jobs := CommitAll(cfg, Db([], []), ops).jobs;
    CountIsSize(jobs, ActiveIn(w));
    CountIsSize(jobs, QueuedIn(w));
    assert ActiveInWorkspace(jobs, w) == MatchingRows(jobs, ActiveIn(w));
    assert QueuedInWorkspace(jobs, w) == MatchingRows(jobs, QueuedIn(w));
  }

  /** On every run two active jobs are on different repositories. */
  lemma OneActiveJobPerRepository(cfg: Config, ops: seq<QueueOp>, i: nat, k: nat)
    requires forall m :: 0 <= m < |ops| ==> WellFormed(ops[m])
    requires i < k < |CommitAll(cfg, Db([], []), ops).jobs|
    ensures var jobs := CommitAll(cfg, Db([], []), ops).jobs;
            (jobs[i].state.Leased? || jobs[i].state.Running?) && (jobs[k].state.Leased? || jobs[k].state.Running?) ==>
              jobs[i].repository != jobs[k].repository
  {
    EmptyQueueInv(cfg);
    CommitAllKeepsInv(cfg, Db([], []), ops);
    var jobs := CommitAll(cfg, Db([], []), ops).jobs;
    if Active(jobs[i].state) && Active(jobs[k].state) && jobs[i].repository == jobs[k].repository {
      assert Count(jobs, ActiveOn(jobs[i].repository)) <= 1;
      CountTwo(jobs, i, k, ActiveOn(jobs[i].repository));
    }
  }

  // ----- priority -----

  ghost predicate InClaimOrder(jobs: seq<Job>, order: seq<nat>) {
    && (forall k :: 0 <= k < |order| ==> order[k] < |jobs|)
    && forall k, m :: 0 <= k < m < |order| ==> Before(jobs[order[k]], jobs[order[m]])
  }

  lemma BeforeTransitive(a: Job, b: Job, c: Job)
    requires Before(a, b) && Before(b, c)
    ensures Before(a, c)
  {
    if a.priority == b.priority == c.priority && a.createdAt == b.createdAt == c.createdAt {
      Ordering.StringLeqTransitive(a.id, b.id, c.id);
    }
  }

  lemma BeforeTotal(a: Job, b: Job)
    ensures Before(a, b) || Before(b, a)
  {
    Ordering.StringLeqTotal(a.id, b.id);
  }

  lemma {:induction false} InsertRowSorted(jobs: seq<Job>, order: seq<nat>, i: nat)
    requires i < |jobs| && InClaimOrder(jobs, order)
    ensures InClaimOrder(jobs, InsertRow(jobs, order, i))
    ensures forall k :: 0 <= k < |InsertRow(jobs, order, i)| ==>
              InsertRow(jobs, order, i)[k] == i || InsertRow(jobs, order, i)[k] in order
  {
    if |order| > 0 {
      var last := order[|order| - 1];
      if Before(jobs[last], jobs[i]) {
        forall k | 0 <= k < |order|
          ensures Before(jobs[order[k]], jobs[i])
        {
          if k < |order| - 1 {
            BeforeTransitive(jobs[order[k]], jobs[last], jobs[i]);
          }
        }
      } else {
        BeforeTotal(jobs[last], jobs[i]);
        InsertRowSorted(jobs, order[..|order| - 1], i);
      }
    }
  }

  lemma {:induction false} SortedCandidatesSorted(cfg: Config, jobs: seq<Job>, n: nat, now: Time)
    requires n <= |jobs|
    ensures InClaimOrder(jobs, SortedCandidates(cfg, jobs, n, now))
  {
    if n > 0 {
      SortedCandidatesSorted(cfg, jobs, n - 1, now);
      if IsCandidate(cfg, jobs[n - 1], now) {
        InsertRowSorted(jobs, SortedCandidates(cfg, jobs, n - 1, now), n - 1);
      }
    }
  }

  lemma {:induction false} ScanPassesOverBlocked(cfg: Config, db: Db, order: seq<nat>, corrupt: set<Id>, rows: FenceTable, now: Time, readAt: Time, m: nat)
    requires QueuedDistinct(db.jobs, order) && m < |order|
    requires var s := Scan(cfg, db, order, corrupt, rows, now, readAt);
             s.chosen.None? || exists c :: m < c < |order| && s.chosen == Some(order[c])
    ensures var s := Scan(cfg, db, order, corrupt, rows, now, readAt);
            db.jobs[order[m]].id in corrupt || !Claimable(cfg, s.db.jobs, db.jobs[order[m]], rows, readAt)
    decreases |order|
  {
    var i := order[0];
    var j := db.jobs[i];
    if j.id in corrupt || !Claimable(cfg, db.jobs, j, rows, readAt) {
      var db' := if j.id in corrupt then Put(db, i, j.(state := Failed), JobIntegrityFailed, now) else db;
      ScanKeepsActiveCounts(cfg, db, order, corrupt, rows, now, readAt, j.workspace, j.repository);
      if m > 0 {
        assert forall c :: 0 < c < |order| ==> order[c] == order[1..][c - 1];
        ScanPassesOverBlocked(cfg, db', order[1..], corrupt, rows, now, readAt, m - 1);
      }
    }
  }

  lemma {:induction false} ScanKeepsActiveCounts(cfg: Config, db: Db, order: seq<nat>, corrupt: set<Id>, rows: FenceTable, now: Time, readAt: Time, w: Id, r: Id)
    requires QueuedDistinct(db.jobs, order)
    ensures var s := Scan(cfg, db, order, corrupt, rows, now, readAt);
            && Count(s.db.jobs, ActiveIn(w)) == Count(db.jobs, ActiveIn(w))
            && Count(s.db.jobs, ActiveOn(r)) == Count(db.jobs, ActiveOn(r))
    decreases |order|
  {
    if |order| > 0 {
      var j := db.jobs[order[0]];
      if j.id in corrupt {
        var row := j.(state := Failed);
        CountUpdate(db.jobs, order[0], row, ActiveIn(w));
        CountUpdate(db.jobs, order[0], row, ActiveOn(r));
        ScanKeepsActiveCounts(cfg, Put(db, order[0], row, JobIntegrityFailed, now), order[1..], corrupt, rows, now, readAt, w, r);
      } else if !Claimable(cfg, db.jobs, j, rows, readAt) {
        ScanKeepsActiveCounts(cfg, db, order[1..], corrupt, rows, now, readAt, w, r);
      }
    }
  }

  /**
   * `claim_next` is fair by priority: every candidate among the first 200 that comes before the chosen
   * one failed its integrity check or is blocked by capacity, by its repository or by the fence.
   */
  lemma ClaimTakesTheFirstClaimable(cfg: Config, db: Db, rows: FenceTable, q: ClaimRequest, m: nat)
    requires var s := ClaimScan(cfg, db, rows, q);
             var recovered := RecoverFrom(db, 0, rows, q.now, q.fenceNow);
             var order := ClaimOrder(cfg, recovered.jobs, q.now);
             m < |order| && (s.chosen.None? || exists c :: m < c < |order| && s.chosen == Some(order[c]))
    ensures var s := ClaimScan(cfg, db, rows, q);
            var recovered := RecoverFrom(db, 0, rows, q.now, q.fenceNow);
            var order := ClaimOrder(cfg, recovered.jobs, q.now);
            && InClaimOrder(recovered.jobs, order)
            && (recovered.jobs[order[m]].id in q.corrupt || !Claimable(cfg, s.db.jobs, recovered.jobs[order[m]], rows, q.readAt))
  {
    var recovered := RecoverFrom(db, 0, rows, q.now, q.fenceNow);
    ClaimOrderQueuedDistinct(cfg, recovered.jobs, q.now);
    SortedCandidatesSorted(cfg, recovered.jobs, |recovered.jobs|, q.now);
    ScanPassesOverBlocked(cfg, recovered, ClaimOrder(cfg, recovered.jobs, q.now), q.corrupt, rows, q.now, q.readAt, m);
  }
}
