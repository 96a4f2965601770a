/** The durable job queue of tankai/dev_orchestrator/job_queue.py. */
module JobQueue {
  // The state is a table of jobs in insertion order and an append-only event log; the independent fence
  // store guards each repository.

  import opened Common
  import opened Ordering
  import opened Fencing

  const HOUR: Time := 3600 * SECOND
  const CLAIM_LIMIT: nat := 200

  datatype JobState = Queued | Leased | Running | Succeeded | Failed | Cancelled

  predicate Active(state: JobState) {
    state.Leased? || state.Running?
  }

  datatype Job = Job(
    id: Id, user: Id, workspace: Id, repository: Id,
    key: string, payload: string, priority: int,
    state: JobState, attempts: nat, maxAttempts: nat,
    createdAt: Time, availableAt: Time,
    leaseOwner: Option<Id>, leaseHash: Option<TokenHash>, leaseExpires: Option<Time>,
    fenceEpoch: Option<nat>)

  datatype EventKind =
    | JobEnqueued | JobLeased | JobStarted | JobSucceeded | JobRequeued | JobFailed | JobCancelled
    | JobIntegrityFailed | LeaseExpired(requeued: bool) | QueueLeaseReconciled | FenceReleaseFailed

  datatype JobEvent = JobEvent(job: Id, kind: EventKind, at: Time)

  type pos = n: int | 1 <= n witness 1

  datatype Policy = Policy(enabled: bool, maxQueued: pos, maxRunning: pos, maxAttempts: pos, maxJobsPerUserHour: pos)

  /** Fixed configuration: one policy per workspace, and the enabled repositories with their workspace. */
  datatype Config = Config(policies: map<Id, Policy>, repositories: map<Id, Id>)

  datatype Db = Db(jobs: seq<Job>, events: seq<JobEvent>)

  datatype QueueError =
    | NotAdmitted | KeyReused | QueueFull | RateLimited(retryAfterSeconds: int) | DuplicateId
    | UnknownJob | NotCancellable | InvalidLimit
    | NoMatchingLease | QueueLeaseExpired | WrongToken | NoFenceEpoch | FenceLost(reason: FenceError)
    | CommitFailed

  // ----- queries -----

  datatype Filter =
    | QueuedIn(workspace: Id)
    | ActiveIn(workspace: Id)
    | ActiveOn(repository: Id)
    | CreatedBy(user: Id, from: Time, to: Option<Time>)

  predicate Matches(f: Filter, j: Job) {
    match f
    case QueuedIn(w) => j.workspace == w && j.state.Queued?
    case ActiveIn(w) => j.workspace == w && Active(j.state)
    case ActiveOn(r) => j.repository == r && Active(j.state)
    case CreatedBy(u, from, to) => j.user == u && from <= j.createdAt && (to.Some? ==> j.createdAt <= to.value)
  }

  function Count(jobs: seq<Job>, f: Filter): nat {
    if |jobs| == 0 then 0
    else Count(jobs[..|jobs| - 1], f) + if Matches(f, jobs[|jobs| - 1]) then 1 else 0
  }

  /** Position of the row with this id, or -1. */
  function IndexOf(jobs: seq<Job>, id: Id): (i: int)
    ensures -1 <= i < |jobs|
    ensures i >= 0 ==> jobs[i].id == id
    ensures i < 0 ==> forall k :: 0 <= k < |jobs| ==> jobs[k].id != id
  {
    if |jobs| == 0 then -1
    else if jobs[|jobs| - 1].id == id then |jobs| - 1
    else IndexOf(jobs[..|jobs| - 1], id)
  }

  /** Position of the row that already carries this idempotency key, or -1. */
  function IndexOfKey(jobs: seq<Job>, user: Id, workspace: Id, key: string): (i: int)
    ensures -1 <= i < |jobs|
    ensures i >= 0 ==> jobs[i].user == user && jobs[i].workspace == workspace && jobs[i].key == key
    ensures i < 0 ==> forall k :: 0 <= k < |jobs| ==>
      !(jobs[k].user == user && jobs[k].workspace == workspace && jobs[k].key == key)
  {
    if |jobs| == 0 then -1
    else
      var last := jobs[|jobs| - 1];
      if last.user == user && last.workspace == workspace && last.key == key then |jobs| - 1
      else IndexOfKey(jobs[..|jobs| - 1], user, workspace, key)
  }

  function InsertTime(times: seq<Time>, t: Time): seq<Time> {
    if |times| == 0 || times[|times| - 1] <= t then times + [t]
    else InsertTime(times[..|times| - 1], t) + [times[|times| - 1]]
  }

  /** Creation times of the user's jobs since the cutoff, oldest first. */
  function RecentTimes(jobs: seq<Job>, user: Id, cutoff: Time): seq<Time> {
    if |jobs| == 0 then []
    else
      var rest := RecentTimes(jobs[..|jobs| - 1], user, cutoff);
      var last := jobs[|jobs| - 1];
      if last.user == user && cutoff <= last.createdAt then InsertTime(rest, last.createdAt) else rest
  }

  function CeilSeconds(t: Time): int {
    (t + SECOND - 1) / SECOND
  }

  function RetryAfter(recent: seq<Time>, limit: pos, now: Time): int
    requires limit <= |recent|
  {
    Min(3600, Max(1, CeilSeconds(recent[|recent| - limit] + HOUR - now)))
  }

  // ----- enqueue and cancel -----

  datatype EnqueueRequest = EnqueueRequest(
    id: Id, user: Id, workspace: Id, repository: Id, key: string, payload: string, priority: int,
    permitted: bool, now: Time)

  datatype Outcome = Outcome(id: Id, replay: bool)

  predicate Admissible(cfg: Config, q: EnqueueRequest) {
    q.permitted
    && q.workspace in cfg.policies && cfg.policies[q.workspace].enabled
    && q.repository in cfg.repositories && cfg.repositories[q.repository] == q.workspace
  }

  function Admission(cfg: Config, jobs: seq<Job>, q: EnqueueRequest): Result<Outcome, QueueError> {
    if !Admissible(cfg, q) then Err(NotAdmitted)
    else
      var policy := cfg.policies[q.workspace];
      var i := IndexOfKey(jobs, q.user, q.workspace, q.key);
      if i >= 0 then
        if jobs[i].payload != q.payload || jobs[i].repository != q.repository then Err(KeyReused)
        else Ok(Outcome(jobs[i].id, true))
      else if Count(jobs, QueuedIn(q.workspace)) >= policy.maxQueued then Err(QueueFull)
      else
        var recent := RecentTimes(jobs, q.user, q.now - HOUR);
        if |recent| >= policy.maxJobsPerUserHour then
          Err(RateLimited(RetryAfter(recent, policy.maxJobsPerUserHour, q.now)))
        else if IndexOf(jobs, q.id) >= 0 then Err(DuplicateId)
        else Ok(Outcome(q.id, false))
  }

  function NewRow(policy: Policy, q: EnqueueRequest): Job {
    Job(q.id, q.user, q.workspace, q.repository, q.key, q.payload, q.priority,
        Queued, 0, policy.maxAttempts, q.now, q.now, None, None, None, None)
  }

  function EnqueueTx(cfg: Config, db: Db, q: EnqueueRequest): Db {
    var r := Admission(cfg, db.jobs, q);
    if r.Err? || r.value.replay then db
    else Db(db.jobs + [NewRow(cfg.policies[q.workspace], q)], db.events + [JobEvent(q.id, JobEnqueued, q.now)])
  }

  /** Overwrites row `i` and logs one event for it. */
  function Put(db: Db, i: nat, row: Job, kind: EventKind, at: Time): Db
    requires i < |db.jobs|
  {
    Db(db.jobs[i := row], db.events + [JobEvent(row.id, kind, at)])
  }

  function CancelTx(db: Db, id: Id, mayCancel: bool, now: Time): Db {
    var i := IndexOf(db.jobs, id);
    if i < 0 || !mayCancel || !db.jobs[i].state.Queued? then db
    else Put(db, i, db.jobs[i].(state := Cancelled), JobCancelled, now)
  }

  // ----- leases -----

  /** The row a worker may act on, or why it may not: first the queue's own lease, then the fence. */
  function LeasedRow(jobs: seq<Job>, rows: FenceTable, id: Id, token: string, states: set<JobState>, now: Time, fenceNow: Time)
    : (r: Result<nat, QueueError>)
    ensures r.Ok? ==> r.value < |jobs| && jobs[r.value].id == id && jobs[r.value].state in states
    ensures r.Ok? ==> jobs[r.value].fenceEpoch.Some?
    ensures r.Ok? ==> Holds(rows, jobs[r.value].repository, id, jobs[r.value].fenceEpoch.value, token, fenceNow)
  {
    var i := IndexOf(jobs, id);
    if i < 0 || jobs[i].state !in states then Err(NoMatchingLease)
    else if jobs[i].leaseExpires.None? || jobs[i].leaseExpires.value <= now then Err(QueueLeaseExpired)
    else if jobs[i].leaseHash != Some(Sha256(token)) then Err(WrongToken)
    else if jobs[i].fenceEpoch.None? then Err(NoFenceEpoch)
    else
      var f := ValidatedLease(rows, jobs[i].repository, id, jobs[i].fenceEpoch.value, token, fenceNow);
      if f.Err? then Err(FenceLost(f.error)) else Ok(i)
  }

  function Unleased(j: Job, state: JobState): Job {
    j.(state := state, leaseOwner := None, leaseHash := None, leaseExpires := None)
  }

  /** An attempt ended without success: back to the queue, or failed for good. */
  function Returned(j: Job, retry: bool, available: Time): Job {
    Unleased(j, if retry then Queued else Failed).(
      availableAt := available, fenceEpoch := if retry then None else j.fenceEpoch)
  }

  function CanRetry(j: Job, retryable: bool): bool {
    retryable && j.attempts < j.maxAttempts
  }

  function StartTx(db: Db, rows: FenceTable, id: Id, token: string, now: Time, fenceNow: Time): Db {
    var r := LeasedRow(db.jobs, rows, id, token, {Leased}, now, fenceNow);
    if r.Err? then db else Put(db, r.value, db.jobs[r.value].(state := Running), JobStarted, now)
  }

  datatype HeartbeatRequest = HeartbeatRequest(
    id: Id, token: string, seconds: int, now: Time, fenceNow: Time, readAt: Time, at: Time)

  function HeartbeatFenceOp(j: Job, q: HeartbeatRequest): FenceOp
    requires j.fenceEpoch.Some?
  {
    Renew(j.repository, q.id, j.fenceEpoch.value, q.token, q.seconds, q.readAt, q.at)
  }

  /** Both checks passed, so the fence accepts the renewal and the queue row follows it. */
  predicate HeartbeatAccepted(db: Db, rows: FenceTable, q: HeartbeatRequest) {
    var r := LeasedRow(db.jobs, rows, q.id, q.token, {Leased, Running}, q.now, q.fenceNow);
    r.Ok? && Holds(rows, db.jobs[r.value].repository, q.id, db.jobs[r.value].fenceEpoch.value, q.token, q.at)
  }

  function HeartbeatTx(db: Db, rows: FenceTable, q: HeartbeatRequest): Db {
    if !HeartbeatAccepted(db, rows, q) then db
    else
      var i := LeasedRow(db.jobs, rows, q.id, q.token, {Leased, Running}, q.now, q.fenceNow).value;
      db.(jobs := db.jobs[i := db.jobs[i].(leaseExpires := Some(q.readAt + LeaseDuration(q.seconds)))])
  }

  /** The queue's own commit; releasing the fence is a separate transaction afterwards. */
  function CompleteTx(db: Db, rows: FenceTable, id: Id, token: string, now: Time, fenceNow: Time): Db {
    var r := LeasedRow(db.jobs, rows, id, token, {Running}, now, fenceNow);
    if r.Err? then db else Put(db, r.value, Unleased(db.jobs[r.value], Succeeded), JobSucceeded, now)
  }

  datatype FailRequest = FailRequest(
    id: Id, token: string, retryable: bool, delaySeconds: int, now: Time, fenceNow: Time)

  function FailTx(db: Db, rows: FenceTable, q: FailRequest): Db {
    var r := LeasedRow(db.jobs, rows, q.id, q.token, {Leased, Running}, q.now, q.fenceNow);
    if r.Err? then db
    else
      var j := db.jobs[r.value];
      var retry := CanRetry(j, q.retryable);
      Put(db, r.value, Returned(j, retry, q.now + Max(0, Min(q.delaySeconds, 86400)) * SECOND),
          if retry then JobRequeued else JobFailed, q.now)
  }

  function TerminalRelease(j: Job, token: string, at: Time): FenceOp
    requires j.fenceEpoch.Some?
  {
    Release(j.repository, j.id, j.fenceEpoch.value, token, at)
  }

  /** Logged when the fence refuses the release: it stays occupied until it expires. */
  function NoteReleaseFailed(db: Db, j: Job, rows: FenceTable, token: string, at: Time): Db
    requires j.fenceEpoch.Some?
  {
    if Holds(rows, j.repository, j.id, j.fenceEpoch.value, token, at) then db
    else db.(events := db.events + [JobEvent(j.id, FenceReleaseFailed, at)])
  }

  // ----- recovery of expired leases -----

  predicate LeaseRanOut(j: Job, now: Time) {
    Active(j.state) && j.leaseExpires.Some? && j.leaseExpires.value <= now
  }

  predicate FenceStillLive(j: Job, rows: FenceTable, fenceNow: Time) {
    var status := CurrentStatus(rows, j.repository, fenceNow);
    status.Some? && status.value.active && status.value.job == Some(j.id)
    && j.fenceEpoch == Some(status.value.epoch) && status.value.expires.Some?
  }

  function RecoverAt(db: Db, i: nat, rows: FenceTable, now: Time, fenceNow: Time): (db': Db)
    requires i < |db.jobs|
    ensures |db'.jobs| == |db.jobs|
  {
    var j := db.jobs[i];
    if !LeaseRanOut(j, now) then db
    else if FenceStillLive(j, rows, fenceNow) then
      Put(db, i, j.(leaseExpires := rows[j.repository].expires), QueueLeaseReconciled, now)
    else
      var retry := CanRetry(j, true);
      Put(db, i, Returned(j, retry, now), LeaseExpired(retry), now)
  }

  function RecoverFrom(db: Db, i: nat, rows: FenceTable, now: Time, fenceNow: Time): (db': Db)
    requires i <= |db.jobs|
    ensures |db'.jobs| == |db.jobs|
    decreases |db.jobs| - i
  {
    if i == |db.jobs| then db else RecoverFrom(RecoverAt(db, i, rows, now, fenceNow), i + 1, rows, now, fenceNow)
  }

  // ----- claiming -----

  predicate IsCandidate(cfg: Config, j: Job, now: Time) {
    j.state.Queued? && j.availableAt <= now
    && j.workspace in cfg.policies && cfg.policies[j.workspace].enabled
    && j.repository in cfg.repositories
  }

  /** `a` is offered to a worker no later than `b`. */
  predicate Before(a: Job, b: Job) {
    a.priority > b.priority
    || (a.priority == b.priority
        && (a.createdAt < b.createdAt || (a.createdAt == b.createdAt && StringLeq(a.id, b.id))))
  }

  function InsertRow(jobs: seq<Job>, order: seq<nat>, i: nat): (r: seq<nat>)
    requires i < |jobs| && forall k :: 0 <= k < |order| ==> order[k] < |jobs|
    ensures |r| == |order| + 1 && forall k :: 0 <= k < |r| ==> r[k] < |jobs|
  {
    if |order| == 0 || Before(jobs[order[|order| - 1]], jobs[i]) then order + [i]
    else InsertRow(jobs, order[..|order| - 1], i) + [order[|order| - 1]]
  }

  /** Positions of the claimable-looking rows among the first `n`, in the order SQL returns them. */
  function SortedCandidates(cfg: Config, jobs: seq<Job>, n: nat, now: Time): (r: seq<nat>)
    requires n <= |jobs|
    ensures forall k :: 0 <= k < |r| ==> r[k] < |jobs|
  {
    if n == 0 then []
    else
      var rest := SortedCandidates(cfg, jobs, n - 1, now);
      if IsCandidate(cfg, jobs[n - 1], now) then InsertRow(jobs, rest, n - 1) else rest
  }

  function ClaimOrder(cfg: Config, jobs: seq<Job>, now: Time): (r: seq<nat>)
    ensures forall k :: 0 <= k < |r| ==> r[k] < |jobs|
  {
    var all := SortedCandidates(cfg, jobs, |jobs|, now);
    if |all| <= CLAIM_LIMIT then all else all[..CLAIM_LIMIT]
  }

  /** Capacity left in the workspace, nobody active on the repository, and a free fence. */
  predicate Claimable(cfg: Config, jobs: seq<Job>, j: Job, rows: FenceTable, readAt: Time) {
    j.workspace in cfg.policies
    && Count(jobs, ActiveIn(j.workspace)) < cfg.policies[j.workspace].maxRunning
    && Count(jobs, ActiveOn(j.repository)) == 0
    && !Occupied(rows, j.repository, readAt)
  }

  datatype Scanned = Scanned(db: Db, chosen: Option<nat>)

  /** Walks the candidates: integrity failures are failed on the spot, blocked ones are passed over. */
  function Scan(cfg: Config, db: Db, order: seq<nat>, corrupt: set<Id>, rows: FenceTable, now: Time, readAt: Time): (s: Scanned)
    requires forall k :: 0 <= k < |order| ==> order[k] < |db.jobs|
    ensures |s.db.jobs| == |db.jobs|
    ensures s.chosen.Some? ==> s.chosen.value in order
    ensures s.chosen.Some? ==> Claimable(cfg, s.db.jobs, s.db.jobs[s.chosen.value], rows, readAt)
    decreases |order|
  {
    if |order| == 0 then Scanned(db, None)
    else
      var j := db.jobs[order[0]];
      if j.id in corrupt then
        Scan(cfg, Put(db, order[0], j.(state := Failed), JobIntegrityFailed, now), order[1..], corrupt, rows, now, readAt)
      else if Claimable(cfg, db.jobs, j, rows, readAt) then Scanned(db, Some(order[0]))
      else Scan(cfg, db, order[1..], corrupt, rows, now, readAt)
  }

  datatype ClaimRequest = ClaimRequest(
    worker: Id, token: string, seconds: int, corrupt: set<Id>,
    now: Time, fenceNow: Time, readAt: Time)

  /** The claim transaction up to the choice of a row. */
  function ClaimScan(cfg: Config, db: Db, rows: FenceTable, q: ClaimRequest): (s: Scanned)
    ensures |s.db.jobs| == |db.jobs|
    ensures s.chosen.Some? ==> s.chosen.value < |s.db.jobs|
    ensures s.chosen.Some? ==> Claimable(cfg, s.db.jobs, s.db.jobs[s.chosen.value], rows, q.readAt)
  {
    var recovered := RecoverFrom(db, 0, rows, q.now, q.fenceNow);
    Scan(cfg, recovered, ClaimOrder(cfg, recovered.jobs, q.now), q.corrupt, rows, q.now, q.readAt)
  }

  function ClaimFenceOp(j: Job, q: ClaimRequest): FenceOp {
    Acquire(j.repository, j.id, q.worker, q.token, q.seconds, q.readAt, q.readAt)
  }

  function LeasedTo(j: Job, q: ClaimRequest, lease: FenceLease): Job {
    j.(state := Leased, leaseOwner := Some(q.worker), leaseHash := Some(Sha256(q.token)),
       leaseExpires := Some(lease.expires), fenceEpoch := Some(lease.epoch), attempts := j.attempts + 1)
  }

  function ClaimTx(cfg: Config, db: Db, rows: FenceTable, q: ClaimRequest): Db
    requires q.token != ""
  {
    var s := ClaimScan(cfg, db, rows, q);
    if s.chosen.None? then s.db
    else
      var j := s.db.jobs[s.chosen.value];
      Put(s.db, s.chosen.value, LeasedTo(j, q, AcquireResult(rows, ClaimFenceOp(j, q)).value), JobLeased, q.now)
  }

  // ----- public history -----

  function EventState(kind: EventKind): Option<JobState> {
    match kind
    case JobEnqueued => Some(Queued)
    case JobLeased => Some(Leased)
    case JobStarted => Some(Running)
    case JobSucceeded => Some(Succeeded)
    case JobRequeued => Some(Queued)
    case JobFailed => Some(Failed)
    case JobCancelled => Some(Cancelled)
    case JobIntegrityFailed => Some(Failed)
    case LeaseExpired(requeued) => Some(if requeued then Queued else Failed)
    case QueueLeaseReconciled => None
    case FenceReleaseFailed => None
  }

  datatype PublicEvent = PublicEvent(state: JobState, at: Time)

  datatype StateHistory = StateHistory(events: seq<PublicEvent>, truncatedBefore: bool)

  /** Every public state event of the job, oldest first. */
  function History(events: seq<JobEvent>, id: Id): seq<PublicEvent> {
    if |events| == 0 then []
    else
      var e := events[|events| - 1];
      var rest := History(events[..|events| - 1], id);
      if e.job == id && EventState(e.kind).Some? then rest + [PublicEvent(EventState(e.kind).value, e.at)] else rest
  }

  // ----- the queue -----

  class DevelopmentJobQueue {
    var jobs: seq<Job>
    var events: seq<JobEvent>
    const cfg: Config
    const fence: LeaseFenceStore

    ghost function State(): Db
      reads this
    {
      Db(jobs, events)
    }

    constructor (cfg: Config, fence: LeaseFenceStore)
      ensures this.cfg == cfg && this.fence == fence && State() == Db([], [])
    {
      this.cfg, this.fence := cfg, fence;
      jobs, events := [], [];
    }

    method Update(i: nat, row: Job, kind: EventKind, at: Time)
      requires i < |jobs|
      modifies `jobs, `events
      ensures State() == Put(old(State()), i, row, kind, at)
    {
      jobs := jobs[i := row];
      events := events + [JobEvent(row.id, kind, at)];
    }

    method EnqueueWithOutcome(q: EnqueueRequest) returns (r: Result<Outcome, QueueError>)
      modifies this
      ensures r == Admission(cfg, old(jobs), q)
      ensures State() == EnqueueTx(cfg, old(State()), q)
    {
      if !Admissible(cfg, q) {
        return Err(NotAdmitted);
      }
      var policy := cfg.policies[q.workspace];
      var existing := IndexOfKey(jobs, q.user, q.workspace, q.key);
      if existing >= 0 {
        var row := jobs[existing];
        if row.payload != q.payload || row.repository != q.repository {
          return Err(KeyReused);
        }
        return Ok(Outcome(row.id, true));
      }
      var queued := 0;
      for k := 0 to |jobs|
        invariant queued == Count(jobs[..k], QueuedIn(q.workspace))
      {
        assert jobs[..k + 1][..k] == jobs[..k];
        if jobs[k].workspace == q.workspace && jobs[k].state.Queued? {
          queued := queued + 1;
        }
      }
      assert jobs[..|jobs|] == jobs;
      if queued >= policy.maxQueued {
        return Err(QueueFull);
      }
      var recent := RecentTimes(jobs, q.user, q.now - HOUR);
      if |recent| >= policy.maxJobsPerUserHour {
        var blocking := recent[|recent| - policy.maxJobsPerUserHour];
        return Err(RateLimited(Min(3600, Max(1, CeilSeconds(blocking + HOUR - q.now)))));
      }
      if IndexOf(jobs, q.id) >= 0 {
        return Err(DuplicateId);
      }
      jobs := jobs + [NewRow(policy, q)];
      events := events + [JobEvent(q.id, JobEnqueued, q.now)];
      r := Ok(Outcome(q.id, false));
    }

    /** `mayCancel` is the access decision for the caller: the creator, or an owner or admin. */
    method CancelJobWithOutcome(id: Id, mayCancel: bool, now: Time) returns (r: Result<Outcome, QueueError>)
      modifies this
      ensures State() == CancelTx(old(State()), id, mayCancel, now)
      ensures var i := IndexOf(old(jobs), id);
              r == if i < 0 || !mayCancel then Err(UnknownJob)
                   else if old(jobs)[i].state.Cancelled? then Ok(Outcome(id, true))
                   else if old(jobs)[i].state.Queued? then Ok(Outcome(id, false))
                   else Err(NotCancellable)
    {
      var i := IndexOf(jobs, id);
      if i < 0 || !mayCancel {
        return Err(UnknownJob);
      }
      if jobs[i].state.Cancelled? {
        return Ok(Outcome(id, true));
      }
      if !jobs[i].state.Queued? {
        return Err(NotCancellable);
      }
      Update(i, jobs[i].(state := Cancelled), JobCancelled, now);
      r := Ok(Outcome(id, false));
    }

    method RecoverExpiredLeases(now: Time, fenceNow: Time)
      modifies this
      ensures State() == RecoverFrom(old(State()), 0, fence.rows, now, fenceNow)
    {
      var i := 0;
      while i < |jobs|
        invariant i <= |jobs| == |old(jobs)|
        invariant RecoverFrom(State(), i, fence.rows, now, fenceNow) == RecoverFrom(old(State()), 0, fence.rows, now, fenceNow)
      {
        var row := jobs[i];
        if Active(row.state) && row.leaseExpires.Some? && row.leaseExpires.value <= now {
          var status := fence.Current(row.repository, fenceNow);
          if status.Some? && status.value.active && status.value.job == Some(row.id)
             && row.fenceEpoch == Some(status.value.epoch) && status.value.expires.Some?
          {
            Update(i, row.(leaseExpires := status.value.expires), QueueLeaseReconciled, now);
          } else {
            var retry := row.attempts < row.maxAttempts;
            Update(i, Returned(row, retry, now), LeaseExpired(retry), now);
          }
        }
        i := i + 1;
      }
    }

    /** `commitFails`: the queue transaction cannot be stored after the fence was acquired. */
    method ClaimNext(q: ClaimRequest, commitFails: bool, releaseAt: Time) returns (r: Result<Option<nat>, QueueError>)
      requires q.token != ""
      modifies this, fence
      ensures var s := ClaimScan(cfg, old(State()), old(fence.rows), q);
              if s.chosen.None? then
                r == Ok(None) && State() == ClaimTx(cfg, old(State()), old(fence.rows), q) && fence.Db() == old(fence.Db())
              else
                var j := s.db.jobs[s.chosen.value];
                var acquired := Apply(old(fence.Db()), ClaimFenceOp(j, q));
                if commitFails then
                  && r == Err(CommitFailed) && State() == old(State())
                  && fence.Db() == Apply(acquired, Release(j.repository, j.id, acquired.rows[j.repository].epoch, q.token, releaseAt))
                else
                  && r == Ok(Some(s.chosen.value)) && State() == ClaimTx(cfg, old(State()), old(fence.rows), q)
                  && fence.Db() == acquired
    {
      ghost var before := State();
      var jobsBefore, eventsBefore := jobs, events;
      RecoverExpiredLeases(q.now, q.fenceNow);
      var order := ClaimOrder(cfg, jobs, q.now);
      ghost var recovered := State();
      var chosen: Option<nat> := None;
      var k := 0;
      while k < |order| && chosen.None?
        invariant k <= |order| && |jobs| == |recovered.jobs|
        invariant fence.Db() == old(fence.Db()) && fence.rows == old(fence.rows)
        invariant forall m :: 0 <= m < |order| ==> order[m] < |jobs|
        invariant chosen.None? ==>
          Scan(cfg, State(), order[k..], q.corrupt, fence.rows, q.now, q.readAt)
          == Scan(cfg, recovered, order, q.corrupt, fence.rows, q.now, q.readAt)
        invariant chosen.Some? ==>
          Scanned(State(), chosen) == Scan(cfg, recovered, order, q.corrupt, fence.rows, q.now, q.readAt)
      {
        var i := order[k];
        var row := jobs[i];
        assert order[k..][1..] == order[k + 1..];
        if row.id in q.corrupt {
          Update(i, row.(state := Failed), JobIntegrityFailed, q.now);
        } else if row.workspace in cfg.policies
               && Count(jobs, ActiveIn(row.workspace)) < cfg.policies[row.workspace].maxRunning
               && Count(jobs, ActiveOn(row.repository)) == 0
               && !Occupied(fence.rows, row.repository, q.readAt)
        {
          chosen := Some(i);
        }
        k := k + 1;
      }
      if chosen.None? {
        return Ok(None);
      }
      var i := chosen.value;
      var row := jobs[i];
      var lease := fence.AcquireFence(row.repository, row.id, q.worker, q.token, q.seconds, q.readAt, q.readAt);
      if commitFails {
        jobs, events := jobsBefore, eventsBefore;
        var _ := fence.ReleaseFence(row.repository, row.id, lease.value.epoch, q.token, releaseAt);
        return Err(CommitFailed);
      }
      Update(i, LeasedTo(row, q, lease.value), JobLeased, q.now);
      r := Ok(Some(i));
    }

    method StartJob(id: Id, token: string, now: Time, fenceNow: Time) returns (r: Result<nat, QueueError>)
      modifies this
      ensures r == LeasedRow(old(jobs), fence.rows, id, token, {Leased}, now, fenceNow)
      ensures State() == StartTx(old(State()), fence.rows, id, token, now, fenceNow)
    {
      r := LeasedRow(jobs, fence.rows, id, token, {Leased}, now, fenceNow);
      if r.Ok? {
        Update(r.value, jobs[r.value].(state := Running), JobStarted, now);
      }
    }

    method AssertLeaseActive(id: Id, token: string, now: Time, fenceNow: Time) returns (r: Result<nat, QueueError>)
      ensures r == LeasedRow(jobs, fence.rows, id, token, {Leased, Running}, now, fenceNow)
    {
      var i := IndexOf(jobs, id);
      if i < 0 || !Active(jobs[i].state) {
        return Err(NoMatchingLease);
      }
      var row := jobs[i];
      if row.leaseExpires.None? || row.leaseExpires.value <= now {
        return Err(QueueLeaseExpired);
      }
      if row.leaseHash != Some(Sha256(token)) {
        return Err(WrongToken);
      }
      if row.fenceEpoch.None? {
        return Err(NoFenceEpoch);
      }
      var f := fence.AssertActive(row.repository, id, row.fenceEpoch.value, token, fenceNow);
      if f.Err? {
        return Err(FenceLost(ValidatedLease(fence.rows, row.repository, id, row.fenceEpoch.value, token, fenceNow).error));
      }
      r := Ok(i);
    }

    /** The fence is renewed and committed first; `commitFails`: the queue transaction cannot be stored after that. */
    method Heartbeat(q: HeartbeatRequest, commitFails: bool) returns (r: Result<Time, QueueError>)
      modifies this, fence
      ensures !HeartbeatAccepted(old(State()), old(fence.rows), q) ==>
                r.Err? && State() == old(State()) && fence.Db() == old(fence.Db())
      ensures HeartbeatAccepted(old(State()), old(fence.rows), q) ==>
        var i := LeasedRow(old(jobs), old(fence.rows), q.id, q.token, {Leased, Running}, q.now, q.fenceNow).value;
        && fence.Db() == Apply(old(fence.Db()), HeartbeatFenceOp(old(jobs)[i], q))
        && if commitFails then r == Err(CommitFailed) && State() == old(State())
           else
             && State() == HeartbeatTx(old(State()), old(fence.rows), q)
             && r == Ok(q.readAt + LeaseDuration(q.seconds)) && jobs == old(jobs)[i := old(jobs)[i].(leaseExpires := Some(r.value))]
    {
      var i := AssertLeaseActive(q.id, q.token, q.now, q.fenceNow);
      if i.Err? {
        return Err(i.error);
      }
      var row := jobs[i.value];
      var lease := fence.RenewFence(row.repository, q.id, row.fenceEpoch.value, q.token, q.seconds, q.readAt, q.at);
      if lease.Err? {
        return Err(FenceLost(lease.error));
      }
      if commitFails {
        return Err(CommitFailed);
      }
      jobs := jobs[i.value := row.(leaseExpires := Some(lease.value.expires))];
      r := Ok(lease.value.expires);
    }

    method ReleaseTerminalFence(row: Job, token: string, at: Time)
      requires row.fenceEpoch.Some?
      modifies this`events, fence
      ensures fence.Db() == Apply(old(fence.Db()), TerminalRelease(row, token, at))
      ensures State() == NoteReleaseFailed(old(State()), row, old(fence.rows), token, at)
    {
      var released := fence.ReleaseFence(row.repository, row.id, row.fenceEpoch.value, token, at);
      if released.Err? {
        events := events + [JobEvent(row.id, FenceReleaseFailed, at)];
      }
    }

    method CompleteJob(id: Id, token: string, now: Time, fenceNow: Time, releaseAt: Time) returns (r: Result<nat, QueueError>)
      modifies this, fence
      ensures r == LeasedRow(old(jobs), old(fence.rows), id, token, {Running}, now, fenceNow)
      ensures r.Err? ==> State() == old(State()) && fence.Db() == old(fence.Db())
      ensures r.Ok? ==>
        var row := old(jobs)[r.value];
        && State() == NoteReleaseFailed(CompleteTx(old(State()), old(fence.rows), id, token, now, fenceNow),
                                        row, old(fence.rows), token, releaseAt)
        && fence.Db() == Apply(old(fence.Db()), TerminalRelease(row, token, releaseAt))
    {
      r := LeasedRow(jobs, fence.rows, id, token, {Running}, now, fenceNow);
      if r.Err? {
        return;
      }
      var row := jobs[r.value];
      Update(r.value, Unleased(row, Succeeded), JobSucceeded, now);
      ReleaseTerminalFence(row, token, releaseAt);
    }

    method FailJob(q: FailRequest, releaseAt: Time) returns (r: Result<JobState, QueueError>)
      modifies this, fence
      ensures var i := LeasedRow(old(jobs), old(fence.rows), q.id, q.token, {Leased, Running}, q.now, q.fenceNow);
              if i.Err? then r == Err(i.error) && State() == old(State()) && fence.Db() == old(fence.Db())
              else
                var row := old(jobs)[i.value];
                && r == Ok(if CanRetry(row, q.retryable) then Queued else Failed)
                && State() == NoteReleaseFailed(FailTx(old(State()), old(fence.rows), q), row, old(fence.rows), q.token, releaseAt)
                && fence.Db() == Apply(old(fence.Db()), TerminalRelease(row, q.token, releaseAt))
    {
      var i := AssertLeaseActive(q.id, q.token, q.now, q.fenceNow);
      if i.Err? {
        return Err(i.error);
      }
      var row := jobs[i.value];
      var retry := q.retryable && row.attempts < row.maxAttempts;
      var available := q.now + Max(0, Min(q.delaySeconds, 86400)) * SECOND;
      Update(i.value, Returned(row, retry, available), if retry then JobRequeued else JobFailed, q.now);
      ReleaseTerminalFence(row, q.token, releaseAt);
      r := Ok(if retry then Queued else Failed);
    }

    /** The newest `limit` public states, oldest first, read newest first from the log. */
    method JobStateHistory(id: Id, limit: int) returns (r: Result<StateHistory, QueueError>)
      ensures r.Err? <==> !(1 <= limit <= 100)
      ensures r.Ok? ==>
        var full := History(events, id);
        && r.value.truncatedBefore == (|full| > limit)
        && r.value.events == if |full| > limit then full[|full| - limit..] else full
    {
      if !(1 <= limit <= 100) {
        return Err(InvalidLimit);
      }
      var shown: seq<PublicEvent>, truncated := [], false;
      var k := |events|;
      assert events[..k] == events;
      while k > 0 && !truncated
        invariant 0 <= k <= |events|
        invariant |shown| <= limit
        invariant !truncated ==> History(events, id) == History(events[..k], id) + shown
        invariant truncated ==> |shown| == limit && |History(events, id)| > limit
        invariant truncated ==> shown == History(events, id)[|History(events, id)| - limit..]
      {
        k := k - 1;
        assert events[..k + 1][..k] == events[..k];
        if events[k].job == id && EventState(events[k].kind).Some? {
          if |shown| == limit {
            truncated := true;
          } else {
            shown := [PublicEvent(EventState(events[k].kind).value, events[k].at)] + shown;
          }
        }
      }
      r := Ok(StateHistory(shown, truncated));
    }
  }
}
