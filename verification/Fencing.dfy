/** The independent lease fence (tankai/dev_orchestrator/fencing.py). */
module Fencing {
  // Its own store holds one epoch row per repository scope, and every method is one committed transaction. A
  // transaction reads the clock before it gets the write lock and again while it holds it, so the operations
  // below carry both readings: `readAt` and the later `at`.
  // SHA-256 appears as a free constructor, hence injective.

  import opened Common

  type Id = string

  /** Microseconds. */
  type Time = int

  const SECOND: Time := 1_000_000

  datatype TokenHash = Sha256(token: string)

  datatype FenceRow = FenceRow(
    epoch: nat,
    job: Option<Id>,
    owner: Option<Id>,
    tokenHash: Option<TokenHash>,
    expires: Option<Time>)

  type FenceTable = map<Id, FenceRow>

  datatype FenceEventKind = Acquired | Renewed | Released | ForceExpired

  datatype FenceEvent = FenceEvent(scope: Id, epoch: nat, kind: FenceEventKind, job: Option<Id>)

  datatype FenceDb = FenceDb(rows: FenceTable, events: seq<FenceEvent>)

  datatype FenceLease = FenceLease(scope: Id, job: Id, owner: Id, epoch: nat, expires: Time)

  datatype FenceStatus = FenceStatus(epoch: nat, job: Option<Id>, expires: Option<Time>, active: bool)

  datatype FenceError = MissingToken | Busy(until: Time) | NoFence | EpochReplaced | OtherJob | BadToken | Expired

  function LeaseDuration(seconds: int): Time {
    Max(30, Min(seconds, 86400)) * SECOND
  }

  /** What a worker must prove: the checks run in this order and the first failing one is reported. */
  function ValidatedLease(rows: FenceTable, scope: Id, job: Id, epoch: nat, token: string, now: Time)
    : Result<FenceLease, FenceError>
  {
    if scope !in rows then Err(NoFence)
    else
      var row := rows[scope];
      if row.epoch != epoch then Err(EpochReplaced)
      else if row.job != Some(job) then Err(OtherJob)
      else if row.tokenHash != Some(Sha256(token)) then Err(BadToken)
      else if row.expires.None? || row.expires.value <= now then Err(Expired)
      else Ok(FenceLease(scope, job, if row.owner.Some? then row.owner.value else "", epoch, row.expires.value))
  }

  predicate Holds(rows: FenceTable, scope: Id, job: Id, epoch: nat, token: string, now: Time) {
    ValidatedLease(rows, scope, job, epoch, token, now).Ok?
  }

  function Status(row: FenceRow, now: Time): FenceStatus {
    FenceStatus(row.epoch, row.job, row.expires,
                row.job.Some? && row.tokenHash.Some? && row.expires.Some? && row.expires.value > now)
  }

  /** The fence as `current` reports it; `None` when the scope was never acquired. */
  function CurrentStatus(rows: FenceTable, scope: Id, now: Time): Option<FenceStatus> {
    if scope in rows then Some(Status(rows[scope], now)) else None
  }

  function EpochOf(rows: FenceTable, scope: Id): nat {
    if scope in rows then rows[scope].epoch else 0
  }

  predicate Occupied(rows: FenceTable, scope: Id, now: Time) {
    scope in rows && rows[scope].expires.Some? && rows[scope].expires.value > now
  }

  // ----- transactions as functions of the stored state -----

  datatype FenceOp =
    | Acquire(scope: Id, job: Id, owner: Id, token: string, seconds: int, readAt: Time, at: Time)
    | Renew(scope: Id, job: Id, epoch: nat, token: string, seconds: int, readAt: Time, at: Time)
    | Release(scope: Id, job: Id, epoch: nat, token: string, at: Time)
    | ForceExpire(scope: Id, epoch: nat, at: Time)

  function AcquireResult(rows: FenceTable, op: FenceOp): Result<FenceLease, FenceError>
    requires op.Acquire?
  {
    if op.token == "" then Err(MissingToken)
    else if Occupied(rows, op.scope, op.readAt) then Err(Busy(rows[op.scope].expires.value))
    else Ok(FenceLease(op.scope, op.job, op.owner, EpochOf(rows, op.scope) + 1, op.readAt + LeaseDuration(op.seconds)))
  }

  function Log(db: FenceDb, row: FenceRow, scope: Id, kind: FenceEventKind, job: Option<Id>): FenceDb {
    FenceDb(db.rows[scope := row], db.events + [FenceEvent(scope, row.epoch, kind, job)])
  }

  /** The stored state after one transaction; a refused transaction is rolled back. */
  function Apply(db: FenceDb, op: FenceOp): FenceDb {
    match op
    case Acquire(scope, job, owner, token, _, _, _) =>
      var r := AcquireResult(db.rows, op);
      if r.Err? then db
      else Log(db, FenceRow(r.value.epoch, Some(job), Some(owner), Some(Sha256(token)), Some(r.value.expires)),
               scope, Acquired, Some(job))
    case Renew(scope, job, epoch, token, seconds, readAt, at) =>
      if !Holds(db.rows, scope, job, epoch, token, at) then db
      else Log(db, db.rows[scope].(expires := Some(readAt + LeaseDuration(seconds))), scope, Renewed, Some(job))
    case Release(scope, job, epoch, token, at) =>
      if !Holds(db.rows, scope, job, epoch, token, at) then db
      else Log(db, FenceRow(epoch, None, None, None, None), scope, Released, Some(job))
    case ForceExpire(scope, epoch, at) =>
      if EpochOf(db.rows, scope) != epoch || scope !in db.rows then db
      else Log(db, db.rows[scope].(expires := Some(at - SECOND)), scope, ForceExpired, db.rows[scope].job)
  }

  predicate WellTimed(op: FenceOp) {
    (op.Acquire? || op.Renew?) ==> op.readAt <= op.at
  }

  /** A run of transactions in commit order, on a clock that never steps back. */
  predicate Chronological(ops: seq<FenceOp>, start: Time)
    decreases |ops|
  {
    |ops| == 0 || (start <= ops[0].at && WellTimed(ops[0]) && Chronological(ops[1..], ops[0].at))
  }

  function Run(db: FenceDb, ops: seq<FenceOp>): FenceDb
    decreases |ops|
  {
    if |ops| == 0 then db else Run(Apply(db, ops[0]), ops[1..])
  }

  function EndTime(ops: seq<FenceOp>, start: Time): Time
    decreases |ops|
  {
    if |ops| == 0 then start else EndTime(ops[1..], ops[0].at)
  }

  // ----- the store -----

  class LeaseFenceStore {
    var rows: FenceTable
    var events: seq<FenceEvent>

    ghost function Db(): FenceDb
      reads this
    {
      FenceDb(rows, events)
    }

    constructor ()
      ensures Db() == FenceDb(map[], [])
    {
      rows, events := map[], [];
    }

    method Record(scope: Id, kind: FenceEventKind, job: Option<Id>)
      requires scope in rows
      modifies `events
      ensures events == old(events) + [FenceEvent(scope, rows[scope].epoch, kind, job)]
    {
      events := events + [FenceEvent(scope, rows[scope].epoch, kind, job)];
    }

    method AcquireFence(scope: Id, job: Id, owner: Id, token: string, seconds: int, readAt: Time, ghost at: Time)
      returns (r: Result<FenceLease, FenceError>)
      modifies this
      ensures r == AcquireResult(old(rows), Acquire(scope, job, owner, token, seconds, readAt, at))
      ensures Db() == Apply(old(Db()), Acquire(scope, job, owner, token, seconds, readAt, at))
    {
      if token == "" {
        return Err(MissingToken);
      }
      var expires := readAt + LeaseDuration(seconds);
      var epoch := 1;
      if scope in rows {
        var current := rows[scope].expires;
        if current.Some? && current.value > readAt {
          return Err(Busy(current.value));
        }
        epoch := rows[scope].epoch + 1;
      }
      rows := rows[scope := FenceRow(epoch, Some(job), Some(owner), Some(Sha256(token)), Some(expires))];
      Record(scope, Acquired, Some(job));
      r := Ok(FenceLease(scope, job, owner, epoch, expires));
    }

    method AssertActive(scope: Id, job: Id, epoch: nat, token: string, now: Time)
      returns (r: Result<FenceLease, FenceError>)
      ensures r.Ok? <==> Holds(rows, scope, job, epoch, token, now)
      ensures r.Ok? ==> r.value.epoch == epoch && r.value.expires > now
    {
      r := ValidatedLease(rows, scope, job, epoch, token, now);
    }

    method RenewFence(scope: Id, job: Id, epoch: nat, token: string, seconds: int, readAt: Time, at: Time)
      returns (r: Result<FenceLease, FenceError>)
      modifies this
      ensures r.Ok? <==> Holds(old(rows), scope, job, epoch, token, at)
      ensures r.Ok? ==> r.value.expires == readAt + LeaseDuration(seconds)
      ensures Db() == Apply(old(Db()), Renew(scope, job, epoch, token, seconds, readAt, at))
    {
      var lease := ValidatedLease(rows, scope, job, epoch, token, at);
      if lease.Err? {
        return lease;
      }
      var expires := readAt + LeaseDuration(seconds);
      rows := rows[scope := rows[scope].(expires := Some(expires))];
      Record(scope, Renewed, Some(job));
      r := Ok(lease.value.(expires := expires));
    }

    method ReleaseFence(scope: Id, job: Id, epoch: nat, token: string, at: Time)
      returns (r: Result<FenceLease, FenceError>)
      modifies this
      ensures r.Ok? <==> Holds(old(rows), scope, job, epoch, token, at)
      ensures Db() == Apply(old(Db()), Release(scope, job, epoch, token, at))
    {
      r := ValidatedLease(rows, scope, job, epoch, token, at);
      if r.Err? {
        return;
      }
      rows := rows[scope := FenceRow(epoch, None, None, None, None)];
      Record(scope, Released, Some(job));
    }

    method Current(scope: Id, now: Time) returns (status: Option<FenceStatus>)
      ensures status == CurrentStatus(rows, scope, now)
    {
      if scope !in rows {
        return None;
      }
      var row := rows[scope];
      var active := row.job.Some? && row.tokenHash.Some? && row.expires.Some? && row.expires.value > now;
      status := Some(FenceStatus(row.epoch, row.job, row.expires, active));
    }

    method ForceExpireForRecovery(scope: Id, expectedEpoch: nat, at: Time) returns (ok: bool)
      modifies this
      ensures ok <==> scope in old(rows) && old(rows)[scope].epoch == expectedEpoch
      ensures Db() == Apply(old(Db()), ForceExpire(scope, expectedEpoch, at))
    {
      if scope !in rows || rows[scope].epoch != expectedEpoch {
        return false;
      }
      rows := rows[scope := rows[scope].(expires := Some(at - SECOND))];
      Record(scope, ForceExpired, rows[scope].job);
      ok := true;
    }
  }

  // ----- dead epochs -----

  /** The pair (job, epoch) was issued for `scope` at or before now and no longer owns the fence. */
  predicate Dead(rows: FenceTable, scope: Id, job: Id, epoch: nat, now: Time) {
    scope in rows
    && epoch <= rows[scope].epoch
    && (epoch == rows[scope].epoch ==>
          rows[scope].job != Some(job) || !Status(rows[scope], now).active)
  }

  /** For an issued epoch, being dead is the same as every token being refused at this instant. */
  lemma DeadMeansNobodyPasses(rows: FenceTable, scope: Id, job: Id, epoch: nat, now: Time)
    requires epoch <= EpochOf(rows, scope) && scope in rows
    ensures Dead(rows, scope, job, epoch, now) <==> forall token :: !Holds(rows, scope, job, epoch, token, now)
  {
    if !Dead(rows, scope, job, epoch, now) {
      assert Holds(rows, scope, job, epoch, rows[scope].tokenHash.value.token, now);
    }
  }

  lemma DeadStepwise(db: FenceDb, op: FenceOp, scope: Id, job: Id, epoch: nat, now: Time)
    requires Dead(db.rows, scope, job, epoch, now)
    requires now <= op.at && WellTimed(op)
    ensures Dead(Apply(db, op).rows, scope, job, epoch, op.at)
  {
  }

  /**
   * Dead stays dead. Once no token is accepted for an issued (job, epoch), no token is accepted for it
   * after any number of later transactions by anybody, at any later time.
   */
  lemma {:induction false} DeadStaysDead(db: FenceDb, ops: seq<FenceOp>, scope: Id, job: Id, epoch: nat, now: Time, later: Time)
    requires scope in db.rows && epoch <= db.rows[scope].epoch
    requires forall token :: !Holds(db.rows, scope, job, epoch, token, now)
    requires Chronological(ops, now) && EndTime(ops, now) <= later
    ensures forall token :: !Holds(Run(db, ops).rows, scope, job, epoch, token, later)
    ensures Dead(Run(db, ops).rows, scope, job, epoch, later)
    decreases |ops|
  {
    DeadMeansNobodyPasses(db.rows, scope, job, epoch, now);
    if |ops| > 0 {
      var db' := Apply(db, ops[0]);
      DeadStepwise(db, ops[0], scope, job, epoch, now);
      DeadMeansNobodyPasses(db'.rows, scope, job, epoch, ops[0].at);
      DeadStaysDead(db', ops[1..], scope, job, epoch, ops[0].at, later);
    } else {
      assert Dead(db.rows, scope, job, epoch, later);
      DeadMeansNobodyPasses(db.rows, scope, job, epoch, later);
    }
  }

  /** Releasing kills the released epoch; a successful takeover kills every earlier one. */
  lemma EndingALeaseKillsIt(db: FenceDb, op: FenceOp, job: Id, epoch: nat)
    requires Apply(db, op) != db
    requires match op
             case Acquire(_, _, _, _, _, _, _) => 0 < epoch < EpochOf(db.rows, op.scope) + 1
             case Release(_, _, _, _, _) => epoch == op.epoch
             case ForceExpire(_, _, _) => epoch == op.epoch
             case Renew(_, _, _, _, _, _, _) => false
    ensures Dead(Apply(db, op).rows, op.scope, job, epoch, op.at)
  {
  }

  /** A fence that can be taken over belongs to nobody: the previous epoch is already dead. */
  lemma TakeoverOnlyAfterDeath(rows: FenceTable, op: FenceOp, job: Id, epoch: nat)
    requires op.Acquire? && WellTimed(op) && AcquireResult(rows, op).Ok?
    requires 0 < epoch <= EpochOf(rows, op.scope)
    ensures forall token :: !Holds(rows, op.scope, job, epoch, token, op.at)
    ensures AcquireResult(rows, op).value.epoch > epoch
  {
  }

  /** At one instant at most one (job, epoch, token) is accepted for a scope. */
  lemma OneHolderPerScope(rows: FenceTable, scope: Id,
                          job1: Id, epoch1: nat, token1: string, now1: Time,
                          job2: Id, epoch2: nat, token2: string, now2: Time)
    requires Holds(rows, scope, job1, epoch1, token1, now1)
    requires Holds(rows, scope, job2, epoch2, token2, now2)
    ensures job1 == job2 && epoch1 == epoch2 && token1 == token2
  {
  }

  /** No transaction lowers an epoch, and one that keeps it keeps its owner or clears it for good. */
  predicate SameOrLaterLease(before: FenceTable, after: FenceTable, scope: Id) {
    scope in before ==>
      scope in after
      && (before[scope].epoch < after[scope].epoch
          || (before[scope].epoch == after[scope].epoch
              && (after[scope].tokenHash.Some? ==>
                    after[scope].tokenHash == before[scope].tokenHash && after[scope].job == before[scope].job)))
  }

  lemma StepKeepsLeaseOrder(db: FenceDb, op: FenceOp, scope: Id)
    ensures SameOrLaterLease(db.rows, Apply(db, op).rows, scope)
  {
  }

  lemma {:induction false} RunKeepsLeaseOrder(db: FenceDb, ops: seq<FenceOp>, scope: Id)
    ensures SameOrLaterLease(db.rows, Run(db, ops).rows, scope)
    decreases |ops|
  {
    if |ops| > 0 {
      StepKeepsLeaseOrder(db, ops[0], scope);
      RunKeepsLeaseOrder(Apply(db, ops[0]), ops[1..], scope);
    }
  }

  /**
   * Handover is one-way: whoever is accepted later in a run either is the same lease or holds a
   * strictly larger epoch.
   */
  lemma AcceptedEpochsNeverGoBack(db: FenceDb, ops: seq<FenceOp>, scope: Id,
                                  job1: Id, epoch1: nat, token1: string, now1: Time,
                                  job2: Id, epoch2: nat, token2: string, now2: Time)
    requires Holds(db.rows, scope, job1, epoch1, token1, now1)
    requires Holds(Run(db, ops).rows, scope, job2, epoch2, token2, now2)
    ensures epoch1 < epoch2 || (epoch1 == epoch2 && job1 == job2 && token1 == token2)
  {
    RunKeepsLeaseOrder(db, ops, scope);
  }

  // ----- the event log -----

  function IssuedEpochs(events: seq<FenceEvent>, scope: Id): seq<nat> {
    if |events| == 0 then []
    else
      var last := events[|events| - 1];
      IssuedEpochs(events[..|events| - 1], scope) + if last.scope == scope && last.kind.Acquired? then [last.epoch] else []
  }

  predicate CountsUpTo(epochs: seq<nat>, last: nat) {
    |epochs| == last && forall k :: 0 <= k < |epochs| ==> epochs[k] == k + 1
  }

  /** The log shows the epochs 1, 2, 3, ... of the scope, up to the one in the row. */
  ghost predicate LogCountsEpochs(db: FenceDb) {
    forall scope :: CountsUpTo(IssuedEpochs(db.events, scope), EpochOf(db.rows, scope))
  }

  /** One more event either issues the next epoch of a scope or none. */
  lemma StepIssues(db: FenceDb, op: FenceOp, scope: Id)
    ensures var db' := Apply(db, op);
            var before, after := IssuedEpochs(db.events, scope), IssuedEpochs(db'.events, scope);
            || (after == before && EpochOf(db'.rows, scope) == EpochOf(db.rows, scope))
            || (after == before + [EpochOf(db'.rows, scope)] && EpochOf(db'.rows, scope) == EpochOf(db.rows, scope) + 1)
  {
    var db' := Apply(db, op);
    if db' != db {
      assert db'.events[..|db'.events| - 1] == db.events;
    }
  }

  lemma StepKeepsLog(db: FenceDb, op: FenceOp)
    requires LogCountsEpochs(db)
    ensures LogCountsEpochs(Apply(db, op))
  {
    forall scope
      ensures CountsUpTo(IssuedEpochs(Apply(db, op).events, scope), EpochOf(Apply(db, op).rows, scope))
    {
      StepIssues(db, op, scope);
      assert CountsUpTo(IssuedEpochs(db.events, scope), EpochOf(db.rows, scope));
    }
  }

  lemma {:induction false} RunKeepsLog(db: FenceDb, ops: seq<FenceOp>)
    requires LogCountsEpochs(db)
    ensures LogCountsEpochs(Run(db, ops))
    decreases |ops|
  {
    if |ops| > 0 {
      StepKeepsLog(db, ops[0]);
      RunKeepsLog(Apply(db, ops[0]), ops[1..]);
    }
  }

  /** On every run from the empty store each acquire gets the next epoch, so no epoch is issued twice. */
  lemma EveryAcquireGetsTheNextEpoch(ops: seq<FenceOp>)
    ensures LogCountsEpochs(Run(FenceDb(map[], []), ops))
  {
    RunKeepsLog(FenceDb(map[], []), ops);
  }
}
