/** Retention passes and the archiving of old runs (long_term_memory.py). */
module MemoryRetention {
  import opened Common
  import opened VectorStores
  import opened MemoryModel

  predicate SortedByScore(s: seq<Scored>) {
    forall i, k :: 0 <= i < k < |s| ==> s[i].score <= s[k].score
  }

  lemma {:induction false} InsertKeepsSorted(s: seq<Scored>, x: Scored)
    requires SortedByScore(s)
    ensures SortedByScore(InsertScored(s, x))
    ensures forall y :: y in InsertScored(s, x) <==> y in s || y == x
  {
    var n := |s|;
    if n > 0 && !(s[n - 1].score <= x.score) {
      InsertKeepsSorted(s[..n - 1], x);
      var r := InsertScored(s[..n - 1], x);
      assert s == s[..n - 1] + [s[n - 1]];
      forall i | 0 <= i < |r|
        ensures r[i].score <= s[n - 1].score
      {
        assert r[i] in s[..n - 1] || r[i] == x;
      }
    }
  }

  lemma {:induction false} SortSorts(s: seq<Scored>)
    ensures SortedByScore(SortByScore(s)) && forall y :: y in SortByScore(s) <==> y in s
  {
    if |s| > 0 {
      SortSorts(s[..|s| - 1]);
      InsertKeepsSorted(SortByScore(s[..|s| - 1]), s[|s| - 1]);
      assert s == s[..|s| - 1] + [s[|s| - 1]];
    }
  }

  ghost predicate DistinctIds(plan: seq<Scored>) {
    forall i, k :: 0 <= i < k < |plan| ==> plan[i].id != plan[k].id
  }

  /** The plan names each entry once and leaves cold entries cold. */
  ghost predicate PlanFits(s: Store, plan: seq<Scored>) {
    && DistinctIds(plan)
    && forall i :: 0 <= i < |plan| ==> plan[i].id in s.rows && (s.rows[plan[i].id].policy.Cold? ==> plan[i].target.Cold?)
  }

  predicate Reached(s: Store, t: Store, x: Scored, fails: Failing) {
    x.id in s.rows && x.id in t.rows && (t.rows[x.id].policy == x.target || (x.target.Cold? && fails(x.id) && t.rows[x.id] == s.rows[x.id]))
  }

  lemma ChangeKeepsMemory(s: Store, id: Id, target: Policy, writes: bool)
    requires Inv(s) && id in s.rows && (s.rows[id].policy.Cold? ==> target.Cold?)
    ensures Inv(ChangeTx(s, id, target, writes)) && NothingLost(s, ChangeTx(s, id, target, writes))
    ensures forall x :: x in s.rows && x != id ==> ChangeTx(s, id, target, writes).rows[x] == s.rows[x]
  {
    if s.rows[id].policy == target {
    } else if target.Cold? {
      ColdKeepsMemory(s, id, writes);
    } else {
      PolicyKeepsMemory(s, id, target);
    }
  }

  lemma {:induction false} PlanKeepsMemory(s: Store, plan: seq<Scored>, fails: Failing)
    requires Inv(s) && PlanFits(s, plan)
    ensures var t := ApplyPlan(s, plan, fails);
            && Inv(t) && NothingLost(s, t)
            && forall id :: id in s.rows && (forall i :: 0 <= i < |plan| ==> plan[i].id != id) ==> t.rows[id] == s.rows[id]
  {
    if |plan| > 0 {
      var front, last := plan[..|plan| - 1], plan[|plan| - 1];
      var before := ApplyPlan(s, front, fails);
      PlanKeepsMemory(s, front, fails);
      assert before.rows[last.id] == s.rows[last.id];
      ChangeKeepsMemory(before, last.id, last.target, !fails(last.id));
      LostTransitive(s, before, ApplyPlan(s, plan, fails));
    }
  }

  lemma ChangeReaches(s: Store, before: Store, x: Scored, fails: Failing)
    requires x.id in s.rows && x.id in before.rows && before.rows[x.id] == s.rows[x.id]
    ensures Reached(s, ChangeTx(before, x.id, x.target, !fails(x.id)), x, fails)
    ensures forall id :: id != x.id && id in before.rows ==>
              id in ChangeTx(before, x.id, x.target, !fails(x.id)).rows
              && ChangeTx(before, x.id, x.target, !fails(x.id)).rows[id] == before.rows[id]
  {
  }

  /** Every entry ends with the policy planned for it, except where its archive record could not be written. */
  lemma {:induction false} PlanReached(s: Store, plan: seq<Scored>, fails: Failing)
    requires DistinctIds(plan) && forall i :: 0 <= i < |plan| ==> plan[i].id in s.rows
    ensures var t := ApplyPlan(s, plan, fails);
            && (forall i :: 0 <= i < |plan| ==> Reached(s, t, plan[i], fails))
            && forall id :: id in s.rows && (forall i :: 0 <= i < |plan| ==> plan[i].id != id) ==>
                 id in t.rows && t.rows[id] == s.rows[id]
  {
    if |plan| > 0 {
      var front, last := plan[..|plan| - 1], plan[|plan| - 1];
      var before, t := ApplyPlan(s, front, fails), ApplyPlan(s, plan, fails);
      PlanReached(s, front, fails);
      ChangeReaches(s, before, last, fails);
      forall i | 0 <= i < |front|
        ensures Reached(s, t, plan[i], fails)
      {
        assert Reached(s, before, front[i], fails);
      }
    }
  }

  function ScoredNow(s: Store, r: Rules): seq<Scored>
    requires Listed(s)
  {
    ScoreAll(s.order, s.rows, r)
  }

  function PlanNow(s: Store, r: Rules): seq<Scored>
    requires Listed(s)
  {
    Plan(ScoredNow(s, r), Overflow(ScoredNow(s, r), r.maxHot))
  }

  lemma OverflowIsHot(scored: seq<Scored>, maxHot: Option<nat>, i: nat)
    requires i < |Overflow(scored, maxHot)|
    ensures Overflow(scored, maxHot)[i] in scored && Overflow(scored, maxHot)[i].target.Hot?
  {
    SortSorts(HotOnes(scored));
    assert Overflow(scored, maxHot)[i] in SortByScore(HotOnes(scored));
  }

  lemma PlanNowFits(s: Store, r: Rules)
    requires Inv(s)
    ensures PlanFits(s, PlanNow(s, r))
  {
    var scored, overflow := ScoredNow(s, r), Overflow(ScoredNow(s, r), r.maxHot);
    forall i | 0 <= i < |scored| && s.rows[scored[i].id].policy.Cold?
      ensures !Demoted(overflow, scored[i].id)
    {
      forall k: nat | k < |overflow|
        ensures overflow[k].id != scored[i].id
      {
        OverflowIsHot(scored, r.maxHot, k);
        var j :| 0 <= j < |scored| && scored[j] == overflow[k];
        assert scored[i].target.Cold? && scored[j].target.Hot?;
        assert s.order[i] != s.order[j];
      }
    }
  }

  /** No memory is lost in a retention pass, whatever archive writes fail, and the index stays exact. */
  lemma RetentionKeepsMemory(s: Store, r: Rules, fails: Failing)
    requires Inv(s)
    ensures Inv(RetainTx(s, r, fails)) && NothingLost(s, RetainTx(s, r, fails))
  {
    PlanNowFits(s, r);
    PlanKeepsMemory(s, PlanNow(s, r), fails);
  }

  function HotIds(s: Store): set<Id> {
    set id | id in s.rows && s.rows[id].policy.Hot?
  }

  function Ids(list: seq<Scored>): set<Id> {
    set i | 0 <= i < |list| :: list[i].id
  }

  lemma {:induction false} IdsSize(list: seq<Scored>)
    ensures |Ids(list)| <= |list|
  {
    if |list| > 0 {
      IdsSize(list[..|list| - 1]);
      assert Ids(list) == Ids(list[..|list| - 1]) + {list[|list| - 1].id};
    }
  }

  /** The candidates that stay hot. */
  function Kept(scored: seq<Scored>, maxHot: Option<nat>): seq<Scored> {
    var hot := SortByScore(HotOnes(scored));
    hot[|Overflow(scored, maxHot)|..]
  }

  lemma OverflowThenKept(scored: seq<Scored>, maxHot: Option<nat>)
    ensures var hot, n := SortByScore(HotOnes(scored)), |Overflow(scored, maxHot)|;
            n <= |hot| && Overflow(scored, maxHot) == hot[..n] && Kept(scored, maxHot) == hot[n..]
  {
  }

  lemma BehindOthers(hot: seq<Scored>, n: nat, x: Scored)
    requires x in hot && n <= |hot| && forall k :: 0 <= k < n ==> hot[k].id != x.id
    ensures x in hot[n..]
  {
    var j :| 0 <= j < |hot| && hot[j] == x;
    assert hot[n..][j - n] == x;
  }

  lemma NotDemotedIsKept(scored: seq<Scored>, maxHot: Option<nat>, x: Scored)
    requires x in scored && x.target.Hot? && !Demoted(Overflow(scored, maxHot), x.id)
    ensures x in Kept(scored, maxHot)
  {
    var hot, out := SortByScore(HotOnes(scored)), Overflow(scored, maxHot);
    SortSorts(HotOnes(scored));
    OverflowThenKept(scored, maxHot);
    forall k | 0 <= k < |out|
      ensures hot[k].id != x.id
    {
      assert out[k] == hot[k];
    }
    BehindOthers(hot, |out|, x);
  }

  lemma RowOf(s: Store, id: Id) returns (i: nat)
    requires Inv(s) && id in s.rows
    ensures i < |s.order| && s.order[i] == id
  {
    assert id in s.order;
    i :| 0 <= i < |s.order| && s.order[i] == id;
  }

  /** With working archive storage every entry ends with the policy planned for it. */
  lemma PolicyAfter(s: Store, r: Rules, fails: Failing, i: nat)
    requires Inv(s) && (forall x :: !fails(x)) && i < |s.order|
    ensures var t := RetainTx(s, r, fails);
            t.rows.Keys == s.rows.Keys && s.order[i] in s.rows && t.rows[s.order[i]].policy == PlanNow(s, r)[i].target
  {
    var plan := PlanNow(s, r);
    PlanNowFits(s, r);
    PlanKeepsMemory(s, plan, fails);
    PlanReached(s, plan, fails);
    assert Reached(s, RetainTx(s, r, fails), plan[i], fails);
  }

  lemma HotAfterIsKept(s: Store, r: Rules, fails: Failing, id: Id)
    requires Inv(s) && (forall x :: !fails(x)) && id in HotIds(RetainTx(s, r, fails))
    ensures id in s.rows
    ensures Scored(id, Hot, KeepScore(s.rows[id], r.now)) in Kept(ScoredNow(s, r), r.maxHot)
  {
    RetentionKeepsMemory(s, r, fails);
    var i := RowOf(s, id);
    PolicyAfter(s, r, fails, i);
    NotDemotedIsKept(ScoredNow(s, r), r.maxHot, ScoredNow(s, r)[i]);
  }

  /** With working archive storage at most `maxHot` entries are hot after a retention pass. */
  lemma RetentionBound(s: Store, r: Rules, fails: Failing)
    requires Inv(s) && r.maxHot.Some? && forall x :: !fails(x)
    ensures |HotIds(RetainTx(s, r, fails))| <= r.maxHot.value
  {
    var t, kept := RetainTx(s, r, fails), Kept(ScoredNow(s, r), r.maxHot);
    forall id | id in HotIds(t)
      ensures id in Ids(kept)
    {
      HotAfterIsKept(s, r, fails, id);
      var k :| 0 <= k < |kept| && kept[k].id == id;
    }
    SubsetSize(HotIds(t), Ids(kept));
    IdsSize(kept);
  }

  lemma FrontScoresLess(hot: seq<Scored>, n: nat, out: Scored, kept: Scored)
    requires SortedByScore(hot) && n <= |hot| && out in hot[..n] && kept in hot[n..]
    ensures out.score <= kept.score
  {
    var i :| 0 <= i < n && hot[..n][i] == out;
    var k :| 0 <= k < |hot| - n && hot[n..][k] == kept;
    assert hot[i].score <= hot[n + k].score;
  }

  lemma DemotedScoresLess(scored: seq<Scored>, maxHot: Option<nat>, out: Scored, kept: Scored)
    requires out in Overflow(scored, maxHot) && kept in Kept(scored, maxHot)
    ensures out.score <= kept.score
  {
    SortSorts(HotOnes(scored));
    OverflowThenKept(scored, maxHot);
    FrontScoresLess(SortByScore(HotOnes(scored)), |Overflow(scored, maxHot)|, out, kept);
  }

  /** The limit demotes just as many candidates as exceed it. */
  lemma OverflowSize(scored: seq<Scored>, maxHot: nat)
    ensures |Overflow(scored, Some(maxHot))| == Max(0, |HotOnes(scored)| - maxHot)
  {
  }

  /** The limit demotes the weakest: no entry that stays hot scores less than one that the limit sent to warm. */
  lemma WeakestAreDemoted(s: Store, r: Rules, fails: Failing, out: Scored, id: Id)
    requires Inv(s) && forall x :: !fails(x)
    requires out in Overflow(ScoredNow(s, r), r.maxHot) && id in HotIds(RetainTx(s, r, fails))
    ensures id in s.rows && out.score <= KeepScore(s.rows[id], r.now)
  {
    HotAfterIsKept(s, r, fails, id);
    DemotedScoresLess(ScoredNow(s, r), r.maxHot, out, Scored(id, Hot, KeepScore(s.rows[id], r.now)));
  }

  // ----- archiving old runs -----

  lemma {:induction false} ColdAllKeepsMemory(s: Store, ids: seq<Id>, fails: Failing)
    requires Inv(s)
    ensures Inv(ColdAll(s, ids, fails)) && NothingLost(s, ColdAll(s, ids, fails))
  {
    if |ids| > 0 {
      var front, last := ids[..|ids| - 1], ids[|ids| - 1];
      ColdAllKeepsMemory(s, front, fails);
      ColdKeepsMemory(ColdAll(s, front, fails), last, !fails(last));
      LostTransitive(s, ColdAll(s, front, fails), ColdAll(s, ids, fails));
    }
  }

  lemma {:induction false} ArchivingKeepsMemory(s: Store, runs: seq<Id>, fails: Failing)
    requires Inv(s)
    ensures Inv(ArchiveRunsTx(s, runs, fails)) && NothingLost(s, ArchiveRunsTx(s, runs, fails))
  {
    if |runs| > 0 {
      var before := ArchiveRunsTx(s, runs[..|runs| - 1], fails);
      ArchivingKeepsMemory(s, runs[..|runs| - 1], fails);
      ColdAllKeepsMemory(before, EntriesOf(before, before.order, runs[|runs| - 1]), fails);
      LostTransitive(s, before, ArchiveRunsTx(s, runs, fails));
    }
  }

  // ----- all sequences -----

  datatype Op =
    | Add(id: Id, row: Row)
    | Archive(id: Id, writes: bool)
    | Restore(id: Id, readable: bool)
    | Retrieve(id: Id, now: real)
    | Retain(rules: Rules, fails: Failing)
    | ArchiveRuns(runs: seq<Id>, failing: Failing)

  ghost function After(s: Store, op: Op): Store
    requires Inv(s)
  {
    match op
    case Add(id, row) => if id in s.rows then s else AddTx(s, id, row)
    case Archive(id, writes) => ColdTx(s, id, writes)
    case Restore(id, readable) => RestoreTx(s, id, readable)
    case Retrieve(id, now) => TouchTx(s, id, now)
    case Retain(r, fails) => RetainTx(s, r, fails)
    case ArchiveRuns(runs, fails) => ArchiveRunsTx(s, runs, fails)
  }

  /** Every entry keeps its original; new entries may have come. */
  ghost predicate Remembers(s: Store, s': Store) {
    forall id :: id in s.rows ==> id in s'.rows && Remembered(s', id) == Remembered(s, id)
  }

  lemma OperationKeepsMemory(s: Store, op: Op)
    requires Inv(s)
    ensures Inv(After(s, op)) && Remembers(s, After(s, op))
  {
    match op
    case Add(id, row) =>
      if id !in s.rows {
        AddKeepsMemory(s, id, row);
      }
    case Archive(id, writes) => ColdKeepsMemory(s, id, writes);
    case Restore(id, readable) => RestoreKeepsMemory(s, id, readable);
    case Retrieve(id, now) => TouchKeepsMemory(s, id, now);
    case Retain(r, fails) => RetentionKeepsMemory(s, r, fails);
    case ArchiveRuns(runs, fails) => ArchivingKeepsMemory(s, runs, fails);
  }

  ghost function RunAll(s: Store, ops: seq<Op>): (t: Store)
    requires Inv(s)
    ensures Inv(t) && Remembers(s, t)
  {
    if |ops| == 0 then s
    else
      var front := RunAll(s, ops[..|ops| - 1]);
      OperationKeepsMemory(front, ops[|ops| - 1]);
      After(front, ops[|ops| - 1])
  }

  /**
   * Over any sequence of additions, archivings, restores, retrievals and retention passes no memory is lost, and the
   * index holds exactly the semantic and procedural entries that are not cold.
   */
  lemma NoMemoryIsLost(s: Store, ops: seq<Op>, id: Id)
    requires Inv(s)
    ensures id in s.rows ==> id in RunAll(s, ops).rows && Remembered(RunAll(s, ops), id) == Remembered(s, id) && Remembered(s, id).Some?
    ensures var t := RunAll(s, ops);
            id in t.index <==> id in t.rows && Indexed(t.rows[id].kind) && !t.rows[id].policy.Cold?
  {
    assert RecordFits(s, id) && IndexFits(RunAll(s, ops), id);
  }
}
