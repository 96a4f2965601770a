/** What a retention pass decides, told by the fields of the entries (tankai/core/long_term_memory.py). */
module RetentionByFields {
  import opened Common
  import opened VectorStores
  import opened MemoryModel
  import opened MemoryRetention

  /** An entry without a confidence counts as half sure. */
  function Sureness(row: Row): real {
    if row.confidence == 0.0 then 0.5 else row.confidence
  }

  /** Cold already, old and hardly used, or never used, doubtful and more than a day old. */
  predicate ToArchive(row: Row, r: Rules) {
    || row.policy.Cold?
    || (r.now - row.created >= r.coldAfter && row.access < 2)
    || (Sureness(row) < r.minConfidence && row.access == 0 && r.now - row.created > 1.0)
  }

  /** Created or last accessed too long ago to stay hot. */
  predicate CoolsDown(row: Row, r: Rules) {
    r.now - row.created >= r.warmAfter || r.now - row.accessed >= r.warmAfter
  }

  predicate MayStayHot(row: Row, r: Rules) {
    !ToArchive(row, r) && !CoolsDown(row, r)
  }

  function HotCandidates(s: Store, r: Rules): set<Id> {
    set id | id in s.rows && MayStayHot(s.rows[id], r)
  }

  /** At least as sure, as used, as young and as recently used, and in one of these strictly more. */
  predicate Stronger(x: Row, y: Row) {
    var a, b := if x.access > 10 then 10 else x.access, if y.access > 10 then 10 else y.access;
    && Sureness(x) >= Sureness(y) && a >= b && x.created >= y.created && x.accessed >= y.accessed
    && (Sureness(x) > Sureness(y) || a > b || x.created > y.created || x.accessed > y.accessed)
  }

  lemma TargetByFields(row: Row, r: Rules)
    ensures Target(row, r).Cold? <==> ToArchive(row, r)
    ensures Target(row, r).Hot? <==> MayStayHot(row, r)
  {
  }

  lemma StrongerScoresMore(x: Row, y: Row, now: real)
    requires Stronger(x, y)
    ensures KeepScore(x, now) > KeepScore(y, now)
  {
    var a, b := Min(x.access, 10) as real, Min(y.access, 10) as real;
    assert a >= b && Confidence(x) >= Confidence(y);
    assert a * 0.05 >= b * 0.05 && (a > b ==> a * 0.05 > b * 0.05);
    assert Confidence(x) * 0.5 >= Confidence(y) * 0.5 && (Confidence(x) > Confidence(y) ==> Confidence(x) * 0.5 > Confidence(y) * 0.5);
    assert (now - x.created) * 0.01 <= (now - y.created) * 0.01;
    assert (now - x.accessed) * 0.02 <= (now - y.accessed) * 0.02;
  }

  lemma EntryOf(s: Store, r: Rules, i: nat)
    requires Inv(s) && i < |s.order|
    ensures var scored := ScoredNow(s, r);
            i < |scored| && s.order[i] in s.rows
            && scored[i] == Scored(s.order[i], Target(s.rows[s.order[i]], r), KeepScore(s.rows[s.order[i]], r.now))
  {
  }

  /** Entries that are overflow are hot candidates with their own score. */
  lemma DemotedIsOverflow(s: Store, r: Rules, i: nat)
    requires Inv(s) && i < |s.order| && Demoted(Overflow(ScoredNow(s, r), r.maxHot), s.order[i])
    ensures s.order[i] in s.rows && MayStayHot(s.rows[s.order[i]], r)
    ensures Scored(s.order[i], Hot, KeepScore(s.rows[s.order[i]], r.now)) in Overflow(ScoredNow(s, r), r.maxHot)
  {
    var scored, over := ScoredNow(s, r), Overflow(ScoredNow(s, r), r.maxHot);
    var k: nat :| k < |over| && over[k].id == s.order[i];
    OverflowIsHot(scored, r.maxHot, k);
    var j :| 0 <= j < |scored| && scored[j] == over[k];
    assert s.order[j] == s.order[i];
    TargetByFields(s.rows[s.order[i]], r);
  }

  /**
   * With working archive storage the pass archives exactly the entries to archive, and of the others it cools down those
   * that must; an entry that may stay hot stays so unless the limit sends it to warm, which without a limit never happens.
   */
  lemma RetentionDecides(s: Store, r: Rules, fails: Failing, id: Id)
    requires Inv(s) && (forall x :: !fails(x)) && id in s.rows
    ensures var row, after := s.rows[id], RetainTx(s, r, fails);
            && id in after.rows
            && (after.rows[id].policy.Cold? <==> ToArchive(row, r))
            && (after.rows[id].policy.Hot? ==> MayStayHot(row, r))
            && (r.maxHot.None? && MayStayHot(row, r) ==> after.rows[id].policy.Hot?)
  {
    var i := RowOf(s, id);
    PolicyAfter(s, r, fails, i);
    TargetByFields(s.rows[id], r);
    EntryOf(s, r, i);
    if Demoted(Overflow(ScoredNow(s, r), r.maxHot), id) {
      DemotedIsOverflow(s, r, i);
    }
  }

  /** When the limit demotes one entry and keeps another hot, the demoted one was not the stronger. */
  lemma LimitDemotesNoStronger(s: Store, r: Rules, fails: Failing, x: Id, y: Id)
    requires Inv(s) && (forall e :: !fails(e)) && x in s.rows && y in s.rows && MayStayHot(s.rows[x], r)
    requires var after := RetainTx(s, r, fails);
             x in after.rows && !after.rows[x].policy.Hot? && y in after.rows && after.rows[y].policy.Hot?
    ensures !Stronger(s.rows[x], s.rows[y])
  {
    var i := RowOf(s, x);
    PolicyAfter(s, r, fails, i);
    TargetByFields(s.rows[x], r);
    EntryOf(s, r, i);
    assert Demoted(Overflow(ScoredNow(s, r), r.maxHot), x);
    DemotedIsOverflow(s, r, i);
    WeakestAreDemoted(s, r, fails, Scored(x, Hot, KeepScore(s.rows[x], r.now)), y);
    if Stronger(s.rows[x], s.rows[y]) {
      StrongerScoresMore(s.rows[x], s.rows[y], r.now);
    }
  }

  // ----- how many stay hot -----

  lemma {:induction false} HotOnesAreCandidates(s: Store, r: Rules)
    requires Inv(s)
    ensures Ids(HotOnes(ScoredNow(s, r))) == HotCandidates(s, r)
  {
    var scored := ScoredNow(s, r);
    var hot := HotOnes(scored);
    forall id
      ensures id in Ids(hot) <==> id in HotCandidates(s, r)
    {
      if id in Ids(hot) {
        var k :| 0 <= k < |hot| && hot[k].id == id;
        assert hot[k] in scored;
        var j :| 0 <= j < |scored| && scored[j] == hot[k];
        TargetByFields(s.rows[s.order[j]], r);
      }
      if id in HotCandidates(s, r) {
        var i := RowOf(s, id);
        TargetByFields(s.rows[id], r);
        assert scored[i] in hot;
      }
    }
  }

  ghost predicate DistinctEntries(list: seq<Scored>) {
    forall i, k :: 0 <= i < k < |list| ==> list[i].id != list[k].id
  }

  lemma {:induction false} DistinctIdsSize(list: seq<Scored>)
    requires DistinctEntries(list)
    ensures |Ids(list)| == |list|
  {
    if |list| > 0 {
      var n := |list| - 1;
      DistinctIdsSize(list[..n]);
      assert Ids(list) == Ids(list[..n]) + {list[n].id};
      assert list[n].id !in Ids(list[..n]);
    }
  }

  lemma AppendDistinct(list: seq<Scored>, x: Scored)
    requires DistinctEntries(list) && forall y :: y in list ==> y.id != x.id
    ensures DistinctEntries(list + [x])
  {
    assert forall k :: 0 <= k < |list| ==> list[k] in list;
  }

  lemma {:induction false} HotOnesDistinct(scored: seq<Scored>)
    requires DistinctEntries(scored)
    ensures DistinctEntries(HotOnes(scored))
  {
    if |scored| > 0 {
      var front, last := scored[..|scored| - 1], scored[|scored| - 1];
      HotOnesDistinct(front);
      assert scored == front + [last];
      assert forall x :: x in front ==> x.id != last.id;
      AppendDistinct(HotOnes(front), last);
    }
  }

  lemma {:induction false} InsertKeepsDistinct(s: seq<Scored>, x: Scored)
    requires DistinctEntries(s) && forall i :: 0 <= i < |s| ==> s[i].id != x.id
    ensures DistinctEntries(InsertScored(s, x))
    ensures forall y :: y in InsertScored(s, x) <==> y in s || y == x
  {
    var n := |s|;
    if n > 0 && s[n - 1].score > x.score {
      InsertKeepsDistinct(s[..n - 1], x);
      var front := InsertScored(s[..n - 1], x);
      forall i | 0 <= i < |front|
        ensures front[i].id != s[n - 1].id
      {
        assert front[i] in s[..n - 1] || front[i] == x;
      }
      assert s == s[..n - 1] + [s[n - 1]];
    }
  }

  lemma {:induction false} SortKeepsDistinct(s: seq<Scored>)
    requires DistinctEntries(s)
    ensures DistinctEntries(SortByScore(s)) && forall y :: y in SortByScore(s) <==> y in s
  {
    if |s| > 0 {
      var n := |s| - 1;
      SortKeepsDistinct(s[..n]);
      var front := SortByScore(s[..n]);
      forall i | 0 <= i < |front|
        ensures front[i].id != s[n].id
      {
        assert front[i] in s[..n];
      }
      InsertKeepsDistinct(front, s[n]);
      assert s == s[..n] + [s[n]];
    }
  }

  lemma SortedHotDistinct(s: Store, r: Rules)
    requires Inv(s)
    ensures DistinctEntries(SortByScore(HotOnes(ScoredNow(s, r))))
  {
    assert DistinctEntries(ScoredNow(s, r));
    HotOnesDistinct(ScoredNow(s, r));
    SortKeepsDistinct(HotOnes(ScoredNow(s, r)));
  }

  lemma BehindIsNotDemoted(hot: seq<Scored>, n: nat, k: nat)
    requires DistinctEntries(hot) && n + k < |hot|
    ensures !Demoted(hot[..n], hot[n + k].id) && hot[n..][k] == hot[n + k] && hot[n + k] in hot
  {
  }

  lemma KeptIsNotDemoted(s: Store, r: Rules, k: nat)
    requires Inv(s) && k < |Kept(ScoredNow(s, r), r.maxHot)|
    ensures var scored, kept := ScoredNow(s, r), Kept(ScoredNow(s, r), r.maxHot);
            kept[k] in HotOnes(scored) && !Demoted(Overflow(scored, r.maxHot), kept[k].id)
  {
    var scored := ScoredNow(s, r);
    OverflowThenKept(scored, r.maxHot);
    SortedHotDistinct(s, r);
    BehindIsNotDemoted(SortByScore(HotOnes(scored)), |Overflow(scored, r.maxHot)|, k);
    SortSorts(HotOnes(scored));
  }

  lemma KeptStaysHot(s: Store, r: Rules, fails: Failing, k: nat)
    requires Inv(s) && (forall e :: !fails(e)) && k < |Kept(ScoredNow(s, r), r.maxHot)|
    ensures Kept(ScoredNow(s, r), r.maxHot)[k].id in HotIds(RetainTx(s, r, fails))
  {
    var scored, kept := ScoredNow(s, r), Kept(ScoredNow(s, r), r.maxHot);
    KeptIsNotDemoted(s, r, k);
    var i :| 0 <= i < |scored| && scored[i] == kept[k];
    PolicyAfter(s, r, fails, i);
  }

  lemma KeptIsHotAfter(s: Store, r: Rules, fails: Failing)
    requires Inv(s) && forall e :: !fails(e)
    ensures HotIds(RetainTx(s, r, fails)) == Ids(Kept(ScoredNow(s, r), r.maxHot))
  {
    var kept := Kept(ScoredNow(s, r), r.maxHot);
    forall id | id in HotIds(RetainTx(s, r, fails))
      ensures id in Ids(kept)
    {
      HotAfterIsKept(s, r, fails, id);
      var k :| 0 <= k < |kept| && kept[k].id == id;
    }
    forall id | id in Ids(kept)
      ensures id in HotIds(RetainTx(s, r, fails))
    {
      var k: nat :| k < |kept| && kept[k].id == id;
      KeptStaysHot(s, r, fails, k);
    }
  }

  /** Exactly the limit, or all candidates when they are fewer, are hot after the pass. */
  lemma AsManyStayHotAsAllowed(s: Store, r: Rules, fails: Failing)
    requires Inv(s) && forall e :: !fails(e)
    ensures var n, hot := |HotCandidates(s, r)|, |HotIds(RetainTx(s, r, fails))|;
            hot == if r.maxHot.Some? && r.maxHot.value < n then r.maxHot.value else n
  {
    var scored := ScoredNow(s, r);
    var hot := SortByScore(HotOnes(scored));
    HotOnesAreCandidates(s, r);
    assert DistinctEntries(scored);
    HotOnesDistinct(scored);
    DistinctIdsSize(HotOnes(scored));
    SortedHotDistinct(s, r);
    OverflowThenKept(scored, r.maxHot);
    KeptIsHotAfter(s, r, fails);
    DistinctIdsSize(Kept(scored, r.maxHot));
  }

  // ----- archiving old runs -----

  /** The chosen entries whose archive record can be written have gone cold; the rows of all others are as they were. */
  ghost predicate WentCold(before: Store, after: Store, chosen: Id -> bool, fails: Failing) {
    && after.order == before.order && after.rows.Keys == before.rows.Keys
    && forall id :: id in before.rows ==>
         if chosen(id) && !fails(id) then after.rows[id].policy.Cold? && after.rows[id].run == before.rows[id].run
         else after.rows[id] == before.rows[id]
  }

  lemma OneMoreCold(s: Store, id: Id, writes: bool)
    ensures var after := ColdTx(s, id, writes);
            && after.order == s.order && after.rows.Keys == s.rows.Keys
            && (forall x :: x in s.rows && (x != id || !writes) ==> after.rows[x] == s.rows[x])
            && (id in s.rows && writes ==> after.rows[id].policy.Cold? && after.rows[id].run == s.rows[id].run)
  {
  }

  lemma {:induction false} ColdAllByFields(s: Store, ids: seq<Id>, fails: Failing)
    ensures WentCold(s, ColdAll(s, ids, fails), id => id in ids, fails)
  {
    if |ids| > 0 {
      var front, last := ids[..|ids| - 1], ids[|ids| - 1];
      var before, after := ColdAll(s, front, fails), ColdAll(s, ids, fails);
      ColdAllByFields(s, front, fails);
      OneMoreCold(before, last, !fails(last));
      assert after == ColdTx(before, last, !fails(last));
      assert ids == front + [last];
      forall id | id in s.rows
        ensures if id in ids && !fails(id) then after.rows[id].policy.Cold? && after.rows[id].run == s.rows[id].run
                else after.rows[id] == s.rows[id]
      {
        assert id in ids <==> id in front || id == last;
      }
    }
  }

  lemma {:induction false} EntriesByFields(s: Store, order: seq<Id>, run: Id)
    ensures forall id :: id in EntriesOf(s, order, run) <==>
              id in order && id in s.rows && s.rows[id].run == Some(run) && !s.rows[id].policy.Cold?
  {
    if |order| > 0 {
      EntriesByFields(s, order[..|order| - 1], run);
      assert order == order[..|order| - 1] + [order[|order| - 1]];
    }
  }

  /** A row that is not cold and belongs to one of the runs. */
  predicate OfRuns(s: Store, runs: seq<Id>, id: Id) {
    id in s.rows && s.rows[id].run.Some? && s.rows[id].run.value in runs && !s.rows[id].policy.Cold?
  }

  /** Archiving old runs moves exactly their entries to cold storage, and touches no other row. */
  lemma {:induction false} OldRunsGoCold(s: Store, runs: seq<Id>, fails: Failing)
    requires forall id :: id in s.rows ==> id in s.order
    ensures WentCold(s, ArchiveRunsTx(s, runs, fails), id => OfRuns(s, runs, id), fails)
  {
    if |runs| > 0 {
      var n := |runs| - 1;
      var before, last := ArchiveRunsTx(s, runs[..n], fails), runs[n];
      OldRunsGoCold(s, runs[..n], fails);
      EntriesByFields(before, before.order, last);
      ColdAllByFields(before, EntriesOf(before, before.order, last), fails);
      assert runs == runs[..n] + [last];
      assert forall id :: OfRuns(s, runs, id) <==> OfRuns(s, runs[..n], id) || OfRuns(s, [last], id);
    }
  }
}
