/** The long-term memory over its table, archive file and vector index (tankai/core/long_term_memory.py). */
module LongTermMemories {
  import opened Common
  import opened VectorStores
  import opened MemoryModel
  import Retention = MemoryRetention

  lemma {:induction false} FirstOfPrefix(archive: seq<Record>, k: nat, id: Id)
    requires k <= |archive| && FirstRecord(archive[..k], id).Some?
    ensures FirstRecord(archive, id) == FirstRecord(archive[..k], id)
  {
    if k == |archive| {
      assert archive[..k] == archive;
    } else {
      assert archive[..|archive| - 1][..k] == archive[..k];
      FirstOfPrefix(archive[..|archive| - 1], k, id);
    }
  }

  /** The candidates demoted so far are in the plan; the inner loop finds the one entry with the id. */
  method Demote(scored: seq<Scored>, id: Id) returns (r: seq<Scored>)
    requires Retention.DistinctIds(scored)
    ensures |r| == |scored|
    ensures forall j :: 0 <= j < |scored| ==> r[j] == if scored[j].id == id then scored[j].(target := Warm) else scored[j]
  {
    r := scored;
    for j := 0 to |scored|
      invariant r == scored && forall m :: 0 <= m < j ==> scored[m].id != id
    {
      if scored[j].id == id {
        r := scored[j := scored[j].(target := Warm)];
        return;
      }
    }
  }

  method DemoteOverflow(scored: seq<Scored>, maxHot: nat) returns (plan: seq<Scored>)
    requires Retention.DistinctIds(scored)
    ensures plan == Plan(scored, Overflow(scored, Some(maxHot)))
  {
    var hot := SortByScore(HotOnes(scored));
    var overflow := |hot| - maxHot;
    plan := scored;
    if overflow > 0 {
      for i := 0 to overflow
        invariant |plan| == |scored|
        invariant forall j :: 0 <= j < |scored| ==>
                    plan[j] == if Demoted(hot[..i], scored[j].id) then scored[j].(target := Warm) else scored[j]
      {
        ghost var before := plan;
        plan := Demote(plan, hot[i].id);
        forall j | 0 <= j < |scored|
          ensures plan[j] == if Demoted(hot[..i + 1], scored[j].id) then scored[j].(target := Warm) else scored[j]
        {
          OneMoreDemoted(hot, i, scored[j].id);
        }
      }
      assert Overflow(scored, Some(maxHot)) == hot[..overflow];
    } else {
      assert Overflow(scored, Some(maxHot)) == [];
    }
    assert plan == Plan(scored, Overflow(scored, Some(maxHot)));
  }

  lemma OneMoreDemoted(hot: seq<Scored>, i: nat, id: Id)
    requires i < |hot|
    ensures Demoted(hot[..i + 1], id) <==> Demoted(hot[..i], id) || hot[i].id == id
  {
    assert hot[..i + 1][i] == hot[i];
    assert forall k :: 0 <= k < i ==> hot[..i + 1][k] == hot[..i][k];
  }

  class LongTermMemory {
    var order: seq<Id>
    var rows: map<Id, Row>
    var archive: seq<Record>
    const vectors: VectorStore
    const inMemory: bool

    ghost function State(): Store
      reads this, vectors
      requires vectors.Valid()
    {
      Store(order, rows, archive, vectors.Contents())
    }

    constructor (inMemory: bool)
      ensures fresh(vectors) && vectors.Valid() && State() == Store([], map[], [], map[]) && this.inMemory == inMemory
    {
      this.inMemory := inMemory;
      order, rows, archive := [], map[], [];
      vectors := new VectorStore();
    }

    method AddEntry(id: Id, row: Row)
      requires vectors.Valid()
      modifies this, vectors
      ensures vectors.Valid() && State() == AddTx(old(State()), id, row)
    {
      order := order + [id];
      rows := rows[id := row.(policy := Hot, access := 0)];
      if Indexed(row.kind) {
        vectors.Add(id, row.content, LabelOf(row.kind, row.source, row.confidence));
      }
    }

    /** `writeFails` is an error of the archive file. */
    method MoveToCold(id: Id, writeFails: bool) returns (moved: bool)
      requires vectors.Valid()
      modifies this, vectors
      ensures vectors.Valid() && State() == ColdTx(old(State()), id, !inMemory && !writeFails)
      ensures moved <==> id in old(rows) && !inMemory && !writeFails
    {
      if id !in rows || inMemory || writeFails {
        return false;
      }
      var row := rows[id];
      archive := archive + [Record(id, row.content, row.metadata, row.kind, row.source, row.confidence)];
      assert State() == ColdAt(old(State()), id, 1);
      var _ := vectors.Delete(id);
      assert State() == ColdAt(old(State()), id, 2);
      rows := rows[id := row.(content := Stub(row.content), metadata := Archived(row.metadata, |row.content|), policy := Cold)];
      moved := true;
    }

    method RestoreFromCold(id: Id, readFails: bool) returns (restored: bool)
      requires vectors.Valid()
      modifies this, vectors
      ensures vectors.Valid() && State() == RestoreTx(old(State()), id, !inMemory && !readFails)
      ensures restored <==> !inMemory && !readFails && FirstRecord(old(archive), id).Some?
    {
      if inMemory || readFails {
        return false;
      }
      var found := FindRecord(id);
      if found.None? {
        return false;
      }
      var r := found.value;
      if id in rows {
        rows := rows[id := rows[id].(content := r.content, metadata := r.metadata, policy := Warm)];
      }
      if Indexed(r.kind) {
        vectors.Add(id, r.content, LabelOf(r.kind, r.source, r.confidence));
      }
      restored := true;
    }

    /** Reads the archive from its beginning and stops at the first record of the entry. */
    method FindRecord(id: Id) returns (found: Option<Record>)
      ensures found == FirstRecord(archive, id)
    {
      for k := 0 to |archive|
        invariant FirstRecord(archive[..k], id).None?
      {
        assert archive[..k + 1][..k] == archive[..k];
        if archive[k].id == id {
          FirstOfPrefix(archive, k + 1, id);
          return Some(archive[k]);
        }
      }
      assert archive[..|archive|] == archive;
      found := None;
    }

    method ScoreRows(r: Rules) returns (scored: seq<Scored>)
      requires forall i :: 0 <= i < |order| ==> order[i] in rows
      ensures scored == ScoreAll(order, rows, r)
    {
      scored := [];
      for k := 0 to |order|
        invariant |scored| == k
        invariant forall i :: 0 <= i < k ==>
                    scored[i] == Scored(order[i], Target(rows[order[i]], r), KeepScore(rows[order[i]], r.now))
      {
        var row := rows[order[k]];
        scored := scored + [Scored(order[k], Target(row, r), KeepScore(row, r.now))];
      }
    }

    method Change(id: Id, target: Policy, writeFails: bool)
      requires vectors.Valid()
      modifies this, vectors
      ensures vectors.Valid() && State() == ChangeTx(old(State()), id, target, !inMemory && !writeFails)
    {
      if id in rows && rows[id].policy != target {
        if target.Cold? {
          var _ := MoveToCold(id, writeFails);
        } else {
          rows := rows[id := rows[id].(policy := target)];
        }
      }
    }

    /** One retention pass; `fails` says whose archive records cannot be written. */
    method ApplyRetention(r: Rules, fails: Failing)
      requires vectors.Valid() && Listed(State()) && Distinct(order)
      modifies this, vectors
      ensures vectors.Valid()
      ensures State() == RetainTx(old(State()), r, id => inMemory || fails(id))
    {
      var scored := ScoreRows(r);
      var plan := scored;
      if r.maxHot.Some? {
        plan := DemoteOverflow(scored, r.maxHot.value);
      } else {
        assert plan == Plan(scored, []);
      }
      ghost var s := State();
      ghost var failing := (id: Id) => inMemory || fails(id);
      for k := 0 to |plan|
        invariant vectors.Valid()
        invariant State() == ApplyPlan(s, plan[..k], failing)
      {
        assert plan[..k + 1][..k] == plan[..k];
        Change(plan[k].id, plan[k].target, fails(plan[k].id));
      }
      assert plan[..|plan|] == plan;
    }

    /** Moves the entries of old runs to the archive. */
    method ArchiveOldRuns(oldRuns: seq<Id>, fails: Failing) returns (count: nat)
      requires vectors.Valid()
      modifies this, vectors
      ensures vectors.Valid() && count == |oldRuns|
      ensures State() == ArchiveRunsTx(old(State()), oldRuns, id => inMemory || fails(id))
    {
      ghost var s := State();
      ghost var failing := (id: Id) => inMemory || fails(id);
      count := 0;
      for k := 0 to |oldRuns|
        invariant vectors.Valid() && count == k
        invariant State() == ArchiveRunsTx(s, oldRuns[..k], failing)
      {
        assert oldRuns[..k + 1][..k] == oldRuns[..k];
        ghost var before := State();
        var entries := Entries(oldRuns[k]);
        for m := 0 to |entries|
          invariant vectors.Valid() && State() == ColdAll(before, entries[..m], failing)
        {
          assert entries[..m + 1][..m] == entries[..m];
          var _ := MoveToCold(entries[m], fails(entries[m]));
        }
        assert entries[..|entries|] == entries;
        count := count + 1;
      }
      assert oldRuns[..|oldRuns|] == oldRuns;
    }

    /** The entries of a run that are not cold, in table order. */
    method Entries(run: Id) returns (ids: seq<Id>)
      requires vectors.Valid()
      ensures ids == EntriesOf(State(), order, run)
    {
      ids := [];
      for k := 0 to |order|
        invariant ids == EntriesOf(State(), order[..k], run)
      {
        var id := order[k];
        assert order[..k + 1][..k] == order[..k];
        if id in rows && rows[id].run == Some(run) && !rows[id].policy.Cold? {
          ids := ids + [id];
        }
      }
      assert order[..|order|] == order;
    }
  }
}
