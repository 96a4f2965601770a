/** Long-term memory: rows, cold archive and vector index (tankai/core/long_term_memory.py). */
module MemoryModel {
  import opened Common
  import opened VectorStores

  datatype MemoryType = Episodic | Semantic | Procedural
  datatype Policy = Hot | Warm | Cold

  /** The metadata of an entry, or that of an archived stub with the length of the lost content. */
  datatype Metadata = Plain(text: string) | Archived(base: Metadata, length: nat)

  /** Times are in days. */
  datatype Row = Row(content: string, metadata: Metadata, kind: MemoryType, source: string, confidence: real, run: Option<Id>,
                     policy: Policy, created: real, accessed: real, access: nat)

  datatype Record = Record(id: Id, content: string, metadata: Metadata, kind: MemoryType, source: string, confidence: real)

  /** `order` is the row order of the table. */
  datatype Store = Store(order: seq<Id>, rows: map<Id, Row>, archive: seq<Record>, index: Index)

  predicate Indexed(kind: MemoryType) {
    !kind.Episodic?
  }

  function TypeName(kind: MemoryType): string {
    match kind
    case Episodic => "episodic"
    case Semantic => "semantic"
    case Procedural => "procedural"
  }

  function LabelOf(kind: MemoryType, source: string, confidence: real): Label {
    Label(TypeName(kind), source, confidence)
  }

  function Stub(content: string): string {
    (if |content| > 80 then content[..80] else content) + " … [archived]"
  }

  /** The first archive record of an entry. */
  function FirstRecord(archive: seq<Record>, id: Id): Option<Record> {
    if |archive| == 0 then None
    else
      var front := FirstRecord(archive[..|archive| - 1], id);
      if front.Some? then front else if archive[|archive| - 1].id == id then Some(archive[|archive| - 1]) else None
  }

  // ----- single operations -----

  /** A new entry is hot; semantic and procedural ones are indexed. */
  function AddTx(s: Store, id: Id, row: Row): Store {
    var stored := row.(policy := Hot, access := 0);
    s.(order := s.order + [id], rows := s.rows[id := stored],
       index := if Indexed(row.kind) then s.index[id := IndexEntry(row.content, LabelOf(row.kind, row.source, row.confidence))]
                else s.index)
  }

  /** `writes` says whether the archive record can be written; without a persistent archive it cannot. */
  function ColdTx(s: Store, id: Id, writes: bool): Store {
    if id !in s.rows || !writes then s
    else
      var row := s.rows[id];
      s.(archive := s.archive + [Record(id, row.content, row.metadata, row.kind, row.source, row.confidence)],
         index := s.index - {id},
         rows := s.rows[id := row.(content := Stub(row.content), metadata := Archived(row.metadata, |row.content|),
                                   policy := Cold)])
  }

  function RestoreTx(s: Store, id: Id, readable: bool): Store {
    var found := if readable then FirstRecord(s.archive, id) else None;
    if found.None? then s
    else
      var r := found.value;
      s.(rows := if id in s.rows then s.rows[id := s.rows[id].(content := r.content, metadata := r.metadata, policy := Warm)]
                 else s.rows,
         index := if Indexed(r.kind) then s.index[id := IndexEntry(r.content, LabelOf(r.kind, r.source, r.confidence))]
                  else s.index)
  }

  function PolicyTx(s: Store, id: Id, policy: Policy): Store {
    if id in s.rows then s.(rows := s.rows[id := s.rows[id].(policy := policy)]) else s
  }

  /** A retrieval hit. */
  function TouchTx(s: Store, id: Id, now: real): Store {
    if id in s.rows then s.(rows := s.rows[id := s.rows[id].(access := s.rows[id].access + 1, accessed := now)]) else s
  }

  // ----- retention -----

  datatype Rules = Rules(now: real, warmAfter: real, coldAfter: real, minConfidence: real, maxHot: Option<nat>)

  datatype Scored = Scored(id: Id, target: Policy, score: real)

  /** A stored confidence of zero reads as one half. */
  function Confidence(row: Row): real {
    if row.confidence == 0.0 then 0.5 else row.confidence
  }

  function KeepScore(row: Row, now: real): real {
    Confidence(row) * 0.5 + (Min(row.access, 10) as real) * 0.05 - (now - row.created) * 0.01 - (now - row.accessed) * 0.02
  }

  function Target(row: Row, r: Rules): Policy {
    var age, idle := r.now - row.created, r.now - row.accessed;
    if row.policy.Cold? then Cold
    else if age >= r.coldAfter && row.access < 2 then Cold
    else if Confidence(row) < r.minConfidence && row.access == 0 && age > 1.0 then Cold
    else if age >= r.warmAfter || idle >= r.warmAfter then Warm
    else Hot
  }

  function ScoreAll(order: seq<Id>, rows: map<Id, Row>, r: Rules): (scored: seq<Scored>)
    requires forall i :: 0 <= i < |order| ==> order[i] in rows
    ensures |scored| == |order|
    ensures forall i :: 0 <= i < |order| ==>
              scored[i] == Scored(order[i], Target(rows[order[i]], r), KeepScore(rows[order[i]], r.now))
  {
    seq(|order|, i requires 0 <= i < |order| => Scored(order[i], Target(rows[order[i]], r), KeepScore(rows[order[i]], r.now)))
  }

  function HotOnes(scored: seq<Scored>): (hot: seq<Scored>)
    ensures forall x :: x in hot <==> x in scored && x.target.Hot?
  {
    if |scored| == 0 then []
    else
      assert scored == scored[..|scored| - 1] + [scored[|scored| - 1]];
      HotOnes(scored[..|scored| - 1]) + if scored[|scored| - 1].target.Hot? then [scored[|scored| - 1]] else []
  }

  /** Stable insertion: equal scores keep their order. */
  function InsertScored(s: seq<Scored>, x: Scored): (r: seq<Scored>)
    ensures |r| == |s| + 1
  {
    if |s| == 0 || s[|s| - 1].score <= x.score then s + [x] else InsertScored(s[..|s| - 1], x) + [s[|s| - 1]]
  }

  function SortByScore(s: seq<Scored>): (r: seq<Scored>)
    ensures |r| == |s|
  {
    if |s| == 0 then [] else InsertScored(SortByScore(s[..|s| - 1]), s[|s| - 1])
  }

  /** The weakest hot candidates beyond the limit. */
  function Overflow(scored: seq<Scored>, maxHot: Option<nat>): seq<Scored> {
    var hot := SortByScore(HotOnes(scored));
    if maxHot.Some? && |hot| > maxHot.value then hot[..|hot| - maxHot.value] else []
  }

  predicate Demoted(overflow: seq<Scored>, id: Id) {
    exists i :: 0 <= i < |overflow| && overflow[i].id == id
  }

  function Plan(scored: seq<Scored>, overflow: seq<Scored>): (plan: seq<Scored>)
    ensures |plan| == |scored|
    ensures forall i :: 0 <= i < |scored| ==>
              plan[i] == if Demoted(overflow, scored[i].id) then scored[i].(target := Warm) else scored[i]
  {
    seq(|scored|, i requires 0 <= i < |scored| =>
      if Demoted(overflow, scored[i].id) then scored[i].(target := Warm) else scored[i])
  }

  function ChangeTx(s: Store, id: Id, target: Policy, writes: bool): Store {
    if id !in s.rows || s.rows[id].policy == target then s
    else if target.Cold? then ColdTx(s, id, writes)
    else PolicyTx(s, id, target)
  }

  /** The entries whose archive record cannot be written. */
  type Failing = Id -> bool

  function ApplyPlan(s: Store, plan: seq<Scored>, fails: Failing): Store {
    if |plan| == 0 then s
    else
      var last := plan[|plan| - 1];
      ChangeTx(ApplyPlan(s, plan[..|plan| - 1], fails), last.id, last.target, !fails(last.id))
  }

  predicate Listed(s: Store) {
    forall i :: 0 <= i < |s.order| ==> s.order[i] in s.rows
  }

  function RetainTx(s: Store, r: Rules, fails: Failing): Store
    requires Listed(s)
  {
    var scored := ScoreAll(s.order, s.rows, r);
    ApplyPlan(s, Plan(scored, Overflow(scored, r.maxHot)), fails)
  }

  // ----- archiving old runs -----

  function EntriesOf(s: Store, order: seq<Id>, run: Id): seq<Id> {
    if |order| == 0 then []
    else
      var id := order[|order| - 1];
      EntriesOf(s, order[..|order| - 1], run)
      + if id in s.rows && s.rows[id].run == Some(run) && !s.rows[id].policy.Cold? then [id] else []
  }

  function ColdAll(s: Store, ids: seq<Id>, fails: Failing): Store {
    if |ids| == 0 then s
    else ColdTx(ColdAll(s, ids[..|ids| - 1], fails), ids[|ids| - 1], !fails(ids[|ids| - 1]))
  }

  function ArchiveRunsTx(s: Store, runs: seq<Id>, fails: Failing): Store {
    if |runs| == 0 then s
    else
      var before := ArchiveRunsTx(s, runs[..|runs| - 1], fails);
      ColdAll(before, EntriesOf(before, before.order, runs[|runs| - 1]), fails)
  }

  // ----- what is remembered -----

  datatype Memory = Memory(content: string, metadata: Metadata)

  /** The original of an entry: its row, or its first archive record once the row is a stub. */
  function Remembered(s: Store, id: Id): Option<Memory> {
    if id !in s.rows then None
    else if !s.rows[id].policy.Cold? then Some(Memory(s.rows[id].content, s.rows[id].metadata))
    else
      var r := FirstRecord(s.archive, id);
      if r.Some? then Some(Memory(r.value.content, r.value.metadata)) else None
  }

  /** A record belongs to its row, and a row that is not cold still agrees with its first record. */
  predicate RecordFits(s: Store, id: Id) {
    match FirstRecord(s.archive, id)
    case None => id in s.rows ==> !s.rows[id].policy.Cold?
    case Some(r) =>
      && id in s.rows && r.id == id && r.kind == s.rows[id].kind && r.source == s.rows[id].source
      && r.confidence == s.rows[id].confidence
      && (!s.rows[id].policy.Cold? ==> r.content == s.rows[id].content && r.metadata == s.rows[id].metadata)
  }

  /** Exactly the semantic and procedural entries that are not cold are indexed, under their own content. */
  predicate IndexFits(s: Store, id: Id) {
    if id in s.rows && Indexed(s.rows[id].kind) && !s.rows[id].policy.Cold? then
      id in s.index
      && s.index[id] == IndexEntry(s.rows[id].content, LabelOf(s.rows[id].kind, s.rows[id].source, s.rows[id].confidence))
    else id !in s.index
  }

  ghost predicate Inv(s: Store) {
    && Listed(s) && Distinct(s.order) && (forall id :: id in s.rows ==> id in s.order)
    && (forall id :: RecordFits(s, id)) && (forall id :: IndexFits(s, id))
  }

  /** The same entries in the same order, each with the same original. */
  ghost predicate NothingLost(s: Store, s': Store) {
    s'.order == s.order && s'.rows.Keys == s.rows.Keys && forall id :: id in s.rows ==> Remembered(s', id) == Remembered(s, id)
  }

  lemma FirstOfAppended(archive: seq<Record>, r: Record, id: Id)
    ensures FirstRecord(archive + [r], id) ==
            if FirstRecord(archive, id).Some? then FirstRecord(archive, id) else if r.id == id then Some(r) else None
  {
    assert (archive + [r])[..|archive|] == archive;
  }

  lemma ColdKeepsMemory(s: Store, id: Id, writes: bool)
    requires Inv(s)
    ensures Inv(ColdTx(s, id, writes)) && NothingLost(s, ColdTx(s, id, writes))
  {
    var s' := ColdTx(s, id, writes);
    if id in s.rows && writes {
      var row := s.rows[id];
      var r := Record(id, row.content, row.metadata, row.kind, row.source, row.confidence);
      forall x
        ensures RecordFits(s', x) && IndexFits(s', x) && (x in s.rows ==> Remembered(s', x) == Remembered(s, x))
      {
        FirstOfAppended(s.archive, r, x);
        assert RecordFits(s, x) && IndexFits(s, x);
      }
    }
  }

  /** The store after `k` of the three writes of moving an entry to cold storage: archive, index, stub. */
  function ColdAt(s: Store, id: Id, k: nat): Store
    requires id in s.rows && k <= 3
  {
    var row := s.rows[id];
    var archived := s.(archive := s.archive + [Record(id, row.content, row.metadata, row.kind, row.source, row.confidence)]);
    if k == 0 then s
    else if k == 1 then archived
    else if k == 2 then archived.(index := s.index - {id})
    else ColdTx(s, id, true)
  }

  /**
   * The archive is written first, so a crash after any of the three writes loses nothing; only the index may lack the
   * entry. Moving the entry again completes what was cut off.
   */
  lemma ColdSurvivesCrashes(s: Store, id: Id, k: nat)
    requires Inv(s) && id in s.rows && k <= 3
    ensures NothingLost(s, ColdAt(s, id, k)) && forall x :: x != id || k != 2 ==> IndexFits(ColdAt(s, id, k), x)
    ensures var again := ColdTx(ColdAt(s, id, k), id, true); Inv(again) && NothingLost(s, again)
  {
    var row, m := s.rows[id], ColdAt(s, id, k);
    var r := Record(id, row.content, row.metadata, row.kind, row.source, row.confidence);
    ColdKeepsMemory(s, id, true);
    if k == 0 || k == 3 {
      ColdKeepsMemory(m, id, true);
    } else {
      forall x
        ensures RecordFits(m, x) && (x in s.rows ==> Remembered(m, x) == Remembered(s, x))
        ensures x != id || k != 2 ==> IndexFits(m, x)
      {
        FirstOfAppended(s.archive, r, x);
        assert RecordFits(s, x) && IndexFits(s, x);
      }
      ColdAgain(s, m, id);
    }
  }

  /** Moving an entry to cold storage does not need its index entry. */
  lemma ColdAgain(s: Store, m: Store, id: Id)
    requires Inv(s) && id in s.rows && m.rows == s.rows && m.order == s.order && NothingLost(s, m)
    requires (forall x :: RecordFits(m, x)) && forall x :: x != id ==> IndexFits(m, x)
    ensures var again := ColdTx(m, id, true); Inv(again) && NothingLost(s, again)
  {
    var row, again := m.rows[id], ColdTx(m, id, true);
    var r := Record(id, row.content, row.metadata, row.kind, row.source, row.confidence);
    forall x
      ensures RecordFits(again, x) && IndexFits(again, x) && (x in s.rows ==> Remembered(again, x) == Remembered(m, x))
    {
      FirstOfAppended(m.archive, r, x);
      assert RecordFits(m, x) && (x != id ==> IndexFits(m, x));
    }
  }

  lemma RestoreKeepsMemory(s: Store, id: Id, readable: bool)
    requires Inv(s)
    ensures Inv(RestoreTx(s, id, readable)) && NothingLost(s, RestoreTx(s, id, readable))
  {
    var s' := RestoreTx(s, id, readable);
    forall x
      ensures RecordFits(s', x) && IndexFits(s', x) && (x in s.rows ==> Remembered(s', x) == Remembered(s, x))
    {
      assert RecordFits(s, x) && IndexFits(s, x) && RecordFits(s, id);
    }
  }

  /** Restoring an archived entry brings its original back into the row and, if it is of an indexed kind, the index. */
  lemma RestoreUndoesCold(s: Store, id: Id)
    requires Inv(s) && id in s.rows && s.rows[id].policy.Cold?
    ensures var s' := RestoreTx(s, id, true);
            && s'.rows[id].policy.Warm? && Remembered(s, id) == Some(Memory(s'.rows[id].content, s'.rows[id].metadata))
            && (Indexed(s.rows[id].kind) ==> id in s'.index && s'.index[id].text == s'.rows[id].content)
  {
    assert RecordFits(s, id);
  }

  lemma PolicyKeepsMemory(s: Store, id: Id, policy: Policy)
    requires Inv(s) && !policy.Cold? && (id in s.rows ==> !s.rows[id].policy.Cold?)
    ensures Inv(PolicyTx(s, id, policy)) && NothingLost(s, PolicyTx(s, id, policy))
  {
    var s' := PolicyTx(s, id, policy);
    forall x
      ensures RecordFits(s', x) && IndexFits(s', x)
    {
      assert RecordFits(s, x) && IndexFits(s, x);
    }
  }

  lemma TouchKeepsMemory(s: Store, id: Id, now: real)
    requires Inv(s)
    ensures Inv(TouchTx(s, id, now)) && NothingLost(s, TouchTx(s, id, now))
  {
    var s' := TouchTx(s, id, now);
    forall x
      ensures RecordFits(s', x) && IndexFits(s', x)
    {
      assert RecordFits(s, x) && IndexFits(s, x);
    }
  }

  /** A new entry with a new id is remembered as given, and nothing else changes. */
  lemma AddKeepsMemory(s: Store, id: Id, row: Row)
    requires Inv(s) && id !in s.rows
    ensures Inv(AddTx(s, id, row)) && Remembered(AddTx(s, id, row), id) == Some(Memory(row.content, row.metadata))
    ensures forall x :: x in s.rows ==> Remembered(AddTx(s, id, row), x) == Remembered(s, x)
  {
    var s' := AddTx(s, id, row);
    assert RecordFits(s, id);
    forall x
      ensures RecordFits(s', x) && IndexFits(s', x)
    {
      assert RecordFits(s, x) && IndexFits(s, x);
    }
    assert id !in s.order;
  }

  lemma LostTransitive(a: Store, b: Store, c: Store)
    requires NothingLost(a, b) && NothingLost(b, c)
    ensures NothingLost(a, c)
  {
  }
}
