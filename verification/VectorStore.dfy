/** The vector index and its three parallel containers (tankai/core/vector_store.py). */
module VectorStores {
  import opened Common

  type Id = string

  /** What is stored for an id: the embedded text stands for its vector, since embedding is a function of the text. */
  datatype IndexEntry = IndexEntry(text: string, metadata: Label)

  datatype Label = Label(memoryType: string, source: string, confidence: real)

  type Index = map<Id, IndexEntry>

  function Position(ids: seq<Id>, id: Id): (i: int)
    ensures -1 <= i < |ids|
    ensures i < 0 <==> id !in ids
    ensures i >= 0 ==> ids[i] == id
  {
    if |ids| == 0 then -1
    else if ids[|ids| - 1] == id && id !in ids[..|ids| - 1] then |ids| - 1
    else
      assert ids == ids[..|ids| - 1] + [ids[|ids| - 1]];
      Position(ids[..|ids| - 1], id)
  }

  function IndexOf(ids: seq<Id>, vectors: seq<string>, metadatas: seq<Label>): (index: Index)
    requires |ids| == |vectors| == |metadatas|
    ensures forall id :: id in index <==> id in ids
  {
    if |ids| == 0 then map[]
    else
      var n := |ids| - 1;
      assert ids == ids[..n] + [ids[n]];
      IndexOf(ids[..n], vectors[..n], metadatas[..n])[ids[n] := IndexEntry(vectors[n], metadatas[n])]
  }

  ghost predicate Distinct(ids: seq<Id>) {
    forall i, k :: 0 <= i < k < |ids| ==> ids[i] != ids[k]
  }

  lemma {:induction false} IndexAt(ids: seq<Id>, vectors: seq<string>, metadatas: seq<Label>, i: nat)
    requires |ids| == |vectors| == |metadatas| && Distinct(ids) && i < |ids|
    ensures ids[i] in ids && IndexOf(ids, vectors, metadatas)[ids[i]] == IndexEntry(vectors[i], metadatas[i])
  {
    var n := |ids| - 1;
    if i < n {
      IndexAt(ids[..n], vectors[..n], metadatas[..n], i);
    }
  }

  /** Replacing one row replaces one entry. */
  lemma UpdatedIndex(ids: seq<Id>, vectors: seq<string>, metadatas: seq<Label>, i: nat, text: string, metadata: Label)
    requires |ids| == |vectors| == |metadatas| && Distinct(ids) && i < |ids|
    ensures IndexOf(ids, vectors[i := text], metadatas[i := metadata]) ==
            IndexOf(ids, vectors, metadatas)[ids[i] := IndexEntry(text, metadata)]
  {
    var before, after := IndexOf(ids, vectors, metadatas), IndexOf(ids, vectors[i := text], metadatas[i := metadata]);
    forall id | id in ids
      ensures after[id] == if id == ids[i] then IndexEntry(text, metadata) else before[id]
    {
      var k := Position(ids, id);
      IndexAt(ids, vectors, metadatas, k);
      IndexAt(ids, vectors[i := text], metadatas[i := metadata], k);
    }
  }

  function RemoveAt<T>(s: seq<T>, i: nat): (r: seq<T>)
    requires i < |s|
    ensures |r| == |s| - 1 && forall k :: 0 <= k < |r| ==> r[k] == if k < i then s[k] else s[k + 1]
  {
    s[..i] + s[i + 1..]
  }

  lemma RemovedIds(ids: seq<Id>, i: nat)
    requires Distinct(ids) && i < |ids|
    ensures Distinct(RemoveAt(ids, i)) && forall id :: id in RemoveAt(ids, i) <==> id in ids && id != ids[i]
  {
    var rest := RemoveAt(ids, i);
    forall id
      ensures id in rest <==> id in ids && id != ids[i]
    {
      if id in ids && id != ids[i] {
        var k := Position(ids, id);
        assert rest[if k < i then k else k - 1] == id;
      }
    }
  }

  lemma RemovedEntry(ids: seq<Id>, vectors: seq<string>, metadatas: seq<Label>, i: nat, k: nat)
    requires |ids| == |vectors| == |metadatas| && Distinct(ids) && i < |ids| && k < |ids| - 1
    ensures var id := RemoveAt(ids, i)[k];
            && id in ids && id in RemoveAt(ids, i)
            && IndexOf(RemoveAt(ids, i), RemoveAt(vectors, i), RemoveAt(metadatas, i))[id] == IndexOf(ids, vectors, metadatas)[id]
  {
    RemovedIds(ids, i);
    IndexAt(RemoveAt(ids, i), RemoveAt(vectors, i), RemoveAt(metadatas, i), k);
    IndexAt(ids, vectors, metadatas, if k < i then k else k + 1);
  }

  lemma WithoutOne(before: Index, after: Index, gone: Id)
    requires forall id :: id in after <==> id in before && id != gone
    requires forall id :: id in after ==> after[id] == before[id]
    ensures after == before - {gone}
  {
  }

  /** Removing one row removes one entry. */
  lemma ShrunkIndex(ids: seq<Id>, vectors: seq<string>, metadatas: seq<Label>, i: nat)
    requires |ids| == |vectors| == |metadatas| && Distinct(ids) && i < |ids|
    ensures IndexOf(RemoveAt(ids, i), RemoveAt(vectors, i), RemoveAt(metadatas, i)) == IndexOf(ids, vectors, metadatas) - {ids[i]}
  {
    var rest, before := RemoveAt(ids, i), IndexOf(ids, vectors, metadatas);
    var after := IndexOf(rest, RemoveAt(vectors, i), RemoveAt(metadatas, i));
    RemovedIds(ids, i);
    forall id | id in after
      ensures after[id] == before[id]
    {
      RemovedEntry(ids, vectors, metadatas, i, Position(rest, id));
    }
    WithoutOne(before, after, ids[i]);
  }

  /** Appending one row with a new id adds one entry. */
  lemma GrownIndex(ids: seq<Id>, vectors: seq<string>, metadatas: seq<Label>, id: Id, text: string, metadata: Label)
    requires |ids| == |vectors| == |metadatas|
    ensures IndexOf(ids + [id], vectors + [text], metadatas + [metadata]) ==
            IndexOf(ids, vectors, metadatas)[id := IndexEntry(text, metadata)]
  {
    assert (ids + [id])[..|ids|] == ids;
    assert (vectors + [text])[..|ids|] == vectors;
    assert (metadatas + [metadata])[..|ids|] == metadatas;
  }

  class VectorStore {
    var ids: seq<Id>
    var vectors: Option<seq<string>>
    var metadatas: seq<Label>

    /** The containers have one row per id, and there is no matrix exactly when there are no ids. */
    ghost predicate Valid()
      reads this
    {
      && Distinct(ids) && |metadatas| == |ids|
      && match vectors
         case None => |ids| == 0
         case Some(rows) => |ids| > 0 && |rows| == |ids|
    }

    ghost function Contents(): Index
      reads this
      requires Valid()
    {
      IndexOf(ids, if vectors.None? then [] else vectors.value, metadatas)
    }

    constructor ()
      ensures Valid() && Contents() == map[]
    {
      ids, vectors, metadatas := [], None, [];
    }

    method Add(id: Id, text: string, metadata: Label)
      requires Valid()
      modifies this
      ensures Valid() && Contents() == old(Contents())[id := IndexEntry(text, metadata)]
    {
      if id in ids {
        var i := Position(ids, id);
        UpdatedIndex(ids, vectors.value, metadatas, i, text, metadata);
        vectors := Some(vectors.value[i := text]);
        metadatas := metadatas[i := metadata];
      } else {
        ghost var rows := if vectors.None? then [] else vectors.value;
        GrownIndex(ids, rows, metadatas, id, text, metadata);
        ids := ids + [id];
        metadatas := metadatas + [metadata];
        vectors := if vectors.None? then Some([text]) else Some(vectors.value + [text]);
        assert vectors.value == rows + [text];
      }
    }

    method Delete(id: Id) returns (found: bool)
      requires Valid()
      modifies this
      ensures Valid() && Contents() == old(Contents()) - {id} && (found <==> id in old(Contents()))
    {
      if id !in ids {
        assert Contents() - {id} == Contents();
        return false;
      }
      var i := Position(ids, id);
      ShrunkIndex(ids, vectors.value, metadatas, i);
      RemovedIds(ids, i);
      ids, metadatas := RemoveAt(ids, i), RemoveAt(metadatas, i);
      vectors := Some(RemoveAt(vectors.value, i));
      if |ids| == 0 {
        vectors := None;
      }
      found := true;
    }
  }
}
