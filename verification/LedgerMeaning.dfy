/** What a valid publication ledger says, told event by event (release_publication.py). */
module LedgerMeaning {
  import opened Common
  import opened Formats
  import opened RepoPaths
  import opened PublicationLedger

  predicate LinkAt(events: seq<Event>, k: nat)
    requires k < |events|
  {
    && events[k].body.sequence == k + 1 && events[k].recorded == EventHash(events[k].body)
    && events[k].body.previous == if k == 0 then ZeroHash else events[k - 1].recorded
  }

  /** Numbered from one, each sealed with its hash and pointing at the one before it; the first points at zeros. */
  ghost predicate Linked(events: seq<Event>) {
    forall k :: 0 <= k < |events| ==> LinkAt(events, k)
  }

  /** A receipt for an artifact at a mirror, or for the planned commit and branch at a source repository. */
  ghost predicate Receipt(l: Ledger, payload: Payload, rules: Rules) {
    match payload
    case ArtifactPublished(target, path, remoteId, url, size, algorithm, digest) =>
      && (exists t :: t in l.targets && t.id == target && t.kind.GoogleDrive? && rules.url(t, remoteId, url))
      && (exists a :: a in l.artifacts && a.key.path == path && a.key.size == size)
      && ((algorithm == "sha256" && Hex(digest, 64)) || (algorithm == "sha1" && Hex(digest, 40)) || (algorithm == "md5" && Hex(digest, 32)))
    case SourcePublished(target, commit, branch, remoteId, url) =>
      && (exists t :: t in l.targets && t.id == target && t.kind.GitHub? && rules.url(t, remoteId, url))
      && commit == l.commit && branch == l.branch
    case _ => false
  }

  /** The same artifact at the same target, or the same source repository. */
  predicate SameReceipt(a: Payload, b: Payload) {
    || (a.ArtifactPublished? && b.ArtifactPublished? && a.target == b.target && a.path == b.path)
    || (a.SourcePublished? && b.SourcePublished? && a.target == b.target)
  }

  ghost predicate NoneTwice(events: seq<Event>) {
    forall i, k :: 0 <= i < k < |events| ==> !SameReceipt(events[i].body.payload, events[k].body.payload)
  }

  /** First the creation of just this release, then receipts only. */
  ghost predicate CreatedThenReceipts(l: Ledger, events: seq<Event>, rules: Rules) {
    && (|events| > 0 ==> events[0].body.payload.LedgerCreated?
                         && events[0].body.payload.releaseId == ReleaseId(l.version, l.commit, l.branch, Keys(l.artifacts)))
    && forall k :: 0 < k < |events| ==> Receipt(l, events[k].body.payload, rules)
  }

  ghost predicate WellKept(l: Ledger, events: seq<Event>, rules: Rules) {
    Linked(events) && CreatedThenReceipts(l, events, rules) && NoneTwice(events)
  }

  // ----- lookups -----

  lemma {:induction false} FoundTarget(targets: seq<Target>, id: string)
    ensures var t := FindTarget(targets, id);
            if t.Some? then t.value in targets && t.value.id == id else forall x :: x in targets ==> x.id != id
  {
    if |targets| > 0 {
      FoundTarget(targets[1..], id);
      assert targets == [targets[0]] + targets[1..];
    }
  }

  lemma {:induction false} FoundArtifact(artifacts: seq<Artifact>, path: string)
    ensures var a := FindArtifact(artifacts, path);
            if a.Some? then a.value in artifacts && a.value.key.path == path else forall x :: x in artifacts ==> x.key.path != path
  {
    if |artifacts| > 0 {
      FoundArtifact(artifacts[1..], path);
      assert artifacts == [artifacts[0]] + artifacts[1..];
    }
  }

  /** Apart from repetitions the check on a payload is this. */
  lemma ReceiptByFields(l: Ledger, p: Progress, payload: Payload, rules: Rules)
    requires ArtifactsOk(l.artifacts) && TargetsOk(l.targets, rules)
    ensures ReceiptOk(l, p, payload, rules) <==>
              && Receipt(l, payload, rules)
              && (payload.ArtifactPublished? ==> (payload.target, payload.path) !in p.artifacts)
              && (payload.SourcePublished? ==> payload.target !in p.sources)
  {
    match payload
    case ArtifactPublished(target, path, remoteId, url, size, algorithm, digest) =>
      FoundTarget(l.targets, target);
      FoundArtifact(l.artifacts, path);
    case SourcePublished(target, commit, branch, remoteId, url) =>
      FoundTarget(l.targets, target);
    case _ =>
  }

  // ----- the chain -----

  lemma OneMoreLink(front: seq<Event>, e: Event)
    ensures Linked(front + [e]) <==>
              && Linked(front) && e.body.sequence == |front| + 1 && e.recorded == EventHash(e.body)
              && e.body.previous == if |front| == 0 then ZeroHash else front[|front| - 1].recorded
  {
    var events, n := front + [e], |front|;
    forall k | 0 <= k < n
      ensures LinkAt(events, k) <==> LinkAt(front, k)
    {
      assert events[k] == front[k] && (k > 0 ==> events[k - 1] == front[k - 1]);
    }
    assert events[n] == e && (n > 0 ==> events[n - 1] == front[n - 1]);
    assert LinkAt(events, n) <==>
             e.body.sequence == n + 1 && e.recorded == EventHash(e.body)
             && e.body.previous == if n == 0 then ZeroHash else front[n - 1].recorded;
  }

  lemma OneMoreReceipt(l: Ledger, front: seq<Event>, e: Event, rules: Rules)
    ensures CreatedThenReceipts(l, front + [e], rules) <==>
              && CreatedThenReceipts(l, front, rules)
              && if |front| == 0 then e.body.payload.LedgerCreated? && e.body.payload.releaseId == Identity(l)
                 else Receipt(l, e.body.payload, rules)
  {
    var events, n := front + [e], |front|;
    assert events[n] == e && forall k :: 0 <= k < n ==> events[k] == front[k];
  }

  lemma OneMoreNew(front: seq<Event>, e: Event)
    ensures NoneTwice(front + [e]) <==>
              NoneTwice(front) && forall i :: 0 <= i < |front| ==> !SameReceipt(front[i].body.payload, e.body.payload)
  {
    var events, n := front + [e], |front|;
    assert events[n] == e && forall k :: 0 <= k < n ==> events[k] == front[k];
  }

  lemma NewIsUnrecorded(l: Ledger, front: seq<Event>, rules: Rules, payload: Payload)
    requires Checked(l, front, rules).Some?
    ensures var p := Checked(l, front, rules).value;
            (forall i :: 0 <= i < |front| ==> !SameReceipt(front[i].body.payload, payload)) <==>
              && (payload.ArtifactPublished? ==> (payload.target, payload.path) !in p.artifacts)
              && (payload.SourcePublished? ==> payload.target !in p.sources)
  {
    if payload.ArtifactPublished? {
      ReceiptsAreEvents(l, front, rules, payload.target, payload.path);
      assert forall i :: 0 <= i < |front| ==>
          (SameReceipt(front[i].body.payload, payload) <==> IsArtifactReceipt(front[i].body.payload, payload.target, payload.path));
    } else if payload.SourcePublished? {
      ReceiptsAreEvents(l, front, rules, payload.target, "");
      assert forall i :: 0 <= i < |front| ==>
          (SameReceipt(front[i].body.payload, payload) <==> IsSourceReceipt(front[i].body.payload, payload.target));
    }
  }

  lemma LastRecorded(l: Ledger, events: seq<Event>, rules: Rules)
    requires Checked(l, events, rules).Some?
    ensures Checked(l, events, rules).value.last == if |events| == 0 then ZeroHash else events[|events| - 1].recorded
  {
    if |events| > 0 {
      LastOfChain(l, events, rules);
    }
  }

  lemma OneMoreChecked(l: Ledger, front: seq<Event>, e: Event, rules: Rules)
    requires ArtifactsOk(l.artifacts) && TargetsOk(l.targets, rules)
    requires Checked(l, front, rules).Some? && WellKept(l, front, rules)
    ensures EventOk(l, Checked(l, front, rules).value, |front| + 1, e, rules) <==> WellKept(l, front + [e], rules)
  {
    var p := Checked(l, front, rules).value;
    OneMoreLink(front, e);
    OneMoreReceipt(l, front, e, rules);
    OneMoreNew(front, e);
    LastRecorded(l, front, rules);
    NewIsUnrecorded(l, front, rules, e.body.payload);
    ReceiptByFields(l, p, e.body.payload, rules);
  }

  /** The loop over the events passes exactly the events that are well kept. */
  lemma {:induction false} CheckedIffWellKept(l: Ledger, events: seq<Event>, rules: Rules)
    requires ArtifactsOk(l.artifacts) && TargetsOk(l.targets, rules)
    ensures Checked(l, events, rules).Some? <==> WellKept(l, events, rules)
  {
    if |events| > 0 {
      var n := |events| - 1;
      var front, e := events[..n], events[n];
      CheckedIffWellKept(l, front, rules);
      assert events == front + [e];
      OneMoreLink(front, e);
      OneMoreReceipt(l, front, e, rules);
      OneMoreNew(front, e);
      if Checked(l, front, rules).Some? {
        OneMoreChecked(l, front, e, rules);
      }
    }
  }

  /** The artifacts are named once each, by safe relative paths, with sizes and SHA-256 digests. */
  ghost predicate Inventoried(artifacts: seq<Artifact>) {
    && (forall i :: 0 <= i < |artifacts| ==>
          SafeRelative(artifacts[i].key.path) && 0 <= artifacts[i].key.size && Hex(artifacts[i].key.sha256, 64))
    && forall i, k :: 0 <= i < k < |artifacts| ==> artifacts[i].key.path != artifacts[k].key.path
  }

  /** The targets are named once each: mirrors for artifacts and repositories for the source. */
  ghost predicate Targeted(targets: seq<Target>, rules: Rules) {
    && (forall i :: 0 <= i < |targets| ==>
          rules.name(targets[i])
          && ((targets[i].kind.GoogleDrive? && targets[i].mode.ArtifactMirror?)
              || (targets[i].kind.GitHub? && targets[i].mode.SourceRepository?)))
    && forall i, k :: 0 <= i < k < |targets| ==> targets[i].id != targets[k].id
  }

  /** Every artifact is on disk with its size and digest, and every artifact receipt carries the digest of its file. */
  ghost predicate OnTheDisk(l: Ledger, disk: Disk) {
    && (forall i :: 0 <= i < |l.artifacts| ==>
          var k := l.artifacts[i].key; k.path in disk && disk[k.path].size == k.size && disk[k.path].sha256 == k.sha256)
    && forall i :: 0 <= i < |l.events| && l.events[i].body.payload.ArtifactPublished? ==>
         var r := l.events[i].body.payload;
         r.path in disk
         && r.digest == if r.algorithm == "sha256" then disk[r.path].sha256
                        else if r.algorithm == "sha1" then disk[r.path].sha1 else disk[r.path].md5
  }

  /** What validation accepts, all in all. */
  lemma ValidByFields(l: Ledger, disk: Option<Disk>, rules: Rules)
    ensures Valid(l, disk, rules) <==>
              && l.schema == 1 && l.project == "TankAI Core" && Hex(l.commit, 40)
              && l.artifacts != [] && Inventoried(l.artifacts) && l.targets != [] && Targeted(l.targets, rules)
              && l.releaseId == ReleaseId(l.version, l.commit, l.branch, Keys(l.artifacts))
              && l.events != [] && WellKept(l, l.events, rules)
              && (disk.Some? ==> OnTheDisk(l, disk.value))
  {
    assert ArtifactsOk(l.artifacts) <==> Inventoried(l.artifacts);
    assert TargetsOk(l.targets, rules) <==> Targeted(l.targets, rules);
    if ArtifactsOk(l.artifacts) && TargetsOk(l.targets, rules) {
      CheckedIffWellKept(l, l.events, rules);
    }
    if disk.Some? {
      DiskByFields(l, disk.value);
    }
  }

  lemma DiskByFields(l: Ledger, disk: Disk)
    ensures DiskOk(l, disk) <==> OnTheDisk(l, disk)
  {
    forall i | 0 <= i < |l.artifacts|
      ensures OnDisk(l.artifacts[i].key, disk) <==>
                var k := l.artifacts[i].key; k.path in disk && disk[k.path].size == k.size && disk[k.path].sha256 == k.sha256
    {
    }
  }
}
