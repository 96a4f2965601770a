/** The hash-chained publication ledger (tankai/dev_orchestrator/release_publication.py). */
module PublicationLedger {
  // SHA-256 over canonical JSON is an injective function, modelled by constructors; a hash read from a file
  // may also be any other text.

  import opened Common
  import opened Formats
  import opened RepoPaths

  datatype Hash = ZeroHash | EventHash(body: EventBody) | OtherText(text: string)

  datatype ArtifactKey = ArtifactKey(path: string, size: int, sha256: string)

  datatype ReleaseId = ReleaseId(version: string, commit: string, branch: string, artifacts: seq<ArtifactKey>) | OtherId(text: string)

  datatype Payload =
    | LedgerCreated(releaseId: ReleaseId, artifactCount: int, targetCount: int)
    | ArtifactPublished(target: string, path: string, remoteId: string, url: string, size: int, algorithm: string, digest: string)
    | SourcePublished(target: string, commit: string, branch: string, remoteId: string, url: string)
    | UnknownType(text: string)

  datatype EventBody = EventBody(sequence: int, payload: Payload, at: string, previous: Hash)

  datatype Event = Event(body: EventBody, recorded: Hash)

  datatype Artifact = Artifact(key: ArtifactKey, mediaType: string)

  datatype Kind = GoogleDrive | GitHub | OtherKind
  datatype Mode = ArtifactMirror | SourceRepository

  datatype Target = Target(id: string, kind: Kind, mode: Mode, locator: string, required: bool)

  datatype Ledger = Ledger(schema: int, project: string, releaseId: ReleaseId, version: string, commit: string, branch: string,
                           artifacts: seq<Artifact>, targets: seq<Target>, events: seq<Event>)

  /** A file of the release directory. */
  datatype File = File(size: nat, sha256: string, sha1: string, md5: string)

  type Disk = map<string, File>

  /** Which URLs belong to a target and remote id, and which names and locators are well-formed. */
  datatype Rules = Rules(url: (Target, string, string) -> bool, commitUrl: (string, string) -> bool, name: Target -> bool)

  const PROJECT := "TankAI Core"

  // ----- formats -----

  function DigestLength(algorithm: string): Option<nat> {
    if algorithm == "sha256" then Some(64) else if algorithm == "sha1" then Some(40)
    else if algorithm == "md5" then Some(32) else None
  }

  predicate DigestOk(algorithm: string, digest: string) {
    DigestLength(algorithm).Some? && Hex(digest, DigestLength(algorithm).value)
  }

  function DigestOf(f: File, algorithm: string): string {
    if algorithm == "sha256" then f.sha256 else if algorithm == "sha1" then f.sha1 else f.md5
  }

  predicate KeyOk(k: ArtifactKey) {
    SafeRelative(k.path) && k.size >= 0 && Hex(k.sha256, 64)
  }

  ghost predicate ArtifactsOk(artifacts: seq<Artifact>) {
    (forall i :: 0 <= i < |artifacts| ==> KeyOk(artifacts[i].key))
    && forall i, j :: 0 <= i < j < |artifacts| ==> artifacts[i].key.path != artifacts[j].key.path
  }

  predicate TargetOk(t: Target, rules: Rules) {
    rules.name(t) && !t.kind.OtherKind? && (t.kind.GoogleDrive? <==> t.mode.ArtifactMirror?)
  }

  ghost predicate TargetsOk(targets: seq<Target>, rules: Rules) {
    (forall i :: 0 <= i < |targets| ==> TargetOk(targets[i], rules))
    && forall i, j :: 0 <= i < j < |targets| ==> targets[i].id != targets[j].id
  }

  function Keys(artifacts: seq<Artifact>): seq<ArtifactKey> {
    seq(|artifacts|, i requires 0 <= i < |artifacts| => artifacts[i].key)
  }

  function Identity(l: Ledger): ReleaseId {
    ReleaseId(l.version, l.commit, l.branch, Keys(l.artifacts))
  }

  function FindTarget(targets: seq<Target>, id: string): Option<Target> {
    if |targets| == 0 then None else if targets[0].id == id then Some(targets[0]) else FindTarget(targets[1..], id)
  }

  function FindArtifact(artifacts: seq<Artifact>, path: string): Option<Artifact> {
    if |artifacts| == 0 then None else if artifacts[0].key.path == path then Some(artifacts[0])
    else FindArtifact(artifacts[1..], path)
  }

  // ----- validation -----

  /** What the event loop carries: the last hash and the receipts so far. */
  datatype Progress = Progress(last: Hash, artifacts: set<(string, string)>, sources: set<string>)

  function Seal(body: EventBody): Event {
    Event(body, EventHash(body))
  }

  /** The checks on one event that do not depend on its type. */
  predicate Chained(p: Progress, n: nat, e: Event) {
    e.body.sequence == n && e.body.previous == p.last && e.recorded == EventHash(e.body)
  }

  predicate ReceiptOk(l: Ledger, p: Progress, payload: Payload, rules: Rules) {
    match payload
    case ArtifactPublished(target, path, remoteId, url, size, algorithm, digest) =>
      var t, a := FindTarget(l.targets, target), FindArtifact(l.artifacts, path);
      t.Some? && t.value.kind.GoogleDrive? && a.Some? && (target, path) !in p.artifacts && DigestOk(algorithm, digest)
      && size == a.value.key.size && rules.url(t.value, remoteId, url)
    case SourcePublished(target, commit, branch, remoteId, url) =>
      var t := FindTarget(l.targets, target);
      t.Some? && t.value.kind.GitHub? && target !in p.sources && commit == l.commit && branch == l.branch
      && rules.url(t.value, remoteId, url)
    case _ => false
  }

  predicate EventOk(l: Ledger, p: Progress, n: nat, e: Event, rules: Rules) {
    Chained(p, n, e)
    && if n == 1 then e.body.payload.LedgerCreated? && p.last.ZeroHash? && e.body.payload.releaseId == Identity(l)
       else ReceiptOk(l, p, e.body.payload, rules)
  }

  function Advanced(p: Progress, e: Event): Progress {
    match e.body.payload
    case ArtifactPublished(target, path, _, _, _, _, _) => Progress(e.recorded, p.artifacts + {(target, path)}, p.sources)
    case SourcePublished(target, _, _, _, _) => Progress(e.recorded, p.artifacts, p.sources + {target})
    case _ => p.(last := e.recorded)
  }

  const START := Progress(ZeroHash, {}, {})

  /** The result of the event loop over a prefix of the events, or None after a failed check. */
  function Checked(l: Ledger, events: seq<Event>, rules: Rules): Option<Progress> {
    if |events| == 0 then Some(START)
    else
      var n := |events|;
      var front := Checked(l, events[..n - 1], rules);
      if front.Some? && EventOk(l, front.value, n, events[n - 1], rules) then Some(Advanced(front.value, events[n - 1])) else None
  }

  ghost predicate HeaderOk(l: Ledger, rules: Rules) {
    && l.schema == 1 && l.project == PROJECT && Hex(l.commit, 40)
    && |l.artifacts| > 0 && |l.targets| > 0 && |l.events| > 0
    && ArtifactsOk(l.artifacts) && TargetsOk(l.targets, rules)
    && l.releaseId == Identity(l)
  }

  /** The files on disk are the artifacts, and every artifact receipt carries their digest. */
  ghost predicate DiskOk(l: Ledger, disk: Disk) {
    && (forall i :: 0 <= i < |l.artifacts| ==> OnDisk(l.artifacts[i].key, disk))
    && forall i :: 0 <= i < |l.events| ==> ReceiptOnDisk(l.events[i].body.payload, disk)
  }

  predicate OnDisk(k: ArtifactKey, disk: Disk) {
    k.path in disk && disk[k.path].size == k.size && disk[k.path].sha256 == k.sha256
  }

  predicate ReceiptOnDisk(payload: Payload, disk: Disk) {
    payload.ArtifactPublished? ==> payload.path in disk && DigestOf(disk[payload.path], payload.algorithm) == payload.digest
  }

  /** A ledger without errors, checked against the release directory when there is one. */
  ghost predicate Valid(l: Ledger, disk: Option<Disk>, rules: Rules) {
    HeaderOk(l, rules) && Checked(l, l.events, rules).Some? && (disk.Some? ==> DiskOk(l, disk.value))
  }

  // ----- the validation loops -----

  method CheckArtifacts(artifacts: seq<Artifact>) returns (ok: bool)
    ensures ok == ArtifactsOk(artifacts)
  {
    var names: set<string> := {};
    for k := 0 to |artifacts|
      invariant names == set i | 0 <= i < k :: artifacts[i].key.path
      invariant forall i :: 0 <= i < k ==> KeyOk(artifacts[i].key)
      invariant forall i, j :: 0 <= i < j < k ==> artifacts[i].key.path != artifacts[j].key.path
    {
      var key := artifacts[k].key;
      if !KeyOk(key) || key.path in names {
        return false;
      }
      names := names + {key.path};
    }
    ok := true;
  }

  method CheckTargets(targets: seq<Target>, rules: Rules) returns (ok: bool)
    ensures ok == TargetsOk(targets, rules)
  {
    var ids: set<string> := {};
    for k := 0 to |targets|
      invariant ids == set i | 0 <= i < k :: targets[i].id
      invariant TargetsOk(targets[..k], rules)
    {
      if !TargetOk(targets[k], rules) || targets[k].id in ids {
        return false;
      }
      ids := ids + {targets[k].id};
    }
    assert targets[..|targets|] == targets;
    ok := true;
  }

  lemma {:induction false} CheckedPrefix(l: Ledger, events: seq<Event>, k: nat, rules: Rules)
    requires k <= |events| && Checked(l, events[..k], rules).None?
    ensures Checked(l, events, rules).None?
  {
    if k == |events| {
      assert events[..k] == events;
    } else {
      assert events[..|events| - 1][..k] == events[..k];
      CheckedPrefix(l, events[..|events| - 1], k, rules);
    }
  }

  method CheckEvents(l: Ledger, rules: Rules) returns (r: Option<Progress>)
    ensures r == Checked(l, l.events, rules)
  {
    var previousHash, artifactReceipts, sourceReceipts := ZeroHash, {}, {};
    for k := 0 to |l.events|
      invariant Checked(l, l.events[..k], rules) == Some(Progress(previousHash, artifactReceipts, sourceReceipts))
    {
      var e := l.events[k];
      assert l.events[..k + 1][..k] == l.events[..k];
      if !EventOk(l, Progress(previousHash, artifactReceipts, sourceReceipts), k + 1, e, rules) {
        CheckedPrefix(l, l.events, k + 1, rules);
        return None;
      }
      match e.body.payload {
        case ArtifactPublished(target, path, _, _, _, _, _) => artifactReceipts := artifactReceipts + {(target, path)};
        case SourcePublished(target, _, _, _, _) => sourceReceipts := sourceReceipts + {target};
        case _ =>
      }
      previousHash := e.recorded;
    }
    assert l.events[..|l.events|] == l.events;
    r := Some(Progress(previousHash, artifactReceipts, sourceReceipts));
  }

  method CheckDisk(l: Ledger, disk: Disk) returns (ok: bool)
    ensures ok == DiskOk(l, disk)
  {
    for k := 0 to |l.artifacts|
      invariant forall i :: 0 <= i < k ==> OnDisk(l.artifacts[i].key, disk)
    {
      if !OnDisk(l.artifacts[k].key, disk) {
        return false;
      }
    }
    for k := 0 to |l.events|
      invariant forall i :: 0 <= i < k ==> ReceiptOnDisk(l.events[i].body.payload, disk)
    {
      if !ReceiptOnDisk(l.events[k].body.payload, disk) {
        return false;
      }
    }
    ok := true;
  }

  /** `_validate_ledger_payload`: the receipts of a valid ledger, or None. */
  method ValidateLedger(l: Ledger, disk: Option<Disk>, rules: Rules) returns (r: Option<Progress>)
    ensures r.Some? <==> Valid(l, disk, rules)
    ensures r.Some? ==> r == Checked(l, l.events, rules)
  {
    if l.schema != 1 || l.project != PROJECT || !Hex(l.commit, 40) {
      return None;
    }
    if |l.artifacts| == 0 || |l.targets| == 0 || |l.events| == 0 {
      return None;
    }
    var artifactsOk := CheckArtifacts(l.artifacts);
    var targetsOk := CheckTargets(l.targets, rules);
    if !artifactsOk || !targetsOk || l.releaseId != Identity(l) {
      return None;
    }
    r := CheckEvents(l, rules);
    if r.Some? && disk.Some? {
      var onDisk := CheckDisk(l, disk.value);
      if !onDisk {
        return None;
      }
    }
  }

  // ----- the chain binds the ledger -----

  lemma {:induction false} LastOfChain(l: Ledger, events: seq<Event>, rules: Rules)
    requires Checked(l, events, rules).Some? && |events| > 0
    ensures var e := events[|events| - 1]; e == Seal(e.body) && e.body.sequence == |events|
    ensures Checked(l, events, rules).value.last == events[|events| - 1].recorded
    ensures Checked(l, events[..|events| - 1], rules).Some?
    ensures Checked(l, events[..|events| - 1], rules).value.last == events[|events| - 1].body.previous
  {
  }

  /** Chains with the same last hash are the same chain, whatever ledgers they stand in. */
  lemma {:induction false} SameLastSameChain(l1: Ledger, e1: seq<Event>, l2: Ledger, e2: seq<Event>, rules: Rules)
    requires Checked(l1, e1, rules).Some? && Checked(l2, e2, rules).Some?
    requires Checked(l1, e1, rules).value.last == Checked(l2, e2, rules).value.last
    ensures e1 == e2
    decreases |e1|
  {
    if |e1| > 0 {
      LastOfChain(l1, e1, rules);
    }
    if |e2| > 0 {
      LastOfChain(l2, e2, rules);
    }
    if |e1| > 0 && |e2| > 0 {
      SameLastSameChain(l1, e1[..|e1| - 1], l2, e2[..|e2| - 1], rules);
      assert e1 == e1[..|e1| - 1] + [e1[|e1| - 1]];
      assert e2 == e2[..|e2| - 1] + [e2[|e2| - 1]];
    }
  }

  lemma {:induction false} GenesisOfChain(l: Ledger, events: seq<Event>, rules: Rules)
    requires Checked(l, events, rules).Some? && |events| > 0
    ensures events[0].body.payload.LedgerCreated? && events[0].body.payload.releaseId == Identity(l)
  {
    if |events| > 1 {
      GenesisOfChain(l, events[..|events| - 1], rules);
    }
  }

  /**
   * Two valid ledgers that end in the same hash have the same events, version, commit, branch and artifact
   * paths, sizes and digests.
   */
  lemma LastHashBindsLedger(l1: Ledger, l2: Ledger, rules: Rules)
    requires Valid(l1, None, rules) && Valid(l2, None, rules)
    requires l1.events[|l1.events| - 1].recorded == l2.events[|l2.events| - 1].recorded
    ensures l1.events == l2.events && l1.version == l2.version && l1.commit == l2.commit && l1.branch == l2.branch
    ensures Keys(l1.artifacts) == Keys(l2.artifacts)
  {
    LastOfChain(l1, l1.events, rules);
    LastOfChain(l2, l2.events, rules);
    SameLastSameChain(l1, l1.events, l2, l2.events, rules);
    GenesisOfChain(l1, l1.events, rules);
    GenesisOfChain(l2, l2.events, rules);
  }

  lemma {:induction false} FindAppended(targets: seq<Target>, t: Target, id: string)
    ensures FindTarget(targets + [t], id) == if FindTarget(targets, id).Some? then FindTarget(targets, id)
                                              else if t.id == id then Some(t) else None
  {
    if |targets| > 0 {
      assert (targets + [t])[1..] == targets[1..] + [t];
      FindAppended(targets[1..], t, id);
    }
  }

  lemma {:induction false} MoreTargetsStillChecked(l: Ledger, events: seq<Event>, t: Target, rules: Rules)
    requires Checked(l, events, rules).Some?
    ensures Checked(l.(targets := l.targets + [t]), events, rules) == Checked(l, events, rules)
  {
    if |events| > 0 {
      MoreTargetsStillChecked(l, events[..|events| - 1], t, rules);
      var payload := events[|events| - 1].body.payload;
      if payload.ArtifactPublished? || payload.SourcePublished? {
        FindAppended(l.targets, t, payload.target);
      }
      assert Identity(l.(targets := l.targets + [t])) == Identity(l);
    }
  }

  /** The targets are not bound: any fresh well-formed target can be added without changing a hash. */
  lemma TargetsAreNotBound(l: Ledger, t: Target, disk: Option<Disk>, rules: Rules)
    requires Valid(l, disk, rules) && TargetOk(t, rules) && forall i :: 0 <= i < |l.targets| ==> l.targets[i].id != t.id
    ensures Valid(l.(targets := l.targets + [t]), disk, rules)
  {
    MoreTargetsStillChecked(l, l.events, t, rules);
    assert Identity(l.(targets := l.targets + [t])) == Identity(l);
  }

  // ----- appending receipts -----

  function Append(l: Ledger, p: Progress, payload: Payload, at: string): Ledger {
    l.(events := l.events + [Seal(EventBody(|l.events| + 1, payload, at, p.last))])
  }

  lemma {:induction false} CheckedIgnoresLaterEvents(l: Ledger, later: seq<Event>, events: seq<Event>, rules: Rules)
    ensures Checked(l.(events := later), events, rules) == Checked(l, events, rules)
  {
    if |events| > 0 {
      CheckedIgnoresLaterEvents(l, later, events[..|events| - 1], rules);
      assert Identity(l.(events := later)) == Identity(l);
    }
  }

  /** A receipt that passes the checks of its type can be appended: the ledger stays valid and gains that receipt. */
  lemma AppendKeepsValid(l: Ledger, p: Progress, payload: Payload, at: string, disk: Option<Disk>, rules: Rules)
    requires Valid(l, disk, rules) && Checked(l, l.events, rules) == Some(p)
    requires ReceiptOk(l, p, payload, rules) && (disk.Some? ==> ReceiptOnDisk(payload, disk.value))
    ensures var l' := Append(l, p, payload, at);
            && Valid(l', disk, rules)
            && Checked(l', l'.events, rules) == Some(Advanced(p, l'.events[|l.events|]))
  {
    var l' := Append(l, p, payload, at);
    assert l'.events[..|l.events|] == l.events;
    CheckedIgnoresLaterEvents(l, l'.events, l.events, rules);
    assert Identity(l') == Identity(l);
  }

  predicate IsArtifactReceipt(payload: Payload, target: string, path: string) {
    payload.ArtifactPublished? && payload.target == target && payload.path == path
  }

  predicate IsSourceReceipt(payload: Payload, target: string) {
    payload.SourcePublished? && payload.target == target
  }

  ghost predicate HasArtifactReceipt(events: seq<Event>, target: string, path: string) {
    exists i :: 0 <= i < |events| && IsArtifactReceipt(events[i].body.payload, target, path)
  }

  ghost predicate HasSourceReceipt(events: seq<Event>, target: string) {
    exists i :: 0 <= i < |events| && IsSourceReceipt(events[i].body.payload, target)
  }

  lemma OneMoreEvent(front: seq<Event>, e: Event, target: string, path: string)
    ensures HasArtifactReceipt(front + [e], target, path) <==>
              HasArtifactReceipt(front, target, path) || IsArtifactReceipt(e.body.payload, target, path)
    ensures HasSourceReceipt(front + [e], target) <==>
              HasSourceReceipt(front, target) || IsSourceReceipt(e.body.payload, target)
  {
    var events := front + [e];
    assert events[|front|] == e;
    assert forall i :: 0 <= i < |front| ==> events[i] == front[i];
  }

  /** The receipts of a chain are its receipt events. */
  lemma {:induction false} ReceiptsAreEvents(l: Ledger, events: seq<Event>, rules: Rules, target: string, path: string)
    requires Checked(l, events, rules).Some?
    ensures var p := Checked(l, events, rules).value;
            && ((target, path) in p.artifacts <==> HasArtifactReceipt(events, target, path))
            && (target in p.sources <==> HasSourceReceipt(events, target))
  {
    if |events| > 0 {
      var front, e := events[..|events| - 1], events[|events| - 1];
      ReceiptsAreEvents(l, front, rules, target, path);
      OneMoreEvent(front, e, target, path);
      assert events == front + [e];
      LastReceipt(l, events, rules);
    }
  }

  /** No receipt occurs twice: besides the first, every event is a receipt of its own. */
  lemma {:induction false} EveryEventIsOneReceipt(l: Ledger, events: seq<Event>, rules: Rules)
    requires Checked(l, events, rules).Some?
    ensures var p := Checked(l, events, rules).value;
            && (|events| > 0 ==> |events| == 1 + |p.artifacts| + |p.sources|)
            && (|events| == 0 ==> p.artifacts == {} && p.sources == {})
  {
    if |events| > 0 {
      EveryEventIsOneReceipt(l, events[..|events| - 1], rules);
      LastReceipt(l, events, rules);
    }
  }

  lemma LastReceipt(l: Ledger, events: seq<Event>, rules: Rules)
    requires Checked(l, events, rules).Some? && |events| > 0
    ensures var p, before := Checked(l, events, rules).value, Checked(l, events[..|events| - 1], rules);
            && before.Some?
            && var payload := events[|events| - 1].body.payload;
               match payload
               case ArtifactPublished(t, path, _, _, _, _, _) =>
                 |events| > 1 && (t, path) !in before.value.artifacts
                 && p.artifacts == before.value.artifacts + {(t, path)} && p.sources == before.value.sources
               case SourcePublished(t, _, _, _, _) =>
                 |events| > 1 && t !in before.value.sources
                 && p.sources == before.value.sources + {t} && p.artifacts == before.value.artifacts
               case _ => |events| == 1 && p.artifacts == {} && p.sources == {}
  {
  }

  // ----- publication status -----

  datatype TargetStatus = TargetStatus(target: Target, complete: bool, missing: seq<string>)

  predicate TargetComplete(l: Ledger, p: Progress, t: Target) {
    if t.kind.GoogleDrive? then forall i :: 0 <= i < |l.artifacts| ==> (t.id, l.artifacts[i].key.path) in p.artifacts
    else t.id in p.sources
  }

  /** In terms of events: every artifact has a receipt for a drive target, and a source receipt exists for a repository. */
  ghost predicate Published(l: Ledger, t: Target) {
    if t.kind.GoogleDrive? then
      forall i :: 0 <= i < |l.artifacts| ==> HasArtifactReceipt(l.events, t.id, l.artifacts[i].key.path)
    else HasSourceReceipt(l.events, t.id)
  }

  lemma CompleteMeansPublished(l: Ledger, p: Progress, t: Target, rules: Rules)
    requires Checked(l, l.events, rules) == Some(p)
    ensures TargetComplete(l, p, t) <==> Published(l, t)
  {
    ReceiptsAreEvents(l, l.events, rules, t.id, "");
    forall i | 0 <= i < |l.artifacts|
      ensures (t.id, l.artifacts[i].key.path) in p.artifacts <==>
                HasArtifactReceipt(l.events, t.id, l.artifacts[i].key.path)
    {
      ReceiptsAreEvents(l, l.events, rules, t.id, l.artifacts[i].key.path);
    }
  }

  method MissingArtifacts(l: Ledger, p: Progress, t: Target) returns (missing: seq<string>)
    ensures forall path :: path in missing <==>
              exists i :: 0 <= i < |l.artifacts| && l.artifacts[i].key.path == path && (t.id, path) !in p.artifacts
  {
    missing := [];
    for k := 0 to |l.artifacts|
      invariant forall path :: path in missing <==>
                  exists i :: 0 <= i < k && l.artifacts[i].key.path == path && (t.id, path) !in p.artifacts
    {
      var path := l.artifacts[k].key.path;
      if (t.id, path) !in p.artifacts {
        missing := missing + [path];
      }
    }
  }

  /** What the status of one target says. */
  ghost predicate StatusOf(l: Ledger, t: Target, s: TargetStatus) {
    && s.target == t && (s.complete <==> Published(l, t)) && (t.kind.GoogleDrive? ==> Missing(l, t, s.missing))
  }

  method TargetStatusOf(l: Ledger, p: Progress, t: Target, rules: Rules) returns (s: TargetStatus)
    requires Checked(l, l.events, rules) == Some(p)
    ensures StatusOf(l, t, s)
  {
    CompleteMeansPublished(l, p, t, rules);
    if t.kind.GoogleDrive? {
      var missing := MissingArtifacts(l, p, t);
      AllFound(l, p, t, missing);
      MissingMeansNoReceipt(l, p, t, missing, rules);
      s := TargetStatus(t, |missing| == 0, missing);
    } else {
      s := TargetStatus(t, t.id in p.sources, []);
    }
  }

  /** `verify_publication_ledger`: complete exactly when everything required has been published. */
  method VerifyPublicationLedger(l: Ledger, disk: Option<Disk>, rules: Rules)
    returns (valid: bool, complete: bool, statuses: seq<TargetStatus>)
    ensures valid <==> Valid(l, disk, rules)
    ensures complete <==> valid && forall i :: 0 <= i < |l.targets| && l.targets[i].required ==> Published(l, l.targets[i])
    ensures valid ==> |statuses| == |l.targets| && forall i :: 0 <= i < |l.targets| ==> StatusOf(l, l.targets[i], statuses[i])
    ensures !valid ==> statuses == []
  {
    var r := ValidateLedger(l, disk, rules);
    statuses := [];
    if r.None? {
      return false, false, [];
    }
    valid, complete := true, true;
    for k := 0 to |l.targets|
      invariant |statuses| == k
      invariant forall i :: 0 <= i < k ==> StatusOf(l, l.targets[i], statuses[i])
      invariant complete <==> forall i :: 0 <= i < k && l.targets[i].required ==> Published(l, l.targets[i])
    {
      var status := TargetStatusOf(l, r.value, l.targets[k], rules);
      if l.targets[k].required && !status.complete {
        complete := false;
      }
      statuses := statuses + [status];
    }
  }

  /** The artifacts without a receipt event for the target. */
  ghost predicate Missing(l: Ledger, t: Target, missing: seq<string>) {
    forall path :: path in missing <==> IsArtifact(l, path) && !HasArtifactReceipt(l.events, t.id, path)
  }

  ghost predicate IsArtifact(l: Ledger, path: string) {
    exists i :: 0 <= i < |l.artifacts| && l.artifacts[i].key.path == path
  }

  lemma MissingMeansNoReceipt(l: Ledger, p: Progress, t: Target, missing: seq<string>, rules: Rules)
    requires Checked(l, l.events, rules) == Some(p)
    requires forall path :: path in missing <==>
               exists i :: 0 <= i < |l.artifacts| && l.artifacts[i].key.path == path && (t.id, path) !in p.artifacts
    ensures Missing(l, t, missing)
  {
    forall path
      ensures path in missing <==> IsArtifact(l, path) && !HasArtifactReceipt(l.events, t.id, path)
    {
      ReceiptsAreEvents(l, l.events, rules, t.id, path);
    }
  }

  lemma AllFound(l: Ledger, p: Progress, t: Target, missing: seq<string>)
    requires t.kind.GoogleDrive?
    requires forall path :: path in missing <==>
               exists i :: 0 <= i < |l.artifacts| && l.artifacts[i].key.path == path && (t.id, path) !in p.artifacts
    ensures TargetComplete(l, p, t) <==> |missing| == 0
  {
    if |missing| > 0 {
      assert missing[0] in missing;
    }
    forall i | 0 <= i < |l.artifacts| && (t.id, l.artifacts[i].key.path) !in p.artifacts
      ensures l.artifacts[i].key.path in missing
    {
    }
  }

  // ----- the store -----

  function Genesis(version: string, commit: string, branch: string, artifacts: seq<Artifact>, targets: seq<Target>, at: string): Ledger {
    var id := ReleaseId(version, commit, branch, Keys(artifacts));
    Ledger(1, PROJECT, id, version, commit, branch, artifacts, targets,
           [Seal(EventBody(1, LedgerCreated(id, |artifacts|, |targets|), at, ZeroHash))])
  }

  /** The inventory of a release directory: its files, each once, with size and digest. */
  ghost predicate InventoryOf(artifacts: seq<Artifact>, disk: Disk) {
    && |artifacts| > 0 && ArtifactsOk(artifacts)
    && forall i :: 0 <= i < |artifacts| ==> OnDisk(artifacts[i].key, disk)
  }

  lemma GenesisIsValid(version: string, commit: string, branch: string, artifacts: seq<Artifact>, targets: seq<Target>,
                       at: string, disk: Disk, rules: Rules)
    requires Hex(commit, 40) && |targets| > 0 && TargetsOk(targets, rules) && InventoryOf(artifacts, disk)
    ensures var l := Genesis(version, commit, branch, artifacts, targets, at);
            Valid(l, Some(disk), rules) && Checked(l, l.events, rules).value.artifacts == {}
            && Checked(l, l.events, rules).value.sources == {}
  {
    var l := Genesis(version, commit, branch, artifacts, targets, at);
    assert l.events[..0] == [];
    assert Checked(l, l.events[..0], rules) == Some(START);
    assert EventOk(l, START, 1, l.events[0], rules);
  }

  class PublicationLedgerStore {
    const rules: Rules
    var ledger: Ledger

    constructor (rules: Rules, ledger: Ledger)
      ensures this.rules == rules && this.ledger == ledger
    {
      this.rules, this.ledger := rules, ledger;
    }

    /** Algorithm and digest as they are after stripping and lower-casing. */
    method RecordArtifactReceipt(disk: Disk, target: string, path: string, remoteId: string, url: string, size: int,
                                 algorithm: string, digest: string, at: string) returns (ok: bool)
      modifies this
      ensures var payload := ArtifactPublished(target, path, remoteId, url, size, algorithm, digest);
              && (ok <==> Valid(old(ledger), Some(disk), rules)
                          && ReceiptOk(old(ledger), Checked(old(ledger), old(ledger).events, rules).value, payload, rules)
                          && ReceiptOnDisk(payload, disk))
              && (ok ==> ledger == Append(old(ledger), Checked(old(ledger), old(ledger).events, rules).value, payload, at))
      ensures ok ==> Valid(ledger, Some(disk), rules)
      ensures !ok ==> ledger == old(ledger)
    {
      if !DigestOk(algorithm, digest) {
        return false;
      }
      var r := ValidateLedger(ledger, Some(disk), rules);
      if r.None? {
        return false;
      }
      var t, a := FindTarget(ledger.targets, target), FindArtifact(ledger.artifacts, path);
      if t.None? || !t.value.kind.GoogleDrive? || a.None? || (target, path) in r.value.artifacts {
        return false;
      }
      if size != a.value.key.size || path !in disk || DigestOf(disk[path], algorithm) != digest {
        return false;
      }
      if !rules.url(t.value, remoteId, url) {
        return false;
      }
      var payload := ArtifactPublished(target, path, remoteId, url, a.value.key.size, algorithm, digest);
      AppendKeepsValid(ledger, r.value, payload, at, Some(disk), rules);
      LastOfChain(ledger, ledger.events, rules);
      var body := EventBody(|ledger.events| + 1, payload, at, ledger.events[|ledger.events| - 1].recorded);
      ledger := ledger.(events := ledger.events + [Seal(body)]);
      ok := true;
    }

    /** The commit as it is after stripping and lower-casing; it is also the remote id. */
    method RecordSourceReceipt(target: string, commit: string, branch: string, url: string, at: string) returns (ok: bool)
      modifies this
      ensures var payload := SourcePublished(target, commit, branch, commit, url);
              && (ok <==> Valid(old(ledger), None, rules)
                          && ReceiptOk(old(ledger), Checked(old(ledger), old(ledger).events, rules).value, payload, rules)
                          && rules.commitUrl(commit, url))
              && (ok ==> ledger == Append(old(ledger), Checked(old(ledger), old(ledger).events, rules).value, payload, at))
      ensures ok ==> Valid(ledger, None, rules)
      ensures forall disk :: ok && Valid(old(ledger), Some(disk), rules) ==> Valid(ledger, Some(disk), rules)
      ensures !ok ==> ledger == old(ledger)
    {
      var r := ValidateLedger(ledger, None, rules);
      if r.None? {
        return false;
      }
      var t := FindTarget(ledger.targets, target);
      if t.None? || !t.value.kind.GitHub? || target in r.value.sources {
        return false;
      }
      if commit != ledger.commit || branch != ledger.branch {
        return false;
      }
      if !rules.url(t.value, commit, url) || !rules.commitUrl(commit, url) {
        return false;
      }
      var payload := SourcePublished(target, commit, branch, commit, url);
      AppendKeepsValid(ledger, r.value, payload, at, None, rules);
      LastOfChain(ledger, ledger.events, rules);
      ghost var before := ledger;
      var body := EventBody(|ledger.events| + 1, payload, at, ledger.events[|ledger.events| - 1].recorded);
      ledger := ledger.(events := ledger.events + [Seal(body)]);
      forall disk | Valid(before, Some(disk), rules)
        ensures Valid(ledger, Some(disk), rules)
      {
        AppendKeepsValid(before, r.value, payload, at, Some(disk), rules);
      }
      ok := true;
    }
  }
}
