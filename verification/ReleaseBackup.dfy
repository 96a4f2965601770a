/** Release snapshots and their verification (tankai/dev_orchestrator/release_backup.py). */
module ReleaseBackup {
  import opened Common
  import opened Formats
  import opened RepoPaths

  datatype BackupFile = BackupFile(path: string, size: nat, sha256: string)

  type Manifest = map<string, string>

  // ----- the manifest -----

  /** Where `splitlines` ends a line; it knows more line ends than the newline the manifest is written with. */
  predicate IsBreak(c: char) {
    var n := c as int;
    0x0A <= n <= 0x0D || 0x1C <= n <= 0x1E || n == 0x85 || n == 0x2028 || n == 0x2029
  }

  predicate OneLine(s: string) {
    forall i :: 0 <= i < |s| ==> !IsBreak(s[i])
  }

  /** The pieces between line ends; empty ones are skipped by the reader. */
  function Lines(s: string): (lines: seq<string>)
    ensures |lines| >= 1 && forall i :: 0 <= i < |lines| ==> OneLine(lines[i])
  {
    if s == "" then [""]
    else
      var rest := Lines(s[1..]);
      if IsBreak(s[0]) then [""] + rest else [[s[0]] + rest[0]] + rest[1..]
  }

  function Line(f: BackupFile): string {
    f.sha256 + "  " + f.path
  }

  function ManifestText(files: seq<BackupFile>): string {
    if |files| == 0 then "" else Line(files[0]) + "\n" + ManifestText(files[1..])
  }

  /** A path as the reader accepts it. */
  predicate ListablePath(path: string) {
    SafeRelative(path) && OneLine(path) && '\0' !in path
  }

  /** `([0-9a-f]{64})  ([^\x00\r\n]+)` and the checks on the path. */
  predicate EntryLine(line: string) {
    |line| >= 67 && Hex(line[..64], 64) && line[64] == ' ' && line[65] == ' ' && '\0' !in line[66..] && SafeRelative(line[66..])
  }

  /** The entries of the lines, or None after a bad or repeated one. */
  function Entries(lines: seq<string>): Option<Manifest> {
    if |lines| == 0 then Some(map[])
    else
      var front, line := Entries(lines[..|lines| - 1]), lines[|lines| - 1];
      if front.None? || line == "" then front
      else if !EntryLine(line) || line[66..] in front.value then None
      else Some(front.value[line[66..] := line[..64]])
  }

  function Parsed(text: string): Option<Manifest> {
    var entries := Entries(Lines(text));
    if entries == Some(map[]) then None else entries
  }

  lemma {:induction false} EntriesOfPrefix(lines: seq<string>, k: nat)
    requires k <= |lines| && Entries(lines[..k]).None?
    ensures Entries(lines).None?
  {
    if k == |lines| {
      assert lines[..k] == lines;
    } else {
      assert lines[..|lines| - 1][..k] == lines[..k];
      EntriesOfPrefix(lines[..|lines| - 1], k);
    }
  }

  method ParseManifest(text: string) returns (r: Option<Manifest>)
    ensures r == Parsed(text)
  {
    var lines := Lines(text);
    var entries: Manifest := map[];
    for k := 0 to |lines|
      invariant Entries(lines[..k]) == Some(entries)
    {
      var line := lines[k];
      assert lines[..k + 1][..k] == lines[..k];
      if line != "" {
        if !EntryLine(line) || line[66..] in entries {
          EntriesOfPrefix(lines, k + 1);
          return None;
        }
        entries := entries[line[66..] := line[..64]];
      }
    }
    assert lines[..|lines|] == lines;
    r := if entries == map[] then None else Some(entries);
  }

  // ----- parsing what was printed -----

  ghost predicate DistinctPaths(files: seq<BackupFile>) {
    forall i, k :: 0 <= i < k < |files| ==> files[i].path != files[k].path
  }

  function ManifestOf(files: seq<BackupFile>): Manifest {
    if |files| == 0 then map[] else ManifestOf(files[..|files| - 1])[files[|files| - 1].path := files[|files| - 1].sha256]
  }

  lemma {:induction false} LinesOfOneLine(s: string)
    requires OneLine(s)
    ensures Lines(s) == [s]
  {
    if s != "" {
      LinesOfOneLine(s[1..]);
      assert [s[0]] + s[1..] == s;
    }
  }

  lemma {:induction false} LinesAfterBreak(s: string, rest: string)
    requires OneLine(s)
    ensures Lines(s + "\n" + rest) == [s] + Lines(rest)
  {
    if s == "" {
      assert ("" + "\n" + rest)[1..] == rest;
    } else {
      LinesAfterBreak(s[1..], rest);
      assert (s + "\n" + rest)[1..] == s[1..] + "\n" + rest;
      assert [s[0]] + s[1..] == s;
    }
  }

  function LinesFor(files: seq<BackupFile>): (r: seq<string>)
    ensures |r| == |files| && forall i :: 0 <= i < |files| ==> r[i] == Line(files[i])
  {
    seq(|files|, i requires 0 <= i < |files| => Line(files[i]))
  }

  lemma {:induction false} ManifestLines(files: seq<BackupFile>)
    requires forall i :: 0 <= i < |files| ==> OneLine(Line(files[i]))
    ensures Lines(ManifestText(files)) == LinesFor(files) + [""]
  {
    if |files| == 0 {
      assert LinesFor(files) == [];
    } else {
      ManifestLines(files[1..]);
      LinesAfterBreak(Line(files[0]), ManifestText(files[1..]));
      assert LinesFor(files) == [Line(files[0])] + LinesFor(files[1..]);
    }
  }

  lemma {:induction false} ManifestKeys(files: seq<BackupFile>)
    ensures forall p :: p in ManifestOf(files) <==> exists i :: 0 <= i < |files| && files[i].path == p
  {
    if |files| > 0 {
      var front, last := files[..|files| - 1], files[|files| - 1];
      ManifestKeys(front);
      assert files == front + [last];
      forall p
        ensures p in ManifestOf(files) <==> exists i :: 0 <= i < |files| && files[i].path == p
      {
        assert p in ManifestOf(files) <==> p in ManifestOf(front) || p == last.path;
        if p in ManifestOf(front) {
          var i :| 0 <= i < |front| && front[i].path == p;
          assert files[i].path == p;
        }
        if i :| 0 <= i < |files| && files[i].path == p {
          assert i < |front| ==> front[i].path == p;
        }
      }
    }
  }

  lemma EntryOfFile(f: BackupFile)
    requires Hex(f.sha256, 64)
    ensures Line(f)[..64] == f.sha256 && Line(f)[66..] == f.path && |Line(f)| == 66 + |f.path|
    ensures SafeRelative(f.path) && '\0' !in f.path ==> EntryLine(Line(f))
    ensures OneLine(f.path) ==> OneLine(Line(f))
  {
  }

  lemma {:induction false} EntriesOfFiles(files: seq<BackupFile>)
    requires DistinctPaths(files)
    requires forall i :: 0 <= i < |files| ==> Hex(files[i].sha256, 64) && ListablePath(files[i].path)
    ensures Entries(LinesFor(files)) == Some(ManifestOf(files))
  {
    if |files| > 0 {
      var front, last := files[..|files| - 1], files[|files| - 1];
      EntriesOfFiles(front);
      EntryOfFile(last);
      assert LinesFor(files)[..|files| - 1] == LinesFor(front);
      ManifestKeys(front);
    }
  }

  /** Whatever the reader accepts lists only safe one-line paths. */
  lemma {:induction false} ListedPaths(lines: seq<string>)
    requires forall i :: 0 <= i < |lines| ==> OneLine(lines[i])
    requires Entries(lines).Some?
    ensures forall p :: p in Entries(lines).value ==> ListablePath(p)
  {
    if |lines| > 0 {
      ListedPaths(lines[..|lines| - 1]);
    }
  }

  ghost predicate Listable(files: seq<BackupFile>) {
    forall i :: 0 <= i < |files| ==> ListablePath(files[i].path)
  }

  ghost predicate Digested(files: seq<BackupFile>) {
    forall i :: 0 <= i < |files| ==> Hex(files[i].sha256, 64)
  }

  lemma ListableLines(files: seq<BackupFile>)
    requires Digested(files) && Listable(files)
    ensures Lines(ManifestText(files)) == LinesFor(files) + [""]
  {
    forall i | 0 <= i < |files|
      ensures OneLine(Line(files[i]))
    {
      assert ListablePath(files[i].path);
      EntryOfFile(files[i]);
    }
    ManifestLines(files);
  }

  lemma EntriesThenBlank(lines: seq<string>)
    ensures Entries(lines + [""]) == Entries(lines)
  {
    assert (lines + [""])[..|lines|] == lines;
  }

  lemma ListableIsRead(files: seq<BackupFile>)
    requires |files| > 0 && DistinctPaths(files) && Digested(files) && Listable(files)
    ensures Parsed(ManifestText(files)) == Some(ManifestOf(files))
  {
    ListableLines(files);
    EntriesThenBlank(LinesFor(files));
    EntriesOfFiles(files);
    assert files[|files| - 1].path in ManifestOf(files);
  }

  lemma ReadIsListable(files: seq<BackupFile>)
    requires Parsed(ManifestText(files)) == Some(ManifestOf(files))
    ensures Listable(files)
  {
    ListedPaths(Lines(ManifestText(files)));
    ManifestKeys(files);
    assert forall i :: 0 <= i < |files| ==> files[i].path in ManifestOf(files);
  }

  /**
   * Reading a printed manifest gives back the map from path to digest exactly when every path is safe and on one
   * line. A path with one of the rarer line ends is written but cannot be read.
   */
  lemma ManifestRoundTrip(files: seq<BackupFile>)
    requires |files| > 0 && DistinctPaths(files) && Digested(files)
    ensures Parsed(ManifestText(files)) == Some(ManifestOf(files)) <==> Listable(files)
  {
    if Listable(files) {
      ListableIsRead(files);
    }
    if Parsed(ManifestText(files)) == Some(ManifestOf(files)) {
      ReadIsListable(files);
    }
  }

  /** The lines that are not blank. */
  function Written(lines: seq<string>): seq<string> {
    if |lines| == 0 then []
    else Written(lines[..|lines| - 1]) + if lines[|lines| - 1] == "" then [] else [lines[|lines| - 1]]
  }

  lemma {:induction false} BlanksAreSkipped(lines: seq<string>)
    ensures Entries(Written(lines)) == Entries(lines)
  {
    if |lines| > 0 {
      var front, last := lines[..|lines| - 1], lines[|lines| - 1];
      BlanksAreSkipped(front);
      if last != "" {
        assert (Written(front) + [last])[..|Written(front)|] == Written(front);
      } else {
        assert Written(lines) == Written(front);
      }
    }
  }

  function FileOfLine(line: string): BackupFile
    requires |line| >= 66
  {
    BackupFile(line[66..], 0, line[..64])
  }

  lemma LineIsPrinted(line: string)
    requires EntryLine(line) && OneLine(line)
    ensures Line(FileOfLine(line)) == line && Hex(line[..64], 64) && ListablePath(line[66..])
  {
    assert line == line[..64] + [line[64], line[65]] + line[66..];
  }

  lemma OneMorePrinted(front: seq<BackupFile>, f: BackupFile)
    ensures LinesFor(front + [f]) == LinesFor(front) + [Line(f)]
    ensures ManifestOf(front + [f]) == ManifestOf(front)[f.path := f.sha256]
    ensures DistinctPaths(front + [f]) <==> DistinctPaths(front) && f.path !in ManifestOf(front)
  {
    var files := front + [f];
    assert files[..|front|] == front;
    ManifestKeys(front);
    if DistinctPaths(files) {
      assert forall i, k :: 0 <= i < k < |front| ==> files[i].path != files[k].path;
      assert forall i :: 0 <= i < |front| ==> files[i].path != files[|front|].path;
    }
  }

  /** Lines that can be read are printed from files, blank ones aside. */
  lemma {:induction false} EntriesArePrinted(lines: seq<string>) returns (files: seq<BackupFile>)
    requires (forall i :: 0 <= i < |lines| ==> OneLine(lines[i])) && Entries(lines).Some?
    ensures LinesFor(files) == Written(lines) && ManifestOf(files) == Entries(lines).value
    ensures DistinctPaths(files) && Digested(files) && Listable(files)
  {
    files := [];
    if |lines| > 0 {
      var line := lines[|lines| - 1];
      var front := EntriesArePrinted(lines[..|lines| - 1]);
      files := front;
      if line != "" {
        LineIsPrinted(line);
        OneMorePrinted(front, FileOfLine(line));
        files := front + [FileOfLine(line)];
      }
    }
  }

  /** The lines that are not blank are those of distinct files with digests and listable paths, which the manifest maps. */
  ghost predicate PrintedFrom(files: seq<BackupFile>, lines: seq<string>, manifest: Manifest) {
    && |files| > 0 && DistinctPaths(files) && Digested(files) && Listable(files)
    && Written(lines) == LinesFor(files) && manifest == ManifestOf(files)
  }

  /** What can be read is just what is printed from some files, and it is read as that. */
  lemma ReadIffPrinted(text: string, manifest: Manifest)
    ensures Parsed(text) == Some(manifest) <==> exists files :: PrintedFrom(files, Lines(text), manifest)
  {
    BlanksAreSkipped(Lines(text));
    if Parsed(text) == Some(manifest) {
      var files := EntriesArePrinted(Lines(text));
      assert PrintedFrom(files, Lines(text), manifest);
    }
    if files: seq<BackupFile> :| PrintedFrom(files, Lines(text), manifest) {
      EntriesOfFiles(files);
      assert files[|files| - 1].path in ManifestOf(files);
    }
  }

  // ----- archives -----

  /** What an entry holds, as far as verification looks at it. */
  datatype Content = Source(sha256: string) | ManifestFile(text: string) | MetadataFile(prefix: string, fileCount: int, sourceBytes: int)

  datatype Entry = Entry(name: string, size: nat, compressed: nat, encrypted: bool, directory: bool, symlink: bool, content: Content)

  const MANIFEST_NAME := "BACKUP_MANIFEST.sha256"
  const METADATA_NAME := "BACKUP_METADATA.json"
  const MAX_ENTRIES: nat := 10000
  const MAX_FILE: nat := 33554432
  const MAX_TOTAL: nat := 536870912

  predicate EntrySizeOk(e: Entry) {
    && !e.encrypted && !e.directory && e.size <= MAX_FILE && !(e.compressed == 0 && e.size > 0)
    && !(e.size > 1048576 && e.compressed > 0 && e.size > 1000 * e.compressed)
  }

  function TotalSize(entries: seq<Entry>): nat {
    if |entries| == 0 then 0 else TotalSize(entries[..|entries| - 1]) + entries[|entries| - 1].size
  }

  predicate Named(e: Entry, internal: string) {
    EndsWith(e.name, "/" + internal)
  }

  /** The only entry with this internal name. */
  ghost predicate Only(a: seq<Entry>, i: nat, internal: string) {
    i < |a| && Named(a[i], internal) && forall k :: 0 <= k < |a| && Named(a[k], internal) ==> k == i
  }

  ghost predicate DistinctNames(a: seq<Entry>) {
    forall i, k :: 0 <= i < k < |a| ==> a[i].name != a[k].name
  }

  ghost predicate SizesOk(a: seq<Entry>) {
    (forall i :: 0 <= i < |a| ==> EntrySizeOk(a[i])) && TotalSize(a) <= MAX_TOTAL
  }

  predicate NameOk(e: Entry) {
    SafeRelative(e.name) && !e.symlink
  }

  ghost predicate NamesOk(a: seq<Entry>) {
    DistinctNames(a) && forall i :: 0 <= i < |a| ==> NameOk(a[i])
  }

  ghost predicate StructureOk(a: seq<Entry>) {
    |a| <= MAX_ENTRIES && SizesOk(a) && NamesOk(a)
  }

  predicate PrefixOk(prefix: string) {
    prefix != "" && '/' !in prefix && !Contains(prefix, "..")
  }

  predicate Contains(s: string, part: string) {
    exists i :: 0 <= i <= |s| - |part| && s[i..][..|part|] == part
  }

  /** Every entry but the two internal ones is a listed source file with the listed digest. */
  predicate SourceOk(e: Entry, prefix: string, manifest: Manifest) {
    && |prefix| < |e.name| && e.name[..|prefix|] == prefix && e.name[|prefix|] == '/'
    && e.name[|prefix| + 1..] in manifest
    && e.content.Source? && e.content.sha256 == manifest[e.name[|prefix| + 1..]]
  }

  ghost predicate Listed(a: seq<Entry>, md: nat, mf: nat, name: string) {
    exists i :: 0 <= i < |a| && i != md && i != mf && a[i].name == name
  }

  ghost predicate SourcesOk(a: seq<Entry>, md: nat, mf: nat, prefix: string, manifest: Manifest) {
    && (forall i :: 0 <= i < |a| && i != md && i != mf ==> SourceOk(a[i], prefix, manifest))
    && forall p :: p in manifest ==> Listed(a, md, mf, prefix + "/" + p)
  }

  ghost predicate ContentOk(a: seq<Entry>, md: nat, mf: nat) {
    && Only(a, md, METADATA_NAME) && Only(a, mf, MANIFEST_NAME)
    && a[md].content.MetadataFile? && a[mf].content.ManifestFile? && PrefixOk(a[md].content.prefix)
    && Parsed(a[mf].content.text).Some?
    && SourcesOk(a, md, mf, a[md].content.prefix, Parsed(a[mf].content.text).value)
    && a[md].content.fileCount == |Parsed(a[mf].content.text).value|
    && a[md].content.sourceBytes == TotalSize(a) - a[md].size - a[mf].size
  }

  /** `verify_release_backup` finds no error. */
  ghost predicate Accepted(a: seq<Entry>) {
    StructureOk(a) && exists md: nat, mf: nat :: ContentOk(a, md, mf)
  }

  /** A source entry with this name and content. */
  ghost predicate Holds(a: seq<Entry>, md: nat, mf: nat, name: string, content: Content) {
    exists k :: 0 <= k < |a| && k != md && k != mf && a[k].name == name && a[k].content == content
  }

  /** Every source file of `a` is in `b` with its name and content. */
  ghost predicate SourcesIn(a: seq<Entry>, md: nat, mf: nat, b: seq<Entry>, md': nat, mf': nat) {
    forall i :: 0 <= i < |a| && i != md && i != mf ==> Holds(b, md', mf', a[i].name, a[i].content)
  }

  lemma ListedIsPinned(b: seq<Entry>, md: nat, mf: nat, prefix: string, manifest: Manifest, e: Entry)
    requires SourcesOk(b, md, mf, prefix, manifest) && SourceOk(e, prefix, manifest)
    ensures Holds(b, md, mf, e.name, e.content)
  {
    var p := e.name[|prefix| + 1..];
    assert e.name == prefix + "/" + p;
    assert Listed(b, md, mf, prefix + "/" + p);
    var k :| 0 <= k < |b| && k != md && k != mf && b[k].name == prefix + "/" + p;
    assert SourceOk(b[k], prefix, manifest);
  }

  /** The manifest pins the sources: what one accepted archive holds is in every other with that manifest and prefix. */
  lemma ManifestPinsSources(a: seq<Entry>, md: nat, mf: nat, b: seq<Entry>, md': nat, mf': nat)
    requires ContentOk(a, md, mf) && ContentOk(b, md', mf')
    requires a[mf].content == b[mf'].content && a[md].content.prefix == b[md'].content.prefix
    ensures SourcesIn(a, md, mf, b, md', mf')
  {
    var prefix, manifest := a[md].content.prefix, Parsed(a[mf].content.text).value;
    forall i | 0 <= i < |a| && i != md && i != mf
      ensures Holds(b, md', mf', a[i].name, a[i].content)
    {
      assert SourceOk(a[i], prefix, manifest);
      ListedIsPinned(b, md', mf', prefix, manifest, a[i]);
    }
  }

  /**
   * Tampering is found: an archive with the manifest and metadata of an accepted one in which a source file is missing,
   * changed or added is not accepted.
   */
  lemma TamperingIsRejected(a: seq<Entry>, md: nat, mf: nat, b: seq<Entry>, md': nat, mf': nat)
    requires ContentOk(a, md, mf) && Only(b, md', METADATA_NAME) && Only(b, mf', MANIFEST_NAME)
    requires b[md'].content == a[md].content && b[mf'].content == a[mf].content
    requires !SourcesIn(a, md, mf, b, md', mf') || !SourcesIn(b, md', mf', a, md, mf)
    ensures !Accepted(b)
  {
    if Accepted(b) {
      var md2: nat, mf2: nat :| ContentOk(b, md2, mf2);
      assert md2 == md' && mf2 == mf';
      ManifestPinsSources(a, md, mf, b, md', mf');
      ManifestPinsSources(b, md', mf', a, md, mf);
    }
  }

  // ----- creating an archive -----

  /** What compression makes of the files; only sizes matter to verification. */
  datatype Packing = Packing(sources: seq<nat>, manifestSize: nat, manifestPacked: nat, metadataSize: nat, metadataPacked: nat)

  function SourceEntry(prefix: string, f: BackupFile, packed: nat): Entry {
    Entry(prefix + "/" + f.path, f.size, packed, false, false, false, Source(f.sha256))
  }

  function SourceEntries(files: seq<BackupFile>, prefix: string, p: Packing): (r: seq<Entry>)
    requires |p.sources| == |files|
    ensures |r| == |files| && forall i :: 0 <= i < |r| ==> r[i] == SourceEntry(prefix, files[i], p.sources[i])
  {
    seq(|files|, i requires 0 <= i < |files| => SourceEntry(prefix, files[i], p.sources[i]))
  }

  function SizeOf(files: seq<BackupFile>): nat {
    if |files| == 0 then 0 else SizeOf(files[..|files| - 1]) + files[|files| - 1].size
  }

  function Created(files: seq<BackupFile>, prefix: string, p: Packing): seq<Entry>
    requires |p.sources| == |files|
  {
    SourceEntries(files, prefix, p)
    + [Entry(prefix + "/" + MANIFEST_NAME, p.manifestSize, p.manifestPacked, false, false, false, ManifestFile(ManifestText(files))),
       Entry(prefix + "/" + METADATA_NAME, p.metadataSize, p.metadataPacked, false, false, false,
             MetadataFile(prefix, |files|, SizeOf(files)))]
  }

  /** What collecting the files guarantees: sorted, so distinct, safe relative paths with digests. */
  ghost predicate Collected(files: seq<BackupFile>) {
    && |files| > 0 && DistinctPaths(files) && Digested(files)
    && forall i :: 0 <= i < |files| ==> SafeRelative(files[i].path) && '\0' !in files[i].path
  }

  predicate Reserved(path: string) {
    EndsWith("/" + path, "/" + MANIFEST_NAME) || EndsWith("/" + path, "/" + METADATA_NAME)
  }

  /** At most 32 MiB, stored as something unless empty, and beyond 1 MiB at most a thousand times as large as it is stored. */
  predicate Fits(size: nat, packed: nat) {
    && size <= 33554432 && (size > 0 ==> packed > 0) && (size > 1048576 ==> size <= 1000 * packed)
  }

  const LINE_ENDS: set<char> :=
    {'\n', '\r', '\U{B}', '\U{C}', '\U{1C}', '\U{1D}', '\U{1E}', '\U{85}', '\U{2028}', '\U{2029}'}

  /** The limits verification has and creation does not check. */
  ghost predicate WithinLimits(files: seq<BackupFile>, prefix: string, p: Packing)
    requires |p.sources| == |files|
  {
    && |files| + 2 <= 10000 && SizeOf(files) + p.manifestSize + p.metadataSize <= 536870912
    && (forall i :: 0 <= i < |files| ==> Fits(files[i].size, p.sources[i]))
    && Fits(p.manifestSize, p.manifestPacked) && Fits(p.metadataSize, p.metadataPacked)
    && (forall i :: 0 <= i < |files| ==> !Reserved(files[i].path) && forall c :: c in LINE_ENDS ==> c !in files[i].path)
    && prefix != "" && '/' !in prefix && forall i :: 0 <= i < |prefix| - 1 ==> prefix[i] != '.' || prefix[i + 1] != '.'
  }

  /** The same limits as verification applies them to the entries. */
  ghost predicate EntriesWithinLimits(files: seq<BackupFile>, prefix: string, p: Packing)
    requires |p.sources| == |files|
  {
    && |files| + 2 <= MAX_ENTRIES && SizeOf(files) + p.manifestSize + p.metadataSize <= MAX_TOTAL
    && (forall i :: 0 <= i < |files| + 2 ==> EntrySizeOk(Created(files, prefix, p)[i]))
    && (forall i :: 0 <= i < |files| ==> OneLine(files[i].path) && !Reserved(files[i].path))
    && PrefixOk(prefix)
  }

  lemma SizesFit(files: seq<BackupFile>, prefix: string, p: Packing)
    requires |p.sources| == |files|
    ensures (forall i :: 0 <= i < |files| + 2 ==> EntrySizeOk(Created(files, prefix, p)[i])) <==>
              && (forall i :: 0 <= i < |files| ==> Fits(files[i].size, p.sources[i]))
              && Fits(p.manifestSize, p.manifestPacked) && Fits(p.metadataSize, p.metadataPacked)
  {
    var a, n := Created(files, prefix, p), |files|;
    assert forall i :: 0 <= i < n ==> a[i] == SourceEntry(prefix, files[i], p.sources[i]);
    assert forall i :: 0 <= i < n ==> (EntrySizeOk(a[i]) <==> Fits(files[i].size, p.sources[i]));
    assert EntrySizeOk(a[n]) <==> Fits(p.manifestSize, p.manifestPacked);
    assert EntrySizeOk(a[n + 1]) <==> Fits(p.metadataSize, p.metadataPacked);
  }

  lemma OneLineHasNoEnds(s: string)
    ensures OneLine(s) <==> forall c :: c in LINE_ENDS ==> c !in s
  {
    assert forall c: char :: IsBreak(c) <==> c in LINE_ENDS;
  }

  lemma NoTwoDots(prefix: string)
    ensures Contains(prefix, "..") <==> exists i :: 0 <= i < |prefix| - 1 && prefix[i] == '.' && prefix[i + 1] == '.'
  {
    if Contains(prefix, "..") {
      var i :| 0 <= i <= |prefix| - |".."| && prefix[i..][..|".."|] == "..";
      assert prefix[i..][..2][0] == prefix[i] && prefix[i..][..2][1] == prefix[i + 1];
    }
    if i :| 0 <= i < |prefix| - 1 && prefix[i] == '.' && prefix[i + 1] == '.' {
      assert prefix[i..][..|".."|] == "..";
    }
  }

  lemma SameLimits(files: seq<BackupFile>, prefix: string, p: Packing)
    requires |p.sources| == |files|
    ensures WithinLimits(files, prefix, p) <==> EntriesWithinLimits(files, prefix, p)
  {
    SizesFit(files, prefix, p);
    NoTwoDots(prefix);
    forall i | 0 <= i < |files|
      ensures OneLine(files[i].path) <==> forall c :: c in LINE_ENDS ==> c !in files[i].path
    {
      OneLineHasNoEnds(files[i].path);
    }
  }

  lemma {:induction false} TotalOfSources(files: seq<BackupFile>, prefix: string, p: Packing)
    requires |p.sources| == |files|
    ensures TotalSize(SourceEntries(files, prefix, p)) == SizeOf(files)
  {
    if |files| > 0 {
      var n := |files| - 1;
      var q := p.(sources := p.sources[..n]);
      TotalOfSources(files[..n], prefix, q);
      assert SourceEntries(files, prefix, p)[..n] == SourceEntries(files[..n], prefix, q);
    }
  }

  lemma TotalOfCreated(files: seq<BackupFile>, prefix: string, p: Packing)
    requires |p.sources| == |files|
    ensures TotalSize(Created(files, prefix, p)) == SizeOf(files) + p.manifestSize + p.metadataSize
  {
    TotalOfSources(files, prefix, p);
    var sources, n := SourceEntries(files, prefix, p), |files|;
    var a := Created(files, prefix, p);
    TotalOfTwoMore(sources, a[n], a[n + 1]);
    assert a == sources + [a[n], a[n + 1]];
  }

  lemma TotalOfTwoMore(a: seq<Entry>, e1: Entry, e2: Entry)
    ensures TotalSize(a + [e1, e2]) == TotalSize(a) + e1.size + e2.size
  {
    assert (a + [e1, e2])[..|a| + 1] == a + [e1];
    assert (a + [e1])[..|a|] == a;
  }

  lemma EndsWithTail(front: string, tail: string, suffix: string)
    requires |suffix| <= |tail|
    ensures EndsWith(front + tail, suffix) <==> EndsWith(tail, suffix)
  {
    var whole := front + tail;
    assert whole[|whole| - |suffix|..] == tail[|tail| - |suffix|..];
  }

  /** A suffix that starts before a slash contains it. */
  lemma EndsWithSlashInside(front: string, path: string, internal: string)
    requires '/' !in internal && |path| < |internal|
    ensures !EndsWith(front + "/" + path, "/" + internal)
  {
    var whole, suffix := front + "/" + path, "/" + internal;
    if |suffix| <= |whole| {
      var k := |internal| - |path|;
      assert whole[|whole| - |suffix|..][k] == whole[|front|] == '/';
      assert suffix[k] == internal[k - 1];
    }
  }

  /** The entry of a file is taken for an internal one exactly when its path is reserved. */
  lemma NamedMeansReserved(prefix: string, path: string, internal: string)
    requires '/' !in internal
    ensures EndsWith(prefix + "/" + path, "/" + internal) <==> EndsWith("/" + path, "/" + internal)
  {
    if |internal| <= |path| {
      assert prefix + "/" + path == prefix + ("/" + path);
      EndsWithTail(prefix, "/" + path, "/" + internal);
    } else {
      EndsWithSlashInside(prefix, path, internal);
    }
  }

  lemma InternalNames()
    ensures '/' !in MANIFEST_NAME && '/' !in METADATA_NAME && MANIFEST_NAME != METADATA_NAME
    ensures !EndsWith("/" + MANIFEST_NAME, "/" + METADATA_NAME) && !EndsWith("/" + METADATA_NAME, "/" + MANIFEST_NAME)
  {
    var manifest, metadata := "/" + MANIFEST_NAME, "/" + METADATA_NAME;
    assert |manifest| == 23 && |metadata| == 21 && manifest[2..][0] == 'A' != metadata[0];
  }

  lemma EntryNameIsSafe(prefix: string, path: string)
    requires PrefixOk(prefix) && SafeRelative(path)
    ensures SafeRelative(prefix + "/" + path)
  {
    SplitAtSlash(prefix, path);
    SplitSlashFree(prefix);
    assert ".."[0..][..2] == "..";
    assert Contains("..", "..");
  }

  lemma InternalIsSafe(name: string)
    requires name == MANIFEST_NAME || name == METADATA_NAME
    ensures SafeRelative(name)
  {
    InternalNames();
    SplitSlashFree(name);
    assert |name| > 2;
  }

  lemma CreatedNames(files: seq<BackupFile>, prefix: string, p: Packing)
    requires |p.sources| == |files|
    ensures var a, n := Created(files, prefix, p), |files|;
            && |a| == n + 2 && a[n].name == prefix + "/" + MANIFEST_NAME && a[n + 1].name == prefix + "/" + METADATA_NAME
            && (forall i :: 0 <= i < n ==> a[i] == SourceEntry(prefix, files[i], p.sources[i]))
  {
  }

  lemma OnlyInternal(files: seq<BackupFile>, prefix: string, p: Packing)
    requires |p.sources| == |files| && forall i :: 0 <= i < |files| ==> !Reserved(files[i].path)
    ensures Only(Created(files, prefix, p), |files| + 1, METADATA_NAME) && Only(Created(files, prefix, p), |files|, MANIFEST_NAME)
  {
    var a, n := Created(files, prefix, p), |files|;
    CreatedNames(files, prefix, p);
    InternalNames();
    NamedMeansReserved(prefix, MANIFEST_NAME, METADATA_NAME);
    NamedMeansReserved(prefix, METADATA_NAME, MANIFEST_NAME);
    NamedMeansReserved(prefix, MANIFEST_NAME, MANIFEST_NAME);
    NamedMeansReserved(prefix, METADATA_NAME, METADATA_NAME);
    forall i | 0 <= i < n
      ensures !Named(a[i], MANIFEST_NAME) && !Named(a[i], METADATA_NAME)
    {
      NamedMeansReserved(prefix, files[i].path, MANIFEST_NAME);
      NamedMeansReserved(prefix, files[i].path, METADATA_NAME);
    }
  }

  lemma ReservedIsNamed(files: seq<BackupFile>, prefix: string, p: Packing, i: nat)
    requires |p.sources| == |files| && i < |files| && Reserved(files[i].path)
    ensures var a := Created(files, prefix, p);
            Named(a[i], MANIFEST_NAME) || Named(a[i], METADATA_NAME)
    ensures var a := Created(files, prefix, p); Named(a[|files|], MANIFEST_NAME) && Named(a[|files| + 1], METADATA_NAME)
  {
    InternalNames();
    NamedMeansReserved(prefix, MANIFEST_NAME, MANIFEST_NAME);
    NamedMeansReserved(prefix, METADATA_NAME, METADATA_NAME);
    NamedMeansReserved(prefix, files[i].path, MANIFEST_NAME);
    NamedMeansReserved(prefix, files[i].path, METADATA_NAME);
  }

  lemma SamePathFromName(prefix: string, p: string, q: string)
    requires prefix + "/" + p == prefix + "/" + q
    ensures p == q
  {
    assert p == (prefix + "/" + p)[|prefix| + 1..];
    assert q == (prefix + "/" + q)[|prefix| + 1..];
  }

  lemma CreatedDistinct(files: seq<BackupFile>, prefix: string, p: Packing)
    requires |p.sources| == |files| && Collected(files) && forall i :: 0 <= i < |files| ==> !Reserved(files[i].path)
    ensures DistinctNames(Created(files, prefix, p))
  {
    var a, n := Created(files, prefix, p), |files|;
    CreatedNames(files, prefix, p);
    InternalNames();
    forall i, k | 0 <= i < k < |a|
      ensures a[i].name != a[k].name
    {
      if a[i].name == a[k].name {
        var x := if i < n then files[i].path else MANIFEST_NAME;
        var y := if k < n then files[k].path else if k == n then MANIFEST_NAME else METADATA_NAME;
        SamePathFromName(prefix, x, y);
      }
    }
  }

  lemma CreatedSafe(files: seq<BackupFile>, prefix: string, p: Packing, i: nat)
    requires |p.sources| == |files| && Collected(files) && PrefixOk(prefix) && i < |files| + 2
    ensures NameOk(Created(files, prefix, p)[i])
  {
    var n := |files|;
    var path := if i < n then files[i].path else if i == n then MANIFEST_NAME else METADATA_NAME;
    CreatedNames(files, prefix, p);
    if i >= n {
      InternalIsSafe(path);
    }
    EntryNameIsSafe(prefix, path);
  }

  lemma {:induction false} ManifestLookup(files: seq<BackupFile>, i: nat)
    requires DistinctPaths(files) && i < |files|
    ensures files[i].path in ManifestOf(files) && ManifestOf(files)[files[i].path] == files[i].sha256
  {
    if i < |files| - 1 {
      ManifestLookup(files[..|files| - 1], i);
    }
  }

  lemma {:induction false} ManifestSize(files: seq<BackupFile>)
    requires DistinctPaths(files)
    ensures |ManifestOf(files)| == |files|
  {
    if |files| > 0 {
      var front, last := files[..|files| - 1], files[|files| - 1];
      ManifestSize(front);
      ManifestKeys(front);
      assert last.path !in ManifestOf(front);
      assert ManifestOf(files).Keys == ManifestOf(front).Keys + {last.path};
    }
  }

  lemma CreatedSources(files: seq<BackupFile>, prefix: string, p: Packing)
    requires |p.sources| == |files| && DistinctPaths(files)
    ensures SourcesOk(Created(files, prefix, p), |files| + 1, |files|, prefix, ManifestOf(files))
  {
    var a, n, manifest := Created(files, prefix, p), |files|, ManifestOf(files);
    CreatedNames(files, prefix, p);
    forall i | 0 <= i < |a| && i != n + 1 && i != n
      ensures SourceOk(a[i], prefix, manifest)
    {
      ManifestLookup(files, i);
      assert a[i].name[|prefix| + 1..] == files[i].path;
    }
    forall q | q in manifest
      ensures Listed(a, n + 1, n, prefix + "/" + q)
    {
      ManifestKeys(files);
      var i :| 0 <= i < |files| && files[i].path == q;
      assert a[i].name == prefix + "/" + q;
    }
  }

  lemma LimitsAreAccepted(files: seq<BackupFile>, prefix: string, p: Packing)
    requires |p.sources| == |files| && Collected(files) && EntriesWithinLimits(files, prefix, p)
    ensures Accepted(Created(files, prefix, p))
  {
    var a, n := Created(files, prefix, p), |files|;
    CreatedNames(files, prefix, p);
    TotalOfCreated(files, prefix, p);
    CreatedDistinct(files, prefix, p);
    forall i | 0 <= i < n + 2
      ensures NameOk(a[i])
    {
      CreatedSafe(files, prefix, p, i);
    }
    OnlyInternal(files, prefix, p);
    ListableIsRead(files);
    ManifestSize(files);
    CreatedSources(files, prefix, p);
    assert ContentOk(a, n + 1, n);
  }

  lemma AcceptedIsOneLine(files: seq<BackupFile>, prefix: string, p: Packing, md: nat, mf: nat)
    requires |p.sources| == |files| && ContentOk(Created(files, prefix, p), md, mf) && md == |files| + 1 && mf == |files|
    ensures forall i :: 0 <= i < |files| ==> OneLine(files[i].path)
  {
    var a := Created(files, prefix, p);
    CreatedNames(files, prefix, p);
    var lines := Lines(ManifestText(files));
    ListedPaths(lines);
    forall i | 0 <= i < |files|
      ensures OneLine(files[i].path)
    {
      assert SourceOk(a[i], prefix, Entries(lines).value);
      assert a[i].name[|prefix| + 1..] == files[i].path;
    }
  }

  lemma AcceptedIsWithinLimits(files: seq<BackupFile>, prefix: string, p: Packing)
    requires |p.sources| == |files| && Accepted(Created(files, prefix, p))
    ensures EntriesWithinLimits(files, prefix, p)
  {
    var a, n := Created(files, prefix, p), |files|;
    CreatedNames(files, prefix, p);
    TotalOfCreated(files, prefix, p);
    var md: nat, mf: nat :| ContentOk(a, md, mf);
    InternalNames();
    NamedMeansReserved(prefix, MANIFEST_NAME, MANIFEST_NAME);
    NamedMeansReserved(prefix, METADATA_NAME, METADATA_NAME);
    assert Named(a[n], MANIFEST_NAME) && Named(a[n + 1], METADATA_NAME);
    forall i | 0 <= i < n
      ensures !Reserved(files[i].path)
    {
      if Reserved(files[i].path) {
        ReservedIsNamed(files, prefix, p, i);
      }
    }
    AcceptedIsOneLine(files, prefix, p, md, mf);
  }

  /**
   * Verification accepts a created archive exactly when it keeps verification's own limits: number of entries, sizes
   * and ratios, no path with a rarer line end, no file named like an internal document and no ".." in the prefix.
   */
  lemma CreatedIsAcceptedIff(files: seq<BackupFile>, prefix: string, p: Packing)
    requires |p.sources| == |files| && Collected(files)
    ensures Accepted(Created(files, prefix, p)) <==> WithinLimits(files, prefix, p)
  {
    SameLimits(files, prefix, p);
    if WithinLimits(files, prefix, p) {
      LimitsAreAccepted(files, prefix, p);
    }
    if Accepted(Created(files, prefix, p)) {
      AcceptedIsWithinLimits(files, prefix, p);
    }
  }

  // ----- the verification loops -----

  lemma {:induction false} TotalGrows(a: seq<Entry>, k: nat)
    requires k <= |a|
    ensures TotalSize(a[..k]) <= TotalSize(a)
  {
    if k == |a| {
      assert a[..k] == a;
    } else {
      assert a[..|a| - 1][..k] == a[..k];
      TotalGrows(a[..|a| - 1], k);
    }
  }

  method CheckSizes(a: seq<Entry>) returns (ok: bool)
    ensures ok <==> SizesOk(a)
  {
    var total := 0;
    for k := 0 to |a|
      invariant total == TotalSize(a[..k]) <= MAX_TOTAL
      invariant forall i :: 0 <= i < k ==> EntrySizeOk(a[i])
    {
      assert a[..k + 1][..k] == a[..k];
      total := total + a[k].size;
      if !EntrySizeOk(a[k]) || total > MAX_TOTAL {
        TotalGrows(a, k + 1);
        return false;
      }
    }
    assert a[..|a|] == a;
    ok := true;
  }

  method CheckNames(a: seq<Entry>) returns (ok: bool)
    ensures ok <==> NamesOk(a)
  {
    var names: set<string> := {};
    for k := 0 to |a|
      invariant names == set i | 0 <= i < k :: a[i].name
      invariant forall i, j :: 0 <= i < j < k ==> a[i].name != a[j].name
      invariant forall i :: 0 <= i < k ==> NameOk(a[i])
    {
      if a[k].name in names || !NameOk(a[k]) {
        return false;
      }
      names := names + {a[k].name};
    }
    ok := true;
  }

  /** The position of the only entry with the internal name. */
  method FindOnly(a: seq<Entry>, internal: string) returns (r: Option<nat>)
    ensures match r
            case Some(i) => Only(a, i, internal)
            case None => forall i: nat :: !Only(a, i, internal)
  {
    r := None;
    for k := 0 to |a|
      invariant match r
                case Some(i) => i < k && Named(a[i], internal) && forall j :: 0 <= j < k && Named(a[j], internal) ==> j == i
                case None => forall j :: 0 <= j < k ==> !Named(a[j], internal)
    {
      if Named(a[k], internal) {
        if r.Some? {
          return None;
        }
        r := Some(k);
      }
    }
  }

  method CheckSources(a: seq<Entry>, md: nat, mf: nat, prefix: string, manifest: Manifest) returns (ok: bool)
    ensures ok <==> SourcesOk(a, md, mf, prefix, manifest)
  {
    var found: set<string> := {};
    for k := 0 to |a|
      invariant forall i :: 0 <= i < k && i != md && i != mf ==> SourceOk(a[i], prefix, manifest)
      invariant forall p :: p in found <==>
                  exists i :: 0 <= i < k && i != md && i != mf && a[i].name == prefix + "/" + p
      invariant found <= manifest.Keys
    {
      if k != md && k != mf {
        if !SourceOk(a[k], prefix, manifest) {
          return false;
        }
        var p := a[k].name[|prefix| + 1..];
        assert a[k].name == prefix + "/" + p;
        forall q | a[k].name == prefix + "/" + q
          ensures q == p
        {
          SamePathFromName(prefix, p, q);
        }
        found := found + {p};
      }
    }
    assert forall p :: p in found <==> Listed(a, md, mf, prefix + "/" + p);
    ok := found == manifest.Keys;
  }

  method CheckContent(a: seq<Entry>, md: nat, mf: nat) returns (ok: bool)
    requires Only(a, md, METADATA_NAME) && Only(a, mf, MANIFEST_NAME)
    ensures ok <==> ContentOk(a, md, mf)
  {
    if !a[md].content.MetadataFile? || !a[mf].content.ManifestFile? || !PrefixOk(a[md].content.prefix) {
      return false;
    }
    var manifest := ParseManifest(a[mf].content.text);
    if manifest.None? {
      return false;
    }
    var sources := CheckSources(a, md, mf, a[md].content.prefix, manifest.value);
    ok := sources && a[md].content.fileCount == |manifest.value|
          && a[md].content.sourceBytes == TotalSize(a) - a[md].size - a[mf].size;
  }

  lemma OnlyContent(a: seq<Entry>, md: nat, mf: nat, i: nat, j: nat)
    requires Only(a, md, METADATA_NAME) && Only(a, mf, MANIFEST_NAME) && ContentOk(a, i, j)
    ensures i == md && j == mf
  {
  }

  lemma NoContent(a: seq<Entry>)
    requires (forall i: nat :: !Only(a, i, METADATA_NAME)) || (forall i: nat :: !Only(a, i, MANIFEST_NAME))
    ensures !exists i: nat, j: nat :: ContentOk(a, i, j)
  {
    forall i: nat, j: nat
      ensures !ContentOk(a, i, j)
    {
      assert ContentOk(a, i, j) ==> Only(a, i, METADATA_NAME) && Only(a, j, MANIFEST_NAME);
    }
  }

  method VerifyReleaseBackup(a: seq<Entry>) returns (valid: bool)
    ensures valid <==> Accepted(a)
  {
    if |a| > MAX_ENTRIES {
      return false;
    }
    var sizes := CheckSizes(a);
    var names := CheckNames(a);
    if !sizes || !names {
      return false;
    }
    var metadata := FindOnly(a, METADATA_NAME);
    var manifest := FindOnly(a, MANIFEST_NAME);
    if metadata.None? || manifest.None? {
      NoContent(a);
      return false;
    }
    valid := CheckContent(a, metadata.value, manifest.value);
    SomeContent(a, metadata.value, manifest.value);
  }

  lemma SomeContent(a: seq<Entry>, md: nat, mf: nat)
    requires Only(a, md, METADATA_NAME) && Only(a, mf, MANIFEST_NAME)
    ensures (exists i: nat, j: nat :: ContentOk(a, i, j)) <==> ContentOk(a, md, mf)
  {
    if i: nat, j: nat :| ContentOk(a, i, j) {
      OnlyContent(a, md, mf, i, j);
    }
  }
}
