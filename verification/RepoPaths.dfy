/** Repository paths and write scopes (tankai/dev_orchestrator/orchestrator.py, lines 54-110). */
module RepoPaths {
  import opened Common

  datatype PathError = ControlCharacter | EmptyPath | UnsafePath | DrivePath

  predicate IsControl(c: char) {
    c < ' ' || c == '\U{7F}'
  }

  /** Whitespace that `strip` removes and that is not a control character below 32. */
  predicate IsBlank(c: char) {
    var n := c as int;
    n == 0x20 || n == 0x85 || n == 0xA0 || n == 0x1680 || 0x2000 <= n <= 0x200A || n == 0x2028 || n == 0x2029
    || n == 0x202F || n == 0x205F || n == 0x3000
  }

  function StripLeft(s: string): string {
    if s != "" && IsBlank(s[0]) then StripLeft(s[1..]) else s
  }

  function StripRight(s: string): string {
    if s != "" && IsBlank(s[|s| - 1]) then StripRight(s[..|s| - 1]) else s
  }

  function Strip(s: string): string {
    StripRight(StripLeft(s))
  }

  function ForwardSlashes(s: string): (r: string)
    ensures |r| == |s| && forall i :: 0 <= i < |s| ==> r[i] == if s[i] == '\\' then '/' else s[i]
  {
    seq(|s|, i requires 0 <= i < |s| => if s[i] == '\\' then '/' else s[i])
  }

  /** The components between slashes, empty ones included. */
  function Split(s: string): (parts: seq<string>)
    ensures |parts| >= 1
  {
    if s == "" then [""]
    else
      var rest := Split(s[1..]);
      if s[0] == '/' then [""] + rest else [[s[0]] + rest[0]] + rest[1..]
  }

  /** Drops what repeated slashes and "." leave behind. */
  function Keep(parts: seq<string>): seq<string> {
    if |parts| == 0 then []
    else (if parts[0] == "" || parts[0] == "." then [] else [parts[0]]) + Keep(parts[1..])
  }

  function Join(parts: seq<string>): string {
    if |parts| == 0 then "" else if |parts| == 1 then parts[0] else parts[0] + "/" + Join(parts[1..])
  }

  predicate EndsWith(s: string, suffix: string) {
    |suffix| <= |s| && s[|s| - |suffix|..] == suffix
  }

  function NormalParts(value: string): Result<seq<string>, PathError> {
    if exists i :: 0 <= i < |value| && IsControl(value[i]) then Err(ControlCharacter)
    else
      var raw := ForwardSlashes(Strip(value));
      var parts := Keep(Split(raw));
      if forall i :: 0 <= i < |raw| ==> raw[i] == '/' then Err(EmptyPath)
      else if ".." in parts then Err(UnsafePath)
      else if |parts| > 0 && EndsWith(parts[0], ":") then Err(DrivePath)
      else Ok(parts)
  }

  function Normalize(value: string): Result<string, PathError> {
    var parts := NormalParts(value);
    if parts.Err? then Err(parts.error) else Ok(Join(parts.value))
  }

  // ----- scopes -----

  predicate IsWildcard(c: char) {
    c == '*' || c == '[' || c == '?'
  }

  /** Position of the first wildcard character, or the length. */
  function FirstWildcard(s: string): (w: nat)
    ensures w <= |s| && (w < |s| ==> IsWildcard(s[w])) && forall i :: 0 <= i < w ==> !IsWildcard(s[i])
  {
    if s == "" || IsWildcard(s[0]) then 0 else 1 + FirstWildcard(s[1..])
  }

  function StripSlashes(s: string): string {
    if s != "" && s[|s| - 1] == '/' then StripSlashes(s[..|s| - 1]) else s
  }

  datatype Anchor = Anchor(path: string, wild: bool, recursive: bool)

  /** `_scope_anchor` of an already normalized scope. */
  function AnchorOf(scope: string): Anchor {
    var w := FirstWildcard(scope);
    if w == |scope| then Anchor(StripSlashes(scope), false, false)
    else Anchor(StripSlashes(scope[..w]), true, EndsWith(scope, "/**"))
  }

  /** `path.startswith(directory + "/")`. */
  predicate Inside(directory: string, path: string) {
    |directory| < |path| && path[..|directory|] == directory && path[|directory|] == '/'
  }

  predicate AnchorsOverlap(a: Anchor, b: Anchor) {
    if !a.wild && !b.wild then a.path == b.path
    else if a.recursive && !b.wild then b.path == a.path || Inside(a.path, b.path)
    else if b.recursive && !a.wild then a.path == b.path || Inside(b.path, a.path)
    else if a.recursive && b.recursive then a.path == b.path || Inside(b.path, a.path) || Inside(a.path, b.path)
    else if a.path == "" || b.path == "" then true
    else a.path == b.path || Inside(b.path, a.path) || Inside(a.path, b.path)
  }

  function ScopesOverlap(first: string, second: string): Result<bool, PathError> {
    var a, b := Normalize(first), Normalize(second);
    if a.Err? then Err(a.error)
    else if b.Err? then Err(b.error)
    else Ok(AnchorsOverlap(AnchorOf(a.value), AnchorOf(b.value)))
  }

  /** Position of the bracket that closes the class opened at the start of `pat`, or the length. */
  function ClassEnd(pat: string): (j: nat)
    requires pat != ""
    ensures 1 <= j <= |pat| || j == |pat|
  {
    var j := if 1 < |pat| && pat[1] == '!' then 2 else 1;
    var k := if j < |pat| && pat[j] == ']' then j + 1 else j;
    k + FindBracket(pat[k..])
  }

  function FindBracket(s: string): (j: nat)
    ensures j <= |s|
  {
    if s == "" || s[0] == ']' then 0 else 1 + FindBracket(s[1..])
  }

  /** What a bracket class such as `a-z` or `!x` accepts; everything below holds for any such relation. */
  type ClassRule = (char, string) -> bool

  /** `fnmatch.fnmatchcase`: `*` also matches slashes, an unclosed bracket is a plain character. */
  predicate Glob(path: string, pat: string, rule: ClassRule)
    decreases |path| + |pat|
  {
    if pat == "" then path == ""
    else if pat[0] == '*' then Glob(path, pat[1..], rule) || (path != "" && Glob(path[1..], pat, rule))
    else if path == "" then false
    else if pat[0] == '?' then Glob(path[1..], pat[1..], rule)
    else if pat[0] == '[' && ClassEnd(pat) < |pat| then
      rule(path[0], pat[1..ClassEnd(pat)]) && Glob(path[1..], pat[ClassEnd(pat) + 1..], rule)
    else path[0] == pat[0] && Glob(path[1..], pat[1..], rule)
  }

  /** `path_matches_scope` of already normalized arguments. */
  predicate Matches(path: string, scope: string, rule: ClassRule) {
    if EndsWith(scope, "/**") then
      var base := StripSlashes(scope[..|scope| - 3]);
      path == base || Inside(base, path)
    else Glob(path, scope, rule)
  }

  function PathMatchesScope(path: string, scope: string, rule: ClassRule): Result<bool, PathError> {
    var p, s := Normalize(path), Normalize(scope);
    if p.Err? then Err(p.error)
    else if s.Err? then Err(s.error)
    else Ok(Matches(p.value, s.value, rule))
  }

  // ----- normal forms -----

  predicate SlashFree(s: string) {
    forall i :: 0 <= i < |s| ==> s[i] != '/'
  }

  predicate GoodPart(part: string) {
    part != "" && part != "." && part != ".." && SlashFree(part)
    && forall i :: 0 <= i < |part| ==> part[i] != '\\' && !IsControl(part[i])
  }

  predicate GoodParts(parts: seq<string>) {
    (forall i :: 0 <= i < |parts| ==> GoodPart(parts[i]))
    && (|parts| > 0 ==> !EndsWith(parts[0], ":"))
  }

  /** Single slashes, and only between characters. */
  predicate Tidy(s: string) {
    (s != "" ==> s[0] != '/' && s[|s| - 1] != '/')
    && forall i :: 0 < i < |s| ==> !(s[i - 1] == '/' && s[i] == '/')
  }

  lemma {:induction false} SplitParts(s: string, i: nat)
    requires i < |Split(s)|
    ensures SlashFree(Split(s)[i]) && forall k :: 0 <= k < |Split(s)[i]| ==> Split(s)[i][k] in s
  {
    if s != "" {
      var rest := Split(s[1..]);
      if s[0] == '/' {
        if i > 0 {
          SplitParts(s[1..], i - 1);
        }
      } else {
        SplitParts(s[1..], i);
      }
    }
  }

  lemma {:induction false} KeepParts(parts: seq<string>)
    ensures forall part :: part in Keep(parts) <==> part in parts && part != "" && part != "."
  {
    if |parts| > 0 {
      KeepParts(parts[1..]);
    }
  }

  lemma {:induction false} StripMembers(s: string)
    ensures forall c :: c in Strip(s) ==> c in s
  {
    StripLeftMembers(s);
    StripRightMembers(StripLeft(s));
  }

  lemma {:induction false} StripLeftMembers(s: string)
    ensures forall c :: c in StripLeft(s) ==> c in s
  {
    if s != "" && IsBlank(s[0]) {
      StripLeftMembers(s[1..]);
    }
  }

  lemma {:induction false} StripRightMembers(s: string)
    ensures forall c :: c in StripRight(s) ==> c in s
  {
    if s != "" && IsBlank(s[|s| - 1]) {
      StripRightMembers(s[..|s| - 1]);
    }
  }

  lemma NormalPartsAreGood(value: string)
    requires NormalParts(value).Ok?
    ensures GoodParts(NormalParts(value).value)
  {
    var raw := ForwardSlashes(Strip(value));
    var parts := NormalParts(value).value;
    StripMembers(value);
    KeepParts(Split(raw));
    assert forall c :: c in raw ==> c != '\\' && !IsControl(c) by {
      forall i | 0 <= i < |raw|
        ensures raw[i] != '\\' && !IsControl(raw[i])
      {
        assert Strip(value)[i] in value;
      }
    }
    forall i | 0 <= i < |parts|
      ensures GoodPart(parts[i])
    {
      assert parts[i] in Keep(Split(raw));
      var k :| 0 <= k < |Split(raw)| && Split(raw)[k] == parts[i];
      SplitParts(raw, k);
    }
  }

  lemma {:induction false} JoinTidy(parts: seq<string>)
    requires forall i :: 0 <= i < |parts| ==> parts[i] != "" && SlashFree(parts[i])
    ensures Tidy(Join(parts)) && (|parts| > 0 ==> Join(parts) != "")
  {
    if |parts| > 1 {
      JoinTidy(parts[1..]);
    }
  }

  lemma NormalizeTidy(value: string)
    requires Normalize(value).Ok?
    ensures Tidy(Normalize(value).value)
  {
    NormalPartsAreGood(value);
    JoinTidy(NormalParts(value).value);
  }

  // ----- soundness of the overlap check -----

  /** The first wildcard starts a component, or the scope is a directory scope, or there is none. */
  predicate Aligned(scope: string) {
    var w := FirstWildcard(scope);
    w == |scope| || EndsWith(scope, "/**") || w == 0 || scope[w - 1] == '/'
  }

  /** A glob match copies everything before the first wildcard. */
  lemma {:induction false} GlobPrefix(path: string, pat: string, rule: ClassRule)
    requires Glob(path, pat, rule)
    ensures var w := FirstWildcard(pat);
            w <= |path| && path[..w] == pat[..w] && (w == |pat| ==> path == pat)
    decreases |pat|
  {
    if pat != "" && !IsWildcard(pat[0]) {
      GlobPrefix(path[1..], pat[1..], rule);
      var w := FirstWildcard(pat);
      assert path[..w] == [path[0]] + path[1..][..w - 1];
      assert pat[..w] == [pat[0]] + pat[1..][..w - 1];
    }
  }

  lemma StripOneSlash(s: string)
    requires forall i :: 0 < i < |s| ==> !(s[i - 1] == '/' && s[i] == '/')
    requires s != "" ==> s[0] != '/'
    ensures StripSlashes(s) == if s != "" && s[|s| - 1] == '/' then s[..|s| - 1] else s
  {
    if s != "" && s[|s| - 1] == '/' {
      assert StripSlashes(s) == StripSlashes(s[..|s| - 1]);
    }
  }

  /**
   * How a matched path sits under the anchor: it begins with it, and the anchor ends at a component boundary of
   * the path, or (for a directory scope whose base holds literal wildcards) right before a wildcard character.
   */
  predicate Anchored(path: string, anchor: string) {
    |anchor| <= |path| && path[..|anchor|] == anchor && FirstWildcard(anchor) == |anchor|
    && (|path| == |anchor| || path[|anchor|] == '/' || IsWildcard(path[|anchor|]))
  }

  lemma WildcardFreePrefix(s: string, n: nat)
    requires n <= FirstWildcard(s)
    ensures FirstWildcard(s[..n]) == n
  {
    assert forall i :: 0 <= i < n ==> s[..n][i] == s[i];
  }

  /** A directory scope is its base, a slash and two stars; its first wildcard is a star there or inside the base. */
  lemma DirectoryScope(scope: string)
    requires Tidy(scope) && EndsWith(scope, "/**")
    ensures var base := scope[..|scope| - 3];
            && scope[|base|] == '/' && scope[|base| + 1] == '*' && StripSlashes(base) == base
            && FirstWildcard(scope) <= |base| + 1 && FirstWildcard(scope) != |base|
  {
    var base := scope[..|scope| - 3];
    assert scope[|scope| - 3..] == "/**";
    assert scope[|base|] == "/**"[0] && scope[|base| + 1] == "/**"[1];
    StripOneSlash(base);
  }

  lemma AnchoredAtBase(path: string, base: string)
    requires FirstWildcard(base) == |base| && (path == base || Inside(base, path))
    ensures Anchored(path, base)
  {
  }

  lemma AnchoredBeforeWildcard(path: string, s: string)
    requires Tidy(s) && FirstWildcard(s) < |s| && |s| <= |path| && path[..|s|] == s
    ensures Anchored(path, StripSlashes(s[..FirstWildcard(s)]))
  {
    var w := FirstWildcard(s);
    StripOneSlash(s[..w]);
    var a := StripSlashes(s[..w]);
    WildcardFreePrefix(s, |a|);
    assert a == s[..|a|] == path[..|a|] && path[|a|] == s[|a|];
  }

  /** A directory scope: the anchor is its base, or ends before a wildcard character inside the base. */
  lemma DirectoryMatchIsAnchored(path: string, scope: string, rule: ClassRule)
    requires Tidy(scope) && EndsWith(scope, "/**") && Matches(path, scope, rule)
    ensures Anchored(path, AnchorOf(scope).path) && AnchorOf(scope).wild
  {
    var w, base := FirstWildcard(scope), scope[..|scope| - 3];
    DirectoryScope(scope);
    if w == |base| + 1 {
      assert scope[..w][..|base|] == base;
      StripOneSlash(scope[..w]);
      WildcardFreePrefix(scope, |base|);
      AnchoredAtBase(path, base);
    } else {
      FirstWildcardOfPrefix(scope, |base|);
      assert base[..w] == scope[..w];
      AnchoredBeforeWildcard(path, base);
    }
  }

  lemma {:induction false} FirstWildcardOfPrefix(s: string, n: nat)
    requires FirstWildcard(s) < n <= |s|
    ensures FirstWildcard(s[..n]) == FirstWildcard(s)
  {
    var w := FirstWildcard(s);
    assert s[..n][w] == s[w];
    assert forall i :: 0 <= i < w ==> s[..n][i] == s[i];
  }

  /** Any other scope: everything before the first wildcard is copied. */
  lemma PatternMatchIsAnchored(path: string, scope: string, rule: ClassRule)
    requires Tidy(scope) && Aligned(scope) && !EndsWith(scope, "/**") && Glob(path, scope, rule)
    ensures var a := AnchorOf(scope);
            Anchored(path, a.path) || (a.wild && !a.recursive && a.path == "")
    ensures !AnchorOf(scope).wild ==> path == scope == AnchorOf(scope).path
  {
    var w := FirstWildcard(scope);
    StripOneSlash(scope);
    StripOneSlash(scope[..w]);
    GlobPrefix(path, scope, rule);
    WildcardFreePrefix(scope, |AnchorOf(scope).path|);
  }

  lemma MatchedPathIsAnchored(path: string, scope: string, rule: ClassRule)
    requires Tidy(scope) && Aligned(scope) && Matches(path, scope, rule)
    ensures var a := AnchorOf(scope);
            Anchored(path, a.path) || (a.wild && !a.recursive && a.path == "")
    ensures !AnchorOf(scope).wild ==> path == scope == AnchorOf(scope).path
  {
    if EndsWith(scope, "/**") {
      DirectoryMatchIsAnchored(path, scope, rule);
    } else {
      PatternMatchIsAnchored(path, scope, rule);
    }
  }

  lemma AnchorsComparable(path: string, a: string, b: string)
    requires Anchored(path, a) && Anchored(path, b)
    ensures a == b || Inside(a, b) || Inside(b, a)
  {
    if |a| < |b| {
      assert path[|a|] == b[|a|] && !IsWildcard(b[|a|]);
      assert b[..|a|] == path[..|b|][..|a|] == a;
    } else if |b| < |a| {
      assert path[|b|] == a[|b|] && !IsWildcard(a[|b|]);
      assert a[..|b|] == path[..|a|][..|b|] == b;
    }
  }

  lemma OverlapOfNormalScopes(path: string, a: string, b: string, rule: ClassRule)
    requires Tidy(a) && Tidy(b) && Aligned(a) && Aligned(b)
    requires Matches(path, a, rule) && Matches(path, b, rule)
    ensures AnchorsOverlap(AnchorOf(a), AnchorOf(b))
  {
    MatchedPathIsAnchored(path, a, rule);
    MatchedPathIsAnchored(path, b, rule);
    if Anchored(path, AnchorOf(a).path) && Anchored(path, AnchorOf(b).path) {
      AnchorsComparable(path, AnchorOf(a).path, AnchorOf(b).path);
    }
  }

  predicate AlignedScope(scope: string) {
    Normalize(scope).Ok? ==> Aligned(Normalize(scope).value)
  }

  /**
   * Two aligned scopes that both accept some path are reported as overlapping: no path can be written under two
   * scopes the check calls disjoint.
   */
  lemma OverlapCheckIsSound(path: string, a: string, b: string, rule: ClassRule)
    requires AlignedScope(a) && AlignedScope(b)
    requires PathMatchesScope(path, a, rule) == Ok(true) && PathMatchesScope(path, b, rule) == Ok(true)
    ensures ScopesOverlap(a, b) == Ok(true)
  {
    NormalizeTidy(a);
    NormalizeTidy(b);
    OverlapOfNormalScopes(Normalize(path).value, Normalize(a).value, Normalize(b).value, rule);
  }

  lemma OverlapIsSymmetric(a: string, b: string)
    requires Normalize(a).Ok? && Normalize(b).Ok?
    ensures ScopesOverlap(a, b) == ScopesOverlap(b, a)
  {
  }

  // ----- where alignment is needed -----

  /** Any path of the scope with every `*` and `?` replaced by one letter. */
  function Instance(s: string): (r: string)
    ensures |r| == |s| && forall i :: 0 <= i < |s| ==> r[i] == if IsWildcard(s[i]) then 'x' else s[i]
  {
    seq(|s|, i requires 0 <= i < |s| => if IsWildcard(s[i]) then 'x' else s[i])
  }

  lemma {:induction false} InstanceMatches(scope: string, rule: ClassRule)
    requires '[' !in scope
    ensures Glob(Instance(scope), scope, rule)
    decreases |scope|
  {
    if scope != "" {
      assert Instance(scope)[1..] == Instance(scope[1..]);
      InstanceMatches(scope[1..], rule);
      if scope[0] == '*' {
        StarSwallowsOne(Instance(scope), scope, rule);
      }
    }
  }

  lemma StarSwallowsOne(path: string, pat: string, rule: ClassRule)
    requires path != "" && pat != "" && pat[0] == '*' && Glob(path[1..], pat[1..], rule)
    ensures Glob(path, pat, rule)
  {
    assert Glob(path[1..], pat, rule);
  }

  lemma {:induction false} SplitAtSlash(a: string, b: string)
    ensures Split(a + "/" + b) == Split(a) + Split(b)
  {
    if a == "" {
      assert ("" + "/" + b)[1..] == b;
    } else {
      assert (a + "/" + b)[1..] == a[1..] + "/" + b;
      SplitAtSlash(a[1..], b);
    }
  }

  lemma {:induction false} SplitSlashFree(s: string)
    requires SlashFree(s)
    ensures Split(s) == [s]
  {
    if s != "" {
      SplitSlashFree(s[1..]);
      assert [s[0]] + s[1..] == s;
    }
  }

  lemma {:induction false} SplitJoin(parts: seq<string>)
    requires |parts| > 0 && forall i :: 0 <= i < |parts| ==> SlashFree(parts[i])
    ensures Split(Join(parts)) == parts
  {
    SplitSlashFree(parts[0]);
    if |parts| > 1 {
      SplitAtSlash(parts[0], Join(parts[1..]));
      SplitJoin(parts[1..]);
    }
  }

  lemma {:induction false} KeepGood(parts: seq<string>)
    requires forall i :: 0 <= i < |parts| ==> parts[i] != "" && parts[i] != "."
    ensures Keep(parts) == parts
  {
    if |parts| > 0 {
      KeepGood(parts[1..]);
    }
  }

  lemma {:induction false} KeepConcat(a: seq<string>, b: seq<string>)
    ensures Keep(a + b) == Keep(a) + Keep(b)
  {
    if |a| == 0 {
      assert a + b == b;
    } else {
      assert (a + b)[1..] == a[1..] + b;
      KeepConcat(a[1..], b);
    }
  }

  lemma {:induction false} JoinMembers(parts: seq<string>)
    requires forall i :: 0 <= i < |parts| ==> GoodPart(parts[i])
    ensures forall k :: 0 <= k < |Join(parts)| ==> Join(parts)[k] != '\\' && !IsControl(Join(parts)[k])
  {
    if |parts| > 1 {
      JoinMembers(parts[1..]);
    }
  }

  lemma SplitWrapped(parts: seq<string>)
    requires GoodParts(parts) && |parts| > 0
    ensures Keep(Split("/" + Join(parts) + "/")) == parts
  {
    SplitBetweenSlashes(Join(parts));
    SplitJoin(parts);
    KeepWrapped(parts);
  }

  lemma KeepWrapped(parts: seq<string>)
    requires forall i :: 0 <= i < |parts| ==> parts[i] != "" && parts[i] != "."
    ensures Keep([""] + parts + [""]) == parts
  {
    KeepConcat([""] + parts, [""]);
    KeepConcat([""], parts);
    KeepGood(parts);
    assert Keep([""]) == [];
  }

  lemma SplitBetweenSlashes(q: string)
    ensures Split("/" + q + "/") == [""] + Split(q) + [""]
  {
    SplitAtSlash("", q + "/" + "");
    SplitAtSlash(q, "");
    assert "/" + q + "/" == "" + "/" + (q + "/" + "");
    assert [""] + (Split(q) + [""]) == [""] + Split(q) + [""];
  }

  /** Between slashes nothing is stripped, replaced or refused. */
  lemma WrappedIsPlain(q: string)
    requires q != "" && q[0] != '/' && forall i :: 0 <= i < |q| ==> q[i] != '\\' && !IsControl(q[i])
    ensures NormalParts("/" + q + "/") ==
              var parts := Keep(Split("/" + q + "/"));
              if ".." in parts then Err(UnsafePath)
              else if |parts| > 0 && EndsWith(parts[0], ":") then Err(DrivePath)
              else Ok(parts)
  {
    var raw := "/" + q + "/";
    assert raw[1] == q[0];
    assert forall i :: 0 <= i < |raw| ==> raw[i] != '\\' && !IsControl(raw[i]);
    assert StripLeft(raw) == raw && StripRight(raw) == raw;
    assert ForwardSlashes(raw) == raw;
  }

  /** Every list of good components is the normal form of some path: slashes around it protect its blanks. */
  lemma EveryNormalFormIsReached(parts: seq<string>)
    requires GoodParts(parts) && |parts| > 0
    ensures Normalize("/" + Join(parts) + "/") == Ok(Join(parts))
  {
    JoinMembers(parts);
    JoinTidy(parts);
    WrappedIsPlain(Join(parts));
    SplitWrapped(parts);
  }

  lemma {:induction false} InstanceJoin(parts: seq<string>)
    ensures Instance(Join(parts)) == Join(InstanceParts(parts))
  {
    if |parts| > 1 {
      InstanceJoin(parts[1..]);
      assert Join(parts) == parts[0] + "/" + Join(parts[1..]);
      assert InstanceParts(parts)[1..] == InstanceParts(parts[1..]);
      assert Instance(Join(parts)) == Instance(parts[0]) + "/" + Instance(Join(parts[1..]));
    }
  }

  function InstanceParts(parts: seq<string>): (r: seq<string>)
    ensures |r| == |parts| && forall i :: 0 <= i < |parts| ==> r[i] == Instance(parts[i])
  {
    seq(|parts|, i requires 0 <= i < |parts| => Instance(parts[i]))
  }

  /** Letters for wildcards: no character becomes a dot, slash, colon or control character. */
  lemma InstanceGood(part: string)
    requires GoodPart(part)
    ensures GoodPart(Instance(part)) && (EndsWith(Instance(part), ":") ==> EndsWith(part, ":"))
  {
    var r := Instance(part);
    assert forall i :: 0 <= i < |r| ==> r[i] == part[i] || r[i] == 'x';
    InstanceIsNoDot(part, ".");
    InstanceIsNoDot(part, "..");
    if EndsWith(r, ":") {
      assert r[|r| - 1..][0] == ':';
      assert part[|part| - 1] == ':';
    }
  }

  lemma InstanceIsNoDot(part: string, dots: string)
    requires part != dots && forall i :: 0 <= i < |dots| ==> dots[i] == '.'
    ensures Instance(part) != dots
  {
    if |part| == |dots| {
      var i :| 0 <= i < |part| && part[i] != dots[i];
      assert Instance(part)[i] != '.';
    }
  }

  predicate Exact(path: string) {
    Normalize(path).Ok? && FirstWildcard(Normalize(path).value) == |Normalize(path).value|
  }

  /** Every exact path the scope accepts is reported as overlapping with it. */
  ghost predicate SoundForPaths(scope: string, rule: ClassRule) {
    forall path :: Exact(path) && PathMatchesScope(path, scope, rule) == Ok(true) ==> ScopesOverlap(scope, path) == Ok(true)
  }

  lemma InstancePartsGood(parts: seq<string>)
    requires GoodParts(parts)
    ensures GoodParts(InstanceParts(parts))
  {
    forall i | 0 <= i < |parts|
      ensures GoodPart(InstanceParts(parts)[i])
    {
      InstanceGood(parts[i]);
    }
    if |parts| > 0 {
      InstanceGood(parts[0]);
    }
  }

  /** The scope with letters for wildcards, as a path: normal, exact, and accepted by the scope. */
  lemma InstanceIsAPath(scope: string, rule: ClassRule)
    requires Normalize(scope).Ok? && Normalize(scope).value != "" && '[' !in Normalize(scope).value
    ensures var p := Instance(Normalize(scope).value);
            && Normalize("/" + p + "/") == Ok(p) && Tidy(p) && FirstWildcard(p) == |p|
            && Glob(p, Normalize(scope).value, rule)
  {
    var parts := NormalParts(scope).value;
    NormalPartsAreGood(scope);
    InstanceIsNormal(parts);
    InstanceMatches(Join(parts), rule);
  }

  lemma InstanceIsNormal(parts: seq<string>)
    requires GoodParts(parts) && |parts| > 0
    ensures var p := Instance(Join(parts)); Normalize("/" + p + "/") == Ok(p) && Tidy(p)
  {
    InstancePartsGood(parts);
    InstanceJoin(parts);
    EveryNormalFormIsReached(InstanceParts(parts));
    JoinTidy(InstanceParts(parts));
  }

  /** An unaligned scope does not end in a slash before its first wildcard, so its anchor cuts a component. */
  lemma UnalignedAnchor(s: string)
    requires Tidy(s) && !Aligned(s)
    ensures var w := FirstWildcard(s); 0 < w < |s| && AnchorOf(s) == Anchor(s[..w], true, false)
  {
    var w := FirstWildcard(s);
    assert s[..w][w - 1] != '/';
    assert StripSlashes(s[..w]) == s[..w];
    assert AnchorOf(s).recursive == EndsWith(s, "/**") == false;
  }

  lemma ExactAnchor(p: string)
    requires Tidy(p) && FirstWildcard(p) == |p|
    ensures AnchorOf(p) == Anchor(p, false, false)
  {
    StripOneSlash(p);
  }

  lemma UnalignedAnchorMisses(s: string, p: string)
    requires Tidy(s) && Tidy(p) && !Aligned(s) && p == Instance(s) && FirstWildcard(p) == |p|
    ensures !AnchorsOverlap(AnchorOf(s), AnchorOf(p))
  {
    var w := FirstWildcard(s);
    UnalignedAnchor(s);
    ExactAnchor(p);
    assert p[w] == 'x';
    assert |s[..w]| == w < |p|;
  }

  /** The path that slips past the check when a scope's first wildcard is inside a component. */
  lemma UnalignedScopeMissesAPath(scope: string, rule: ClassRule) returns (path: string)
    requires Normalize(scope).Ok? && '[' !in Normalize(scope).value && !Aligned(Normalize(scope).value)
    ensures Exact(path) && PathMatchesScope(path, scope, rule) == Ok(true) && ScopesOverlap(scope, path) == Ok(false)
  {
    var s := Normalize(scope).value;
    path := "/" + Instance(s) + "/";
    InstanceIsAPath(scope, rule);
    NormalizeTidy(scope);
    UnalignedAnchorMisses(s, Instance(s));
  }

  /**
   * For scopes without brackets the check is right about every exact path if and only if the scope is aligned:
   * `src/a*` accepts `src/ab.py`, yet the two are reported as disjoint.
   */
  lemma SoundForPathsIffAligned(scope: string, rule: ClassRule)
    requires Normalize(scope).Ok? && '[' !in Normalize(scope).value
    ensures SoundForPaths(scope, rule) <==> AlignedScope(scope)
  {
    if AlignedScope(scope) {
      forall path | Exact(path) && PathMatchesScope(path, scope, rule) == Ok(true)
        ensures ScopesOverlap(scope, path) == Ok(true)
      {
        var p := Normalize(path).value;
        NormalizeTidy(path);
        GlobItself(p, rule);
        assert |p| >= 3 ==> p[|p| - 3..][1] == p[|p| - 2];
        OverlapCheckIsSound(path, scope, path, rule);
      }
    } else {
      var path := UnalignedScopeMissesAPath(scope, rule);
    }
  }

  lemma {:induction false} GlobItself(s: string, rule: ClassRule)
    requires FirstWildcard(s) == |s|
    ensures Glob(s, s, rule)
    decreases |s|
  {
    if s != "" {
      assert !IsWildcard(s[0]);
      WildcardFreeTail(s);
      GlobItself(s[1..], rule);
    }
  }

  lemma WildcardFreeTail(s: string)
    requires s != "" && FirstWildcard(s) == |s|
    ensures FirstWildcard(s[1..]) == |s| - 1
  {
    assert forall i :: 0 <= i < |s| - 1 ==> s[1..][i] == s[i + 1];
  }
}
