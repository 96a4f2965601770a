/** The directories a worker container may write to (container_runtime.py). */
module WritableRoots {
  // They are compared with the paths its task may submit (orchestrator.py, lines 84-90).

  import opened Common
  import opened Ordering
  import opened RepoPaths
  import opened PathEdges

  // ----- the root of one scope -----

  /** Everything before the last slash, or nothing. */
  function Parent(s: string): (r: string)
    ensures |r| <= |s| && s[..|r|] == r && (r != "" ==> |r| < |s| && s[|r|] == '/')
    ensures forall i :: |r| < i < |s| ==> s[i] != '/'
  {
    if s == "" then ""
    else if s[|s| - 1] == '/' then s[..|s| - 1]
    else
      var r := Parent(s[..|s| - 1]);
      assert s == s[..|s| - 1] + [s[|s| - 1]];
      r
  }

  /** The directory of a scope before its final normalization: whole components without wildcards. */
  function RawRoot(scope: string, present: string -> bool): string {
    var w := FirstWildcard(scope);
    if w < |scope| then
      var prefix := scope[..w];
      if prefix != "" && prefix[w - 1] != '/' then StripSlashes(Parent(prefix)) else StripSlashes(prefix)
    else if present(scope) then scope
    else Parent(scope)
  }

  /** `_scope_root`; `present` says which paths exist in the workspace. */
  function ScopeRoot(scope: string, present: string -> bool): Result<string, PathError> {
    var normalized := Normalize(scope);
    if normalized.Err? then normalized
    else
      var root := RawRoot(normalized.value, present);
      if root == "" then Ok("") else Normalize(root)
  }

  // ----- sorting by depth, then by name -----

  function Depth(s: string): nat {
    if s == "" then 0 else Depth(s[..|s| - 1]) + if s[|s| - 1] == '/' then 1 else 0
  }

  predicate RootLeq(a: string, b: string) {
    Depth(a) < Depth(b) || (Depth(a) == Depth(b) && StringLeq(a, b))
  }

  lemma RootLeqTransitive(a: string, b: string, c: string)
    requires RootLeq(a, b) && RootLeq(b, c)
    ensures RootLeq(a, c)
  {
    if StringLeq(a, b) && StringLeq(b, c) {
      StringLeqTransitive(a, b, c);
    }
  }

  predicate Sorted(s: seq<string>) {
    forall i, k :: 0 <= i < k < |s| ==> RootLeq(s[i], s[k])
  }

  lemma {:induction false} InsertSorted(s: seq<string>, x: string) returns (r: seq<string>)
    requires Sorted(s)
    ensures r == InsertRoot(s, x) && Sorted(r) && forall y :: y in r <==> y in s || y == x
  {
    r := InsertRoot(s, x);
    var n := |s|;
    if n > 0 {
      var front, last := s[..n - 1], s[n - 1];
      assert s == front + [last];
      StringLeqTotal(last, x);
      if RootLeq(last, x) {
        forall i | 0 <= i < n
          ensures RootLeq(s[i], x)
        {
          if i < n - 1 {
            RootLeqTransitive(s[i], last, x);
          }
        }
      } else {
        var inserted := InsertSorted(front, x);
        forall i | 0 <= i < |inserted|
          ensures RootLeq(inserted[i], last)
        {
          assert inserted[i] in front || inserted[i] == x;
        }
      }
    }
  }

  function InsertRoot(s: seq<string>, x: string): seq<string> {
    if |s| == 0 || RootLeq(s[|s| - 1], x) then s + [x] else InsertRoot(s[..|s| - 1], x) + [s[|s| - 1]]
  }

  /** Deeper roots come later, and among equally deep ones the greater names. */
  predicate ByDepthThenName(s: seq<string>) {
    forall i, k :: 0 <= i < k < |s| ==>
      Depth(s[i]) < Depth(s[k]) || (Depth(s[i]) == Depth(s[k]) && StringLeq(s[i], s[k]) && s[i] != s[k])
  }

  method SortRoots(roots: set<string>) returns (ordered: seq<string>)
    ensures Sorted(ordered) && forall y :: y in ordered <==> y in roots
    ensures ByDepthThenName(ordered)
    ensures Distinct(ordered)
  {
    ordered := [];
    var rest := roots;
    while rest != {}
      invariant rest <= roots && Sorted(ordered)
      invariant forall y :: y in ordered <==> y in roots && y !in rest
      invariant Distinct(ordered)
      decreases |rest|
    {
      var x :| x in rest;
      ghost var _ := InsertSorted(ordered, x);
      InsertDistinct(ordered, x);
      ordered, rest := InsertRoot(ordered, x), rest - {x};
    }
  }

  predicate Distinct(s: seq<string>) {
    forall i, k :: 0 <= i < k < |s| ==> s[i] != s[k]
  }

  lemma {:induction false} InsertDistinct(s: seq<string>, x: string)
    requires x !in s && Distinct(s)
    ensures Distinct(InsertRoot(s, x)) && forall y :: y in InsertRoot(s, x) <==> y in s || y == x
  {
    var n := |s|;
    if n > 0 && !RootLeq(s[n - 1], x) {
      var inserted := InsertRoot(s[..n - 1], x);
      InsertDistinct(s[..n - 1], x);
      assert s == s[..n - 1] + [s[n - 1]];
      assert s[n - 1] !in s[..n - 1] && s[n - 1] !in inserted;
      assert InsertRoot(s, x) == inserted + [s[n - 1]];
    }
  }

  // ----- all scopes -----

  predicate Antichain(roots: seq<string>) {
    forall i, k :: 0 <= i < |roots| && 0 <= k < |roots| && i != k ==> !Covers(roots[i], roots[k])
  }

  ghost predicate SomeCovers(roots: seq<string>, path: string) {
    exists i :: 0 <= i < |roots| && Covers(roots[i], path)
  }

  lemma {:induction false} DepthOfPrefix(s: string, n: nat)
    requires n <= |s|
    ensures Depth(s[..n]) <= Depth(s)
    ensures n < |s| && s[n] == '/' ==> Depth(s[..n]) < Depth(s)
  {
    if n == |s| {
      assert s[..n] == s;
    } else {
      assert s[..|s| - 1][..n] == s[..n];
      if n < |s| - 1 {
        DepthOfPrefix(s[..|s| - 1], n);
      }
    }
  }

  lemma CoversTransitive(a: string, b: string, c: string)
    requires Covers(a, b) && Covers(b, c)
    ensures Covers(a, c)
  {
    if a != "" && Inside(a, b) && Inside(b, c) {
      assert c[..|a|] == c[..|b|][..|a|] == a;
      assert c[|a|] == c[..|b|][|a|] == '/';
    }
  }

  /** In sorted order a later root never covers an earlier, different one. */
  lemma LaterDoesNotCover(earlier: string, later: string)
    requires RootLeq(earlier, later) && earlier != later && later != ""
    ensures !Covers(later, earlier)
  {
    if Inside(later, earlier) {
      DepthOfPrefix(earlier, |later|);
    }
  }

  ghost predicate IsRoot(scopes: seq<string>, present: string -> bool, x: string) {
    exists i :: 0 <= i < |scopes| && ScopeRoot(scopes[i], present) == Ok(x)
  }

  lemma OneMoreRoot(scopes: seq<string>, scope: string, present: string -> bool, x: string)
    ensures IsRoot(scopes + [scope], present, x) <==> IsRoot(scopes, present, x) || ScopeRoot(scope, present) == Ok(x)
  {
    var more := scopes + [scope];
    assert more[|scopes|] == scope && forall i :: 0 <= i < |scopes| ==> more[i] == scopes[i];
  }

  function RootsOf(scopes: seq<string>, present: string -> bool): Result<set<string>, PathError> {
    if |scopes| == 0 then Ok({})
    else
      var front, last := RootsOf(scopes[..|scopes| - 1], present), ScopeRoot(scopes[|scopes| - 1], present);
      if front.Err? then front else if last.Err? then Err(last.error) else Ok(front.value + {last.value})
  }

  predicate Usable(scope: string, present: string -> bool) {
    ScopeRoot(scope, present).Ok?
  }

  lemma {:induction false} RootsOfUsable(scopes: seq<string>, present: string -> bool)
    ensures RootsOf(scopes, present).Ok? <==> forall x :: x in scopes ==> Usable(x, present)
  {
    if |scopes| > 0 {
      var front, last := scopes[..|scopes| - 1], scopes[|scopes| - 1];
      RootsOfUsable(front, present);
      assert forall x :: x in scopes <==> x in front || x == last;
      assert RootsOf(scopes, present).Ok? <==> RootsOf(front, present).Ok? && Usable(last, present);
    }
  }

  lemma {:induction false} RootsOfAreRoots(scopes: seq<string>, present: string -> bool, x: string)
    requires RootsOf(scopes, present).Ok?
    ensures x in RootsOf(scopes, present).value <==> IsRoot(scopes, present, x)
  {
    if |scopes| > 0 {
      var n := |scopes| - 1;
      RootsOfAreRoots(scopes[..n], present, x);
      OneMoreRoot(scopes[..n], scopes[n], present, x);
      assert scopes == scopes[..n] + [scopes[n]];
    }
  }

  lemma {:induction false} RootsOfPrefix(scopes: seq<string>, present: string -> bool, k: nat)
    requires k <= |scopes| && RootsOf(scopes[..k], present).Err?
    ensures RootsOf(scopes, present) == RootsOf(scopes[..k], present)
  {
    if k == |scopes| {
      assert scopes[..k] == scopes;
    } else {
      assert scopes[..|scopes| - 1][..k] == scopes[..k];
      RootsOfPrefix(scopes[..|scopes| - 1], present, k);
    }
  }

  /**
   * The roots of the scopes without those another root covers: an antichain of scope roots that covers every scope
   * root. An unusable scope fails the whole computation.
   */
  method WritableRootsForScopes(scopes: seq<string>, present: string -> bool) returns (r: Result<seq<string>, PathError>)
    ensures r.Ok? <==> forall x :: x in scopes ==> Usable(x, present)
    ensures r.Ok? ==> Antichain(r.value)
    ensures r.Ok? ==> forall x :: x in r.value ==> IsRoot(scopes, present, x)
    ensures r.Ok? ==> forall x :: IsRoot(scopes, present, x) ==> SomeCovers(r.value, x)
  {
    RootsOfUsable(scopes, present);
    var roots: set<string> := {};
    for k := 0 to |scopes|
      invariant RootsOf(scopes[..k], present) == Ok(roots)
    {
      var root := ScopeRoot(scopes[k], present);
      assert scopes[..k + 1][..k] == scopes[..k];
      if root.Err? {
        RootsOfPrefix(scopes, present, k + 1);
        return Err(root.error);
      }
      roots := roots + {root.value};
    }
    assert scopes[..|scopes|] == scopes;
    var ordered := SortRoots(roots);
    var minimal := Minimal(ordered);
    forall x
      ensures x in roots <==> IsRoot(scopes, present, x)
    {
      RootsOfAreRoots(scopes, present, x);
    }
    forall x | IsRoot(scopes, present, x)
      ensures SomeCovers(minimal, x)
    {
      assert x in ordered;
    }
    r := Ok(minimal);
  }

  /** The second loop: keep a root unless one kept before covers it; the empty root replaces all others. */
  method Minimal(ordered: seq<string>) returns (minimal: seq<string>)
    requires Sorted(ordered) && Distinct(ordered)
    ensures Antichain(minimal) && forall x :: x in minimal ==> x in ordered
    ensures forall i :: 0 <= i < |ordered| ==> SomeCovers(minimal, ordered[i])
  {
    minimal := [];
    for k := 0 to |ordered|
      invariant Antichain(minimal) && "" !in minimal
      invariant forall x :: x in minimal ==> x in ordered[..k]
      invariant forall i :: 0 <= i < k ==> SomeCovers(minimal, ordered[i])
    {
      var root := ordered[k];
      if root == "" {
        assert Covers("", "") && forall i :: 0 <= i < |ordered| ==> Covers([""][0], ordered[i]);
        return [""];
      }
      ghost var before := minimal;
      if forall i :: 0 <= i < |minimal| ==> !(root == minimal[i] || Inside(minimal[i], root)) {
        KeepRoot(ordered, k, minimal);
        minimal := minimal + [root];
        assert Covers(minimal[|before|], root);
        forall i | 0 <= i < k
          ensures SomeCovers(minimal, ordered[i])
        {
          var j :| 0 <= j < |before| && Covers(before[j], ordered[i]);
          assert Covers(minimal[j], ordered[i]);
        }
      } else {
        var i :| 0 <= i < |minimal| && (root == minimal[i] || Inside(minimal[i], root));
        assert Covers(minimal[i], root);
      }
    }
  }

  lemma KeepRoot(ordered: seq<string>, k: nat, minimal: seq<string>)
    requires Sorted(ordered) && k < |ordered| && forall i :: 0 <= i < k ==> ordered[i] != ordered[k]
    requires Antichain(minimal) && "" !in minimal && ordered[k] != ""
    requires forall x :: x in minimal ==> x in ordered[..k]
    requires forall i :: 0 <= i < |minimal| ==> !(ordered[k] == minimal[i] || Inside(minimal[i], ordered[k]))
    ensures Antichain(minimal + [ordered[k]])
  {
    forall i | 0 <= i < |minimal|
      ensures !Covers(minimal[i], ordered[k]) && !Covers(ordered[k], minimal[i])
    {
      assert minimal[i] in minimal;
      var j :| 0 <= j < k && ordered[j] == minimal[i];
      LaterDoesNotCover(ordered[j], ordered[k]);
    }
  }

  // ----- paths under roots -----

  lemma {:induction false} ParentIsAbove(s: string)
    ensures Covers(Parent(s), s)
  {
  }

  /** Before its final normalization the root of a scope covers every path the scope accepts. */
  lemma RawRootCovers(path: string, scope: string, present: string -> bool, rule: ClassRule)
    requires Tidy(scope) && Matches(path, scope, rule)
    ensures Covers(RawRoot(scope, present), path)
  {
    var w := FirstWildcard(scope);
    PrefixIsCopied(path, scope, rule);
    if w < |scope| {
      RawRootIsParent(scope, present);
    } else {
      ParentIsAbove(path);
    }
  }

  lemma DirectoryPrefix(path: string, scope: string, rule: ClassRule)
    requires Tidy(scope) && EndsWith(scope, "/**") && Matches(path, scope, rule)
    ensures var w := FirstWildcard(scope); w < |scope| && Covers(Parent(scope[..w]), path)
  {
    var w, base := FirstWildcard(scope), scope[..|scope| - 3];
    DirectoryScope(scope);
    if w == |base| + 1 {
      assert scope[..w] == base + ['/'];
      assert Parent(scope[..w]) == scope[..w][..w - 1] == base;
    } else {
      assert scope[..w] == base[..w] == path[..w];
      ParentCoversExtension(scope[..w], path);
    }
  }

  /** A matched path starts with everything before the first wildcard of the scope, and equals an exact scope. */
  lemma PrefixIsCopied(path: string, scope: string, rule: ClassRule)
    requires Tidy(scope) && Matches(path, scope, rule)
    ensures var w := FirstWildcard(scope);
            (w == |scope| ==> path == scope)
            && (w < |scope| ==> Covers(Parent(scope[..w]), path))
  {
    var w := FirstWildcard(scope);
    if EndsWith(scope, "/**") {
      DirectoryPrefix(path, scope, rule);
    } else {
      GlobPrefix(path, scope, rule);
      if w < |scope| {
        ParentCoversExtension(scope[..w], path);
      }
    }
  }

  lemma ParentCoversExtension(prefix: string, path: string)
    requires |prefix| <= |path| && path[..|prefix|] == prefix
    ensures Covers(Parent(prefix), path)
  {
    var r := Parent(prefix);
    if r != "" {
      assert path[..|r|] == prefix[..|r|] == r;
      assert path[|r|] == prefix[|r|] == '/';
    }
  }

  lemma RawRootIsParent(scope: string, present: string -> bool)
    requires Tidy(scope) && FirstWildcard(scope) < |scope|
    ensures RawRoot(scope, present) == Parent(scope[..FirstWildcard(scope)])
  {
    var w := FirstWildcard(scope);
    var prefix := scope[..w];
    if w > 0 {
      if prefix[w - 1] == '/' {
        StripOneSlash(prefix);
      } else {
        var r := Parent(prefix);
        if r != "" {
          assert scope[|r|] == '/';
          assert r[|r| - 1] == scope[|r| - 1];
        }
        assert StripSlashes(r) == r;
      }
    }
  }

  lemma {:induction false} KeepShrinks(parts: seq<string>)
    ensures |Join(Keep(parts))| <= |Join(parts)|
    ensures |Keep(parts)| > 0 ==> |parts| > 0
  {
    if |parts| > 0 {
      KeepShrinks(parts[1..]);
      var rest := Keep(parts[1..]);
      if parts[0] != "" && parts[0] != "." {
        assert ([parts[0]] + rest)[1..] == rest;
        assert Keep(parts) == [parts[0]] + rest;
      } else {
        assert Keep(parts) == rest;
      }
    }
  }

  /** Normalizing never makes a path longer. */
  lemma NormalizeShrinks(s: string)
    requires Normalize(s).Ok?
    ensures |Normalize(s).value| <= |s|
  {
    StripLeftIsSuffix(s);
    StripRightIsPrefix(StripLeft(s));
    JoinSplit(ForwardSlashes(Strip(s)));
    KeepShrinks(Split(ForwardSlashes(Strip(s))));
  }

  /** Of two roots over one path, the shorter covers the longer. */
  lemma Comparable(a: string, b: string, path: string)
    requires Covers(a, path) && Covers(b, path) && |a| <= |b|
    ensures Covers(a, b)
  {
    if a != "" && |a| < |b| {
      assert b[..|a|] == path[..|b|][..|a|] == a;
      assert b[|a|] == path[|a|];
    }
  }

  /** The components of the directory a scope writes to; none is the whole workspace. */
  function RootComponents(scope: string, present: string -> bool): seq<string>
    requires Normalize(scope).Ok?
  {
    var raw := RawRoot(Normalize(scope).value, present);
    if raw == "" then [] else Split(raw)
  }

  /** The directory of the scope has no blanks at its ends, or only such as disappear with whole components. */
  predicate RootKeepsEnds(scope: string, present: string -> bool)
    requires Normalize(scope).Ok?
  {
    var parts := RootComponents(scope, present);
    |parts| == 0 || KeepsEnds(parts)
  }

  lemma RawRootIsAbove(n: string, present: string -> bool)
    requires Tidy(n) && RawRoot(n, present) != ""
    ensures RawRoot(n, present) == n || Inside(RawRoot(n, present), n)
  {
    if FirstWildcard(n) < |n| {
      RawRootIsParent(n, present);
      var prefix := n[..FirstWildcard(n)];
      assert n[|Parent(prefix)|] == prefix[|Parent(prefix)|];
      assert n[..|Parent(prefix)|] == prefix[..|Parent(prefix)|];
    }
  }

  lemma FrontComponents(raw: string, whole: seq<string>)
    requires |whole| > 0 && SlashFreeParts(whole) && (raw == Join(whole) || Inside(raw, Join(whole)))
    ensures IsPrefix(Split(raw), whole)
  {
    SplitJoin(whole);
    if Inside(raw, Join(whole)) {
      var rest := Join(whole)[|raw| + 1..];
      assert Join(whole) == raw + "/" + rest;
      SplitAtSlash(raw, rest);
    }
  }

  lemma PrefixIsGood(parts: seq<string>, whole: seq<string>)
    requires GoodParts(whole) && IsPrefix(parts, whole)
    ensures GoodParts(parts)
  {
    assert forall i :: 0 <= i < |parts| ==> parts[i] == whole[i];
  }

  lemma RootComponentsAreGood(scope: string, present: string -> bool)
    requires Normalize(scope).Ok?
    ensures var parts, raw := RootComponents(scope, present), RawRoot(Normalize(scope).value, present);
            GoodParts(parts) && Join(parts) == raw && (|parts| == 0 <==> raw == "")
  {
    var n, whole := Normalize(scope).value, NormalParts(scope).value;
    var raw := RawRoot(n, present);
    if raw != "" {
      NormalPartsAreGood(scope);
      NormalizeTidy(scope);
      RawRootIsAbove(n, present);
      JoinSplit(raw);
      FrontComponents(raw, whole);
      PrefixIsGood(Split(raw), whole);
    }
  }

  /** The root of a scope is usable and still covers the scope's directory exactly when that directory keeps its ends. */
  lemma RootSurvivesIffEndsKept(scope: string, present: string -> bool)
    requires Normalize(scope).Ok?
    ensures var root := ScopeRoot(scope, present);
            root.Ok? && Covers(root.value, RawRoot(Normalize(scope).value, present)) <==> RootKeepsEnds(scope, present)
  {
    RootComponentsAreGood(scope, present);
    if |RootComponents(scope, present)| > 0 {
      SurvivesIffEndsKept(RootComponents(scope, present));
    }
  }

  /** No blank at either end of the directory is enough; between solid end components it is also needed. */
  lemma PlainRootSurvives(scope: string, present: string -> bool)
    requires Normalize(scope).Ok?
    ensures var raw, parts := RawRoot(Normalize(scope).value, present), RootComponents(scope, present);
            && (Strip(raw) == raw ==> RootKeepsEnds(scope, present))
            && (|parts| > 0 && Solid(parts[0]) && Solid(parts[|parts| - 1]) ==>
                  (RootKeepsEnds(scope, present) <==> Strip(raw) == raw))
  {
    RootComponentsAreGood(scope, present);
    if |RootComponents(scope, present)| > 0 {
      EndsKeptWithoutBlanks(RootComponents(scope, present));
    }
  }

  /**
   * A path accepted by a scope lies under the scope's root exactly when the directory of the scope keeps its ends;
   * without blanks at its ends it always does.
   */
  lemma RootCoversPathIffEndsKept(path: string, scope: string, present: string -> bool, rule: ClassRule)
    requires PathMatchesScope(path, scope, rule) == Ok(true)
    ensures var root := ScopeRoot(scope, present);
            root.Ok? && Covers(root.value, Normalize(path).value) <==> RootKeepsEnds(scope, present)
  {
    var n, p := Normalize(scope).value, Normalize(path).value;
    var raw := RawRoot(n, present);
    NormalizeTidy(scope);
    RawRootCovers(p, n, present, rule);
    RootSurvivesIffEndsKept(scope, present);
    if ScopeRoot(scope, present).Ok? {
      var root := ScopeRoot(scope, present).value;
      if raw != "" {
        NormalizeShrinks(raw);
      }
      if Covers(root, raw) {
        CoversTransitive(root, raw, p);
      }
      if Covers(root, p) {
        Comparable(root, raw, p);
      }
    }
  }

  /** Every path the task may submit through a scope whose directory keeps its ends is writable in the container. */
  lemma SubmittablePathsAreWritable(roots: seq<string>, scopes: seq<string>, i: nat, path: string, present: string -> bool,
                                    rule: ClassRule)
    requires i < |scopes| && PathMatchesScope(path, scopes[i], rule) == Ok(true) && RootKeepsEnds(scopes[i], present)
    requires forall x :: IsRoot(scopes, present, x) ==> SomeCovers(roots, x)
    ensures SomeCovers(roots, Normalize(path).value)
  {
    RootCoversPathIffEndsKept(path, scopes[i], present, rule);
    var root := ScopeRoot(scopes[i], present).value;
    assert IsRoot(scopes, present, root);
    var k :| 0 <= k < |roots| && Covers(roots[k], root);
    CoversTransitive(roots[k], root, Normalize(path).value);
  }

  // ----- a root that does not survive -----

  lemma {:induction false} GlobLiteral(x: string, path: string, pat: string, rule: ClassRule)
    requires FirstWildcard(x) == |x| && Glob(path, pat, rule)
    ensures Glob(x + path, x + pat, rule)
  {
    if x == "" {
      assert x + path == path && x + pat == pat;
    } else {
      assert !IsWildcard(x[0]);
      WildcardFreeTail(x);
      GlobLiteral(x[1..], path, pat, rule);
      assert (x + path)[1..] == x[1..] + path && (x + pat)[1..] == x[1..] + pat;
    }
  }

  /** A directory name without wildcards and without blanks at its edges. */
  predicate PlainName(d: string) {
    GoodPart(d) && FirstWildcard(d) == |d| && !EndsWith(d, ":") && Strip(d) == d && StripLeft(d) == d
  }

  lemma {:induction false} StripAppendedBlank(d: string)
    requires Strip(d) == d && StripLeft(d) == d && d != ""
    ensures Strip(d + " ") == d
  {
    var s := d + " ";
    assert !IsBlank(d[0]) by {
      StripLeftIsSuffix(d[1..]);
    }
    assert StripLeft(s) == s;
    assert s[..|s| - 1] == d;
  }

  lemma NormalizeName(d: string)
    requires PlainName(d)
    ensures Normalize(d + " ") == Ok(d)
  {
    StripAppendedBlank(d);
    assert ForwardSlashes(d) == d;
    SplitSlashFree(d);
    KeepGood([d]);
    assert d[0] != '/';
  }

  lemma TwoParts(a: string, b: string)
    requires GoodPart(a) && GoodPart(b) && !EndsWith(a, ":")
    ensures Normalize("/" + (a + "/" + b) + "/") == Ok(a + "/" + b)
  {
    var parts := [a, b];
    assert Join(parts) == a + "/" + b;
    EveryNormalFormIsReached(parts);
  }

  lemma LastCharacter(s: string, suffix: string)
    requires s != "" && suffix != "" && s[|s| - 1] != suffix[|suffix| - 1]
    ensures !EndsWith(s, suffix) && s != suffix
  {
    if |suffix| <= |s| {
      assert s[|s| - |suffix|..][|suffix| - 1] == s[|s| - 1];
    }
  }

  lemma BlankName(d: string)
    requires PlainName(d)
    ensures GoodPart(d + " ") && !EndsWith(d + " ", ":") && FirstWildcard(d + " ") == |d| + 1
  {
    var a := d + " ";
    LastCharacter(a, ":");
    LastCharacter(a, ".");
    LastCharacter(a, "..");
    assert forall i :: 0 <= i < |a| ==> a[i] == ' ' || a[i] in d;
    assert forall i :: 0 <= i < |a| ==> !IsWildcard(a[i]);
  }

  lemma FirstWildcardAt(s: string, w: nat)
    requires w <= |s| && (forall i :: 0 <= i < w ==> !IsWildcard(s[i])) && (w < |s| ==> IsWildcard(s[w]))
    ensures FirstWildcard(s) == w
  {
  }

  lemma RootOfFiles(a: string, present: string -> bool)
    requires GoodPart(a) && FirstWildcard(a) == |a|
    ensures FirstWildcard(a + "/" + "*") == |a| + 1 && RawRoot(a + "/" + "*", present) == a
  {
    var x, n := a + "/", a + "/" + "*";
    assert forall i :: 0 <= i < |a| ==> n[i] == a[i];
    FirstWildcardAt(n, |x|);
    assert n[..|x|] == x && x[..|x| - 1] == a;
    assert StripSlashes(a) == a && StripSlashes(x) == a;
  }

  /** What the scope check sees in a scope that accepts the files of one directory. */
  lemma FilesOf(a: string, present: string -> bool, rule: ClassRule)
    requires GoodPart(a) && FirstWildcard(a) == |a|
    ensures RawRoot(a + "/" + "*", present) == a && Matches(a + "/" + "f", a + "/" + "*", rule)
  {
    var x := a + "/";
    RootOfFiles(a, present);
    assert forall i :: 0 <= i < |a| ==> x[i] == a[i];
    FirstWildcardAt(x, |x|);
    assert Glob("", "", rule) && Glob("f", "*", rule);
    GlobLiteral(x, "f", "*", rule);
    NotADirectoryScope(a + "/" + "*");
  }

  lemma NotADirectoryScope(n: string)
    requires |n| >= 2 && n[|n| - 2] == '/'
    ensures !EndsWith(n, "/**")
  {
    if |n| >= 3 {
      assert n[|n| - 3..][1] == n[|n| - 2];
    }
  }

  /**
   * A directory whose name ends in a blank: the scope accepts its files, but its root is mounted without the blank,
   * and the files are not under it.
   */
  lemma BlankAtTheEdgeLosesTheRoot(d: string, present: string -> bool, rule: ClassRule)
    requires PlainName(d)
    ensures var scope, path := "/" + (d + " " + "/" + "*") + "/", "/" + (d + " " + "/" + "f") + "/";
            && PathMatchesScope(path, scope, rule) == Ok(true) && ScopeRoot(scope, present) == Ok(d)
            && Normalize(path) == Ok(d + " " + "/" + "f") && !Covers(d, d + " " + "/" + "f")
  {
    var a := d + " ";
    BlankName(d);
    TwoParts(a, "*");
    TwoParts(a, "f");
    FilesOf(a, present, rule);
    NormalizeName(d);
    assert (a + "/" + "f")[|d|] == ' ';
  }
}
