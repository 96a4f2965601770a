/** When two write scopes are reported as overlapping, told by their components (orchestrator.py). */
module ScopeOverlap {
  import opened Common
  import opened RepoPaths
  import opened PathEdges

  /** The components before the first wildcard, and what stands before it in its own component. */
  function StaticParts(parts: seq<string>): seq<string> {
    if |parts| == 0 then []
    else
      var w := FirstWildcard(parts[0]);
      if w == |parts[0]| then [parts[0]] + StaticParts(parts[1..])
      else if w == 0 then []
      else [parts[0][..w]]
  }

  predicate HasWildcard(parts: seq<string>) {
    exists i, k :: 0 <= i < |parts| && 0 <= k < |parts[i]| && parts[i][k] in {'*', '[', '?'}
  }

  /** A directory with everything below it. */
  predicate IsTree(parts: seq<string>) {
    |parts| >= 2 && parts[|parts| - 1] == "**"
  }

  predicate InTree(base: seq<string>, parts: seq<string>) {
    |base| <= |parts| && parts[..|base|] == base && (base == [] ==> parts == [])
  }

  predicate SamePath(a: seq<string>, b: seq<string>) {
    (|a| <= |b| && b[..|a|] == a) || (|b| <= |a| && a[..|b|] == b)
  }

  /**
   * Two paths without wildcards overlap when they are equal, a path and a tree when the path is in the tree, two trees when
   * one is in the other; with any other pattern, when one wildcard-free directory is empty, equals or contains the other.
   */
  predicate Overlapping(a: seq<string>, b: seq<string>) {
    if !HasWildcard(a) && !HasWildcard(b) then a == b
    else if !HasWildcard(b) && IsTree(a) then InTree(StaticParts(a), b)
    else if !HasWildcard(a) && IsTree(b) then InTree(StaticParts(b), a)
    else if IsTree(a) && IsTree(b) then InTree(StaticParts(a), StaticParts(b)) || InTree(StaticParts(b), StaticParts(a))
    else SamePath(StaticParts(a), StaticParts(b))
  }

  // ----- the anchor of a scope -----

  lemma {:induction false} StaticPartsGood(parts: seq<string>)
    requires forall i :: 0 <= i < |parts| ==> parts[i] != "" && SlashFree(parts[i])
    ensures var s := StaticParts(parts); forall i :: 0 <= i < |s| ==> s[i] != "" && SlashFree(s[i])
    ensures (StaticParts(parts) == parts) <==> !HasWildcard(parts)
  {
    if |parts| > 0 {
      StaticPartsGood(parts[1..]);
      var w := FirstWildcard(parts[0]);
      if w < |parts[0]| {
        assert parts[0][w] in {'*', '[', '?'};
        assert HasWildcard(parts);
      } else {
        assert HasWildcard(parts) <==> HasWildcard(parts[1..]) by {
          WildcardInTail(parts);
        }
        assert parts == [parts[0]] + parts[1..];
      }
    }
  }

  lemma WildcardInTail(parts: seq<string>)
    requires |parts| > 0 && FirstWildcard(parts[0]) == |parts[0]|
    ensures HasWildcard(parts) <==> HasWildcard(parts[1..])
  {
    if HasWildcard(parts) {
      var i, k :| 0 <= i < |parts| && 0 <= k < |parts[i]| && parts[i][k] in {'*', '[', '?'};
      assert i > 0 && parts[1..][i - 1] == parts[i];
    }
    if HasWildcard(parts[1..]) {
      var i, k :| 0 <= i < |parts[1..]| && 0 <= k < |parts[1..][i]| && parts[1..][i][k] in {'*', '[', '?'};
      assert parts[i + 1] == parts[1..][i];
    }
  }

  lemma WildcardAtStart(parts: seq<string>)
    requires |parts| > 0
    ensures FirstWildcard(parts[0]) < |parts[0]| ==> HasWildcard(parts)
  {
    var w := FirstWildcard(parts[0]);
    assert w < |parts[0]| ==> parts[0][w] in {'*', '[', '?'};
  }

  lemma {:induction false} StripSlashesAfter(p: string, x: string)
    requires p != "" && SlashFree(p)
    ensures StripSlashes(p + "/" + x) == if StripSlashes(x) == "" then p else p + "/" + StripSlashes(x)
    decreases |x|
  {
    var s := p + "/" + x;
    if x == "" {
      assert s[..|s| - 1] == p && StripSlashes(p) == p;
    } else if x[|x| - 1] == '/' {
      assert s[..|s| - 1] == p + "/" + x[..|x| - 1];
      StripSlashesAfter(p, x[..|x| - 1]);
    }
  }

  lemma WildcardAfter(p: string, x: string)
    requires FirstWildcard(p) == |p|
    ensures FirstWildcard(p + "/" + x) == |p| + 1 + FirstWildcard(x)
  {
    var s, w := p + "/" + x, |p| + 1 + FirstWildcard(x);
    assert forall i :: 0 <= i < w ==> !IsWildcard(s[i]) by {
      forall i | 0 <= i < w
        ensures !IsWildcard(s[i])
      {
        assert s[i] == if i < |p| then p[i] else if i == |p| then '/' else x[i - |p| - 1];
      }
    }
    assert w < |s| ==> s[w] == x[w - |p| - 1];
  }

  lemma WildcardHere(p: string, x: string)
    requires FirstWildcard(p) < |p|
    ensures FirstWildcard(p + "/" + x) == FirstWildcard(p)
  {
    var s, w := p + "/" + x, FirstWildcard(p);
    assert forall i :: 0 <= i <= w ==> s[i] == p[i];
  }

  lemma SlashFreeKeeps(p: string)
    requires SlashFree(p)
    ensures StripSlashes(p) == p
  {
  }

  /** Everything before the first wildcard, without the slashes at its end. */
  function TextBefore(path: string): string {
    StripSlashes(path[..FirstWildcard(path)])
  }

  lemma AnchorTextHere(p: string, path: string)
    requires SlashFree(p) && FirstWildcard(p) < |p| && (path == p || exists x :: path == p + "/" + x)
    ensures TextBefore(path) == p[..FirstWildcard(p)] && FirstWildcard(path) < |path|
  {
    var w := FirstWildcard(p);
    if path != p {
      var x :| path == p + "/" + x;
      WildcardHere(p, x);
    }
    assert path[..w] == p[..w];
    SlashFreeKeeps(p[..w]);
  }

  lemma PrefixAfter(p: string, x: string, v: nat)
    requires v <= |x|
    ensures (p + "/" + x)[..|p| + 1 + v] == p + "/" + x[..v]
  {
  }

  lemma TextAt(path: string, w: nat, text: string)
    requires FirstWildcard(path) == w && path[..w] == text
    ensures TextBefore(path) == StripSlashes(text)
  {
  }

  lemma AnchorTextAfter(p: string, x: string)
    requires p != "" && SlashFree(p) && FirstWildcard(p) == |p|
    ensures TextBefore(p + "/" + x) == if TextBefore(x) == "" then p else p + "/" + TextBefore(x)
  {
    var v, path := FirstWildcard(x), p + "/" + x;
    WildcardAfter(p, x);
    PrefixAfter(p, x, v);
    TextAt(path, |p| + 1 + v, p + "/" + x[..v]);
    StripSlashesAfter(p, x[..v]);
  }

  lemma {:induction false} AnchorText(parts: seq<string>)
    requires forall i :: 0 <= i < |parts| ==> parts[i] != "" && SlashFree(parts[i])
    ensures TextBefore(Join(parts)) == Join(StaticParts(parts))
    ensures (FirstWildcard(Join(parts)) == |Join(parts)|) <==> !HasWildcard(parts)
  {
    if |parts| > 0 {
      var p, rest := parts[0], parts[1..];
      if FirstWildcard(p) < |p| {
        assert p[FirstWildcard(p)] in {'*', '[', '?'} && HasWildcard(parts);
        AnchorTextHere(p, Join(parts));
      } else {
        WildcardInTail(parts);
        StaticPartsGood(rest);
        AnchorText(rest);
        JoinTidy(StaticParts(rest));
        if |rest| == 0 {
          SlashFreeKeeps(p);
          assert p[..|p|] == p;
        } else {
          AnchorTextAfter(p, Join(rest));
          WildcardAfter(p, Join(rest));
          JoinOneFirst(p, StaticParts(rest));
        }
      }
    }
  }

  lemma JoinOneFirst(p: string, rest: seq<string>)
    ensures Join([p] + rest) == if |rest| == 0 then p else p + "/" + Join(rest)
  {
    assert ([p] + rest)[1..] == rest;
  }

  lemma EndsInTree(path: string)
    requires EndsWith(path, "/**")
    ensures Split(path) == Split(path[..|path| - 3]) + ["**"]
  {
    var base := path[..|path| - 3];
    assert path == base + path[|path| - 3..];
    assert path == base + "/" + "**";
    SplitAtSlash(base, "**");
    SplitSlashFree("**");
  }

  lemma AppendEnds(x: string, suffix: string)
    ensures EndsWith(x + suffix, suffix) && (x + suffix)[..|x|] == x
  {
  }

  lemma SlashAppended(x: string, last: string)
    ensures x + "/" + last == x + ("/" + last)
  {
  }

  const TREE := "/**"

  lemma TreeEnds(front: seq<string>)
    requires |front| > 0
    ensures Join(front + ["**"]) == Join(front) + TREE && EndsWith(Join(front + ["**"]), TREE)
    ensures (Join(front) + TREE)[..|Join(front)|] == Join(front)
  {
    JoinConcat(front, ["**"]);
    SlashAppended(Join(front), "**");
    assert "/" + "**" == TREE;
    AppendEnds(Join(front), TREE);
  }

  lemma EndIsTree(parts: seq<string>)
    requires |parts| > 0 && SlashFreeParts(parts) && EndsWith(Join(parts), "/**")
    ensures IsTree(parts)
  {
    EndsInTree(Join(parts));
    SplitJoin(parts);
  }

  lemma TreeFront(parts: seq<string>)
    requires IsTree(parts)
    ensures parts == parts[..|parts| - 1] + ["**"]
  {
  }

  lemma TreeIsEnd(parts: seq<string>)
    requires IsTree(parts)
    ensures EndsWith(Join(parts), TREE)
  {
    TreeFront(parts);
    TreeEnds(parts[..|parts| - 1]);
  }

  lemma TreeByEnd(parts: seq<string>)
    requires |parts| > 0 && SlashFreeParts(parts)
    ensures EndsWith(Join(parts), "/**") <==> IsTree(parts)
  {
    if IsTree(parts) {
      TreeIsEnd(parts);
    } else if EndsWith(Join(parts), "/**") {
      EndIsTree(parts);
    }
  }

  lemma AnchorByComponents(parts: seq<string>)
    requires GoodParts(parts)
    ensures var a := AnchorOf(Join(parts));
            a.path == Join(StaticParts(parts)) && (a.wild <==> HasWildcard(parts)) && (a.recursive <==> IsTree(parts))
  {
    AnchorText(parts);
    StaticPartsGood(parts);
    if |parts| > 0 {
      TreeByEnd(parts);
      if IsTree(parts) {
        assert parts[|parts| - 1][0] in {'*', '[', '?'};
      }
    }
    var path := Join(parts);
    assert path[..|path|] == path;
  }

  // ----- the overlap check -----

  lemma EqualOrInside(a: seq<string>, b: seq<string>)
    requires forall i :: 0 <= i < |a| ==> a[i] != "" && SlashFree(a[i])
    requires forall i :: 0 <= i < |b| ==> b[i] != "" && SlashFree(b[i])
    ensures (Join(a) == Join(b) || Inside(Join(a), Join(b))) <==> InTree(a, b)
  {
    JoinTidy(a);
    JoinTidy(b);
    if |a| > 0 && |b| > 0 {
      CoversByComponents(a, b);
    }
  }

  lemma EqualPaths(a: seq<string>, b: seq<string>)
    requires forall i :: 0 <= i < |a| ==> a[i] != "" && SlashFree(a[i])
    requires forall i :: 0 <= i < |b| ==> b[i] != "" && SlashFree(b[i])
    ensures Join(a) == Join(b) <==> a == b
  {
    JoinTidy(a);
    JoinTidy(b);
    if |a| > 0 && |b| > 0 {
      SplitJoin(a);
      SplitJoin(b);
    }
  }

  lemma AnchorsOverlapByComponents(a: seq<string>, b: seq<string>)
    requires GoodParts(a) && GoodParts(b)
    ensures AnchorsOverlap(AnchorOf(Join(a)), AnchorOf(Join(b))) <==> Overlapping(a, b)
  {
    AnchorByComponents(a);
    AnchorByComponents(b);
    StaticPartsGood(a);
    StaticPartsGood(b);
    var x, y := StaticParts(a), StaticParts(b);
    JoinTidy(x);
    JoinTidy(y);
    EqualPaths(x, y);
    EqualOrInside(x, y);
    EqualOrInside(y, x);
  }

  /** The check says exactly this of the components of the two normal forms. */
  lemma OverlapByComponents(a: string, b: string)
    requires Normalize(a).Ok? && Normalize(b).Ok?
    ensures ScopesOverlap(a, b) == Ok(Overlapping(NormalParts(a).value, NormalParts(b).value))
  {
    NormalPartsAreGood(a);
    NormalPartsAreGood(b);
    AnchorsOverlapByComponents(NormalParts(a).value, NormalParts(b).value);
  }

  // ----- exact paths and directory trees -----

  /** A path without wildcards, or everything below such a directory. */
  predicate Simple(parts: seq<string>) {
    !HasWildcard(parts) || (IsTree(parts) && !HasWildcard(parts[..|parts| - 1]))
  }

  /** The path or the directory that a simple scope names. */
  function Named(parts: seq<string>): seq<string> {
    if IsTree(parts) then parts[..|parts| - 1] else parts
  }

  lemma NamedIsPlain(parts: seq<string>)
    requires GoodParts(parts) && Simple(parts)
    ensures GoodParts(Named(parts)) && !HasWildcard(Named(parts)) && (parts == [] <==> Named(parts) == [])
    ensures StaticParts(parts) == Named(parts)
  {
    StaticPartsGood(parts);
    if IsTree(parts) {
      var n := |parts| - 1;
      assert parts[n][0] in {'*', '[', '?'};
      StaticPartsGood(parts[..n]);
      StaticFront(parts);
    }
  }

  /** A component that starts with a wildcard adds nothing. */
  lemma {:induction false} StaticFront(parts: seq<string>)
    requires |parts| >= 1 && parts[|parts| - 1] == "**" && !HasWildcard(parts[..|parts| - 1])
    requires forall i :: 0 <= i < |parts| ==> parts[i] != "" && SlashFree(parts[i])
    ensures StaticParts(parts) == parts[..|parts| - 1]
  {
    var n := |parts| - 1;
    if n > 0 {
      WildcardAtStart(parts[..n]);
      WildcardInTail(parts[..n]);
      assert parts[..n][1..] == parts[1..][..n - 1];
      StaticFront(parts[1..]);
      assert parts[..n] == [parts[0]] + parts[1..][..n - 1];
    }
  }

  lemma TreeBase(parts: seq<string>)
    requires GoodParts(parts) && IsTree(parts)
    ensures var path := Join(parts);
            EndsWith(path, "/**") && StripSlashes(path[..|path| - 3]) == Join(Named(parts))
  {
    var front := parts[..|parts| - 1];
    assert parts == front + ["**"];
    TreeEnds(front);
    JoinTidy(front);
    StripOneSlash(Join(front));
  }

  lemma PlainGlob(path: string, scope: string, rule: ClassRule)
    requires FirstWildcard(scope) == |scope|
    ensures Glob(path, scope, rule) <==> path == scope
  {
    GlobItself(scope, rule);
    if Glob(path, scope, rule) {
      GlobPrefix(path, scope, rule);
    }
  }

  lemma TreeIsWild(parts: seq<string>)
    ensures IsTree(parts) ==> HasWildcard(parts)
  {
    if IsTree(parts) {
      assert parts[|parts| - 1][0] in {'*', '[', '?'};
    }
  }

  lemma MatchesTree(path: string, scope: string, base: string, rule: ClassRule)
    requires EndsWith(scope, "/**") && StripSlashes(scope[..|scope| - 3]) == base
    ensures Matches(path, scope, rule) <==> base == path || Inside(base, path)
  {
  }

  lemma TreeAccepts(parts: seq<string>, q: seq<string>, rule: ClassRule)
    requires GoodParts(parts) && GoodParts(q) && Simple(parts) && IsTree(parts)
    ensures Matches(Join(q), Join(parts), rule) <==> InTree(Named(parts), q)
  {
    NamedIsPlain(parts);
    TreeBase(parts);
    MatchesTree(Join(q), Join(parts), Join(Named(parts)), rule);
    EqualOrInside(Named(parts), q);
  }

  lemma PathAccepts(parts: seq<string>, q: seq<string>, rule: ClassRule)
    requires GoodParts(parts) && GoodParts(q) && !HasWildcard(parts)
    ensures Matches(Join(q), Join(parts), rule) <==> q == parts
  {
    if |parts| > 0 {
      TreeByEnd(parts);
    }
    TreeIsWild(parts);
    AnchorText(parts);
    PlainGlob(Join(q), Join(parts), rule);
    EqualPaths(q, parts);
  }

  /** What a simple scope accepts: its path, or everything in its tree. */
  lemma SimpleAccepts(parts: seq<string>, q: seq<string>, rule: ClassRule)
    requires GoodParts(parts) && GoodParts(q) && Simple(parts)
    ensures Matches(Join(q), Join(parts), rule) <==> if IsTree(parts) then InTree(Named(parts), q) else q == parts
  {
    if IsTree(parts) {
      TreeAccepts(parts, q, rule);
    } else {
      PathAccepts(parts, q, rule);
    }
  }

  lemma PathOf(q: seq<string>) returns (path: string)
    requires GoodParts(q)
    ensures Normalize(path) == Ok(Join(q))
  {
    if |q| > 0 {
      path := "/" + Join(q) + "/";
      EveryNormalFormIsReached(q);
    } else {
      path := ".";
      assert StripLeft(".") == "." && StripRight(".") == ".";
      SplitSlashFree(".");
      assert ForwardSlashes(".") == ".";
      assert Keep(["."]) == [];
    }
  }

  lemma PlainScopeIsAligned(scope: string)
    requires Normalize(scope).Ok? && Simple(NormalParts(scope).value)
    ensures AlignedScope(scope)
  {
    var parts := NormalParts(scope).value;
    NormalPartsAreGood(scope);
    AnchorByComponents(parts);
    AnchorText(parts);
    if |parts| > 0 {
      TreeByEnd(parts);
    }
  }

  /**
   * Between paths without wildcards and trees over such directories the check is exact: it reports an overlap if and only
   * if some path is accepted by both.
   */
  lemma SimpleOverlapIffCommonPath(a: string, b: string, rule: ClassRule)
    requires Normalize(a).Ok? && Simple(NormalParts(a).value) && Normalize(b).Ok? && Simple(NormalParts(b).value)
    ensures ScopesOverlap(a, b) == Ok(true) <==>
            exists path :: PathMatchesScope(path, a, rule) == Ok(true) && PathMatchesScope(path, b, rule) == Ok(true)
  {
    var x, y := NormalParts(a).value, NormalParts(b).value;
    if path :| PathMatchesScope(path, a, rule) == Ok(true) && PathMatchesScope(path, b, rule) == Ok(true) {
      PlainScopeIsAligned(a);
      PlainScopeIsAligned(b);
      OverlapCheckIsSound(path, a, b, rule);
    }
    if ScopesOverlap(a, b) == Ok(true) {
      NormalPartsAreGood(a);
      NormalPartsAreGood(b);
      OverlapByComponents(a, b);
      var q := CommonParts(x, y);
      SimpleAccepts(x, q, rule);
      SimpleAccepts(y, q, rule);
      var path := PathOf(q);
      assert PathMatchesScope(path, a, rule) == Ok(true) && PathMatchesScope(path, b, rule) == Ok(true);
    }
  }

  lemma CommonParts(x: seq<string>, y: seq<string>) returns (q: seq<string>)
    requires GoodParts(x) && GoodParts(y) && Simple(x) && Simple(y) && Overlapping(x, y)
    ensures GoodParts(q)
    ensures if IsTree(x) then InTree(Named(x), q) else q == x
    ensures if IsTree(y) then InTree(Named(y), q) else q == y
  {
    NamedIsPlain(x);
    NamedIsPlain(y);
    TreeHasWildcard(x);
    TreeHasWildcard(y);
    q := if !IsTree(x) then x else if !IsTree(y) then y else if |Named(x)| <= |Named(y)| then Named(y) else Named(x);
  }

  lemma TreeHasWildcard(parts: seq<string>)
    requires Simple(parts)
    ensures HasWildcard(parts) <==> IsTree(parts)
  {
    TreeIsWild(parts);
  }
}
