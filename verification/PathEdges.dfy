/** What normalizing a path a second time does to the blanks at its two ends. */
module PathEdges {
  import opened Common
  import opened RepoPaths

  ghost predicate SlashFreeParts(parts: seq<string>) {
    forall i :: 0 <= i < |parts| ==> SlashFree(parts[i])
  }

  ghost predicate IsPrefix(a: seq<string>, b: seq<string>) {
    |a| <= |b| && b[..|a|] == a
  }

  // ----- joining and stripping -----

  lemma {:induction false} JoinConcat(a: seq<string>, b: seq<string>)
    requires |a| > 0 && |b| > 0
    ensures Join(a + b) == Join(a) + "/" + Join(b)
  {
    if |a| == 1 {
      assert (a + b)[1..] == b;
    } else {
      assert (a + b)[1..] == a[1..] + b;
      JoinConcat(a[1..], b);
    }
  }

  lemma {:induction false} JoinSplit(s: string)
    ensures Join(Split(s)) == s
  {
    if s != "" {
      JoinSplit(s[1..]);
      var rest := Split(s[1..]);
      if s[0] == '/' {
        assert ([""] + rest)[1..] == rest;
      } else {
        assert ([[s[0]] + rest[0]] + rest[1..])[1..] == rest[1..];
      }
    }
  }

  lemma {:induction false} StripLeftStops(a: string, b: string)
    ensures StripLeft(a + "/" + b) == StripLeft(a) + "/" + b
  {
    var s := a + "/" + b;
    if a == "" {
      assert s == "/" + b;
    } else {
      assert s[1..] == a[1..] + "/" + b && s[0] == a[0];
      StripLeftStops(a[1..], b);
    }
  }

  lemma {:induction false} StripRightStops(a: string, b: string)
    ensures StripRight(a + "/" + b) == a + "/" + StripRight(b)
  {
    var s := a + "/" + b;
    if b == "" {
      assert s == a + "/";
    } else {
      assert s[..|s| - 1] == a + "/" + b[..|b| - 1] && s[|s| - 1] == b[|b| - 1];
      StripRightStops(a, b[..|b| - 1]);
    }
  }

  lemma {:induction false} StripLeftIsSuffix(s: string)
    ensures |StripLeft(s)| <= |s| && StripLeft(s) == s[|s| - |StripLeft(s)|..]
  {
    if s != "" && IsBlank(s[0]) {
      StripLeftIsSuffix(s[1..]);
    }
  }

  lemma {:induction false} StripRightIsPrefix(s: string)
    ensures |StripRight(s)| <= |s| && StripRight(s) == s[..|StripRight(s)|]
  {
    if s != "" && IsBlank(s[|s| - 1]) {
      StripRightIsPrefix(s[..|s| - 1]);
    }
  }

  /** The components of a path once blanks are stripped off its ends. */
  function Trimmed(parts: seq<string>): (t: seq<string>)
    requires |parts| > 0
    ensures |t| == |parts|
  {
    var n := |parts| - 1;
    if n == 0 then [Strip(parts[0])] else [StripLeft(parts[0])] + parts[1..n] + [StripRight(parts[n])]
  }

  lemma StripKeepsSlashFree(part: string)
    requires SlashFree(part)
    ensures SlashFree(StripLeft(part)) && SlashFree(StripRight(part)) && SlashFree(Strip(part))
  {
    StripLeftIsSuffix(part);
    StripRightIsPrefix(part);
    StripRightIsPrefix(StripLeft(part));
  }

  lemma TrimmedSlashFree(parts: seq<string>)
    requires |parts| > 0 && SlashFreeParts(parts)
    ensures SlashFreeParts(Trimmed(parts))
  {
    var n := |parts| - 1;
    StripKeepsSlashFree(parts[0]);
    StripKeepsSlashFree(parts[n]);
    forall i | 0 <= i <= n
      ensures SlashFree(Trimmed(parts)[i])
    {
      if 0 < i < n {
        assert Trimmed(parts)[i] == parts[i];
      }
    }
  }

  lemma StripFirst(first: string, rest: seq<string>)
    requires |rest| > 0
    ensures StripLeft(Join([first] + rest)) == Join([StripLeft(first)] + rest)
  {
    JoinConcat([first], rest);
    StripLeftStops(first, Join(rest));
    JoinConcat([StripLeft(first)], rest);
  }

  lemma StripLast(front: seq<string>, last: string)
    requires |front| > 0
    ensures StripRight(Join(front + [last])) == Join(front + [StripRight(last)])
  {
    JoinConcat(front, [last]);
    StripRightStops(Join(front), last);
    JoinConcat(front, [StripRight(last)]);
  }

  lemma StripEnds(first: string, mid: seq<string>, last: string)
    ensures Strip(Join([first] + mid + [last])) == Join([StripLeft(first)] + mid + [StripRight(last)])
  {
    var rest, left := mid + [last], [StripLeft(first)] + mid;
    assert [first] + mid + [last] == [first] + rest;
    StripFirst(first, rest);
    assert [StripLeft(first)] + rest == left + [last];
    StripLast(left, last);
  }

  lemma ThreeParts(parts: seq<string>)
    requires |parts| >= 2
    ensures var n := |parts| - 1; parts == [parts[0]] + parts[1..n] + [parts[n]]
  {
  }

  lemma StripJoin(parts: seq<string>)
    requires |parts| > 0
    ensures Strip(Join(parts)) == Join(Trimmed(parts))
  {
    if |parts| == 1 {
      JoinOne(parts[0]);
      JoinOne(Strip(parts[0]));
      assert parts == [parts[0]];
    } else {
      ThreeParts(parts);
      StripEnds(parts[0], parts[1..|parts| - 1], parts[|parts| - 1]);
    }
  }

  lemma JoinOne(part: string)
    ensures Join([part]) == part
  {
  }

  predicate OnlySlashes(s: string) {
    forall i :: 0 <= i < |s| ==> s[i] == '/'
  }

  lemma OnlySlashesOfTwo(a: string, b: string)
    ensures OnlySlashes(a + "/" + b) <==> OnlySlashes(a) && OnlySlashes(b)
  {
    var s := a + "/" + b;
    assert forall i :: 0 <= i < |a| ==> s[i] == a[i];
    assert forall i :: 0 <= i < |b| ==> s[|a| + 1 + i] == b[i];
  }

  ghost predicate AllEmpty(parts: seq<string>) {
    forall i :: 0 <= i < |parts| ==> parts[i] == ""
  }

  lemma {:induction false} OnlySlashesJoin(parts: seq<string>)
    requires |parts| > 0 && SlashFreeParts(parts)
    ensures OnlySlashes(Join(parts)) <==> AllEmpty(parts)
  {
    assert OnlySlashes(parts[0]) <==> parts[0] == "" by {
      assert parts[0] != "" ==> parts[0][0] != '/';
    }
    if |parts| > 1 {
      OnlySlashesOfTwo(parts[0], Join(parts[1..]));
      OnlySlashesJoin(parts[1..]);
      assert parts == [parts[0]] + parts[1..];
    }
  }

  // ----- the second normalization -----

  lemma NormalizeJoin(parts: seq<string>)
    requires GoodParts(parts) && |parts| > 0
    ensures NormalParts(Join(parts)) ==
              var kept := Keep(Trimmed(parts));
              if AllEmpty(Trimmed(parts)) then Err(EmptyPath)
              else if ".." in kept then Err(UnsafePath)
              else if |kept| > 0 && EndsWith(kept[0], ":") then Err(DrivePath)
              else Ok(kept)
  {
    var path, t := Join(parts), Trimmed(parts);
    JoinMembers(parts);
    StripMembers(path);
    assert forall i :: 0 <= i < |Strip(path)| ==> Strip(path)[i] in path;
    assert ForwardSlashes(Strip(path)) == Strip(path);
    StripJoin(parts);
    TrimmedSlashFree(parts);
    SplitJoin(t);
    OnlySlashesJoin(t);
  }

  // ----- when the result still covers the path -----

  /** `root == parent or root.startswith(parent + "/")`, where the empty root is the whole workspace. */
  predicate Covers(parent: string, path: string) {
    parent == "" || parent == path || Inside(parent, path)
  }

  lemma CoversByComponents(a: seq<string>, b: seq<string>)
    requires |b| > 0 && SlashFreeParts(a) && SlashFreeParts(b) && forall i :: 0 <= i < |a| ==> a[i] != ""
    ensures Covers(Join(a), Join(b)) <==> IsPrefix(a, b)
  {
    if |a| > 0 {
      SplitJoin(a);
      SplitJoin(b);
      if Inside(Join(a), Join(b)) {
        var rest := Join(b)[|Join(a)| + 1..];
        assert Join(b) == Join(a) + "/" + rest;
        SplitAtSlash(Join(a), rest);
      }
      if IsPrefix(a, b) && |a| < |b| {
        assert b == a + b[|a|..];
        JoinConcat(a, b[|a|..]);
      } else if IsPrefix(a, b) {
        assert a == b;
      }
    }
  }

  /** What stripping leaves of a component that then disappears. */
  predicate Vanished(part: string) {
    part == "" || part == "."
  }

  /** What is left when the first component disappears. */
  function Rest(parts: seq<string>): seq<string>
    requires |parts| >= 2
  {
    var n := |parts| - 1;
    parts[1..n] + if Vanished(StripRight(parts[n])) then [] else [StripRight(parts[n])]
  }

  /** The first component disappears, and what is left repeats the path without its end. */
  predicate RepeatsItself(parts: seq<string>)
    requires |parts| >= 2
  {
    var n := |parts| - 1;
    var first, last, rest := StripLeft(parts[0]), StripRight(parts[n]), Rest(parts);
    Vanished(first) && last != ".." && !(n == 1 && first == "" && last == "")
    && |rest| <= |parts| && rest == parts[..|rest|]
  }

  /**
   * The ends that a second normalization leaves alone, or shortens by whole components: no blank before the first
   * component, and none after the last one unless the last one disappears with it.
   */
  predicate KeepsEnds(parts: seq<string>)
    requires |parts| > 0
  {
    var n := |parts| - 1;
    if n == 0 then Strip(parts[0]) == parts[0] || Strip(parts[0]) == "."
    else if StripLeft(parts[0]) == parts[0] then
      StripRight(parts[n]) == parts[n] || Vanished(StripRight(parts[n]))
    else RepeatsItself(parts)
  }

  lemma KeepOfTrimmed(parts: seq<string>)
    requires GoodParts(parts) && |parts| >= 2
    ensures var n := |parts| - 1;
            var first, last := StripLeft(parts[0]), StripRight(parts[n]);
            Keep(Trimmed(parts)) == (if Vanished(first) then [] else [first]) + parts[1..n] + if Vanished(last) then [] else [last]
  {
    var n := |parts| - 1;
    var first, last := StripLeft(parts[0]), StripRight(parts[n]);
    KeepConcat([first] + parts[1..n], [last]);
    KeepConcat([first], parts[1..n]);
    KeepGood(parts[1..n]);
  }

  ghost predicate Survives(parts: seq<string>) {
    var again := Normalize(Join(parts));
    again.Ok? && Covers(again.value, Join(parts))
  }

  lemma SurvivesByComponents(parts: seq<string>)
    requires GoodParts(parts) && |parts| > 0
    ensures var kept := Keep(Trimmed(parts));
            Survives(parts) <==>
              !AllEmpty(Trimmed(parts)) && ".." !in kept && (|kept| > 0 ==> !EndsWith(kept[0], ":")) && IsPrefix(kept, parts)
  {
    var kept := Keep(Trimmed(parts));
    NormalizeJoin(parts);
    TrimmedSlashFree(parts);
    KeepParts(Trimmed(parts));
    forall i | 0 <= i < |kept|
      ensures kept[i] != "" && SlashFree(kept[i])
    {
      assert kept[i] in kept;
    }
    CoversByComponents(kept, parts);
  }

  lemma OneComponent(part: string)
    requires GoodParts([part])
    ensures Survives([part]) <==> KeepsEnds([part])
  {
    SurvivesByComponents([part]);
    var t := Strip(part);
    assert Trimmed([part]) == [t];
    assert Keep([t]) == if Vanished(t) then [] else [t];
    assert [part][..1] == [part] && AllEmpty([t]) == (t == "");
  }

  lemma EmptyTrimmed(parts: seq<string>)
    requires GoodParts(parts) && |parts| >= 2
    ensures var n := |parts| - 1;
            AllEmpty(Trimmed(parts)) <==> n == 1 && StripLeft(parts[0]) == "" && StripRight(parts[n]) == ""
  {
    var n, t := |parts| - 1, Trimmed(parts);
    assert t[0] == StripLeft(parts[0]) && t[n] == StripRight(parts[n]);
    if n > 1 {
      assert t[1] == parts[1] && GoodPart(parts[1]);
    }
  }

  lemma InnerIsGood(parts: seq<string>)
    requires GoodParts(parts) && |parts| >= 2
    ensures ".." !in parts[1..|parts| - 1] && ".." !in parts
  {
  }

  lemma KeepWithoutFirst(parts: seq<string>)
    requires GoodParts(parts) && |parts| >= 2 && Vanished(StripLeft(parts[0]))
    ensures Keep(Trimmed(parts)) == Rest(parts) && (".." in Rest(parts) <==> StripRight(parts[|parts| - 1]) == "..")
  {
    KeepOfTrimmed(parts);
    InnerIsGood(parts);
  }

  lemma FirstVanishes(parts: seq<string>)
    requires GoodParts(parts) && |parts| >= 2 && Vanished(StripLeft(parts[0]))
    ensures Survives(parts) <==> RepeatsItself(parts)
  {
    var kept := Rest(parts);
    SurvivesByComponents(parts);
    KeepWithoutFirst(parts);
    EmptyTrimmed(parts);
    if |kept| > 0 && IsPrefix(kept, parts) {
      assert kept[0] == parts[0];
    }
  }

  lemma KeepWithFirst(parts: seq<string>)
    requires GoodParts(parts) && |parts| >= 2 && StripLeft(parts[0]) == parts[0]
    ensures var n := |parts| - 1;
            var last := StripRight(parts[n]);
            Keep(Trimmed(parts)) == if Vanished(last) then parts[..n] else parts[..n] + [last]
  {
    var n := |parts| - 1;
    KeepOfTrimmed(parts);
    assert parts[..n] == [parts[0]] + parts[1..n];
  }

  lemma FirstStays(parts: seq<string>)
    requires GoodParts(parts) && |parts| >= 2 && StripLeft(parts[0]) == parts[0]
    ensures Survives(parts) <==> StripRight(parts[|parts| - 1]) == parts[|parts| - 1] || Vanished(StripRight(parts[|parts| - 1]))
  {
    var n := |parts| - 1;
    var last := StripRight(parts[n]);
    SurvivesByComponents(parts);
    EmptyTrimmed(parts);
    InnerIsGood(parts);
    KeepWithFirst(parts);
    if Vanished(last) {
      assert ".." !in parts[..n];
    } else {
      assert parts == parts[..n] + [parts[n]];
      assert (parts[..n] + [last])[n] == last;
    }
  }

  lemma FirstChanges(parts: seq<string>)
    requires GoodParts(parts) && |parts| >= 2 && StripLeft(parts[0]) != parts[0] && !Vanished(StripLeft(parts[0]))
    ensures !Survives(parts)
  {
    SurvivesByComponents(parts);
    KeepOfTrimmed(parts);
    assert Keep(Trimmed(parts))[0] == StripLeft(parts[0]);
  }

  /** A path is still covered by what a second normalization makes of it exactly when it keeps its ends. */
  lemma SurvivesIffEndsKept(parts: seq<string>)
    requires GoodParts(parts) && |parts| > 0
    ensures Survives(parts) <==> KeepsEnds(parts)
  {
    if |parts| == 1 {
      assert parts == [parts[0]];
      OneComponent(parts[0]);
    } else if StripLeft(parts[0]) == parts[0] {
      FirstStays(parts);
    } else if Vanished(StripLeft(parts[0])) {
      FirstVanishes(parts);
    } else {
      FirstChanges(parts);
    }
  }

  /** Something besides blanks and dots. */
  predicate Solid(part: string) {
    exists i :: 0 <= i < |part| && !IsBlank(part[i]) && part[i] != '.'
  }

  lemma {:induction false} SolidStripLeft(part: string)
    requires Solid(part)
    ensures Solid(StripLeft(part))
  {
    if part != "" && IsBlank(part[0]) {
      var i :| 0 <= i < |part| && !IsBlank(part[i]) && part[i] != '.';
      assert part[1..][i - 1] == part[i];
      SolidStripLeft(part[1..]);
    }
  }

  lemma {:induction false} SolidStripRight(part: string)
    requires Solid(part)
    ensures Solid(StripRight(part))
  {
    if part != "" && IsBlank(part[|part| - 1]) {
      var i :| 0 <= i < |part| && !IsBlank(part[i]) && part[i] != '.';
      assert part[..|part| - 1][i] == part[i];
      SolidStripRight(part[..|part| - 1]);
    }
  }

  lemma SolidStaysSolid(part: string)
    requires Solid(part)
    ensures !Vanished(Strip(part)) && !Vanished(StripLeft(part)) && !Vanished(StripRight(part))
  {
    SolidStripLeft(part);
    SolidStripRight(StripLeft(part));
    SolidStripRight(part);
  }

  lemma TrimmedSame(parts: seq<string>)
    requires |parts| >= 2
    ensures var n := |parts| - 1;
            Trimmed(parts) == parts <==> StripLeft(parts[0]) == parts[0] && StripRight(parts[n]) == parts[n]
  {
    var n := |parts| - 1;
    assert parts == [parts[0]] + parts[1..n] + [parts[n]];
    assert Trimmed(parts)[0] == StripLeft(parts[0]) && Trimmed(parts)[n] == StripRight(parts[n]);
  }

  lemma StripSame(parts: seq<string>)
    requires |parts| > 0 && SlashFreeParts(parts)
    ensures Strip(Join(parts)) == Join(parts) <==> Trimmed(parts) == parts
  {
    StripJoin(parts);
    TrimmedSlashFree(parts);
    SplitJoin(parts);
    SplitJoin(Trimmed(parts));
  }

  /** A path with no blank at its ends keeps them; between solid end components that is the only way. */
  lemma EndsKeptWithoutBlanks(parts: seq<string>)
    requires GoodParts(parts) && |parts| > 0
    ensures Strip(Join(parts)) == Join(parts) ==> KeepsEnds(parts)
    ensures Solid(parts[0]) && Solid(parts[|parts| - 1]) ==> (KeepsEnds(parts) <==> Strip(Join(parts)) == Join(parts))
  {
    StripSame(parts);
    if |parts| >= 2 {
      TrimmedSame(parts);
    } else {
      assert parts == [parts[0]] && Trimmed(parts) == [Strip(parts[0])];
    }
    if Solid(parts[0]) && Solid(parts[|parts| - 1]) {
      SolidStaysSolid(parts[0]);
      SolidStaysSolid(parts[|parts| - 1]);
    }
  }
}
