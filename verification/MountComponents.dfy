/** The root of a write scope, told by its components (tankai/dev_orchestrator/container_runtime.py). */
module MountComponents {
  import opened Common
  import opened RepoPaths
  import opened PathEdges
  import opened ScopeOverlap
  import opened WritableRoots

  /** The components before the first one that holds a wildcard. */
  function WholeParts(parts: seq<string>): seq<string> {
    if |parts| == 0 || FirstWildcard(parts[0]) < |parts[0]| then [] else [parts[0]] + WholeParts(parts[1..])
  }

  /**
   * The directory mounted for a scope: its components before the first wildcard; without one the path itself when it
   * exists, and otherwise its parent.
   */
  function MountParts(parts: seq<string>, onDisk: bool): seq<string> {
    if HasWildcard(parts) then WholeParts(parts)
    else if onDisk || |parts| == 0 then parts
    else parts[..|parts| - 1]
  }

  lemma {:induction false} ParentBySplit(s: string)
    ensures Parent(s) == Join(Split(s)[..|Split(s)| - 1])
  {
    var r := Parent(s);
    if exists i :: 0 <= i < |s| && s[i] == '/' {
      LastSlash(s);
    } else {
      NoSlashNoParent(s);
      SplitSlashFree(s);
    }
  }

  lemma {:induction false} NoSlashNoParent(s: string)
    requires SlashFree(s)
    ensures Parent(s) == ""
  {
    if s != "" {
      NoSlashNoParent(s[..|s| - 1]);
    }
  }

  /** Around its last slash a path is its parent and a last component. */
  lemma LastSlash(s: string)
    requires exists i :: 0 <= i < |s| && s[i] == '/'
    ensures Parent(s) == Join(Split(s)[..|Split(s)| - 1])
  {
    var a, b := AtLastSlash(s);
    SplitAtSlash(a, b);
    SplitSlashFree(b);
    JoinSplit(a);
    assert Split(s)[..|Split(s)| - 1] == Split(a);
  }

  lemma {:induction false} AtLastSlash(s: string) returns (a: string, b: string)
    requires exists i :: 0 <= i < |s| && s[i] == '/'
    ensures s == a + "/" + b && SlashFree(b) && Parent(s) == a
  {
    var n := |s| - 1;
    if s[n] == '/' {
      a, b := s[..n], "";
    } else {
      var front := s[..n];
      var i :| 0 <= i < |s| && s[i] == '/';
      assert front[i] == '/';
      var c;
      a, c := AtLastSlash(front);
      b := c + [s[n]];
      assert s == front + [s[n]];
    }
  }

  /** What stands before the first wildcard of a path. */
  function Before(path: string): string {
    path[..FirstWildcard(path)]
  }

  /** The same in components: the whole ones and the start of the next. */
  function PartsBefore(parts: seq<string>): seq<string>
    requires HasWildcard(parts)
  {
    var n := |WholeParts(parts)|;
    WholeIsShorter(parts);
    parts[..n] + [Before(parts[n])]
  }

  lemma {:induction false} WholeIsShorter(parts: seq<string>)
    requires HasWildcard(parts)
    ensures var n := |WholeParts(parts)|;
            n < |parts| && WholeParts(parts) == parts[..n] && FirstWildcard(parts[n]) < |parts[n]|
  {
    if FirstWildcard(parts[0]) == |parts[0]| {
      WildcardInTail(parts);
      WholeIsShorter(parts[1..]);
      var n := |WholeParts(parts[1..])|;
      assert parts[..n + 1] == [parts[0]] + parts[1..][..n];
    }
  }

  lemma PrefixWithin(p: string, x: string, w: nat)
    requires w <= |p|
    ensures (p + "/" + x)[..w] == p[..w]
  {
  }

  lemma BeforeAt(path: string, w: nat, text: string)
    requires FirstWildcard(path) == w && path[..w] == text
    ensures Before(path) == text
  {
  }

  lemma BeforeHere(p: string, x: string)
    requires FirstWildcard(p) < |p|
    ensures Before(p + "/" + x) == Before(p)
  {
    WildcardHere(p, x);
    PrefixWithin(p, x, FirstWildcard(p));
    BeforeAt(p + "/" + x, FirstWildcard(p), Before(p));
  }

  lemma BeforeAfter(p: string, x: string)
    requires FirstWildcard(p) == |p|
    ensures Before(p + "/" + x) == p + "/" + Before(x)
  {
    WildcardAfter(p, x);
    PrefixAfter(p, x, FirstWildcard(x));
  }

  lemma PartsBeforeHere(parts: seq<string>)
    requires HasWildcard(parts) && FirstWildcard(parts[0]) < |parts[0]|
    ensures PartsBefore(parts) == [Before(parts[0])]
  {
    assert |WholeParts(parts)| == 0;
    assert parts[..0] == [];
  }

  lemma PartsBeforeAfter(parts: seq<string>)
    requires HasWildcard(parts) && FirstWildcard(parts[0]) == |parts[0]|
    ensures HasWildcard(parts[1..]) && PartsBefore(parts) == [parts[0]] + PartsBefore(parts[1..])
  {
    WildcardInTail(parts);
    var n := |WholeParts(parts[1..])|;
    WholeIsShorter(parts[1..]);
    assert |WholeParts(parts)| == n + 1;
    assert parts[..n + 1] == [parts[0]] + parts[1..][..n];
    assert parts[n + 1] == parts[1..][n];
  }

  /** Everything before the first wildcard of a path is those components. */
  lemma {:induction false} TextByParts(parts: seq<string>)
    requires HasWildcard(parts)
    ensures Before(Join(parts)) == Join(PartsBefore(parts))
  {
    var p, rest := parts[0], parts[1..];
    if FirstWildcard(p) < |p| {
      PartsBeforeHere(parts);
      if |rest| > 0 {
        BeforeHere(p, Join(rest));
      }
    } else {
      PartsBeforeAfter(parts);
      TextByParts(rest);
      BeforeAfter(p, Join(rest));
      JoinOneFirst(p, PartsBefore(rest));
    }
  }

  lemma {:induction false} SlashFreePrefix(p: string, w: nat)
    requires SlashFree(p) && w <= |p|
    ensures SlashFree(p[..w])
  {
  }

  /** The directory of a scope is just its mount components: no wider than the wildcards and the file system make it. */
  lemma RawRootByParts(parts: seq<string>, present: string -> bool)
    requires GoodParts(parts)
    ensures RawRoot(Join(parts), present) == Join(MountParts(parts, present(Join(parts))))
  {
    var path := Join(parts);
    AnchorText(parts);
    JoinTidy(parts);
    if HasWildcard(parts) {
      TextByParts(parts);
      WholeIsShorter(parts);
      var n, text := |WholeParts(parts)|, PartsBefore(parts);
      SlashFreePrefix(parts[n], FirstWildcard(parts[n]));
      RawRootIsParent(path, present);
      ParentBySplit(Join(text));
      SplitJoin(text);
      assert text[..n] == parts[..n];
    } else if !present(path) {
      ParentBySplit(path);
      if |parts| > 0 {
        SplitJoin(parts);
      } else {
        SplitSlashFree("");
        assert Parent("") == "";
      }
    }
  }

  /** The mounted root of a scope whose directory keeps its ends is exactly that directory, or a part of it that disappears. */
  lemma RootByParts(scope: string, present: string -> bool)
    requires Normalize(scope).Ok?
    ensures var n, parts := Normalize(scope).value, NormalParts(scope).value;
            var mount := Join(MountParts(parts, present(n)));
            && (mount == "" ==> ScopeRoot(scope, present) == Ok(""))
            && (mount != "" && Strip(mount) == mount ==> ScopeRoot(scope, present) == Ok(mount))
  {
    var parts := NormalParts(scope).value;
    NormalPartsAreGood(scope);
    RawRootByParts(parts, present);
    var raw := RawRoot(Normalize(scope).value, present);
    if raw != "" && Strip(raw) == raw {
      RootComponentsAreGood(scope, present);
      var components := RootComponents(scope, present);
      NormalizeJoin(components);
      StripSame(components);
      KeepGood(components);
      assert components[0] != "";
    }
  }
}
