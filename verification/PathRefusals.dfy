/** Which paths are refused (tankai/dev_orchestrator/orchestrator.py, lines 54-68). */
module PathRefusals {
  import opened Common
  import opened RepoPaths

  predicate Separator(c: char) {
    c == '/' || c == '\\'
  }

  /** Two dots stand here between separators or ends. */
  predicate DotDotAt(s: string, i: int) {
    && 0 <= i && i + 2 <= |s| && s[i] == '.' && s[i + 1] == '.'
    && (i == 0 || Separator(s[i - 1])) && (i + 2 == |s| || Separator(s[i + 2]))
  }

  ghost predicate GoesUp(s: string) {
    exists i :: DotDotAt(s, i)
  }

  predicate Forward(s: string) {
    forall i :: 0 <= i < |s| ==> s[i] != '\\'
  }

  lemma {:induction false} FirstSlash(s: string) returns (k: nat)
    requires !SlashFree(s)
    ensures k < |s| && s[k] == '/' && SlashFree(s[..k])
  {
    if s[0] == '/' {
      k := 0;
    } else {
      var i :| 0 <= i < |s| && s[i] == '/';
      assert s[1..][i - 1] == '/';
      var m := FirstSlash(s[1..]);
      k := m + 1;
      assert forall n :: 0 < n < k ==> s[n] == s[1..][..m][n - 1];
    }
  }

  lemma GoesUpBehind(a: string, b: string)
    requires SlashFree(a) && Forward(a)
    ensures GoesUp(a + "/" + b) <==> a == ".." || GoesUp(b)
  {
    var s, k := a + "/" + b, |a|;
    assert (forall i :: 0 <= i < k ==> s[i] == a[i]) && s[k] == '/' && forall i :: 0 <= i < |b| ==> s[k + 1 + i] == b[i];
    if a == ".." {
      assert DotDotAt(s, 0);
    }
    if i :| DotDotAt(b, i) {
      assert DotDotAt(s, k + 1 + i);
    }
    if i :| DotDotAt(s, i) {
      if i > k {
        assert DotDotAt(b, i - k - 1);
      } else {
        assert i == 0 && k == 2;
      }
    }
  }

  lemma {:induction false} DotDotBySplit(s: string)
    requires Forward(s)
    ensures ".." in Split(s) <==> GoesUp(s)
  {
    if SlashFree(s) {
      SplitSlashFree(s);
      if s == ".." {
        assert DotDotAt(s, 0);
      }
    } else {
      var k := FirstSlash(s);
      var a, b := s[..k], s[k + 1..];
      assert s == a + "/" + b;
      SplitAtSlash(a, b);
      SplitSlashFree(a);
      DotDotBySplit(b);
      GoesUpBehind(a, b);
    }
  }

  lemma {:induction false} KeepsDotDot(parts: seq<string>)
    ensures ".." in Keep(parts) <==> ".." in parts
  {
    if |parts| > 0 {
      KeepsDotDot(parts[1..]);
      assert parts == [parts[0]] + parts[1..];
    }
  }

  lemma ForwardGoesUp(s: string)
    ensures GoesUp(ForwardSlashes(s)) <==> GoesUp(s)
  {
    var r := ForwardSlashes(s);
    assert forall i :: DotDotAt(r, i) <==> DotDotAt(s, i);
  }

  /** Blanks on both sides and nothing else are taken off. */
  lemma StripTakesBlanks(s: string) returns (left: string, right: string)
    ensures s == left + Strip(s) + right
    ensures (forall c :: c in left || c in right ==> IsBlank(c))
    ensures Strip(s) != "" ==> !IsBlank(Strip(s)[0]) && !IsBlank(Strip(s)[|Strip(s)| - 1])
  {
    left := LeftBlanks(s);
    right := RightBlanks(StripLeft(s));
  }

  lemma {:induction false} LeftBlanks(s: string) returns (left: string)
    ensures s == left + StripLeft(s) && (forall c :: c in left ==> IsBlank(c))
    ensures StripLeft(s) != "" ==> !IsBlank(StripLeft(s)[0])
  {
    left := "";
    if s != "" && IsBlank(s[0]) {
      var rest := LeftBlanks(s[1..]);
      left := [s[0]] + rest;
    }
  }

  lemma {:induction false} RightBlanks(s: string) returns (right: string)
    ensures s == StripRight(s) + right && (forall c :: c in right ==> IsBlank(c))
    ensures StripRight(s) != "" ==> StripRight(s)[0] == s[0] && !IsBlank(StripRight(s)[|StripRight(s)| - 1])
  {
    right := "";
    if s != "" && IsBlank(s[|s| - 1]) {
      var rest := RightBlanks(s[..|s| - 1]);
      right := rest + [s[|s| - 1]];
    }
  }

  predicate Printable(value: string) {
    forall i :: 0 <= i < |value| ==> 32 <= value[i] as int != 127
  }

  /** A path with a character below 32 or the character 127 is refused before anything else is looked at. */
  lemma RefusedForControl(value: string)
    ensures Normalize(value) == Err(ControlCharacter) <==> !Printable(value)
  {
    assert forall i :: 0 <= i < |value| ==> (IsControl(value[i]) <==> !(32 <= value[i] as int != 127));
  }

  /** Among the others, it is unsafe exactly when two dots stand between separators or the ends of the stripped path. */
  lemma UnsafeIffItGoesUp(value: string)
    requires Printable(value)
    ensures Normalize(value) == Err(UnsafePath) <==> GoesUp(Strip(value))
  {
    var raw := ForwardSlashes(Strip(value));
    RefusedForControl(value);
    DotDotBySplit(raw);
    KeepsDotDot(Split(raw));
    ForwardGoesUp(Strip(value));
    if i :| DotDotAt(raw, i) {
      assert raw[i] != '/';
    }
  }
}
