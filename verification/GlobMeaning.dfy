/** What a glob accepts, piece by piece (`fnmatch`, as orchestrator.py uses it for write scopes). */
module GlobMeaning {
  import opened Common
  import opened RepoPaths

  /** The first `k` characters match the one pattern and the rest the other. */
  predicate SplitsAt(path: string, a: string, b: string, rule: ClassRule, k: nat) {
    k <= |path| && Glob(path[..k], a, rule) && Glob(path[k..], b, rule)
  }

  ghost predicate Splits(path: string, a: string, b: string, rule: ClassRule) {
    exists k :: SplitsAt(path, a, b, rule, k)
  }

  lemma NothingFirst(path: string, b: string, rule: ClassRule)
    ensures Splits(path, "", b, rule) <==> Glob(path, b, rule)
  {
    assert path[0..] == path;
    if Glob(path, b, rule) {
      assert SplitsAt(path, "", b, rule, 0);
    }
    if k: nat :| SplitsAt(path, "", b, rule, k) {
      assert k == 0;
    }
  }

  /** A star takes nothing, or one character and then what a star takes. */
  lemma StarFirst(path: string, a: string, b: string, rule: ClassRule)
    requires a != "" && a[0] == '*'
    ensures Splits(path, a, b, rule) <==>
              Splits(path, a[1..], b, rule) || (path != "" && Splits(path[1..], a, b, rule))
  {
    if k: nat :| SplitsAt(path, a[1..], b, rule, k) {
      assert SplitsAt(path, a, b, rule, k);
    }
    if path != "" {
      if k: nat :| SplitsAt(path[1..], a, b, rule, k) {
        OneFurther(path, k);
        assert SplitsAt(path, a, b, rule, k + 1);
      }
    }
    if k: nat :| SplitsAt(path, a, b, rule, k) {
      if Glob(path[..k], a[1..], rule) {
        assert SplitsAt(path, a[1..], b, rule, k);
      } else {
        OneFurther(path, k - 1);
        assert SplitsAt(path[1..], a, b, rule, k - 1);
      }
    }
  }

  lemma OneFurther(path: string, k: nat)
    requires k < |path|
    ensures path[..k + 1] != "" && path[..k + 1][0] == path[0] && path[..k + 1][1..] == path[1..][..k]
    ensures path[k + 1..] == path[1..][k..]
  {
  }

  /** Any other character but an opening bracket takes exactly one. */
  lemma OneFirst(path: string, a: string, b: string, rule: ClassRule)
    requires a != "" && a[0] != '*' && a[0] != '['
    ensures Splits(path, a, b, rule) <==>
              path != "" && (a[0] == '?' || path[0] == a[0]) && Splits(path[1..], a[1..], b, rule)
  {
    if path != "" {
      if k: nat :| SplitsAt(path[1..], a[1..], b, rule, k) {
        OneFurther(path, k);
        if a[0] == '?' || path[0] == a[0] {
          assert SplitsAt(path, a, b, rule, k + 1);
        }
      }
    }
    if k: nat :| SplitsAt(path, a, b, rule, k) {
      assert k > 0;
      OneFurther(path, k - 1);
      assert SplitsAt(path[1..], a[1..], b, rule, k - 1);
    }
  }

  /** Two patterns after each other accept exactly what the first and then the second accepts. */
  lemma {:induction false} GlobConcat(path: string, a: string, b: string, rule: ClassRule)
    requires '[' !in a
    ensures Glob(path, a + b, rule) <==> exists k :: SplitsAt(path, a, b, rule, k)
    decreases |path| + |a|
  {
    if a == "" {
      assert a + b == b;
      NothingFirst(path, b, rule);
    } else {
      assert (a + b)[0] == a[0] && (a + b)[1..] == a[1..] + b;
      if a[0] == '*' {
        GlobConcat(path, a[1..], b, rule);
        if path != "" {
          GlobConcat(path[1..], a, b, rule);
        }
        StarFirst(path, a, b, rule);
      } else {
        if path != "" {
          GlobConcat(path[1..], a[1..], b, rule);
        }
        OneFirst(path, a, b, rule);
      }
    }
  }

  lemma {:induction false} StarTakesAll(path: string, rule: ClassRule)
    ensures Glob(path, "*", rule)
  {
    if path != "" {
      StarTakesAll(path[1..], rule);
    }
  }

  /** The pieces: a star accepts everything, slashes included, a question mark one character, a plain character itself. */
  lemma SinglePieces(path: string, c: char, rule: ClassRule)
    ensures Glob(path, "*", rule) && (Glob(path, "?", rule) <==> |path| == 1)
    ensures c !in {'*', '?', '['} ==> (Glob(path, [c], rule) <==> path == [c])
  {
    StarTakesAll(path, rule);
    assert "?"[1..] == "" && [c][1..] == "";
    if path != "" {
      assert path == [path[0]] + path[1..];
    }
  }

  // ----- brackets -----

  /** What may stand between brackets: not nothing, and a closing bracket only in front, after the mark of a negated class. */
  predicate ClassBody(body: string) {
    var inner := if body != "" && body[0] == '!' then body[1..] else body;
    inner != "" && forall i :: 0 < i < |inner| ==> inner[i] != ']'
  }

  lemma {:induction false} BracketFound(s: string, rest: string)
    requires ']' !in s
    ensures FindBracket(s + "]" + rest) == |s|
  {
    var t := s + "]" + rest;
    if s != "" {
      BracketFound(s[1..], rest);
      assert t[0] == s[0] && t[1..] == s[1..] + "]" + rest;
    }
  }

  lemma ClassEndsThere(body: string, rest: string)
    requires ClassBody(body)
    ensures ClassEnd("[" + body + "]" + rest) == 1 + |body|
  {
    var pat := "[" + body + "]" + rest;
    var j := if body[0] == '!' then 2 else 1;
    assert pat[1] == body[0] && pat[j] == body[j - 1];
    var k := if body[j - 1] == ']' then j + 1 else j;
    assert pat[k..] == body[k - 1..] + "]" + rest;
    BracketFound(body[k - 1..], rest);
  }

  /** A bracket class takes one character that its rule accepts. */
  lemma ClassTakesOne(path: string, body: string, rest: string, rule: ClassRule)
    requires ClassBody(body)
    ensures Glob(path, "[" + body + "]" + rest, rule) <==>
              path != "" && rule(path[0], body) && Glob(path[1..], rest, rule)
  {
    var pat := "[" + body + "]" + rest;
    ClassEndsThere(body, rest);
    assert pat[1..1 + |body|] == body && pat[2 + |body|..] == rest;
  }

  lemma {:induction false} NoBracketFound(s: string)
    requires ']' !in s
    ensures FindBracket(s) == |s|
  {
    if s != "" {
      NoBracketFound(s[1..]);
    }
  }

  /** An opening bracket that is never closed is a plain character. */
  lemma UnclosedIsPlain(path: string, rest: string, rule: ClassRule)
    requires ']' !in rest
    ensures Glob(path, "[" + rest, rule) <==> path != "" && path[0] == '[' && Glob(path[1..], rest, rule)
  {
    var pat := "[" + rest;
    var j := if 1 < |pat| && pat[1] == '!' then 2 else 1;
    assert pat[1..] == rest;
    assert forall i :: 1 <= i < |pat| ==> pat[i] == rest[i - 1];
    NoBracketFound(pat[j..]);
  }
}
