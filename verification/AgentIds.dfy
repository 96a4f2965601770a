/** Generated agent ids such as AGENT_QA_03 (tankai/dev_orchestrator/orchestrator.py, lines 1489-1499). */
module AgentIds {

  function Upper(s: string): (r: string)
    ensures |r| == |s|
  {
    seq(|s|, i requires 0 <= i < |s| => if 'a' <= s[i] <= 'z' then (s[i] as int - 32) as char else s[i])
  }

  function Prefix(role: string): string {
    "AGENT_" + Upper(role) + "_"
  }

  predicate Digits(s: string) {
    s != "" && forall i :: 0 <= i < |s| ==> '0' <= s[i] <= '9'
  }

  /** `int(s)` of a string of digits. */
  function Parse(s: string): nat
    requires forall i :: 0 <= i < |s| ==> '0' <= s[i] <= '9'
  {
    if s == "" then 0 else 10 * Parse(s[..|s| - 1]) + (s[|s| - 1] as int - '0' as int)
  }

  function Print(n: nat): string {
    var last := [('0' as int + n % 10) as char];
    if n < 10 then last else Print(n / 10) + last
  }

  /** `f"{n:02d}"`. */
  function Print2(n: nat): string {
    if n < 10 then "0" + Print(n) else Print(n)
  }

  lemma {:induction false} ParsePrint(n: nat)
    ensures Digits(Print(n)) && Parse(Print(n)) == n
  {
    var last := [('0' as int + n % 10) as char];
    if n >= 10 {
      ParsePrint(n / 10);
      assert (Print(n / 10) + last)[..|Print(n / 10)|] == Print(n / 10);
    } else {
      assert last[..0] == "" && Parse(last[..0]) == 0;
    }
  }

  /** Reading a printed number gives it back, with or without the padding zero. */
  lemma ParsePrint2(n: nat)
    ensures Digits(Print2(n)) && Parse(Print2(n)) == n
  {
    ParsePrint(n);
    if n < 10 {
      var s := Print2(n);
      assert |s| == 2 && s[..1] == "0" && s[..1][..0] == "";
      assert Parse(s[..1]) == 0;
    }
  }

  /** The id carries this number behind the prefix of its role. */
  predicate Numbered(id: string, prefix: string, n: nat) {
    |prefix| <= |id| && id[..|prefix|] == prefix && Digits(id[|prefix|..]) && Parse(id[|prefix|..]) == n
  }

  /** The number of the id, if it has one, is at most `n`. */
  predicate AtMost(id: string, prefix: string, n: nat) {
    |prefix| <= |id| && id[..|prefix|] == prefix && Digits(id[|prefix|..]) ==> Parse(id[|prefix|..]) <= n
  }

  ghost predicate InUse(ids: set<string>, prefix: string, n: nat) {
    exists a :: a in ids && Numbered(a, prefix, n)
  }

  /** `n` is the largest number in use, or zero. */
  ghost predicate Largest(ids: set<string>, prefix: string, n: nat) {
    (n == 0 || InUse(ids, prefix, n)) && forall a :: a in ids ==> AtMost(a, prefix, n)
  }

  lemma NextIsFree(ids: set<string>, prefix: string, n: nat)
    requires Largest(ids, prefix, n)
    ensures prefix + Print2(n + 1) !in ids
  {
    var id := prefix + Print2(n + 1);
    ParsePrint2(n + 1);
    assert id[..|prefix|] == prefix && id[|prefix|..] == Print2(n + 1);
    assert !AtMost(id, prefix, n);
  }

  /** The next number after the largest in use; no agent has the resulting id. */
  method NextAgentId(ids: set<string>, role: string) returns (id: string)
    ensures id !in ids
    ensures exists n: nat :: Largest(ids, Prefix(role), n) && id == Prefix(role) + Print2(n + 1)
  {
    var prefix, rest, n := Prefix(role), ids, 0;
    while rest != {}
      invariant rest <= ids
      invariant forall a :: a in ids && a !in rest ==> AtMost(a, prefix, n)
      invariant n == 0 || InUse(ids, prefix, n)
      decreases |rest|
    {
      var a :| a in rest;
      rest := rest - {a};
      if |prefix| <= |a| && a[..|prefix|] == prefix && Digits(a[|prefix|..]) {
        var k := Parse(a[|prefix|..]);
        assert Numbered(a, prefix, k);
        if k > n {
          n := k;
        }
      }
    }
    id := prefix + Print2(n + 1);
    assert Largest(ids, prefix, n);
    NextIsFree(ids, prefix, n);
  }
}
