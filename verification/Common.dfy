/** Result types shared by every module. */
module Common {

  datatype Option<+T> = None | Some(value: T)

  datatype Result<+T, +E> = Ok(value: T) | Err(error: E)

  function Max(a: int, b: int): int {
    if a < b then b else a
  }

  function Min(a: int, b: int): int {
    if a < b then a else b
  }

  lemma SubsetSize<T>(a: set<T>, b: set<T>)
    requires a <= b
    ensures |a| <= |b|
  {
    assert b == a + (b - a);
  }

  /** What checking one item after the other reports first. */
  function FirstError<T, E>(items: seq<T>, check: T -> Option<E>): Option<E> {
    if |items| == 0 then None
    else
      var front := FirstError(items[..|items| - 1], check);
      if front.Some? then front else check(items[|items| - 1])
  }

  lemma {:induction false} FirstErrorNone<T, E>(items: seq<T>, check: T -> Option<E>)
    ensures FirstError(items, check).None? <==> forall x :: x in items ==> check(x).None?
  {
    if |items| > 0 {
      var n := |items| - 1;
      FirstErrorNone(items[..n], check);
      assert items == items[..n] + [items[n]];
    }
  }

  /** A check that failed on a prefix fails alike on the whole list. */
  lemma {:induction false} FirstErrorOfPrefix<T, E>(items: seq<T>, check: T -> Option<E>, k: nat)
    requires k <= |items| && FirstError(items[..k], check).Some?
    ensures FirstError(items, check) == FirstError(items[..k], check)
  {
    if k == |items| {
      assert items[..k] == items;
    } else {
      assert items[..|items| - 1][..k] == items[..k];
      FirstErrorOfPrefix(items[..|items| - 1], check, k);
    }
  }
}
