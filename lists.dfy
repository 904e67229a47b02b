/**
 * The two operations of `java.util.List` that the customer aggregate relies on:
 * `add` (append at the end, modelled by `+ [x]`) and `remove(Object)`, which
 * deletes the FIRST element equal to its argument and leaves the list as it was
 * when there is none.
 */
module Lists {

  /** `List.indexOf`: the position of the first occurrence of `x`. */
  function IndexOf<T(==)>(s: seq<T>, x: T): (i: nat)
    requires x in s
    ensures i < |s| && s[i] == x
    ensures x !in s[..i]
  {
    if s[0] == x then 0
    else
      var j := IndexOf(s[1..], x);
      assert s[..j + 1] == [s[0]] + s[1..][..j];
      j + 1
  }

  /** `List.remove(Object)`: deletes the first occurrence of `x`, if any. */
  function RemoveFirst<T(==)>(s: seq<T>, x: T): (r: seq<T>)
    ensures x !in s ==> r == s
    ensures x in s ==> |r| == |s| - 1
    ensures multiset(r) == multiset(s) - multiset{x}
  {
    if |s| == 0 then s
    else if s[0] == x then
      assert s == [s[0]] + s[1..];
      s[1..]
    else
      assert s == [s[0]] + s[1..];
      [s[0]] + RemoveFirst(s[1..], x)
  }

  /** Independent reference definition: removal splices out exactly the element at `IndexOf`,
      so the remaining elements keep their order. */
  lemma {:induction false} RemoveFirstIsSplice<T>(s: seq<T>, x: T)
    requires x in s
    ensures RemoveFirst(s, x) == s[..IndexOf(s, x)] + s[IndexOf(s, x) + 1..]
  {
    if s[0] != x {
      var t, i := s[1..], IndexOf(s, x);
      assert i == IndexOf(t, x) + 1;
      RemoveFirstIsSplice(t, x);
      SpliceCons(s, i);
    }
  }

  /** Splicing out position `i > 0` of `s` keeps the head and splices position `i - 1` of the tail. */
  lemma SpliceCons<T>(s: seq<T>, i: nat)
    requires 0 < i < |s|
    ensures s[..i] + s[i + 1..] == [s[0]] + (s[1..][..i - 1] + s[1..][i..])
  {
    assert s[..i] == [s[0]] + s[1..][..i - 1];
  }

  /** Removing what was just appended (and was not there before) restores the list:
      `remove` undoes `add`. */
  lemma {:induction false} RemoveFirstUndoesAppend<T>(s: seq<T>, x: T)
    requires x !in s
    ensures RemoveFirst(s + [x], x) == s
  {
    if s != [] {
      assert (s + [x])[1..] == s[1..] + [x];
      RemoveFirstUndoesAppend(s[1..], x);
    }
  }

  /** No copy of `x` is left after the removal exactly when `x` was listed at most once. */
  lemma RemoveFirstLeavesNoCopy<T>(s: seq<T>, x: T)
    ensures x !in RemoveFirst(s, x) <==> multiset(s)[x] <= 1
  {
    assert x in RemoveFirst(s, x) <==> x in multiset(RemoveFirst(s, x));
  }

  /** Every element left after a removal was in the original list. */
  lemma RemainingWereListed<T>(s: seq<T>, x: T)
    ensures forall y :: y in RemoveFirst(s, x) ==> y in s
  {
    forall y | y in RemoveFirst(s, x) ensures y in s {
      assert y in multiset(RemoveFirst(s, x));
    }
  }
}
