/** The Python list operations the handlers apply to `pending` and to `buyers`. */
module Lists {

  /** No element occurs twice: the invariant the buyer lists are meant to keep. */
  predicate NoDuplicates<T(==)>(s: seq<T>) {
    forall i, j :: 0 <= i < j < |s| ==> s[i] != s[j]
  }

  /**
   * Python's `s.remove(x)`: drops the FIRST element equal to `x`. Python
   * raises `ValueError` when `x` is absent; every caller checks membership first.
   */
  function RemoveFirst<T(==)>(s: seq<T>, x: T): (r: seq<T>)
    requires x in s
    ensures |r| == |s| - 1
  {
    if s[0] == x then s[1..] else [s[0]] + RemoveFirst(s[1..], x)
  }

  /** `remove` takes out one copy of `x` and nothing else. */
  lemma {:induction false} RemoveFirstMultiset<T>(s: seq<T>, x: T)
    requires x in s
    ensures multiset(RemoveFirst(s, x)) == multiset(s) - multiset{x}
  {
    assert s == [s[0]] + s[1..];
    if s[0] != x {
      RemoveFirstMultiset(s[1..], x);
    }
  }

  /**
   * When index `i` holds the first occurrence of `x`, removing `x` cuts out
   * exactly position `i` and leaves every other element in its order.
   */
  lemma {:induction false} RemoveFirstAt<T>(s: seq<T>, i: nat, x: T)
    requires i < |s| && s[i] == x
    requires forall k :: 0 <= k < i ==> s[k] != x
    ensures RemoveFirst(s, x) == s[..i] + s[i + 1..]
  {
    if i == 0 {
      assert s[..0] + s[1..] == s[1..];
    } else {
      var t := s[1..];
      RemoveFirstAt(t, i - 1, x);
      assert t[..i - 1] + t[i..] == s[1..i] + s[i + 1..];
      assert s[..i] == [s[0]] + s[1..i];
    }
  }

  /** On a duplicate-free list, `remove` takes `x` out entirely and keeps the list duplicate-free. */
  lemma {:induction false} RemoveFirstNoDuplicates<T>(s: seq<T>, x: T)
    requires x in s && NoDuplicates(s)
    ensures x !in RemoveFirst(s, x)
    ensures NoDuplicates(RemoveFirst(s, x))
  {
    if s[0] == x {
      assert forall k :: 0 <= k < |s| - 1 ==> s[1..][k] == s[k + 1] != s[0];
    } else {
      var rest := RemoveFirst(s[1..], x);
      RemoveFirstNoDuplicates(s[1..], x);
      assert s[0] !in s[1..] by {
        assert forall k :: 0 <= k < |s| - 1 ==> s[1..][k] == s[k + 1] != s[0];
      }
      assert s[0] !in rest by {
        RemoveFirstMultiset(s[1..], x);
        assert s[0] !in multiset(s[1..]);
        assert multiset(rest) <= multiset(s[1..]);
        assert s[0] !in multiset(rest);
      }
      var r := [s[0]] + rest;
      assert forall k :: 0 <= k < |rest| ==> r[k + 1] == rest[k];
    }
  }
}
