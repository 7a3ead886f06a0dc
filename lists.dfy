/** Python list behaviour the message board relies on: membership by
    identity, no duplicates, and `list.remove`, which deletes the first
    element equal to its argument. */
module Lists {

  /** No element occurs twice. */
  predicate NoDup<T(==)>(s: seq<T>) {
    forall i, j | 0 <= i < j < |s| :: s[i] != s[j]
  }

  /** The position of the first occurrence of `x` in `s`. */
  function IndexOf<T(==)>(s: seq<T>, x: T): (i: nat)
    requires x in s
    ensures i < |s| && s[i] == x
    ensures x !in s[..i]
  {
    if s[0] == x then 0
    else
      assert x in s[1..];
      1 + IndexOf(s[1..], x)
  }

  /** `s.remove(x)` on a Python list: the first `x` is dropped, the other
      elements keep their order, and a list without `x` is left as it is
      (where Python raises ValueError, which the caller catches). */
  function RemoveFirst<T(==)>(s: seq<T>, x: T): (r: seq<T>)
    ensures x !in s ==> r == s
    ensures x in s ==> r == s[..IndexOf(s, x)] + s[IndexOf(s, x) + 1..]
  {
    if s == [] then []
    else if s[0] == x then
      assert s == [s[0]] + s[1..];
      s[1..]
    else
      var t := s[1..];
      assert s == [s[0]] + t;
      var r' := RemoveFirst(t, x);
      assert x in s ==>
        (x in t && IndexOf(s, x) == 1 + IndexOf(t, x)
         && s[..IndexOf(s, x)] == [s[0]] + t[..IndexOf(t, x)]
         && s[IndexOf(s, x) + 1..] == t[IndexOf(t, x) + 1..]);
      assert x !in s ==> x !in t;
      [s[0]] + r'
  }

  /** Removing from a duplicate-free list keeps it duplicate-free and
      leaves no copy of the removed element behind. */
  lemma RemoveFirstNoDup<T>(s: seq<T>, x: T)
    requires NoDup(s)
    ensures NoDup(RemoveFirst(s, x))
    ensures x !in RemoveFirst(s, x)
  {
    if x in s {
      var i := IndexOf(s, x);
      var r := RemoveFirst(s, x);
      assert |r| == |s| - 1;
      assert forall k | 0 <= k < |r| :: r[k] == s[if k < i then k else k + 1];
      forall a, b | 0 <= a < b < |r| ensures r[a] != r[b] {
        assert r[a] == s[if a < i then a else a + 1];
        assert r[b] == s[if b < i then b else b + 1];
      }
      forall k | 0 <= k < |r| ensures r[k] != x {
        assert r[k] == s[if k < i then k else k + 1];
      }
    }
  }

  /** Removing an element that was just appended to a list not holding it
      gives back the original list. */
  lemma {:induction false} RemoveFirstAppended<T>(s: seq<T>, x: T)
    requires x !in s
    ensures RemoveFirst(s + [x], x) == s
  {
    if s != [] {
      assert (s + [x])[0] == s[0];
      assert (s + [x])[1..] == s[1..] + [x];
      RemoveFirstAppended(s[1..], x);
    } else {
      assert s + [x] == [x];
    }
  }
}
