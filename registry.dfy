/**
 * The listener list of the gateway: `list.append` on registration and the
 * `_remove` closure's `if listener in l: l.remove(listener)`.
 */
module Registry {

  /** A registered callback, compared by identity as Python compares callables. */
  datatype Listener = Listener(id: nat)

  /** `l.remove(x)` guarded by `x in l`: drop the first occurrence of `x`, if there is one. */
  function RemoveFirst<T(==)>(s: seq<T>, x: T): (r: seq<T>)
    ensures x !in s ==> r == s
    ensures x in s ==> |r| == |s| - 1
  {
    if s == [] then []
    else if s[0] == x then s[1..]
    else [s[0]] + RemoveFirst(s[1..], x)
  }

  /** Removal takes away exactly one occurrence of `x`, or nothing when there is none. */
  lemma {:induction false} RemoveFirstCount<T>(s: seq<T>, x: T)
    ensures multiset(RemoveFirst(s, x)) == multiset(s) - multiset{x}
  {
    if s != [] {
      assert s == [s[0]] + s[1..];
      if s[0] != x {
        RemoveFirstCount(s[1..], x);
      }
    }
  }

  /** What the first removal keeps: the elements before the first `x`, then those after it. */
  lemma {:induction false} RemoveFirstAt<T>(s: seq<T>, x: T, i: nat)
    requires i < |s| && s[i] == x && x !in s[..i]
    ensures RemoveFirst(s, x) == s[..i] + s[i + 1..]
  {
    if i > 0 {
      var t := s[1..];
      assert s[..i] == [s[0]] + t[..i - 1];
      RemoveFirstAt(t, x, i - 1);
      assert t[i..] == s[i + 1..];
      assert s[..i] + s[i + 1..] == [s[0]] + (t[..i - 1] + t[i..]);
    }
  }

  /** Removing right after registering a listener not yet in the list restores the list. */
  lemma RegisterThenRemove<T>(s: seq<T>, x: T)
    requires x !in s
    ensures RemoveFirst(s + [x], x) == s
  {
    RemoveFirstAt(s + [x], x, |s|);
    assert (s + [x])[..|s|] == s;
  }

  /** A listener registered once is absent after its removal. */
  lemma RemovedOnceRegistered<T>(s: seq<T>, x: T)
    requires multiset(s)[x] == 1
    ensures x !in RemoveFirst(s, x)
    ensures multiset(RemoveFirst(s, x))[x] == 0
  {
    RemoveFirstCount(s, x);
  }
}
