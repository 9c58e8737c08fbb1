/** The operations `GameManager` performs on its `List<Enemy>`, as functions
    on sequences: `Add` appends, `Remove` deletes the first element equal to
    its argument and does nothing when there is none. */
module EnemyList {

  /** `List<T>.Add(x)`. */
  function Append<T>(s: seq<T>, x: T): (r: seq<T>)
    ensures |r| == |s| + 1 && r[..|s|] == s && r[|s|] == x
  {
    s + [x]
  }

  /** `List<T>.Remove(x)`: the list without its first `x`, unchanged if `x`
      does not occur. */
  function RemoveFirst<T(==)>(s: seq<T>, x: T): (r: seq<T>)
    ensures x !in s ==> r == s
    ensures x in s ==> |r| == |s| - 1
  {
    if s == [] then []
    else
      assert s == [s[0]] + s[1..];
      if s[0] == x then s[1..] else [s[0]] + RemoveFirst(s[1..], x)
  }

  /** When `i` is the first index holding `x`, `RemoveFirst` deletes exactly
      the element at `i` and keeps every other element in its order. */
  lemma {:induction false} RemoveFirstAt<T>(s: seq<T>, x: T, i: nat)
    requires i < |s| && s[i] == x && x !in s[..i]
    ensures RemoveFirst(s, x) == s[..i] + s[i + 1..]
  {
    if i > 0 {
      var t := s[1..];
      assert s[0] != x by { assert s[0] == s[..i][0]; }
      assert t[..i - 1] == s[1..i];
      assert s[..i] == [s[0]] + t[..i - 1];
      RemoveFirstAt(t, x, i - 1);
      assert RemoveFirst(s, x) == [s[0]] + (t[..i - 1] + t[i..]);
      assert [s[0]] + t[..i - 1] == s[..i];
      assert t[i..] == s[i + 1..];
    }
  }

  /** Registering a fresh enemy and then deregistering it restores the list
      exactly: same members, same order. */
  lemma {:induction false} AppendThenRemove<T>(s: seq<T>, x: T)
    requires x !in s
    ensures RemoveFirst(Append(s, x), x) == s
  {
    if s != [] {
      assert Append(s, x)[1..] == Append(s[1..], x);
      AppendThenRemove(s[1..], x);
    }
  }

  /** `RemoveFirst` takes away exactly one copy of `x`, if there is one, and
      nothing else. */
  lemma {:induction false} RemoveFirstMultiset<T>(s: seq<T>, x: T)
    ensures multiset(RemoveFirst(s, x)) == multiset(s) - multiset{x}
  {
    if s != [] {
      assert s == [s[0]] + s[1..];
      if s[0] != x {
        RemoveFirstMultiset(s[1..], x);
      }
    }
  }

  /** Deregistering twice is deregistering once, as long as the enemy was
      registered at most once. */
  lemma RemoveTwice<T>(s: seq<T>, x: T)
    requires multiset(s)[x] <= 1
    ensures RemoveFirst(RemoveFirst(s, x), x) == RemoveFirst(s, x)
  {
    RemoveFirstMultiset(s, x);
    var r := RemoveFirst(s, x);
    assert multiset(r)[x] == 0;
  }
}
