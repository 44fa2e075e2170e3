/**
 * Newest-first ordering, the `$sort: {createdAt: -1}` stage shared by the
 * order listings and the notification listing.
 */
module Listing {

  /** `s` is ordered by non-increasing `key` (newest first). */
  predicate NewestFirst<T>(s: seq<T>, key: T -> int) {
    forall i, j :: 0 <= i < j < |s| ==> key(s[i]) >= key(s[j])
  }

  /** Putting an element no older than the head in front keeps the order. */
  lemma PrependNewest<T>(h: T, t: seq<T>, key: T -> int)
    requires NewestFirst(t, key) && (t != [] ==> key(t[0]) <= key(h))
    ensures NewestFirst([h] + t, key)
  {
    forall i, j | 0 <= i < j < |[h] + t| ensures key(([h] + t)[i]) >= key(([h] + t)[j]) {
      if i == 0 {
        assert key(t[0]) >= key(t[j - 1]);
      }
    }
  }

  /** The recursive step of Insert: the old head goes back in front of the
      insertion into the tail. */
  lemma InsertStep<T>(x: T, s: seq<T>, rest: seq<T>, key: T -> int)
    requires NewestFirst(s, key) && s != [] && key(x) < key(s[0])
    requires NewestFirst(rest, key) && |rest| == |s|
    requires multiset(rest) == multiset(s[1..]) + multiset{x}
    requires rest[0] == x || (|s| > 1 && rest[0] == s[1])
    ensures NewestFirst([s[0]] + rest, key)
    ensures multiset([s[0]] + rest) == multiset(s) + multiset{x}
  {
    assert s == [s[0]] + s[1..];
    assert rest[0] == x || key(rest[0]) == key(s[1]) <= key(s[0]);
    PrependNewest(s[0], rest, key);
  }

  /** Inserts `x` into a newest-first sequence, keeping it newest-first. */
  function Insert<T>(x: T, s: seq<T>, key: T -> int): (r: seq<T>)
    requires NewestFirst(s, key)
    ensures NewestFirst(r, key)
    ensures multiset(r) == multiset(s) + multiset{x}
    ensures |r| == |s| + 1
    ensures r[0] == x || (s != [] && r[0] == s[0])
  {
    if s == [] || key(x) >= key(s[0]) then
      PrependNewest(x, s, key);
      [x] + s
    else
      var rest := Insert(x, s[1..], key);
      InsertStep(x, s, rest, key);
      [s[0]] + rest
  }

  /** Orders `s` newest first; the result is a permutation of `s`. */
  function SortNewestFirst<T>(s: seq<T>, key: T -> int): (r: seq<T>)
    ensures NewestFirst(r, key)
    ensures multiset(r) == multiset(s)
  {
    if s == [] then []
    else
      assert s == [s[0]] + s[1..];
      Insert(s[0], SortNewestFirst(s[1..], key), key)
  }
}
