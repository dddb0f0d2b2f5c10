/**
 * The list operations the reducers perform on their record sequences,
 * keyed by an integer field (`id` for movies, `movie_id` for bookings):
 * `Array.prototype.findIndex`, overwrite-at-first-match and `filter`.
 */
module Seqs {

  /** Index of the first element whose key is `k`, or -1 when there is none
      (the result of `findIndex(x => key(x) === k)`). */
  function FirstIndex<T>(s: seq<T>, key: T -> int, k: int): (r: int)
    ensures -1 <= r < |s|
    ensures r == -1 <==> forall j :: 0 <= j < |s| ==> key(s[j]) != k
    ensures 0 <= r ==> key(s[r]) == k && forall j :: 0 <= j < r ==> key(s[j]) != k
  {
    if s == [] then -1
    else if key(s[0]) == k then 0
    else
      var i := FirstIndex(s[1..], key, k);
      assert forall j :: 1 <= j < |s| ==> s[j] == s[1..][j - 1];
      if i == -1 then -1 else i + 1
  }

  /** `findIndex` as the loop that runs it: scan from the front, stop at the
      first match. */
  method FindIndex<T>(s: seq<T>, key: T -> int, k: int) returns (i: int)
    ensures i == FirstIndex(s, key, k)
  {
    i := 0;
    while i < |s|
      invariant 0 <= i <= |s|
      invariant forall j :: 0 <= j < i ==> key(s[j]) != k
    {
      if key(s[i]) == k {
        return;
      }
      i := i + 1;
    }
    i := -1;
  }

  /** Overwrite the first element with the same key as `x` by `x`; leave `s`
      alone when no element has that key. */
  function ReplaceFirst<T>(s: seq<T>, key: T -> int, x: T): (r: seq<T>)
    ensures |r| == |s|
    ensures (forall j :: 0 <= j < |s| ==> key(s[j]) != key(x)) ==> r == s
    ensures forall i :: (0 <= i < |s| && key(s[i]) == key(x) &&
                         forall j :: 0 <= j < i ==> key(s[j]) != key(x)) ==> r == s[i := x]
  {
    var i := FirstIndex(s, key, key(x));
    if i == -1 then s else s[i := x]
  }

  /** `s.filter(x => key(x) !== k)`: every element whose key is `k` removed,
      the others kept in order. */
  function RemoveAll<T>(s: seq<T>, key: T -> int, k: int): (r: seq<T>)
    ensures |r| <= |s|
    ensures forall i :: 0 <= i < |r| ==> r[i] in s && key(r[i]) != k
    ensures forall j :: 0 <= j < |s| && key(s[j]) != k ==> s[j] in r
  {
    if s == [] then []
    else
      var rest := RemoveAll(s[1..], key, k);
      if key(s[0]) == k then rest else [s[0]] + rest
  }

  /** Filtering distributes over concatenation; together with the one-element
      case this pins down that the survivors keep their relative order. */
  lemma {:induction false} RemoveAllAppend<T>(a: seq<T>, b: seq<T>, key: T -> int, k: int)
    ensures RemoveAll(a + b, key, k) == RemoveAll(a, key, k) + RemoveAll(b, key, k)
  {
    if a == [] {
      assert a + b == b;
    } else {
      assert (a + b)[0] == a[0];
      assert (a + b)[1..] == a[1..] + b;
      RemoveAllAppend(a[1..], b, key, k);
    }
  }

  /** The one-element case: a single record survives exactly when its key differs. */
  lemma RemoveAllSingleton<T>(x: T, key: T -> int, k: int)
    ensures RemoveAll([x], key, k) == if key(x) == k then [] else [x]
  {
  }

  /** Filtering twice by the same key gives what filtering once gives. */
  lemma {:induction false} RemoveAllIdempotent<T>(s: seq<T>, key: T -> int, k: int)
    ensures RemoveAll(RemoveAll(s, key, k), key, k) == RemoveAll(s, key, k)
  {
    if s != [] {
      RemoveAllIdempotent(s[1..], key, k);
      var rest := RemoveAll(s[1..], key, k);
      if key(s[0]) != k {
        assert ([s[0]] + rest)[0] == s[0];
        assert ([s[0]] + rest)[1..] == rest;
      }
    }
  }

  /** With no element carrying the key, filtering changes nothing. */
  lemma {:induction false} RemoveAllNoMatch<T>(s: seq<T>, key: T -> int, k: int)
    requires forall j :: 0 <= j < |s| ==> key(s[j]) != k
    ensures RemoveAll(s, key, k) == s
  {
    if s != [] {
      RemoveAllNoMatch(s[1..], key, k);
      assert [s[0]] + s[1..] == s;
    }
  }

  /** The number of records removed is the number whose key is `k`. */
  function CountKey<T>(s: seq<T>, key: T -> int, k: int): (n: nat)
    ensures n <= |s|
  {
    if s == [] then 0 else (if key(s[0]) == k then 1 else 0) + CountKey(s[1..], key, k)
  }

  lemma {:induction false} RemoveAllLength<T>(s: seq<T>, key: T -> int, k: int)
    ensures |RemoveAll(s, key, k)| == |s| - CountKey(s, key, k)
  {
    if s != [] {
      RemoveAllLength(s[1..], key, k);
    }
  }
}
