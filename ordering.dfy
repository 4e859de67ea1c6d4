/**
 * The two orderings the screens apply to lists: `[...new Set(xs)].sort()` on
 * strings, and `Array.prototype.sort` by a (date, time) key, latest first.
 */
module Ordering {
  import opened Text

  // ---------------------------------------------------------------------------
  // Distinct strings in ascending order

  predicate StrictlySorted(s: seq<string>) {
    forall i, j :: 0 <= i < j < |s| ==> StrLt(s[i], s[j])
  }

  function InsertDistinct(x: string, s: seq<string>): (r: seq<string>)
    requires StrictlySorted(s)
    ensures StrictlySorted(r)
    ensures forall y :: y in r <==> y in s || y == x
  {
    if s == [] then [x]
    else if x == s[0] then s
    else if StrLt(x, s[0]) then
      assert forall j :: 0 < j < |s| ==> StrLt(x, s[j]) by {
        forall j | 0 < j < |s| ensures StrLt(x, s[j]) {
          StrLtTransitive(x, s[0], s[j]);
        }
      }
      [x] + s
    else
      StrLtTotal(x, s[0]);
      var rest := InsertDistinct(x, s[1..]);
      assert forall y :: y in rest ==> StrLt(s[0], y);
      [s[0]] + rest
  }

  /** `[...new Set(xs)].sort()`: the distinct values of xs in ascending string order. */
  function SortedDistinct(xs: seq<string>): (r: seq<string>)
    ensures StrictlySorted(r)
    ensures forall y :: y in r <==> y in xs
  {
    if xs == [] then []
    else InsertDistinct(xs[|xs| - 1], SortedDistinct(xs[..|xs| - 1]))
  }

  /** A strictly sorted list holds no value twice. */
  lemma StrictlySortedDistinct(s: seq<string>, i: int, j: int)
    requires StrictlySorted(s) && 0 <= i < j < |s|
    ensures s[i] != s[j]
  {
    StrLtIrreflexive(s[i]);
  }

  // ---------------------------------------------------------------------------
  // Latest-first sort by a (date, time) key

  type Key = (string, string)

  /** a comes strictly before b: by date, then by time, each in string order. */
  predicate KeyLt(a: Key, b: Key) {
    StrLt(a.0, b.0) || (a.0 == b.0 && StrLt(a.1, b.1))
  }

  lemma KeyLtTransitive(a: Key, b: Key, c: Key)
    requires KeyLt(a, b) && KeyLt(b, c)
    ensures KeyLt(a, c)
  {
    if StrLt(a.0, b.0) && StrLt(b.0, c.0) {
      StrLtTransitive(a.0, b.0, c.0);
    } else if a.0 == b.0 && b.0 == c.0 {
      StrLtTransitive(a.1, b.1, c.1);
    }
  }

  lemma KeyLtTotal(a: Key, b: Key)
    ensures a == b || KeyLt(a, b) || KeyLt(b, a)
  {
    StrLtTotal(a.0, b.0);
    StrLtTotal(a.1, b.1);
  }

  lemma KeyLtIrreflexive(a: Key)
    ensures !KeyLt(a, a)
  {
    StrLtIrreflexive(a.0);
    StrLtIrreflexive(a.1);
  }

  /** No element is followed by one with a strictly later key. */
  ghost predicate SortedLatestFirst<T>(s: seq<T>, key: T -> Key) {
    forall i, j :: 0 <= i < j < |s| ==> !KeyLt(key(s[i]), key(s[j]))
  }

  /** x is placed after every element whose key is not earlier than its own (stable). */
  function InsertLatestFirst<T>(x: T, s: seq<T>, key: T -> Key): (r: seq<T>)
    requires SortedLatestFirst(s, key)
    ensures SortedLatestFirst(r, key)
    ensures multiset(r) == multiset(s) + multiset{x}
  {
    if s == [] then [x]
    else if KeyLt(key(s[0]), key(x)) then
      LaterThanHead(x, s, key);
      [x] + s
    else
      var rest := InsertLatestFirst(x, s[1..], key);
      assert s == [s[0]] + s[1..];
      NotLaterThanHead(s[0], s[1..], x, rest, key);
      [s[0]] + rest
  }

  /** An element later than the head of a latest-first list is later than all of it. */
  lemma LaterThanHead<T>(x: T, s: seq<T>, key: T -> Key)
    requires SortedLatestFirst(s, key) && s != [] && KeyLt(key(s[0]), key(x))
    ensures SortedLatestFirst([x] + s, key)
  {
    forall j | 0 <= j < |s| ensures !KeyLt(key(x), key(s[j])) {
      KeyLtTotal(key(s[0]), key(s[j]));
      if KeyLt(key(s[j]), key(s[0])) {
        KeyLtTransitive(key(s[j]), key(s[0]), key(x));
      }
      if KeyLt(key(x), key(s[j])) {
        KeyLtTransitive(key(x), key(s[j]), key(x));
        KeyLtIrreflexive(key(x));
      }
    }
  }

  /** A head no later element follows stays first in front of the list with x inserted. */
  lemma NotLaterThanHead<T>(h: T, tail: seq<T>, x: T, rest: seq<T>, key: T -> Key)
    requires SortedLatestFirst([h] + tail, key) && !KeyLt(key(h), key(x))
    requires SortedLatestFirst(rest, key) && multiset(rest) == multiset(tail) + multiset{x}
    ensures SortedLatestFirst([h] + rest, key)
  {
    forall j | 0 <= j < |rest| ensures !KeyLt(key(h), key(rest[j])) {
      assert rest[j] in multiset(rest);
      if rest[j] != x {
        assert rest[j] in multiset(tail);
        var k :| 0 <= k < |tail| && tail[k] == rest[j];
        var whole := [h] + tail;
        assert whole[0] == h && whole[k + 1] == rest[j];
        assert !KeyLt(key(whole[0]), key(whole[k + 1]));
      }
    }
  }

  /** `sort((a, b) => later(b) - later(a))`: the same elements, latest first. */
  function SortLatestFirst<T>(s: seq<T>, key: T -> Key): (r: seq<T>)
    ensures SortedLatestFirst(r, key)
    ensures multiset(r) == multiset(s)
  {
    if s == [] then []
    else
      assert s == s[..|s| - 1] + [s[|s| - 1]];
      InsertLatestFirst(s[|s| - 1], SortLatestFirst(s[..|s| - 1], key), key)
  }
}
