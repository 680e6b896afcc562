/**
 * Ordering of task lists. Every sort in the system orders by one key per
 * element (a title, a status name, a timestamp) in one direction, through the
 * comparator `a < b ? -1 : a > b ? 1 : 0` or its negation. `Array.prototype.sort`
 * is stable, so the result of such a sort is fully determined; `SortBy`
 * computes it by insertion and is proved sorted, a permutation and stable.
 */
module Sorting {
  import opened JsString

  /** A sort key: a timestamp, a text, or a missing value (SQL `NULL`). */
  datatype Key = Time(t: int) | Text(s: string) | Missing

  /** Ascending order on keys; `Missing` comes after every value. */
  predicate KeyLe(a: Key, b: Key) {
    match (a, b)
    case (Time(x), Time(y)) => x <= y
    case (Text(x), Text(y)) => StrLe(x, y)
    case (_, Missing) => true
    case (Missing, _) => false
    case (Time(_), Text(_)) => true
    case (Text(_), Time(_)) => false
  }

  /** `a < b`. */
  predicate KeyLt(a: Key, b: Key) {
    KeyLe(a, b) && !KeyLe(b, a)
  }

  lemma KeyLeReflexive(a: Key)
    ensures KeyLe(a, a)
  {
    if a.Text? { StrLeReflexive(a.s); }
  }

  lemma KeyLeTotal(a: Key, b: Key)
    ensures KeyLe(a, b) || KeyLe(b, a)
  {
    if a.Text? && b.Text? { StrLeTotal(a.s, b.s); }
  }

  lemma KeyLeTransitive(a: Key, b: Key, c: Key)
    requires KeyLe(a, b) && KeyLe(b, c)
    ensures KeyLe(a, c)
  {
    if a.Text? && b.Text? && c.Text? { StrLeTransitive(a.s, b.s, c.s); }
  }

  lemma KeyLeAntisymmetric(a: Key, b: Key)
    requires KeyLe(a, b) && KeyLe(b, a)
    ensures a == b
  {
    if a.Text? && b.Text? { StrLeAntisymmetric(a.s, b.s); }
  }

  lemma KeyOrderFacts(a: Key, b: Key)
    ensures KeyLe(a, b) || KeyLe(b, a)
    ensures KeyLe(a, a) && KeyLe(b, b)
    ensures KeyLe(a, b) && KeyLe(b, a) ==> a == b
  {
    KeyLeTotal(a, b);
    KeyLeReflexive(a);
    KeyLeReflexive(b);
    if KeyLe(a, b) && KeyLe(b, a) { KeyLeAntisymmetric(a, b); }
  }

  /** The comparator handed to `sort`, on the two elements' keys: ascending it
      answers -1, 1 or 0 as `a < b`, `a > b` or neither; descending it answers
      the negation. */
  function Compare(asc: bool, a: Key, b: Key): (r: int)
    ensures r == -1 || r == 0 || r == 1
    ensures r == 0 <==> a == b
    ensures r <= 0 <==> (if asc then KeyLe(a, b) else KeyLe(b, a))
  {
    KeyOrderFacts(a, b);
    var up := if KeyLt(a, b) then -1 else if KeyLt(b, a) then 1 else 0;
    if asc then up else -up
  }

  /** The descending comparator is exactly the negated ascending one. */
  lemma CompareDescNegatesAsc(a: Key, b: Key)
    ensures Compare(false, a, b) == -Compare(true, a, b)
  {
  }

  /** `a` may stay before `b`: the comparator does not answer a positive number. */
  predicate Precedes<T>(key: T -> Key, asc: bool, a: T, b: T) {
    Compare(asc, key(a), key(b)) <= 0
  }

  lemma PrecedesTotal<T>(key: T -> Key, asc: bool, a: T, b: T)
    ensures Precedes(key, asc, a, b) || Precedes(key, asc, b, a)
  {
    KeyLeTotal(key(a), key(b));
  }

  lemma PrecedesTransitive<T>(key: T -> Key, asc: bool, a: T, b: T, c: T)
    requires Precedes(key, asc, a, b) && Precedes(key, asc, b, c)
    ensures Precedes(key, asc, a, c)
  {
    if asc { KeyLeTransitive(key(a), key(b), key(c)); }
    else { KeyLeTransitive(key(c), key(b), key(a)); }
  }

  /** Every earlier element may precede every later one. */
  ghost predicate SortedBy<T>(key: T -> Key, asc: bool, s: seq<T>) {
    forall i, j | 0 <= i < j < |s| :: Precedes(key, asc, s[i], s[j])
  }

  /** `y` may precede every element of `s`. */
  ghost predicate AllAfter<T>(key: T -> Key, asc: bool, y: T, s: seq<T>) {
    forall k | 0 <= k < |s| :: Precedes(key, asc, y, s[k])
  }

  /** Inserts `x` before the first element it may precede. */
  function Insert<T>(key: T -> Key, asc: bool, x: T, s: seq<T>): (r: seq<T>)
    ensures multiset(r) == multiset(s) + multiset{x}
    ensures |r| == |s| + 1
  {
    if s == [] then [x]
    else if Precedes(key, asc, x, s[0]) then [x] + s
    else
      assert s == [s[0]] + s[1..];
      [s[0]] + Insert(key, asc, x, s[1..])
  }

  /** The sorted copy of `s`: what `[...s].sort(comparator)` returns. */
  function SortBy<T>(key: T -> Key, asc: bool, s: seq<T>): (r: seq<T>)
    ensures multiset(r) == multiset(s)
    ensures |r| == |s|
  {
    if s == [] then []
    else
      assert s == [s[0]] + s[1..];
      Insert(key, asc, s[0], SortBy(key, asc, s[1..]))
  }

  /** Two sequences that are permutations of each other hold the same elements. */
  lemma SameElements<T>(a: seq<T>, b: seq<T>)
    requires multiset(a) == multiset(b)
    ensures forall t :: t in a <==> t in b
  {
    forall t ensures t in a <==> t in b {
      assert t in a <==> t in multiset(a);
      assert t in b <==> t in multiset(b);
    }
  }

  lemma {:induction false} InsertAllAfter<T>(key: T -> Key, asc: bool, y: T, x: T, s: seq<T>)
    requires AllAfter(key, asc, y, s) && Precedes(key, asc, y, x)
    ensures AllAfter(key, asc, y, Insert(key, asc, x, s))
  {
    if s != [] && !Precedes(key, asc, x, s[0]) {
      InsertAllAfter(key, asc, y, x, s[1..]);
      var r := Insert(key, asc, x, s);
      assert r == [s[0]] + Insert(key, asc, x, s[1..]);
      forall k | 0 <= k < |r| ensures Precedes(key, asc, y, r[k]) {
        if k > 0 { assert r[k] == Insert(key, asc, x, s[1..])[k - 1]; }
      }
    } else if s != [] {
      var r := [x] + s;
      forall k | 0 <= k < |r| ensures Precedes(key, asc, y, r[k]) {
        if k > 0 { assert r[k] == s[k - 1]; }
      }
    }
  }

  /** A sequence is sorted when its head may precede its tail and the tail is sorted. */
  lemma SortedCons<T>(key: T -> Key, asc: bool, y: T, s: seq<T>)
    requires AllAfter(key, asc, y, s) && SortedBy(key, asc, s)
    ensures SortedBy(key, asc, [y] + s)
  {
    var r := [y] + s;
    forall i, j | 0 <= i < j < |r| ensures Precedes(key, asc, r[i], r[j]) {
      assert r[j] == s[j - 1];
      if i > 0 { assert r[i] == s[i - 1]; }
    }
  }

  lemma {:induction false} InsertSorted<T>(key: T -> Key, asc: bool, x: T, s: seq<T>)
    requires SortedBy(key, asc, s)
    ensures SortedBy(key, asc, Insert(key, asc, x, s))
  {
    if s == [] {
    } else if Precedes(key, asc, x, s[0]) {
      forall k | 0 <= k < |s| ensures Precedes(key, asc, x, s[k]) {
        if k > 0 { PrecedesTransitive(key, asc, x, s[0], s[k]); }
      }
      SortedCons(key, asc, x, s);
    } else {
      PrecedesTotal(key, asc, x, s[0]);
      assert SortedBy(key, asc, s[1..]) by {
        forall i, j | 0 <= i < j < |s[1..]| ensures Precedes(key, asc, s[1..][i], s[1..][j]) {
          assert s[1..][i] == s[i + 1] && s[1..][j] == s[j + 1];
        }
      }
      assert AllAfter(key, asc, s[0], s[1..]) by {
        forall k | 0 <= k < |s[1..]| ensures Precedes(key, asc, s[0], s[1..][k]) {
          assert s[1..][k] == s[k + 1];
        }
      }
      InsertSorted(key, asc, x, s[1..]);
      InsertAllAfter(key, asc, s[0], x, s[1..]);
      SortedCons(key, asc, s[0], Insert(key, asc, x, s[1..]));
    }
  }

  /** The result of `SortBy` is sorted by the comparator. */
  lemma {:induction false} SortBySorted<T>(key: T -> Key, asc: bool, s: seq<T>)
    ensures SortedBy(key, asc, SortBy(key, asc, s))
  {
    if s != [] {
      SortBySorted(key, asc, s[1..]);
      InsertSorted(key, asc, s[0], SortBy(key, asc, s[1..]));
    }
  }

  /** The elements of `s` whose key is `k`, in their order in `s`. */
  function WithKey<T>(key: T -> Key, k: Key, s: seq<T>): (r: seq<T>)
    ensures |r| <= |s|
  {
    if s == [] then []
    else (if key(s[0]) == k then [s[0]] else []) + WithKey(key, k, s[1..])
  }

  lemma {:induction false} WithKeyCons<T>(key: T -> Key, k: Key, y: T, s: seq<T>)
    ensures WithKey(key, k, [y] + s) == (if key(y) == k then [y] else []) + WithKey(key, k, s)
  {
    assert ([y] + s)[1..] == s;
  }

  /** The elements with key `k` of `maybe(a) + (maybe(b) + w)` where `a` and `b`
      have different keys: swapping the two heads changes nothing. */
  lemma SwapDistinctKeys<T>(key: T -> Key, k: Key, a: T, b: T, w: seq<T>)
    requires key(a) != key(b)
    ensures (if key(a) == k then [a] else []) + ((if key(b) == k then [b] else []) + w)
         == (if key(b) == k then [b] else []) + ((if key(a) == k then [a] else []) + w)
  {
  }

  lemma {:induction false} InsertWithKey<T>(key: T -> Key, asc: bool, x: T, s: seq<T>, k: Key)
    ensures WithKey(key, k, Insert(key, asc, x, s))
         == (if key(x) == k then [x] else []) + WithKey(key, k, s)
  {
    if s == [] || Precedes(key, asc, x, s[0]) {
      WithKeyCons(key, k, x, s);
    } else {
      var t := Insert(key, asc, x, s[1..]);
      assert Insert(key, asc, x, s) == [s[0]] + t;
      WithKeyCons(key, k, s[0], t);
      InsertWithKey(key, asc, x, s[1..], k);
      assert [s[0]] + s[1..] == s;
      WithKeyCons(key, k, s[0], s[1..]);
      SwapDistinctKeys(key, k, s[0], x, WithKey(key, k, s[1..]));
    }
  }

  /** Stability: elements with equal keys keep their relative order. */
  lemma {:induction false} SortByStable<T>(key: T -> Key, asc: bool, s: seq<T>, k: Key)
    ensures WithKey(key, k, SortBy(key, asc, s)) == WithKey(key, k, s)
  {
    if s != [] {
      SortByStable(key, asc, s[1..], k);
      InsertWithKey(key, asc, s[0], SortBy(key, asc, s[1..]), k);
    }
  }
}
