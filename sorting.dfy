/**
 * `Array.prototype.sort` with a comparator, and the `.order(...)` of a
 * query, both reduced to one stable sort by a key. A comparator
 * `(a, b) => f(a) - f(b)` sorts ascending by `f`, `(a, b) => f(b) - f(a)`
 * ascending by `-f`, and `localeCompare` ascending by the text; ties keep
 * their input order because the JavaScript sort is stable.
 */
module Sorting {

  /** A sort key: a number, or a text compared character by character. */
  datatype SortKey = IntKey(n: int) | TextKey(t: string)

  /** Lexicographic order on strings by character code. */
  predicate LexLeq(a: string, b: string) {
    if a == [] then true
    else if b == [] then false
    else if a[0] != b[0] then a[0] < b[0]
    else LexLeq(a[1..], b[1..])
  }

  lemma {:induction false} LexLeqTotal(a: string, b: string)
    ensures LexLeq(a, b) || LexLeq(b, a)
  {
    if a != [] && b != [] && a[0] == b[0] {
      LexLeqTotal(a[1..], b[1..]);
    }
  }

  lemma {:induction false} LexLeqAntisymmetric(a: string, b: string)
    requires LexLeq(a, b) && LexLeq(b, a)
    ensures a == b
  {
    if a != [] && b != [] {
      LexLeqAntisymmetric(a[1..], b[1..]);
      assert a == [a[0]] + a[1..] && b == [b[0]] + b[1..];
    }
  }

  lemma {:induction false} LexLeqTransitive(a: string, b: string, c: string)
    requires LexLeq(a, b) && LexLeq(b, c)
    ensures LexLeq(a, c)
  {
    if a != [] && b != [] && c != [] && a[0] == b[0] && b[0] == c[0] {
      LexLeqTransitive(a[1..], b[1..], c[1..]);
    }
  }

  /** Numbers before texts; numbers by value; texts lexicographically. */
  predicate KeyLeq(a: SortKey, b: SortKey) {
    match (a, b)
    case (IntKey(x), IntKey(y)) => x <= y
    case (IntKey(_), TextKey(_)) => true
    case (TextKey(_), IntKey(_)) => false
    case (TextKey(x), TextKey(y)) => LexLeq(x, y)
  }

  lemma KeyLeqTotal(a: SortKey, b: SortKey)
    ensures KeyLeq(a, b) || KeyLeq(b, a)
  {
    if a.TextKey? && b.TextKey? { LexLeqTotal(a.t, b.t); }
  }

  lemma KeyLeqAntisymmetric(a: SortKey, b: SortKey)
    requires KeyLeq(a, b) && KeyLeq(b, a)
    ensures a == b
  {
    if a.TextKey? && b.TextKey? { LexLeqAntisymmetric(a.t, b.t); }
  }

  lemma KeyLeqTransitive(a: SortKey, b: SortKey, c: SortKey)
    requires KeyLeq(a, b) && KeyLeq(b, c)
    ensures KeyLeq(a, c)
  {
    if a.TextKey? && b.TextKey? && c.TextKey? { LexLeqTransitive(a.t, b.t, c.t); }
  }

  /** Each element's key is at most the next one's. */
  predicate Sorted<T>(s: seq<T>, key: T -> SortKey) {
    forall i | 0 <= i < |s| - 1 :: KeyLeq(key(s[i]), key(s[i + 1]))
  }

  /** Puts `x` before the first element whose key is not below its own. */
  function Insert<T>(x: T, s: seq<T>, key: T -> SortKey): (r: seq<T>)
    ensures |r| == |s| + 1
    ensures multiset(r) == multiset(s) + multiset{x}
  {
    if s == [] || KeyLeq(key(x), key(s[0])) then [x] + s
    else
      assert s == [s[0]] + s[1..];
      [s[0]] + Insert(x, s[1..], key)
  }

  lemma {:induction false} InsertSorted<T>(x: T, s: seq<T>, key: T -> SortKey)
    requires Sorted(s, key)
    ensures Sorted(Insert(x, s, key), key)
  {
    if s != [] && !KeyLeq(key(x), key(s[0])) {
      KeyLeqTotal(key(x), key(s[0]));
      InsertSorted(x, s[1..], key);
      var t := Insert(x, s[1..], key);
      assert t[0] == x || t[0] == s[1];
    }
  }

  /** The stable sort: ascending by key, ties in input order. */
  function Sort<T>(s: seq<T>, key: T -> SortKey): (r: seq<T>)
    ensures |r| == |s|
    ensures multiset(r) == multiset(s)
    ensures Sorted(r, key)
  {
    if s == [] then []
    else
      var t := Sort(s[1..], key);
      InsertSorted(s[0], t, key);
      assert s == [s[0]] + s[1..];
      Insert(s[0], t, key)
  }

  /** Adjacent order extends to every pair. */
  lemma {:induction false} SortedPairs<T>(s: seq<T>, key: T -> SortKey, i: int, j: int)
    requires Sorted(s, key) && 0 <= i <= j < |s|
    ensures KeyLeq(key(s[i]), key(s[j]))
    decreases j - i
  {
    if i == j {
      KeyLeqTotal(key(s[i]), key(s[i]));
    } else {
      SortedPairs(s, key, i + 1, j);
      KeyLeqTransitive(key(s[i]), key(s[i + 1]), key(s[j]));
    }
  }

  lemma SortedAll<T>(s: seq<T>, key: T -> SortKey)
    requires Sorted(s, key)
    ensures forall i, j | 0 <= i <= j < |s| :: KeyLeq(key(s[i]), key(s[j]))
  {
    forall i, j | 0 <= i <= j < |s| ensures KeyLeq(key(s[i]), key(s[j])) {
      SortedPairs(s, key, i, j);
    }
  }

  /** Sorting neither adds nor loses elements. */
  lemma SortMembership<T>(s: seq<T>, key: T -> SortKey)
    ensures forall x :: x in Sort(s, key) <==> x in s
  {
    var r := Sort(s, key);
    forall x ensures x in r <==> x in s {
      assert x in r <==> x in multiset(r);
      assert x in s <==> x in multiset(s);
    }
  }

  /** The elements whose key is `k`, in order. */
  function WithKey<T>(s: seq<T>, key: T -> SortKey, k: SortKey): (r: seq<T>)
    ensures |r| <= |s|
    ensures forall i | 0 <= i < |r| :: key(r[i]) == k
  {
    if s == [] then []
    else if key(s[0]) == k then [s[0]] + WithKey(s[1..], key, k)
    else WithKey(s[1..], key, k)
  }

  lemma {:induction false} InsertWithKey<T>(x: T, s: seq<T>, key: T -> SortKey, k: SortKey)
    ensures WithKey(Insert(x, s, key), key, k) == if key(x) == k then [x] + WithKey(s, key, k) else WithKey(s, key, k)
  {
    if s == [] || KeyLeq(key(x), key(s[0])) {
      assert ([x] + s)[1..] == s;
    } else {
      InsertWithKey(x, s[1..], key, k);
      var r := Insert(x, s, key);
      assert r[1..] == Insert(x, s[1..], key);
      if key(x) == k {
        // s[0] sorts strictly before x, so its key differs from k
        KeyLeqTotal(key(x), key(x));
      }
    }
  }

  /** Stability: the elements of each key keep their input order. */
  lemma {:induction false} SortStable<T>(s: seq<T>, key: T -> SortKey, k: SortKey)
    ensures WithKey(Sort(s, key), key, k) == WithKey(s, key, k)
  {
    if s != [] {
      SortStable(s[1..], key, k);
      InsertWithKey(s[0], Sort(s[1..], key), key, k);
    }
  }

  lemma {:induction false} WithKeyAll<T>(s: seq<T>, key: T -> SortKey, k: SortKey)
    requires forall i | 0 <= i < |s| :: key(s[i]) == k
    ensures WithKey(s, key, k) == s
  {
    if s != [] {
      WithKeyAll(s[1..], key, k);
    }
  }

  /** When every key is the same (a comparator that always answers 0), the order is unchanged. */
  lemma SortConstantKey<T>(s: seq<T>, key: T -> SortKey, k: SortKey)
    requires forall i | 0 <= i < |s| :: key(s[i]) == k
    ensures Sort(s, key) == s
  {
    var r := Sort(s, key);
    forall i | 0 <= i < |r| ensures key(r[i]) == k {
      assert r[i] in multiset(r);
      var j :| 0 <= j < |s| && s[j] == r[i];
    }
    WithKeyAll(s, key, k);
    WithKeyAll(r, key, k);
    SortStable(s, key, k);
  }

  /** Sorting an already sorted sequence changes nothing. */
  lemma {:induction false} SortSorted<T>(s: seq<T>, key: T -> SortKey)
    requires Sorted(s, key)
    ensures Sort(s, key) == s
  {
    if s != [] {
      assert Sorted(s[1..], key);
      SortSorted(s[1..], key);
      if |s| > 1 {
        assert KeyLeq(key(s[0]), key(s[1]));
      }
    }
  }
}
