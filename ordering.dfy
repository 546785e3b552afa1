/**
 * The order in which MySQL returns rows for `ORDER BY <column> ASC`, and the
 * meaning of a `WHERE` clause over an in-memory table.  Dates are stored as
 * ISO `YYYY-MM-DD` strings, so the same lexicographic order serves dates and
 * names.
 */
module Ordering {

  /** Lexicographic order on strings, by character code. */
  predicate LexLeq(a: string, b: string)
    decreases |a|
  {
    a == [] || (b != [] && (a[0] < b[0] || (a[0] == b[0] && LexLeq(a[1..], b[1..]))))
  }

  lemma {:induction false} LexLeqReflexive(a: string)
    ensures LexLeq(a, a)
    decreases |a|
  {
    if a != [] { LexLeqReflexive(a[1..]); }
  }

  lemma {:induction false} LexLeqTotal(a: string, b: string)
    ensures LexLeq(a, b) || LexLeq(b, a)
    decreases |a|
  {
    if a != [] && b != [] && a[0] == b[0] { LexLeqTotal(a[1..], b[1..]); }
  }

  lemma {:induction false} LexLeqTransitive(a: string, b: string, c: string)
    requires LexLeq(a, b) && LexLeq(b, c)
    ensures LexLeq(a, c)
    decreases |a|
  {
    if a != [] && a[0] == b[0] && b[0] == c[0] { LexLeqTransitive(a[1..], b[1..], c[1..]); }
  }

  /** Every row is kept iff `keep` holds of it, in table order. */
  function Filter<T>(s: seq<T>, keep: T -> bool): (r: seq<T>)
    ensures |r| <= |s|
  {
    if s == [] then [] else (if keep(s[0]) then [s[0]] else []) + Filter(s[1..], keep)
  }

  lemma {:induction false} FilterMembers<T>(s: seq<T>, keep: T -> bool, x: T)
    ensures x in Filter(s, keep) <==> x in s && keep(x)
  {
    if s != [] {
      FilterMembers(s[1..], keep, x);
      assert s == [s[0]] + s[1..];
    }
  }

  lemma {:induction false} FilterAll<T>(s: seq<T>, keep: T -> bool)
    requires forall i :: 0 <= i < |s| ==> keep(s[i])
    ensures Filter(s, keep) == s
  {
    if s != [] {
      FilterAll(s[1..], keep);
      assert s == [s[0]] + s[1..];
    }
  }

  /** Ascending by key: each row's key is at most the next one's. */
  ghost predicate SortedBy<T>(s: seq<T>, key: T -> string)
  {
    forall i :: 0 < i < |s| ==> LexLeq(key(s[i - 1]), key(s[i]))
  }

  lemma {:induction false} SortedPairwise<T>(s: seq<T>, key: T -> string, i: int, j: int)
    requires SortedBy(s, key)
    requires 0 <= i <= j < |s|
    ensures LexLeq(key(s[i]), key(s[j]))
    decreases j - i
  {
    if i == j {
      LexLeqReflexive(key(s[i]));
    } else {
      SortedPairwise(s, key, i, j - 1);
      LexLeqTransitive(key(s[i]), key(s[j - 1]), key(s[j]));
    }
  }

  /** Inserts `x` before the first row whose key is not smaller. */
  function Insert<T>(x: T, s: seq<T>, key: T -> string): seq<T>
  {
    if s == [] then [x]
    else if LexLeq(key(x), key(s[0])) then [x] + s
    else [s[0]] + Insert(x, s[1..], key)
  }

  /** Inserting adds exactly `x`, and the result starts with `x` or with the old first row. */
  lemma {:induction false} InsertShape<T>(x: T, s: seq<T>, key: T -> string)
    ensures multiset(Insert(x, s, key)) == multiset(s) + multiset{x}
    ensures Insert(x, s, key) != []
    ensures Insert(x, s, key)[0] == x || (s != [] && Insert(x, s, key)[0] == s[0])
  {
    if s != [] && !LexLeq(key(x), key(s[0])) {
      InsertShape(x, s[1..], key);
      assert s == [s[0]] + s[1..];
    }
  }

  lemma {:induction false} InsertSorted<T>(x: T, s: seq<T>, key: T -> string)
    requires SortedBy(s, key)
    ensures SortedBy(Insert(x, s, key), key)
  {
    if s == [] {
    } else if LexLeq(key(x), key(s[0])) {
      var r := [x] + s;
      forall i | 0 < i < |r| ensures LexLeq(key(r[i - 1]), key(r[i])) {
        if i > 1 { assert r[i - 1] == s[i - 2] && r[i] == s[i - 1]; }
      }
    } else {
      var tail := Insert(x, s[1..], key);
      InsertSorted(x, s[1..], key);
      InsertShape(x, s[1..], key);
      LexLeqTotal(key(x), key(s[0]));
      var r := [s[0]] + tail;
      forall i | 0 < i < |r| ensures LexLeq(key(r[i - 1]), key(r[i])) {
        if i == 1 {
          if tail[0] != x { assert s[1..] != [] && tail[0] == s[1]; }
        } else {
          assert r[i - 1] == tail[i - 2] && r[i] == tail[i - 1];
        }
      }
    }
  }

  /** Insertion sort by key. */
  function SortBy<T>(s: seq<T>, key: T -> string): (r: seq<T>)
    ensures SortedBy(r, key)
    ensures multiset(r) == multiset(s)
  {
    if s == [] then []
    else
      var tail := SortBy(s[1..], key);
      InsertSorted(s[0], tail, key);
      InsertShape(s[0], tail, key);
      assert s == [s[0]] + s[1..];
      Insert(s[0], tail, key)
  }

  /**
   * What a `SELECT … WHERE keep ORDER BY key ASC` may return: exactly the
   * rows that satisfy `keep`, each as often as in the table, ascending by
   * key.  Rows with equal keys may come in any order.
   */
  ghost predicate OrderedSelection<T>(r: seq<T>, table: seq<T>, keep: T -> bool, key: T -> string)
  {
    multiset(r) == multiset(Filter(table, keep)) && SortedBy(r, key)
  }

  /** The selection computed by filtering in table order and sorting by key. */
  function Select<T>(table: seq<T>, keep: T -> bool, key: T -> string): (r: seq<T>)
    ensures OrderedSelection(r, table, keep, key)
  {
    SortBy(Filter(table, keep), key)
  }

  /** Every row the selection function picks was in the table and satisfies the condition. */
  lemma SelectMembers<T>(table: seq<T>, keep: T -> bool, key: T -> string)
    ensures forall x :: x in Select(table, keep, key) ==> x in table && keep(x)
  {
    forall x | x in Select(table, keep, key)
      ensures x in table && keep(x)
    {
      SelectionSound(Select(table, keep, key), table, keep, key, x);
    }
  }

  /** Every row of a selection was in the table and satisfies the condition. */
  lemma SelectionSound<T>(r: seq<T>, table: seq<T>, keep: T -> bool, key: T -> string, x: T)
    requires OrderedSelection(r, table, keep, key)
    requires x in r
    ensures x in table && keep(x)
  {
    assert x in multiset(r);
    FilterMembers(table, keep, x);
  }

  /** Every row of the table that satisfies the condition is in the selection. */
  lemma SelectionComplete<T>(r: seq<T>, table: seq<T>, keep: T -> bool, key: T -> string, x: T)
    requires OrderedSelection(r, table, keep, key)
    requires x in table && keep(x)
    ensures x in r
  {
    FilterMembers(table, keep, x);
    assert x in multiset(Filter(table, keep));
  }
}
