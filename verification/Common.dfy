/**
 Small shared vocabulary: optional values, results, counting over map tables,
 lower-casing of addresses and duplicate-free sequences.
 */
module Common {

  datatype Option<+T> = None | Some(value: T)

  datatype Result<+T, +E> = Ok(value: T) | Err(error: E)

  /** The keys a `WHERE p` clause selects. */
  function Matching<K, V>(table: map<K, V>, p: V -> bool): set<K> {
    set k | k in table && p(table[k])
  }

  /** SQL `COUNT(*) ... WHERE p` over a table keyed by its primary key. */
  function Count<K, V>(table: map<K, V>, p: V -> bool): nat {
    |Matching(table, p)|
  }

  /** What writing one row does to a count. */
  lemma CountUpdate<K, V>(table: map<K, V>, key: K, row: V, p: V -> bool)
    ensures Count(table[key := row], p)
         == Count(table, p) - (if key in table && p(table[key]) then 1 else 0) + (if p(row) then 1 else 0)
  {
    var before, after := Matching(table, p), Matching(table[key := row], p);
    assert after - {key} == before - {key};
    assert key in before ==> before == (before - {key}) + {key};
    assert key in after ==> after == (after - {key}) + {key};
  }

  /** A count cannot grow when every counted row was already there and counted. */
  lemma CountShrinks<K, V>(before: map<K, V>, after: map<K, V>, p: V -> bool, q: V -> bool)
    requires forall k :: k in after && q(after[k]) ==> k in before && p(before[k])
    ensures Count(after, q) <= Count(before, p)
  {
    SubsetCard(Matching(after, q), Matching(before, p));
  }

  lemma {:induction false} SubsetCard<T>(x: set<T>, y: set<T>)
    requires x <= y
    ensures |x| <= |y|
    ensures |x| == |y| ==> x == y
  {
    assert y == x + (y - x);
  }

  /** `String.prototype.toLowerCase`, restricted to the ASCII letters. */
  function LowerChar(c: char): char {
    if 'A' <= c <= 'Z' then c - 'A' + 'a' else c
  }

  function Lower(s: string): string {
    seq(|s|, i requires 0 <= i < |s| => LowerChar(s[i]))
  }

  lemma LowerIdempotent(s: string)
    ensures Lower(Lower(s)) == Lower(s)
  {
  }

  predicate NoDup<T(==)>(xs: seq<T>) {
    forall i, j :: 0 <= i < j < |xs| ==> xs[i] != xs[j]
  }

  lemma NoDupSnoc<T>(xs: seq<T>, x: T)
    requires NoDup(xs) && x !in xs
    ensures NoDup(xs + [x])
  {
  }

  function Elems<T>(xs: seq<T>): set<T> {
    set x | x in xs
  }

  /** A duplicate-free sequence is as long as the set of its elements. */
  lemma {:induction false} NoDupCard<T>(xs: seq<T>)
    requires NoDup(xs)
    ensures |Elems(xs)| == |xs|
  {
    if xs != [] {
      var init, last := xs[..|xs| - 1], xs[|xs| - 1];
      NoDupCard(init);
      assert Elems(xs) == Elems(init) + {last};
    } else {
      assert Elems(xs) == {};
    }
  }

  /** `[...new Set(xs)]`: first occurrences, in order. */
  function Dedup<T(==)>(xs: seq<T>): seq<T> {
    if xs == [] then []
    else
      var init, last := Dedup(xs[..|xs| - 1]), xs[|xs| - 1];
      if last in init then init else init + [last]
  }

  lemma {:induction false} DedupMembers<T(!new)>(xs: seq<T>)
    ensures NoDup(Dedup(xs)) && forall x :: x in Dedup(xs) <==> x in xs
  {
    if xs != [] {
      var init, last := xs[..|xs| - 1], xs[|xs| - 1];
      DedupMembers(init);
      assert xs == init + [last];
    }
  }

  /** SQL `SUM(f)` over a table keyed by its primary key. */
  ghost function Sum<K, V>(table: map<K, V>, f: V -> int): int {
    if table == map[] then 0
    else
      var k :| k in table;
      f(table[k]) + Sum(table - {k}, f)
  }

  /** The sum does not depend on which row is taken first. */
  lemma {:induction false} SumRemove<K, V>(table: map<K, V>, key: K, f: V -> int)
    requires key in table
    ensures Sum(table, f) == f(table[key]) + Sum(table - {key}, f)
    decreases |table|
  {
    var k :| k in table && Sum(table, f) == f(table[k]) + Sum(table - {k}, f);
    if k != key {
      SumRemove(table - {k}, key, f);
      SumRemove(table - {key}, k, f);
      assert table - {k} - {key} == table - {key} - {k};
    }
  }

  /** What writing one row does to a sum. */
  lemma SumUpdate<K, V>(table: map<K, V>, key: K, row: V, f: V -> int)
    ensures Sum(table[key := row], f) == Sum(table, f) - (if key in table then f(table[key]) else 0) + f(row)
  {
    SumRemove(table[key := row], key, f);
    assert table[key := row] - {key} == table - {key};
    if key in table {
      SumRemove(table, key, f);
    } else {
      assert table - {key} == table;
    }
  }
}
