/**
 Tables as row lists: selecting, summing, finding by key and writing through a key, with
 the facts that hold when a key is unique.
 */
module Tables {
  import opened Common

  /** `find({ where: p })`. */
  function Where<R>(rows: seq<R>, p: R -> bool): seq<R> {
    if rows == [] then []
    else
      var init, last := rows[..|rows| - 1], rows[|rows| - 1];
      if p(last) then Where(init, p) + [last] else Where(init, p)
  }

  lemma {:induction false} WhereMembers<R(!new)>(rows: seq<R>, p: R -> bool)
    ensures forall r :: r in Where(rows, p) <==> r in rows && p(r)
  {
    if rows != [] {
      var init, last := rows[..|rows| - 1], rows[|rows| - 1];
      WhereMembers(init, p);
      assert rows == init + [last];
    }
  }

  ghost predicate Pairwise<R(!new)>(rows: seq<R>, rel: (R, R) -> bool) {
    forall i, j :: 0 <= i < j < |rows| ==> rel(rows[i], rows[j])
  }

  /** Selecting rows keeps what holds of every two of them. */
  lemma {:induction false} WherePairwise<R(!new)>(rows: seq<R>, p: R -> bool, rel: (R, R) -> bool)
    requires Pairwise(rows, rel)
    ensures Pairwise(Where(rows, p), rel)
  {
    if rows != [] {
      var init, last := rows[..|rows| - 1], rows[|rows| - 1];
      WherePairwise(init, p, rel);
      WhereMembers(init, p);
      forall i, j | 0 <= i < j < |Where(rows, p)| ensures rel(Where(rows, p)[i], Where(rows, p)[j]) {
        if j == |Where(init, p)| {
          var r := Where(init, p)[i];
          assert r in Where(init, p);
          var k :| 0 <= k < |init| && init[k] == r;
          assert rel(rows[k], rows[|rows| - 1]);
        }
      }
    }
  }

  lemma {:induction false} PairwiseSnoc<R(!new)>(rows: seq<R>, r: R, rel: (R, R) -> bool)
    requires Pairwise(rows, rel) && forall x :: x in rows ==> rel(x, r)
    ensures Pairwise(rows + [r], rel)
  {
    forall i, j | 0 <= i < j < |rows + [r]| ensures rel((rows + [r])[i], (rows + [r])[j]) {
      if j == |rows| {
        assert rows[i] in rows;
      }
    }
  }

  function Apart<R(==)>(): (R, R) -> bool { (x: R, y: R) => x != y }

  /** Selecting from a duplicate-free list. */
  lemma WhereDistinct<R(!new)>(xs: seq<R>, p: R -> bool)
    requires NoDup(xs)
    ensures NoDup(Where(xs, p)) && forall x :: x in Where(xs, p) <==> x in xs && p(x)
  {
    WhereMembers(xs, p);
    assert Pairwise(xs, Apart());
    WherePairwise(xs, p, Apart());
    forall i, j | 0 <= i < j < |Where(xs, p)| ensures Where(xs, p)[i] != Where(xs, p)[j] {
      assert Apart()(Where(xs, p)[i], Where(xs, p)[j]);
    }
  }

  /** The last row satisfying `p`: what a map built from the rows in order holds. */
  function Last<R>(rows: seq<R>, p: R -> bool): Option<R> {
    if rows == [] then None
    else if p(rows[|rows| - 1]) then Some(rows[|rows| - 1])
    else Last(rows[..|rows| - 1], p)
  }

  /** Looking up among selected rows is looking up with both conditions. */
  lemma {:induction false} LastWhere<R>(rows: seq<R>, p: R -> bool, q: R -> bool, both: R -> bool)
    requires forall r :: both(r) <==> p(r) && q(r)
    ensures Last(Where(rows, p), q) == Last(rows, both)
  {
    if rows != [] {
      var init, last := rows[..|rows| - 1], rows[|rows| - 1];
      LastWhere(init, p, q, both);
      if p(last) {
        assert (Where(init, p) + [last])[..|Where(init, p)|] == Where(init, p);
      }
    }
  }

  /** Conditions that agree find the same row. */
  lemma {:induction false} LastCongruent<R>(rows: seq<R>, p: R -> bool, q: R -> bool)
    requires forall r :: r in rows ==> (p(r) <==> q(r))
    ensures Last(rows, p) == Last(rows, q)
  {
    if rows != [] {
      assert rows[|rows| - 1] in rows;
      LastCongruent(rows[..|rows| - 1], p, q);
    }
  }

  lemma {:induction false} LastFound<R>(rows: seq<R>, p: R -> bool)
    ensures Last(rows, p).Some? ==> Last(rows, p).value in rows && p(Last(rows, p).value)
    ensures Last(rows, p).None? <==> forall r :: r in rows ==> !p(r)
  {
    if rows != [] {
      var init, last := rows[..|rows| - 1], rows[|rows| - 1];
      LastFound(init, p);
      assert rows == init + [last];
    }
  }

  /** At most one row satisfies `p`. */
  ghost predicate AtMostOne<R>(rows: seq<R>, p: R -> bool) {
    forall i, j :: 0 <= i < |rows| && 0 <= j < |rows| && p(rows[i]) && p(rows[j]) ==> i == j
  }

  /** The first row satisfying `p`: `findOne({ where: p })`. */
  function IndexOf<R>(rows: seq<R>, p: R -> bool): (i: Option<nat>)
    ensures i.Some? ==> i.value < |rows| && p(rows[i.value])
    ensures i.None? ==> forall r :: r in rows ==> !p(r)
  {
    if rows == [] then None
    else if p(rows[0]) then Some(0)
    else
      match IndexOf(rows[1..], p)
      case None => None
      case Some(k) => Some(k + 1)
  }

  function First<R>(rows: seq<R>, p: R -> bool): Option<R> {
    match IndexOf(rows, p)
    case None => None
    case Some(i) => Some(rows[i])
  }

  /** With a unique key, first and last are the same row. */
  lemma FirstIsLast<R>(rows: seq<R>, p: R -> bool)
    requires AtMostOne(rows, p)
    ensures First(rows, p) == Last(rows, p)
  {
    LastFound(rows, p);
    if Last(rows, p).Some? {
      var k :| 0 <= k < |rows| && rows[k] == Last(rows, p).value;
    }
  }

  /** Rewrite the row with this key, or append a new one. */
  function Upsert<R>(rows: seq<R>, p: R -> bool, created: R, write: R -> R): seq<R> {
    match IndexOf(rows, p)
    case None => rows + [write(created)]
    case Some(i) => rows[i := write(rows[i])]
  }

  /** `COALESCE(SUM(f), 0) ... WHERE p`. */
  function SumWhere<R>(rows: seq<R>, p: R -> bool, f: R -> real): real {
    if rows == [] then 0.0
    else SumWhere(rows[..|rows| - 1], p, f) + if p(rows[|rows| - 1]) then f(rows[|rows| - 1]) else 0.0
  }

  /** A sum over a condition that splits in two. */
  lemma {:induction false} SumSplit<R>(rows: seq<R>, either: R -> bool, p: R -> bool, q: R -> bool, f: R -> real)
    requires forall r :: r in rows ==> (either(r) <==> p(r) || q(r)) && !(p(r) && q(r))
    ensures SumWhere(rows, either, f) == SumWhere(rows, p, f) + SumWhere(rows, q, f)
  {
    if rows != [] {
      assert rows[|rows| - 1] in rows;
      SumSplit(rows[..|rows| - 1], either, p, q, f);
    }
  }

  lemma {:induction false} SumNothing<R>(rows: seq<R>, p: R -> bool, f: R -> real)
    requires forall r :: r in rows ==> !p(r)
    ensures SumWhere(rows, p, f) == 0.0
  {
    if rows != [] {
      assert rows[|rows| - 1] in rows;
      SumNothing(rows[..|rows| - 1], p, f);
    }
  }

  /** The value a key contributes: zero when it has no row. */
  function ValueOf<R>(found: Option<R>, f: R -> real): real {
    match found
    case None => 0.0
    case Some(r) => f(r)
  }

  /** Summing over a unique key is looking the key up. */
  lemma {:induction false} SumSingle<R>(rows: seq<R>, p: R -> bool, f: R -> real)
    requires AtMostOne(rows, p)
    ensures SumWhere(rows, p, f) == ValueOf(Last(rows, p), f)
  {
    if rows != [] {
      var init, last := rows[..|rows| - 1], rows[|rows| - 1];
      if p(last) {
        assert forall i :: 0 <= i < |init| ==> rows[i] == init[i];
        assert p(rows[|rows| - 1]);
        SumNothing(init, p, f);
      } else {
        assert forall i :: 0 <= i < |init| ==> rows[i] == init[i];
        SumSingle(init, p, f);
      }
    }
  }

  /** The condition that a row's key is this one. */
  function HasKey<R, K(==)>(key: R -> K, k: K): R -> bool {
    r => key(r) == k
  }

  function KeyIn<R, K(==)>(key: R -> K, ks: seq<K>): R -> bool {
    r => key(r) in ks
  }

  ghost predicate UniqueKey<R(!new), K(!new)>(rows: seq<R>, key: R -> K) {
    forall i, j :: 0 <= i < |rows| && 0 <= j < |rows| && key(rows[i]) == key(rows[j]) ==> i == j
  }

  /** The values of a list of keys, added up one lookup at a time. */
  function SumOfLookups<R, K(==)>(rows: seq<R>, key: R -> K, ks: seq<K>, f: R -> real): real {
    if ks == [] then 0.0
    else SumOfLookups(rows, key, ks[..|ks| - 1], f) + ValueOf(Last(rows, HasKey(key, ks[|ks| - 1])), f)
  }

  /** For distinct keys, adding up lookups is one sum over the rows that have one of the keys. */
  lemma {:induction false} LookupsAreOneSum<R(!new), K(!new)>(rows: seq<R>, key: R -> K, ks: seq<K>, f: R -> real)
    requires UniqueKey(rows, key) && NoDup(ks)
    ensures SumOfLookups(rows, key, ks, f) == SumWhere(rows, KeyIn(key, ks), f)
  {
    if ks == [] {
      SumNothing(rows, KeyIn(key, ks), f);
    } else {
      var init, last := ks[..|ks| - 1], ks[|ks| - 1];
      LookupsAreOneSum(rows, key, init, f);
      SumSingle(rows, HasKey(key, last), f);
      assert ks == init + [last];
      SumSplit(rows, KeyIn(key, ks), KeyIn(key, init), HasKey(key, last), f);
    }
  }

  // ---------------------------------------------------------------- writing a row

  /** Two tables that agree row by row on `p` find rows at the same place. */
  lemma {:induction false} LastAligned<R>(xs: seq<R>, ys: seq<R>, p: R -> bool)
    requires |xs| == |ys|
    requires forall i :: 0 <= i < |xs| ==> (p(xs[i]) <==> p(ys[i]))
    ensures Last(xs, p).None? <==> Last(ys, p).None?
    ensures Last(xs, p).Some? ==> exists i :: 0 <= i < |xs| && Last(xs, p) == Some(xs[i]) && Last(ys, p) == Some(ys[i])
  {
    if xs != [] {
      var k := |xs| - 1;
      LastAligned(xs[..k], ys[..k], p);
      if p(xs[k]) {
        assert Last(xs, p) == Some(xs[k]) && Last(ys, p) == Some(ys[k]);
      } else if Last(xs, p).Some? {
        var i :| 0 <= i < k && Last(xs[..k], p) == Some(xs[..k][i]) && Last(ys[..k], p) == Some(ys[..k][i]);
        assert Last(xs, p) == Some(xs[i]) && Last(ys, p) == Some(ys[i]);
      }
    }
  }

  lemma LastAt<R>(rows: seq<R>, p: R -> bool, i: nat)
    requires i < |rows| && p(rows[i]) && AtMostOne(rows, p)
    ensures Last(rows, p) == Some(rows[i])
  {
    LastFound(rows, p);
    assert rows[i] in rows;
    var j :| 0 <= j < |rows| && rows[j] == Last(rows, p).value;
  }

  lemma OneRowPerKey<R(!new), K(!new)>(rows: seq<R>, key: R -> K, k: K)
    requires UniqueKey(rows, key)
    ensures AtMostOne(rows, HasKey(key, k))
  {
  }

  /** The row a write through a key leaves behind. */
  function Written<R, K(==)>(rows: seq<R>, key: R -> K, k: K, created: R, write: R -> R): R {
    match First(rows, HasKey(key, k))
    case None => write(created)
    case Some(r) => write(r)
  }

  /** A write through a key keeps keys unique and is seen by that key only. */
  lemma UpsertLookup<R(!new), K(!new)>(rows: seq<R>, key: R -> K, k: K, created: R, write: R -> R, other: K)
    requires UniqueKey(rows, key) && key(created) == k
    requires forall r :: key(write(r)) == key(r)
    ensures UniqueKey(Upsert(rows, HasKey(key, k), created, write), key)
    ensures Last(Upsert(rows, HasKey(key, k), created, write), HasKey(key, other))
         == if other == k then Some(Written(rows, key, k, created, write)) else Last(rows, HasKey(key, other))
  {
    var after := Upsert(rows, HasKey(key, k), created, write);
    var at := match IndexOf(rows, HasKey(key, k)) case None => |rows| case Some(i) => i;
    assert after[at] == Written(rows, key, k, created, write) && key(after[at]) == k;
    forall i, j | 0 <= i < |after| && 0 <= j < |after| && key(after[i]) == key(after[j]) ensures i == j {
      if i < |rows| {
        assert key(rows[i]) == key(after[i]) && rows[i] in rows;
      }
      if j < |rows| {
        assert key(rows[j]) == key(after[j]) && rows[j] in rows;
      }
    }
    OneRowPerKey(after, key, other);
    OneRowPerKey(rows, key, other);
    if other == k {
      LastAt(after, HasKey(key, other), at);
    } else {
      LastFound(after, HasKey(key, other));
      LastFound(rows, HasKey(key, other));
      if Last(rows, HasKey(key, other)).Some? {
        var j :| 0 <= j < |rows| && rows[j] == Last(rows, HasKey(key, other)).value;
        assert after[j] == rows[j];
        LastAt(after, HasKey(key, other), j);
      }
    }
  }

  /** What one row adds to a sum. */
  function Share<R>(r: R, p: R -> bool, f: R -> real): real {
    if p(r) then f(r) else 0.0
  }

  lemma {:induction false} SumSet<R>(rows: seq<R>, i: nat, r: R, p: R -> bool, f: R -> real)
    requires i < |rows|
    ensures SumWhere(rows[i := r], p, f) == SumWhere(rows, p, f) - Share(rows[i], p, f) + Share(r, p, f)
  {
    var k := |rows| - 1;
    if i == k {
      assert rows[i := r][..k] == rows[..k];
    } else {
      assert rows[i := r][..k] == rows[..k][i := r];
      SumSet(rows[..k], i, r, p, f);
    }
  }

  /** What a write through a key does to a sum. */
  lemma SumUpsert<R, K>(rows: seq<R>, key: R -> K, k: K, created: R, write: R -> R, p: R -> bool, f: R -> real)
    ensures SumWhere(Upsert(rows, HasKey(key, k), created, write), p, f)
         == SumWhere(rows, p, f)
            - (match First(rows, HasKey(key, k)) case None => 0.0 case Some(r) => Share(r, p, f))
            + Share(Written(rows, key, k, created, write), p, f)
  {
    match IndexOf(rows, HasKey(key, k))
    case None => assert (rows + [write(created)])[..|rows|] == rows;
    case Some(i) => SumSet(rows, i, write(rows[i]), p, f);
  }

  lemma {:induction false} SumCongruent<R>(rows: seq<R>, p: R -> bool, q: R -> bool, f: R -> real)
    requires forall r :: r in rows ==> (p(r) <==> q(r))
    ensures SumWhere(rows, p, f) == SumWhere(rows, q, f)
  {
    if rows != [] {
      assert rows[|rows| - 1] in rows;
      SumCongruent(rows[..|rows| - 1], p, q, f);
    }
  }

  // ---------------------------------------------------------------- saving a whole row

  /** Save a row over the one with its key, or insert it. */
  function Put<R, K(==)>(rows: seq<R>, key: R -> K, row: R): seq<R> {
    match IndexOf(rows, HasKey(key, key(row)))
    case None => rows + [row]
    case Some(i) => rows[i := row]
  }

  lemma FirstAt<R>(rows: seq<R>, p: R -> bool, i: nat)
    requires i < |rows| && p(rows[i]) && AtMostOne(rows, p)
    ensures First(rows, p) == Some(rows[i])
  {
    assert rows[i] in rows;
  }

  /** A save is seen under its own key only. */
  lemma PutLookup<R(!new), K(!new)>(rows: seq<R>, key: R -> K, row: R, other: K)
    requires UniqueKey(rows, key)
    ensures UniqueKey(Put(rows, key, row), key)
    ensures First(Put(rows, key, row), HasKey(key, other)) == if other == key(row) then Some(row) else First(rows, HasKey(key, other))
  {
    var after := Put(rows, key, row);
    var k := key(row);
    var at := match IndexOf(rows, HasKey(key, k)) case None => |rows| case Some(i) => i;
    assert after[at] == row;
    forall i, j | 0 <= i < |after| && 0 <= j < |after| && key(after[i]) == key(after[j]) ensures i == j {
      if i < |rows| {
        assert key(rows[i]) == key(after[i]) && rows[i] in rows;
      }
      if j < |rows| {
        assert key(rows[j]) == key(after[j]) && rows[j] in rows;
      }
    }
    OneRowPerKey(after, key, other);
    OneRowPerKey(rows, key, other);
    if other == k {
      FirstAt(after, HasKey(key, other), at);
    } else if First(rows, HasKey(key, other)).Some? {
      var j := IndexOf(rows, HasKey(key, other)).value;
      assert key(rows[j]) == other;
      FirstAt(after, HasKey(key, other), j);
    } else if First(after, HasKey(key, other)).Some? {
      SavedElsewhere(rows, key, row, other);
    }
  }

  lemma SavedElsewhere<R(!new), K(!new)>(rows: seq<R>, key: R -> K, row: R, other: K)
    requires other != key(row) && First(Put(rows, key, row), HasKey(key, other)).Some?
    ensures First(rows, HasKey(key, other)).Some?
  {
    var after := Put(rows, key, row);
    var j := IndexOf(after, HasKey(key, other)).value;
    assert key(after[j]) == other;
    assert j < |rows| && rows[j] == after[j] && rows[j] in rows;
  }

  lemma SumPut<R, K>(rows: seq<R>, key: R -> K, row: R, p: R -> bool, f: R -> real)
    ensures SumWhere(Put(rows, key, row), p, f)
         == SumWhere(rows, p, f)
            - (match First(rows, HasKey(key, key(row))) case None => 0.0 case Some(r) => Share(r, p, f))
            + Share(row, p, f)
  {
    match IndexOf(rows, HasKey(key, key(row)))
    case None => assert (rows + [row])[..|rows|] == rows;
    case Some(i) => SumSet(rows, i, row, p, f);
  }

  /** Writing through a key is saving the row that results. */
  lemma UpsertIsPut<R, K>(rows: seq<R>, key: R -> K, k: K, created: R, write: R -> R)
    requires key(Written(rows, key, k, created, write)) == k
    ensures Upsert(rows, HasKey(key, k), created, write) == Put(rows, key, Written(rows, key, k, created, write))
  {
  }

  /** Saving twice under one key keeps the later row. */
  lemma PutTwice<R(!new), K(!new)>(rows: seq<R>, key: R -> K, x: R, y: R)
    requires UniqueKey(rows, key) && key(x) == key(y)
    ensures Put(Put(rows, key, x), key, y) == Put(rows, key, y)
  {
    var after := Put(rows, key, x);
    PutLookup(rows, key, x, key(x));
    OneRowPerKey(after, key, key(x));
    var at := match IndexOf(rows, HasKey(key, key(x))) case None => |rows| case Some(i) => i;
    assert after[at] == x;
    var i := IndexOf(after, HasKey(key, key(y))).value;
    assert key(after[i]) == key(y);
    assert i == at;
  }

  // ---------------------------------------------------------------- deleting rows

  lemma UniqueWhere<R(!new), K(!new)>(rows: seq<R>, key: R -> K, keep: R -> bool)
    requires UniqueKey(rows, key)
    ensures UniqueKey(Where(rows, keep), key)
  {
    var differ := (x: R, y: R) => key(x) != key(y);
    assert Pairwise(rows, differ);
    WherePairwise(rows, keep, differ);
    assert forall i, j :: 0 <= i < j < |Where(rows, keep)| ==> differ(Where(rows, keep)[i], Where(rows, keep)[j]);
  }

  /** Deleting rows a sum does not count leaves the sum alone. */
  lemma {:induction false} SumKept<R>(rows: seq<R>, keep: R -> bool, p: R -> bool, q: R -> bool, f: R -> real)
    requires forall r :: r in rows ==> if keep(r) then p(r) <==> q(r) else !p(r)
    ensures SumWhere(Where(rows, keep), q, f) == SumWhere(rows, p, f)
  {
    if rows != [] {
      var init, last := rows[..|rows| - 1], rows[|rows| - 1];
      assert last in rows;
      SumKept(init, keep, p, q, f);
      if keep(last) {
        assert (Where(init, keep) + [last])[..|Where(init, keep)|] == Where(init, keep);
      }
    }
  }
}
