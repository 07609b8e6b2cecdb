/** Queries over a table held as a sequence of rows in insertion order:
    `findFirst` is the first row that matches, `delete ... where` keeps the
    rows that do not match, `update ... where` rewrites every matching row. */
module Rows {
  import opened Wrappers

  function First<T>(rows: seq<T>, p: T -> bool): (r: Option<T>)
    ensures r.Some? ==> r.value in rows && p(r.value)
    ensures r.None? <==> forall i :: 0 <= i < |rows| ==> !p(rows[i])
    ensures r.Some? ==> exists i :: 0 <= i < |rows| && rows[i] == r.value &&
                                    forall j :: 0 <= j < i ==> !p(rows[j])
  {
    if rows == [] then None
    else if p(rows[0]) then Some(rows[0])
    else First(rows[1..], p)
  }

  /** The matching rows, in table order. */
  function Keep<T(!new)>(rows: seq<T>, p: T -> bool): (r: seq<T>)
    ensures |r| <= |rows|
    ensures forall x :: x in r <==> x in rows && p(x)
  {
    if rows == [] then []
    else (if p(rows[0]) then [rows[0]] else []) + Keep(rows[1..], p)
  }

  /** Filtering a table split in two filters each part. */
  lemma {:induction false} KeepAppend<T(!new)>(a: seq<T>, b: seq<T>, p: T -> bool)
    ensures Keep(a + b, p) == Keep(a, p) + Keep(b, p)
  {
    if a == [] {
      assert a + b == b;
    } else {
      assert (a + b)[1..] == a[1..] + b;
      KeepAppend(a[1..], b, p);
    }
  }

  /** Two filters that agree on every row keep the same rows. */
  lemma {:induction false} KeepSame<T(!new)>(rows: seq<T>, p: T -> bool, q: T -> bool)
    requires forall x :: p(x) == q(x)
    ensures Keep(rows, p) == Keep(rows, q)
  {
    if rows != [] {
      KeepSame(rows[1..], p, q);
    }
  }

  /** Filtering twice by the same condition is filtering once. */
  lemma {:induction false} KeepTwice<T(!new)>(rows: seq<T>, p: T -> bool)
    ensures Keep(Keep(rows, p), p) == Keep(rows, p)
  {
    if rows != [] {
      KeepTwice(rows[1..], p);
      var k := Keep(rows, p);
      if p(rows[0]) {
        assert k == [rows[0]] + Keep(rows[1..], p);
        assert k[0] == rows[0] && k[1..] == Keep(rows[1..], p);
      } else {
        assert k == Keep(rows[1..], p);
      }
    }
  }

  /** A filter no row passes keeps nothing. */
  lemma {:induction false} KeepNone<T(!new)>(rows: seq<T>, p: T -> bool)
    requires forall x :: x in rows ==> !p(x)
    ensures Keep(rows, p) == []
  {
    if rows != [] {
      assert rows[0] in rows;
      KeepNone(rows[1..], p);
    }
  }

  /** Every row matching `p` rewritten by `f`; the others unchanged. */
  function Update<T>(rows: seq<T>, p: T -> bool, f: T -> T): (r: seq<T>)
    ensures |r| == |rows|
    ensures forall i :: 0 <= i < |rows| ==> r[i] == (if p(rows[i]) then f(rows[i]) else rows[i])
  {
    seq(|rows|, i requires 0 <= i < |rows| => if p(rows[i]) then f(rows[i]) else rows[i])
  }

  predicate Exists<T>(rows: seq<T>, p: T -> bool) {
    exists i :: 0 <= i < |rows| && p(rows[i])
  }

  /** The number of matching rows: what `update ... returning` gives back. */
  function CountWhere<T>(rows: seq<T>, p: T -> bool): (n: nat)
    ensures n <= |rows|
    ensures n == 0 <==> !Exists(rows, p)
  {
    if rows == [] then 0
    else (if p(rows[0]) then 1 else 0) + CountWhere(rows[1..], p)
  }

  // ------------------------------------------------------------ ordering

  /** `le` orders every pair of rows and is transitive: what an ORDER BY on
      one column provides. */
  ghost predicate TotalPreorder<T(!new)>(le: (T, T) -> bool) {
    && (forall a, b :: le(a, b) || le(b, a))
    && (forall a, b, c :: le(a, b) && le(b, c) ==> le(a, c))
  }

  predicate SortedBy<T>(s: seq<T>, le: (T, T) -> bool) {
    forall i, j :: 0 <= i < j < |s| ==> le(s[i], s[j])
  }

  function Insert<T>(x: T, s: seq<T>, le: (T, T) -> bool): seq<T> {
    if s == [] then [x]
    else if le(x, s[0]) then [x] + s
    else [s[0]] + Insert(x, s[1..], le)
  }

  /** The rows in the order ORDER BY returns them. */
  function SortBy<T>(s: seq<T>, le: (T, T) -> bool): seq<T> {
    if s == [] then [] else Insert(s[0], SortBy(s[1..], le), le)
  }

  lemma {:induction false} InsertMultiset<T>(x: T, s: seq<T>, le: (T, T) -> bool)
    ensures multiset(Insert(x, s, le)) == multiset(s) + multiset{x}
  {
    if s != [] {
      assert s == [s[0]] + s[1..];
      if !le(x, s[0]) {
        InsertMultiset(x, s[1..], le);
      }
    }
  }

  lemma {:induction false} InsertLowerBound<T>(y: T, x: T, s: seq<T>, le: (T, T) -> bool)
    requires le(y, x) && forall k :: 0 <= k < |s| ==> le(y, s[k])
    ensures forall k :: 0 <= k < |Insert(x, s, le)| ==> le(y, Insert(x, s, le)[k])
  {
    if s != [] && !le(x, s[0]) {
      InsertLowerBound(y, x, s[1..], le);
    }
  }

  lemma {:induction false} InsertSorted<T(!new)>(x: T, s: seq<T>, le: (T, T) -> bool)
    requires TotalPreorder(le) && SortedBy(s, le)
    ensures SortedBy(Insert(x, s, le), le)
  {
    if s == [] {
    } else if le(x, s[0]) {
      var r := [x] + s;
      forall i, j | 0 <= i < j < |r| ensures le(r[i], r[j]) {
        if i > 0 {
          assert r[i] == s[i - 1] && r[j] == s[j - 1];
        } else if j > 1 {
          assert le(s[0], s[j - 1]);
        }
      }
    } else {
      InsertSorted(x, s[1..], le);
      InsertLowerBound(s[0], x, s[1..], le);
      var t := Insert(x, s[1..], le);
      var r := [s[0]] + t;
      forall i, j | 0 <= i < j < |r| ensures le(r[i], r[j]) {
        if i > 0 {
          assert r[i] == t[i - 1] && r[j] == t[j - 1];
        } else {
          assert r[j] == t[j - 1];
        }
      }
    }
  }

  /** Sorting yields an ordered permutation of the table. */
  lemma {:induction false} SortBySorted<T(!new)>(s: seq<T>, le: (T, T) -> bool)
    requires TotalPreorder(le)
    ensures SortedBy(SortBy(s, le), le)
    ensures multiset(SortBy(s, le)) == multiset(s)
  {
    if s != [] {
      SortBySorted(s[1..], le);
      InsertSorted(s[0], SortBy(s[1..], le), le);
      InsertMultiset(s[0], SortBy(s[1..], le), le);
      assert s == [s[0]] + s[1..];
    }
  }

  // ------------------------------------------------------------ lookups

  /** Looking up a row after an update that keeps the lookup key gives the
      updated form of the row found before. */
  lemma {:induction false} FirstUpdate<T>(rows: seq<T>, p: T -> bool, q: T -> bool, f: T -> T)
    requires forall x :: p(f(x)) == p(x)
    ensures First(Update(rows, q, f), p) ==
      (if First(rows, p).Some? then Some(if q(First(rows, p).value) then f(First(rows, p).value) else First(rows, p).value) else None)
  {
    if rows != [] {
      var u := Update(rows, q, f);
      assert u[1..] == Update(rows[1..], q, f);
      FirstUpdate(rows[1..], p, q, f);
    }
  }

  /** Removing rows the lookup cannot find leaves the lookup unchanged. */
  lemma {:induction false} FirstKeep<T(!new)>(rows: seq<T>, p: T -> bool, q: T -> bool)
    requires forall x :: p(x) ==> q(x)
    ensures First(Keep(rows, q), p) == First(rows, p)
  {
    if rows != [] {
      FirstKeep(rows[1..], p, q);
      var k := Keep(rows, q);
      if q(rows[0]) {
        assert k == [rows[0]] + Keep(rows[1..], q);
        assert k[1..] == Keep(rows[1..], q);
      } else {
        assert k == Keep(rows[1..], q);
      }
    }
  }

  // ------------------------------------------------------------- paging

  /** Rows `offset` to `offset + limit` (exclusive) of a result, as far as
      they exist. */
  function Window<T>(rows: seq<T>, offset: nat, limit: nat): (r: seq<T>)
    ensures |r| <= limit
    ensures offset <= |rows| ==> r == rows[offset..if offset + limit <= |rows| then offset + limit else |rows|]
    ensures offset >= |rows| ==> r == []
  {
    if offset >= |rows| then []
    else if offset + limit <= |rows| then rows[offset..offset + limit]
    else rows[offset..]
  }

  lemma WindowSorted<T>(s: seq<T>, le: (T, T) -> bool, offset: nat, limit: nat)
    requires SortedBy(s, le)
    ensures SortedBy(Window(s, offset, limit), le)
  {
    var w := Window(s, offset, limit);
    if offset < |s| {
      forall i, j | 0 <= i < j < |w| ensures le(w[i], w[j]) {
        assert w[i] == s[offset + i] && w[j] == s[offset + j];
      }
    }
  }

  lemma {:induction false} KeepCount<T(!new)>(rows: seq<T>, p: T -> bool)
    ensures CountWhere(rows, p) == |Keep(rows, p)|
  {
    if rows != [] {
      KeepCount(rows[1..], p);
    }
  }
}
