/**
 * The part of SQLite that the repositories rely on: AUTOINCREMENT tables,
 * the BINARY collation on TEXT columns (used by `=`, `BETWEEN` and
 * `ORDER BY`), and SELECT as "scan, filter, sort".
 */
module Sql {
  import opened Js

  // ---------------------------------------------------------------------
  // TEXT comparison (BINARY collation)
  // ---------------------------------------------------------------------

  /** `a <= b` on TEXT values: lexicographic order of code points. */
  predicate TextLe(a: string, b: string) {
    a == [] || (b != [] && (a[0] < b[0] || (a[0] == b[0] && TextLe(a[1..], b[1..]))))
  }

  lemma {:induction false} TextLeRefl(a: string)
    ensures TextLe(a, a)
  {
    if a != [] {
      TextLeRefl(a[1..]);
    }
  }

  lemma {:induction false} TextLeTotal(a: string, b: string)
    ensures TextLe(a, b) || TextLe(b, a)
  {
    if a != [] && b != [] && a[0] == b[0] {
      TextLeTotal(a[1..], b[1..]);
    }
  }

  lemma {:induction false} TextLeTrans(a: string, b: string, c: string)
    requires TextLe(a, b) && TextLe(b, c)
    ensures TextLe(a, c)
  {
    if a != [] && b != [] && c != [] && a[0] == b[0] && b[0] == c[0] {
      TextLeTrans(a[1..], b[1..], c[1..]);
    }
  }

  lemma {:induction false} TextLeAntisym(a: string, b: string)
    requires TextLe(a, b) && TextLe(b, a)
    ensures a == b
  {
    if a != [] && b != [] {
      TextLeAntisym(a[1..], b[1..]);
      assert a == [a[0]] + a[1..] && b == [b[0]] + b[1..];
    }
  }

  /** `x BETWEEN lo AND hi` on TEXT values: both bounds inclusive. */
  predicate Between(x: string, lo: string, hi: string) {
    TextLe(lo, x) && TextLe(x, hi)
  }

  /** A range whose two bounds are the same value holds exactly that value. */
  lemma {:induction false} BetweenSameBound(x: string, day: string)
    ensures Between(x, day, day) <==> x == day
  {
    if Between(x, day, day) {
      TextLeAntisym(x, day);
    } else {
      TextLeRefl(day);
    }
  }

  // ---------------------------------------------------------------------
  // Tables
  // ---------------------------------------------------------------------

  /**
   * A table with an `INTEGER PRIMARY KEY AUTOINCREMENT` column: its rows by
   * id, and the largest id ever handed out (SQLite's `sqlite_sequence` entry).
   */
  datatype Table<R> = Table(rows: map<int, R>, lastId: nat)

  /** A table that was just created: no rows, no id used yet. */
  function EmptyTable<R>(): (t: Table<R>)
    ensures WellFormed(t) && t.rows == map[]
  {
    Table(map[], 0)
  }

  /** Every id in use was handed out (1..lastId), and no two ids hold the same row. */
  ghost predicate WellFormed<R>(t: Table<R>) {
    && (forall k :: k in t.rows ==> 1 <= k <= t.lastId)
    && (forall k1, k2 :: k1 in t.rows && k2 in t.rows && k1 != k2 ==> t.rows[k1] != t.rows[k2])
  }

  /** The id AUTOINCREMENT gives the next inserted row. */
  function NextId<R>(t: Table<R>): (id: int)
    ensures id >= 1
    ensures WellFormed(t) ==> id !in t.rows && forall k :: k in t.rows ==> k < id
  {
    t.lastId + 1
  }

  /** `INSERT`: the row gets the next id, and the sequence moves past it. */
  function Insert<R(==)>(t: Table<R>, row: R): (t': Table<R>)
    ensures t'.rows == t.rows[NextId(t) := row] && t'.lastId == NextId(t)
    ensures WellFormed(t) && (forall k :: k in t.rows ==> t.rows[k] != row) ==> WellFormed(t')
  {
    Table(t.rows[NextId(t) := row], NextId(t))
  }

  /** `WHERE id = ?` lookup: the row with that id, if any. */
  function Lookup<R>(t: Table<R>, id: int): (r: Option<R>)
    ensures r.Some? <==> id in t.rows
    ensures r.Some? ==> r.value == t.rows[id]
  {
    if id in t.rows then Some(t.rows[id]) else None
  }

  /** `x` is one of the table's rows. */
  ghost predicate Stored<R>(t: Table<R>, x: R) {
    exists k :: k in t.rows && t.rows[k] == x
  }

  /** The table's rows in rowid order: the order of a full table scan. */
  function Scan<R(==,!new)>(t: Table<R>): (r: seq<R>)
    requires WellFormed(t)
    ensures forall x :: x in r <==> Stored(t, x)
    ensures NoDuplicates(r)
  {
    ScanUpTo(t, t.lastId)
  }

  function ScanUpTo<R(==,!new)>(t: Table<R>, n: nat): (r: seq<R>)
    requires WellFormed(t)
    ensures forall x :: x in r <==> exists k :: 1 <= k <= n && k in t.rows && t.rows[k] == x
    ensures NoDuplicates(r)
  {
    if n == 0 then []
    else
      var prefix := ScanUpTo(t, n - 1);
      if n in t.rows then
        assert t.rows[n] !in prefix;
        prefix + [t.rows[n]]
      else prefix
  }

  /** `UPDATE ... WHERE id = ?` on a row that exists: that row is replaced, the sequence stays. */
  function Replace<R>(t: Table<R>, id: int, row: R): (t': Table<R>)
    ensures t'.rows == t.rows[id := row] && t'.lastId == t.lastId
  {
    Table(t.rows[id := row], t.lastId)
  }

  /** `DELETE ... WHERE id = ?`: that row is gone (if there was one); ids are never handed out again. */
  function Remove<R>(t: Table<R>, id: int): (t': Table<R>)
    ensures t'.rows.Keys == t.rows.Keys - {id} && t'.lastId == t.lastId
    ensures forall k :: k in t'.rows ==> t'.rows[k] == t.rows[k]
    ensures id !in t.rows ==> t' == t
  {
    var t' := Table(t.rows - {id}, t.lastId);
    assert id !in t.rows ==> t'.rows == t.rows;
    t'
  }

  /** `DELETE ... WHERE p`: the rows satisfying `p` are gone, the others untouched. */
  function RemoveWhere<R>(t: Table<R>, p: R -> bool): (t': Table<R>)
    ensures forall k :: k in t'.rows <==> k in t.rows && !p(t.rows[k])
    ensures forall k :: k in t'.rows ==> t'.rows[k] == t.rows[k]
    ensures t'.lastId == t.lastId
    ensures (forall k :: k in t.rows ==> !p(t.rows[k])) ==> t' == t
  {
    var t' := Table(map k | k in t.rows && !p(t.rows[k]) :: t.rows[k], t.lastId);
    assert (forall k :: k in t.rows ==> !p(t.rows[k])) ==> t'.rows == t.rows;
    t'
  }

  /**
   * The table invariant the schema gives: each row sits under its own id,
   * that id came from the sequence, and the row satisfies `ok`.
   */
  ghost predicate Consistent<R>(t: Table<R>, key: R -> int, ok: R -> bool) {
    forall k :: k in t.rows ==> 1 <= k <= t.lastId && key(t.rows[k]) == k && ok(t.rows[k])
  }

  lemma ConsistentWellFormed<R>(t: Table<R>, key: R -> int, ok: R -> bool)
    requires Consistent(t, key, ok)
    ensures WellFormed(t)
  {
  }

  lemma InsertConsistent<R>(t: Table<R>, key: R -> int, ok: R -> bool, row: R)
    requires Consistent(t, key, ok) && key(row) == NextId(t) && ok(row)
    ensures Consistent(Insert(t, row), key, ok)
  {
  }

  lemma ReplaceConsistent<R>(t: Table<R>, key: R -> int, ok: R -> bool, id: int, row: R)
    requires Consistent(t, key, ok) && id in t.rows && key(row) == id && ok(row)
    ensures Consistent(Replace(t, id, row), key, ok)
  {
  }

  lemma RemoveConsistent<R>(t: Table<R>, key: R -> int, ok: R -> bool, id: int)
    requires Consistent(t, key, ok)
    ensures Consistent(Remove(t, id), key, ok)
  {
  }

  lemma RemoveWhereConsistent<R>(t: Table<R>, key: R -> int, ok: R -> bool, p: R -> bool)
    requires Consistent(t, key, ok)
    ensures Consistent(RemoveWhere(t, p), key, ok)
  {
  }

  /** The for/push loop that copies a result set into a JavaScript array. */
  method CopyRows<R>(rows: seq<R>) returns (out: seq<R>)
    ensures out == rows
  {
    out := [];
    for i := 0 to |rows|
      invariant out == rows[..i]
    {
      out := out + [rows[i]];
    }
  }

  // ---------------------------------------------------------------------
  // ORDER BY
  // ---------------------------------------------------------------------

  /** `x` may precede `y` under `ORDER BY key ASC` (or `DESC` when `!asc`). */
  predicate InOrder(asc: bool, x: string, y: string) {
    if asc then TextLe(x, y) else TextLe(y, x)
  }

  /** `s` is ordered by `key`. */
  predicate SortedBy<T>(s: seq<T>, key: T -> string, asc: bool) {
    forall i, j :: 0 <= i < j < |s| ==> InOrder(asc, key(s[i]), key(s[j]))
  }

  lemma InOrderTotal(asc: bool, x: string, y: string)
    ensures InOrder(asc, x, y) || InOrder(asc, y, x)
  {
    TextLeTotal(x, y);
  }

  lemma InOrderTrans(asc: bool, x: string, y: string, z: string)
    requires InOrder(asc, x, y) && InOrder(asc, y, z)
    ensures InOrder(asc, x, z)
  {
    if asc { TextLeTrans(x, y, z); } else { TextLeTrans(z, y, x); }
  }

  /** Puts `x` in front of the first element it may precede. */
  function InsertSorted<T>(x: T, s: seq<T>, key: T -> string, asc: bool): seq<T> {
    if s == [] then [x]
    else if InOrder(asc, key(x), key(s[0])) then [x] + s
    else [s[0]] + InsertSorted(x, s[1..], key, asc)
  }

  /**
   * `ORDER BY key`: a stable insertion sort. SQL leaves the order of rows
   * with equal keys open; this model keeps their scan (rowid) order.
   */
  function OrderBy<T>(s: seq<T>, key: T -> string, asc: bool): (r: seq<T>)
    ensures SortedBy(r, key, asc)
    ensures multiset(r) == multiset(s)
  {
    if s == [] then []
    else
      var rest := OrderBy(s[1..], key, asc);
      InsertSortedProperties(s[0], rest, key, asc);
      assert s == [s[0]] + s[1..];
      InsertSorted(s[0], rest, key, asc)
  }

  lemma {:induction false} InsertSortedProperties<T>(x: T, s: seq<T>, key: T -> string, asc: bool)
    requires SortedBy(s, key, asc)
    ensures SortedBy(InsertSorted(x, s, key, asc), key, asc)
    ensures multiset(InsertSorted(x, s, key, asc)) == multiset(s) + multiset{x}
  {
    var r := InsertSorted(x, s, key, asc);
    if s == [] {
    } else if InOrder(asc, key(x), key(s[0])) {
      forall j | 0 < j < |r| ensures InOrder(asc, key(r[0]), key(r[j])) {
        if j > 1 {
          InOrderTrans(asc, key(x), key(s[0]), key(s[j - 1]));
        } else {
          TextLeRefl(key(s[0]));
        }
      }
      assert s == [s[0]] + s[1..];
    } else {
      InOrderTotal(asc, key(x), key(s[0]));
      var tail := InsertSorted(x, s[1..], key, asc);
      InsertSortedProperties(x, s[1..], key, asc);
      assert multiset(tail) == multiset(s[1..]) + multiset{x};
      forall j | 0 <= j < |tail| ensures InOrder(asc, key(s[0]), key(tail[j])) {
        assert tail[j] in multiset(tail);
        if tail[j] == x {
        } else {
          assert tail[j] in multiset(s[1..]);
          var k :| 0 <= k < |s[1..]| && s[1..][k] == tail[j];
          assert s[k + 1] == tail[j];
        }
      }
      assert r == [s[0]] + tail;
      assert s == [s[0]] + s[1..];
    }
  }

  // ---------------------------------------------------------------------
  // SELECT ... WHERE ... ORDER BY ...
  // ---------------------------------------------------------------------

  /**
   * `SELECT * FROM t WHERE p ORDER BY key`: exactly the rows satisfying `p`,
   * each once, in key order.
   */
  function Select<R(==,!new)>(t: Table<R>, p: R -> bool, key: R -> string, asc: bool): (r: seq<R>)
    requires WellFormed(t)
    ensures forall x :: x in r <==> Stored(t, x) && p(x)
    ensures NoDuplicates(r)
    ensures SortedBy(r, key, asc)
  {
    var filtered := Filter(Scan(t), p);
    FilterKeepsNoDuplicates(Scan(t), p);
    var r := OrderBy(filtered, key, asc);
    assert forall x :: x in r <==> x in filtered by {
      assert forall x :: x in r <==> x in multiset(r);
    }
    PermutationKeepsNoDuplicates(filtered, r);
    r
  }

  lemma {:induction false} PermutationKeepsNoDuplicates<T>(s: seq<T>, r: seq<T>)
    requires NoDuplicates(s) && multiset(r) == multiset(s)
    ensures NoDuplicates(r)
  {
    forall i, j | 0 <= i < j < |r| ensures r[i] != r[j] {
      if r[i] == r[j] {
        assert r == r[..j] + r[j..];
        assert r[i] in r[..j];
        assert multiset(r)[r[i]] >= 2 by {
          assert multiset(r) == multiset(r[..j]) + multiset(r[j..]);
          assert r[j] in multiset(r[j..]);
        }
        MultiplicityOfDistinct(s, r[i]);
      }
    }
  }

  lemma {:induction false} MultiplicityOfDistinct<T>(s: seq<T>, x: T)
    requires NoDuplicates(s)
    ensures multiset(s)[x] <= 1
  {
    if s != [] {
      MultiplicityOfDistinct(s[1..], x);
      assert s == [s[0]] + s[1..];
      assert forall j :: 0 <= j < |s[1..]| ==> s[1..][j] == s[j + 1];
    }
  }

  /**
   * Filtering a sorted sequence gives what sorting the filtered input gives:
   * the insertion sort is stable.
   */
  lemma {:induction false} OrderByFilterCommute<T(!new)>(s: seq<T>, p: T -> bool, key: T -> string, asc: bool)
    ensures Filter(OrderBy(s, key, asc), p) == OrderBy(Filter(s, p), key, asc)
  {
    if s != [] {
      var rest := OrderBy(s[1..], key, asc);
      OrderByFilterCommute(s[1..], p, key, asc);
      FilterInsertSorted(s[0], rest, p, key, asc);
      if p(s[0]) {
        assert Filter(s, p) == [s[0]] + Filter(s[1..], p);
        assert ([s[0]] + Filter(s[1..], p))[1..] == Filter(s[1..], p);
      } else {
        assert Filter(s, p) == Filter(s[1..], p);
      }
    }
  }

  lemma {:induction false} FilterInsertSorted<T(!new)>(x: T, s: seq<T>, p: T -> bool, key: T -> string, asc: bool)
    requires SortedBy(s, key, asc)
    ensures Filter(InsertSorted(x, s, key, asc), p)
         == if p(x) then InsertSorted(x, Filter(s, p), key, asc) else Filter(s, p)
  {
    if s == [] {
      FilterCons(x, [], p);
    } else {
      assert s == [s[0]] + s[1..];
      FilterCons(s[0], s[1..], p);
      if InOrder(asc, key(x), key(s[0])) {
        FilterCons(x, s, p);
        if p(x) && !p(s[0]) {
          FilterHeadFollows(x, s, p, key, asc);
        }
      } else {
        var tail := InsertSorted(x, s[1..], key, asc);
        var f := Filter(s[1..], p);
        assert InsertSorted(x, s, key, asc) == [s[0]] + tail;
        FilterInsertSorted(x, s[1..], p, key, asc);
        FilterCons(s[0], tail, p);
        if p(s[0]) && p(x) {
          assert Filter(s, p) == [s[0]] + f;
          assert ([s[0]] + f)[0] == s[0] && ([s[0]] + f)[1..] == f;
          assert InsertSorted(x, [s[0]] + f, key, asc) == [s[0]] + InsertSorted(x, f, key, asc);
          assert Filter(tail, p) == InsertSorted(x, f, key, asc);
          assert Filter([s[0]] + tail, p) == [s[0]] + Filter(tail, p);
        } else if p(s[0]) {
          assert Filter(tail, p) == f;
        } else if p(x) {
          assert Filter(s, p) == f;
        } else {
          assert Filter(s, p) == f;
        }
      }
    }
  }

  /** When `x` may precede the head of a sorted `s`, it may precede everything kept from `s`. */
  lemma FilterHeadFollows<T(!new)>(x: T, s: seq<T>, p: T -> bool, key: T -> string, asc: bool)
    requires SortedBy(s, key, asc) && s != []
    requires InOrder(asc, key(x), key(s[0]))
    ensures InsertSorted(x, Filter(s, p), key, asc) == [x] + Filter(s, p)
  {
    var f := Filter(s, p);
    if f != [] {
      assert f[0] in s;
      var k :| 0 <= k < |s| && s[k] == f[0];
      if k > 0 {
        InOrderTrans(asc, key(x), key(s[0]), key(f[0]));
      }
    }
  }


  /**
   * Adding a conjunct to the WHERE clause filters the result of the
   * weaker query, keeping its order.
   */
  lemma SelectRefine<R(!new)>(t: Table<R>, p: R -> bool, q: R -> bool, pq: R -> bool, key: R -> string, asc: bool)
    requires WellFormed(t)
    requires forall x :: pq(x) == (p(x) && q(x))
    ensures Select(t, pq, key, asc) == Filter(Select(t, p, key, asc), q)
  {
    FilterFilter(Scan(t), p, q, pq);
    OrderByFilterCommute(Filter(Scan(t), p), q, key, asc);
  }
}
