/// Database tables as the routes query them: a table is the sequence of its
/// rows; a filtered `select`, a `.single()` lookup that yields a row only
/// when exactly one row matches, and an `update ... where` that rewrites
/// every matching row.
module Tables {
  import opened Js

  /** The rows that satisfy the filter, in table order. */
  function Where<T>(rows: seq<T>, p: T -> bool): (r: seq<T>)
    ensures |r| <= |rows|
    ensures forall i :: 0 <= i < |r| ==> r[i] in rows && p(r[i])
    ensures forall i :: 0 <= i < |rows| && p(rows[i]) ==> rows[i] in r
  {
    if rows == [] then []
    else (if p(rows[0]) then [rows[0]] else []) + Where(rows[1..], p)
  }

  /** Filtering keeps order and multiplicity: filtering two tables one after
      the other is filtering each and concatenating, and a single row is kept
      exactly when it matches. With `Where([], p) == []` this fixes `Where`
      completely. */
  lemma {:induction false} WhereAppend<T>(a: seq<T>, b: seq<T>, p: T -> bool)
    ensures Where(a + b, p) == Where(a, p) + Where(b, p)
    decreases |a|
  {
    if a == [] {
      assert a + b == b;
    } else {
      assert (a + b)[0] == a[0];
      assert (a + b)[1..] == a[1..] + b;
      WhereAppend(a[1..], b, p);
    }
  }

  lemma WhereOfOne<T>(x: T, p: T -> bool)
    ensures Where([x], p) == if p(x) then [x] else []
  {
    assert [x][1..] == [];
  }

  /** `.single()`: the matching row when there is exactly one. */
  function Single<T>(rows: seq<T>, p: T -> bool): (r: Option<T>)
    ensures r.Some? ==> r.value in rows && p(r.value)
    ensures r.Some? ==> forall i :: 0 <= i < |rows| && p(rows[i]) ==> rows[i] == r.value
  {
    var m := Where(rows, p);
    if |m| == 1 then Some(m[0]) else None
  }

  /** `update(f).eq(...)`: rows that match are rewritten, the rest are kept. */
  function Update<T>(rows: seq<T>, p: T -> bool, f: T -> T): (r: seq<T>)
    ensures |r| == |rows|
    ensures forall i :: 0 <= i < |rows| ==> r[i] == if p(rows[i]) then f(rows[i]) else rows[i]
  {
    seq(|rows|, i requires 0 <= i < |rows| => if p(rows[i]) then f(rows[i]) else rows[i])
  }

  /** No row matches: the filter is empty, so `.single()` finds nothing. */
  lemma {:induction false} WhereNone<T>(rows: seq<T>, p: T -> bool)
    requires forall i :: 0 <= i < |rows| ==> !p(rows[i])
    ensures Where(rows, p) == [] && Single(rows, p).None?
  {
    if rows != [] {
      WhereNone(rows[1..], p);
    }
  }

  /** Every row matches: the filter keeps the whole table. */
  lemma {:induction false} WhereAll<T>(rows: seq<T>, p: T -> bool)
    requires forall i :: 0 <= i < |rows| ==> p(rows[i])
    ensures Where(rows, p) == rows
  {
    if rows != [] {
      WhereAll(rows[1..], p);
    }
  }

  /** Two filters that agree on every row select the same rows. */
  lemma {:induction false} WhereAgree<T>(rows: seq<T>, p: T -> bool, q: T -> bool)
    requires forall i :: 0 <= i < |rows| ==> p(rows[i]) == q(rows[i])
    ensures Where(rows, p) == Where(rows, q)
  {
    if rows != [] {
      WhereAgree(rows[1..], p, q);
    }
  }

  /** Exactly one row matches: the filter is that row alone, and `.single()` returns it. */
  lemma {:induction false} WhereOne<T>(rows: seq<T>, p: T -> bool, k: nat)
    requires k < |rows| && p(rows[k])
    requires forall i :: 0 <= i < |rows| && i != k ==> !p(rows[i])
    ensures Where(rows, p) == [rows[k]] && Single(rows, p) == Some(rows[k])
  {
    if k == 0 {
      WhereNone(rows[1..], p);
    } else {
      WhereOne(rows[1..], p, k - 1);
    }
  }

  /** The index of the last matching row, if any. */
  function LastIndex<T>(rows: seq<T>, p: T -> bool): (r: Option<nat>)
    ensures r.Some? ==> r.value < |rows| && p(rows[r.value])
    ensures r.Some? ==> forall i :: r.value < i < |rows| ==> !p(rows[i])
    ensures r.None? ==> forall i :: 0 <= i < |rows| ==> !p(rows[i])
    decreases |rows|
  {
    if rows == [] then None
    else if p(rows[|rows| - 1]) then Some(|rows| - 1)
    else LastIndex(rows[..|rows| - 1], p)
  }

  /** `update(f)` with the filter `p`, newest first, `limit(1)`: only the
      last matching row is rewritten (rows are kept in insertion order). */
  function UpdateLast<T>(rows: seq<T>, p: T -> bool, f: T -> T): (r: seq<T>)
    ensures |r| == |rows|
  {
    match LastIndex(rows, p)
    case None => rows
    case Some(i) => rows[i := f(rows[i])]
  }
}
