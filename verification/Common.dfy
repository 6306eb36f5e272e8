/** Small types shared by every component. */
module Common {
  /** A database identifier (the source uses uuids). */
  type Id = nat

  datatype Option<+T> = None | Some(value: T)

  datatype Result<+T, +E> = Success(value: T) | Failure(error: E)

  /** The exceptions the services throw, one constructor per exception class. */
  datatype Fault = NotFound | Forbidden | BadRequest | DatabaseError | Unauthorized | Unavailable | GatewayDown
}

/**
 * A database table as the sequence of its rows: findOne returns the first row
 * that matches, save appends, delete removes, update rewrites in place.
 */
module Tables {
  function IndexOf<T>(rows: seq<T>, p: T -> bool): (i: int)
    ensures -1 <= i < |rows|
    ensures 0 <= i ==> p(rows[i])
    ensures forall j :: 0 <= j < (if i < 0 then |rows| else i) ==> !p(rows[j])
  {
    if rows == [] then -1
    else if p(rows[0]) then 0
    else
      var i := IndexOf(rows[1..], p);
      if i < 0 then -1 else i + 1
  }

  function RemoveAt<T>(rows: seq<T>, i: nat): (r: seq<T>)
    requires i < |rows|
  {
    rows[..i] + rows[i + 1..]
  }

  function Filter<T>(rows: seq<T>, keep: T -> bool): (r: seq<T>)
    ensures forall x :: x in r ==> x in rows && keep(x)
    ensures forall x :: x in rows && keep(x) ==> x in r
  {
    if rows == [] then []
    else Filter(rows[..|rows| - 1], keep) + if keep(rows[|rows| - 1]) then [rows[|rows| - 1]] else []
  }

  function MapRows<T, U>(rows: seq<T>, f: T -> U): (r: seq<U>)
    ensures |r| == |rows|
    ensures forall i :: 0 <= i < |rows| ==> r[i] == f(rows[i])
  {
    if rows == [] then [] else MapRows(rows[..|rows| - 1], f) + [f(rows[|rows| - 1])]
  }

  /** What is kept is kept as often as it stood there, and what is dropped is gone. */
  lemma {:induction false} FilterCount<T>(rows: seq<T>, keep: T -> bool, x: T)
    ensures multiset(Filter(rows, keep))[x] == if keep(x) then multiset(rows)[x] else 0
  {
    if rows != [] {
      var n := |rows| - 1;
      FilterCount(rows[..n], keep, x);
      assert rows == rows[..n] + [rows[n]];
    }
  }

  /** When exactly one row can match, findOne returns that row. */
  lemma IndexOfOnly<T>(rows: seq<T>, p: T -> bool, i: nat)
    requires i < |rows| && p(rows[i])
    requires forall j :: 0 <= j < |rows| && p(rows[j]) ==> j == i
    ensures IndexOf(rows, p) == i
  {
  }
}

/** Sums over tables: the aggregates the ledgers keep up to date by increments and decrements. */
module Sums {
  import opened Tables

  function SumInt<T>(rows: seq<T>, f: T -> int): int {
    if rows == [] then 0 else SumInt(rows[..|rows| - 1], f) + f(rows[|rows| - 1])
  }

  function SumReal<T>(rows: seq<T>, f: T -> real): real {
    if rows == [] then 0.0 else SumReal(rows[..|rows| - 1], f) + f(rows[|rows| - 1])
  }

  lemma SumIntAppend<T>(rows: seq<T>, row: T, f: T -> int)
    ensures SumInt(rows + [row], f) == SumInt(rows, f) + f(row)
  {
    assert (rows + [row])[..|rows|] == rows;
  }

  lemma SumRealAppend<T>(rows: seq<T>, row: T, f: T -> real)
    ensures SumReal(rows + [row], f) == SumReal(rows, f) + f(row)
  {
    assert (rows + [row])[..|rows|] == rows;
  }

  lemma {:induction false} SumIntUpdate<T>(rows: seq<T>, i: nat, row: T, f: T -> int)
    requires i < |rows|
    ensures SumInt(rows[i := row], f) == SumInt(rows, f) - f(rows[i]) + f(row)
  {
    var n := |rows| - 1;
    if i == n {
      assert rows[i := row][..n] == rows[..n];
    } else {
      assert rows[i := row][..n] == rows[..n][i := row];
      SumIntUpdate(rows[..n], i, row, f);
    }
  }

  lemma {:induction false} SumRealUpdate<T>(rows: seq<T>, i: nat, row: T, f: T -> real)
    requires i < |rows|
    ensures SumReal(rows[i := row], f) == SumReal(rows, f) - f(rows[i]) + f(row)
  {
    var n := |rows| - 1;
    if i == n {
      assert rows[i := row][..n] == rows[..n];
    } else {
      assert rows[i := row][..n] == rows[..n][i := row];
      SumRealUpdate(rows[..n], i, row, f);
    }
  }

  lemma {:induction false} SumIntRemove<T>(rows: seq<T>, i: nat, f: T -> int)
    requires i < |rows|
    ensures SumInt(RemoveAt(rows, i), f) == SumInt(rows, f) - f(rows[i])
  {
    var n := |rows| - 1;
    if i == n {
      assert RemoveAt(rows, i) == rows[..n];
    } else {
      assert RemoveAt(rows, i) == RemoveAt(rows[..n], i) + [rows[n]];
      SumIntRemove(rows[..n], i, f);
      SumIntAppend(RemoveAt(rows[..n], i), rows[n], f);
    }
  }

  lemma {:induction false} SumIntConcat<T>(a: seq<T>, b: seq<T>, f: T -> int)
    ensures SumInt(a + b, f) == SumInt(a, f) + SumInt(b, f)
  {
    if b == [] {
      assert a + b == a;
    } else {
      var n := |b| - 1;
      assert a + b == (a + b[..n]) + [b[n]];
      SumIntAppend(a + b[..n], b[n], f);
      SumIntConcat(a, b[..n], f);
    }
  }

  lemma {:induction false} SumRealConcat<T>(a: seq<T>, b: seq<T>, f: T -> real)
    ensures SumReal(a + b, f) == SumReal(a, f) + SumReal(b, f)
  {
    if b == [] {
      assert a + b == a;
    } else {
      var n := |b| - 1;
      assert a + b == (a + b[..n]) + [b[n]];
      SumRealAppend(a + b[..n], b[n], f);
      SumRealConcat(a, b[..n], f);
    }
  }

  /** Tables whose rows weigh the same, position by position, have the same sum. */
  lemma {:induction false} SumIntSame<T>(rows: seq<T>, rows': seq<T>, f: T -> int)
    requires |rows| == |rows'|
    requires forall i :: 0 <= i < |rows| ==> f(rows[i]) == f(rows'[i])
    ensures SumInt(rows, f) == SumInt(rows', f)
  {
    if rows != [] {
      var n := |rows| - 1;
      assert rows[..n] + [rows[n]] == rows;
      SumIntSame(rows[..n], rows'[..n], f);
    }
  }

  lemma {:induction false} SumRealSame<T>(rows: seq<T>, rows': seq<T>, f: T -> real)
    requires |rows| == |rows'|
    requires forall i :: 0 <= i < |rows| ==> f(rows[i]) == f(rows'[i])
    ensures SumReal(rows, f) == SumReal(rows', f)
  {
    if rows != [] {
      SumRealSame(rows[..|rows| - 1], rows'[..|rows| - 1], f);
    }
  }

  lemma {:induction false} SumIntNonNegative<T>(rows: seq<T>, f: T -> int)
    requires forall i :: 0 <= i < |rows| ==> f(rows[i]) >= 0
    ensures SumInt(rows, f) >= 0
  {
    if rows != [] {
      SumIntNonNegative(rows[..|rows| - 1], f);
    }
  }
}
