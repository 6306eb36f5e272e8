/** getTripActivity: cancellation reasons merged and normalised to rounded percentages (trip.repository.ts:1676-1690). */
module Activity {
  /** One grouped row: a reason and its count. */
  datatype ReasonRow = ReasonRow(reason: string, total: nat)

  function CountOf(rows: seq<ReasonRow>, reason: string): nat {
    if rows == [] then 0
    else CountOf(rows[..|rows| - 1], reason) + if rows[|rows| - 1].reason == reason then rows[|rows| - 1].total else 0
  }

  function TotalOf(rows: seq<ReasonRow>): nat {
    if rows == [] then 0 else TotalOf(rows[..|rows| - 1]) + rows[|rows| - 1].total
  }

  predicate Distinct(keys: seq<string>) { forall i, j :: 0 <= i < j < |keys| ==> keys[i] != keys[j] }

  predicate Covers(keys: seq<string>, m: map<string, real>) { forall i :: 0 <= i < |keys| ==> keys[i] in m }

  function SumAt(keys: seq<string>, m: map<string, real>): real
    requires Covers(keys, m)
  {
    if keys == [] then 0.0 else SumAt(keys[..|keys| - 1], m) + m[keys[|keys| - 1]]
  }

  /** Math.round: the nearest integer, halves up. */
  function Round(x: real): int { (x + 0.5).Floor }

  function Percent(count: real, total: nat): real
    requires total > 0
  {
    Round(count / total as real * 10000.0) as real / 100.0
  }

  function Exact(count: real, total: nat): real
    requires total > 0
  {
    count / total as real * 100.0
  }

  predicate Near(a: real, b: real, e: real) { b - e <= a <= b + e }

  lemma PercentNear(count: real, total: nat)
    requires total > 0
    ensures Near(Percent(count, total), Exact(count, total), 0.005)
  {
    var y := count / total as real * 10000.0;
    assert Exact(count, total) == y / 100.0;
    assert Round(y) as real <= y + 0.5 < Round(y) as real + 1.0;
  }

  lemma {:induction false} SumAtSame(keys: seq<string>, m: map<string, real>, m': map<string, real>)
    requires Covers(keys, m) && Covers(keys, m') && forall i :: 0 <= i < |keys| ==> m[keys[i]] == m'[keys[i]]
    ensures SumAt(keys, m) == SumAt(keys, m')
  {
    if keys != [] {
      SumAtSame(keys[..|keys| - 1], m, m');
    }
  }

  lemma {:induction false} SumAtAdd(keys: seq<string>, m: map<string, real>, i: nat, x: real)
    requires Distinct(keys) && Covers(keys, m) && i < |keys|
    ensures Covers(keys, m[keys[i] := x]) && SumAt(keys, m[keys[i] := x]) == SumAt(keys, m) - m[keys[i]] + x
  {
    var n := |keys| - 1;
    if i == n {
      SumAtSame(keys[..n], m, m[keys[i] := x]);
    } else {
      SumAtAdd(keys[..n], m, i, x);
    }
  }

  /** The keys in order of first appearance, each with the sum of its counts. */
  ghost predicate Merged(rows: seq<ReasonRow>, keys: seq<string>, reasons: map<string, real>) {
    && Distinct(keys) && Covers(keys, reasons) && (forall k :: k in reasons <==> k in keys)
    && (forall k :: k in reasons ==> reasons[k] == CountOf(rows, k) as real)
    && (forall k :: k !in reasons ==> CountOf(rows, k) == 0)
    && SumAt(keys, reasons) == TotalOf(rows) as real
  }

  lemma RowSnoc(rows: seq<ReasonRow>, r: ReasonRow)
    ensures TotalOf(rows + [r]) == TotalOf(rows) + r.total
    ensures forall k :: CountOf(rows + [r], k) == CountOf(rows, k) + if r.reason == k then r.total else 0
  {
    assert (rows + [r])[..|rows|] == rows;
  }

  lemma MergeKnown(rows: seq<ReasonRow>, keys: seq<string>, reasons: map<string, real>, r: ReasonRow)
    requires Merged(rows, keys, reasons) && r.reason in reasons
    ensures Merged(rows + [r], keys, reasons[r.reason := reasons[r.reason] + r.total as real])
  {
    RowSnoc(rows, r);
    var at :| 0 <= at < |keys| && keys[at] == r.reason;
    SumAtAdd(keys, reasons, at, reasons[r.reason] + r.total as real);
  }

  lemma MergeNew(rows: seq<ReasonRow>, keys: seq<string>, reasons: map<string, real>, r: ReasonRow)
    requires Merged(rows, keys, reasons) && r.reason !in reasons
    ensures Merged(rows + [r], keys + [r.reason], reasons[r.reason := r.total as real])
  {
    RowSnoc(rows, r);
    AppendKey(keys, reasons, r.reason, r.total as real);
  }

  lemma AppendKey(keys: seq<string>, reasons: map<string, real>, key: string, x: real)
    requires Distinct(keys) && Covers(keys, reasons) && key !in reasons && forall k :: k in reasons <==> k in keys
    ensures Distinct(keys + [key]) && Covers(keys + [key], reasons[key := x])
    ensures forall k :: k in reasons[key := x] <==> k in keys + [key]
    ensures SumAt(keys + [key], reasons[key := x]) == SumAt(keys, reasons) + x
  {
    var keys' := keys + [key];
    assert forall i :: 0 <= i < |keys| ==> keys'[i] == keys[i] && keys[i] in reasons;
    AppendSum(keys, reasons, key, x);
  }

  lemma AppendSum(keys: seq<string>, reasons: map<string, real>, key: string, x: real)
    requires Covers(keys, reasons) && key !in reasons
    ensures Covers(keys + [key], reasons[key := x]) && SumAt(keys + [key], reasons[key := x]) == SumAt(keys, reasons) + x
  {
    assert (keys + [key])[..|keys|] == keys;
    SumAtSame(keys, reasons, reasons[key := x]);
  }

  /** The merge loop. */
  method Merge(rows: seq<ReasonRow>) returns (keys: seq<string>, reasons: map<string, real>)
    ensures Merged(rows, keys, reasons)
  {
    keys, reasons := [], map[];
    for i := 0 to |rows|
      invariant Merged(rows[..i], keys, reasons)
    {
      var r := rows[i];
      assert rows[..i + 1] == rows[..i] + [r];
      if r.reason in reasons {
        MergeKnown(rows[..i], keys, reasons, r);
        reasons := reasons[r.reason := reasons[r.reason] + r.total as real];
      } else {
        MergeNew(rows[..i], keys, reasons, r);
        keys, reasons := keys + [r.reason], reasons[r.reason := r.total as real];
      }
    }
    assert rows[..|rows|] == rows;
  }

  /** The normalising loop, in place over the distinct keys. */
  method Normalize(keys: seq<string>, counts: map<string, real>, total: nat) returns (reasons: map<string, real>)
    requires Distinct(keys) && Covers(keys, counts) && total > 0
    ensures reasons.Keys == counts.Keys
    ensures forall k :: k in counts ==> reasons[k] == if k in keys then Percent(counts[k], total) else counts[k]
  {
    reasons := counts;
    for i := 0 to |keys|
      invariant reasons.Keys == counts.Keys
      invariant forall k :: k in counts ==> reasons[k] == if k in keys[..i] then Percent(counts[k], total) else counts[k]
    {
      assert keys[i] !in keys[..i];
      reasons := reasons[keys[i] := Percent(reasons[keys[i]], total)];
    }
    assert keys[..|keys|] == keys;
  }

  lemma {:induction false} SumNear(keys: seq<string>, counts: map<string, real>, reasons: map<string, real>, total: nat)
    requires total > 0 && Covers(keys, counts) && Covers(keys, reasons)
    requires forall i :: 0 <= i < |keys| ==> reasons[keys[i]] == Percent(counts[keys[i]], total)
    ensures Near(SumAt(keys, reasons), Exact(SumAt(keys, counts), total), 0.005 * |keys| as real)
  {
    if keys != [] {
      var n := |keys| - 1;
      SumNear(keys[..n], counts, reasons, total);
      PercentNear(counts[keys[n]], total);
      ExactAdds(SumAt(keys[..n], counts), counts[keys[n]], total);
    }
  }

  lemma ExactAdds(a: real, b: real, total: nat)
    requires total > 0
    ensures Exact(a + b, total) == Exact(a, total) + Exact(b, total)
  {
    var t := total as real;
    assert (a + b) / t == a / t + b / t;
  }

  datatype Summary = Summary(total: nat, byDriver: nat, byPassenger: nat, keys: seq<string>, reasons: map<string, real>)

  lemma {:induction false} TotalOfConcat(a: seq<ReasonRow>, b: seq<ReasonRow>)
    ensures TotalOf(a + b) == TotalOf(a) + TotalOf(b)
  {
    if b == [] {
      assert a + b == a;
    } else {
      assert (a + b)[..|a + b| - 1] == a + b[..|b| - 1];
      TotalOfConcat(a, b[..|b| - 1]);
    }
  }

  /**
   * getTripActivity: each reason's value is within 0.005 of its exact share of 100, so with k reasons they sum to 100
   * within 0.005 * k; with no cancellation at all the (zero) counts are left as they are.
   */
  method TripActivity(driverRows: seq<ReasonRow>, passengerRows: seq<ReasonRow>) returns (s: Summary)
    ensures s.total == s.byDriver + s.byPassenger == TotalOf(driverRows + passengerRows)
    ensures s.byDriver == TotalOf(driverRows) && s.byPassenger == TotalOf(passengerRows)
    ensures Distinct(s.keys) && Covers(s.keys, s.reasons) && forall k :: k in s.reasons <==> k in s.keys
    ensures s.total > 0 ==>
              && (forall k :: k in s.reasons ==>
                    Near(s.reasons[k], Exact(CountOf(driverRows + passengerRows, k) as real, s.total), 0.005))
              && Near(SumAt(s.keys, s.reasons), 100.0, 0.005 * |s.keys| as real)
    ensures s.total == 0 ==> forall k :: k in s.reasons ==> s.reasons[k] == 0.0
  {
    var tripCancelledByDriver := TotalOf(driverRows);
    var tripCancelledByPassenger := TotalOf(passengerRows);
    var total := tripCancelledByDriver + tripCancelledByPassenger;
    TotalOfConcat(driverRows, passengerRows);
    var keys, reasons := Merge(driverRows + passengerRows);
    if total > 0 {
      ghost var counts := reasons;
      reasons := Normalize(keys, reasons, total);
      SharesNear(driverRows + passengerRows, keys, counts, reasons, total);
    } else {
      forall k | k in reasons ensures reasons[k] == 0.0 {
        CountBounded(driverRows + passengerRows, k);
      }
    }
    return Summary(total, tripCancelledByDriver, tripCancelledByPassenger, keys, reasons);
  }

  lemma SharesNear(rows: seq<ReasonRow>, keys: seq<string>, counts: map<string, real>, reasons: map<string, real>, total: nat)
    requires Merged(rows, keys, counts) && total == TotalOf(rows) > 0
    requires reasons.Keys == counts.Keys && forall k :: k in counts ==> reasons[k] == Percent(counts[k], total)
    ensures forall k :: k in reasons ==> Near(reasons[k], Exact(CountOf(rows, k) as real, total), 0.005)
    ensures Covers(keys, reasons) && Near(SumAt(keys, reasons), 100.0, 0.005 * |keys| as real)
  {
    forall k | k in reasons ensures Near(reasons[k], Exact(CountOf(rows, k) as real, total), 0.005) {
      ShareNear(counts[k], CountOf(rows, k), reasons[k], total);
    }
    SharesSum(keys, counts, reasons, total);
  }

  lemma ShareNear(count: real, n: nat, percent: real, total: nat)
    requires total > 0 && count == n as real && percent == Percent(count, total)
    ensures Near(percent, Exact(n as real, total), 0.005)
  {
    PercentNear(count, total);
  }

  lemma SharesSum(keys: seq<string>, counts: map<string, real>, reasons: map<string, real>, total: nat)
    requires total > 0 && Covers(keys, counts) && Covers(keys, reasons) && SumAt(keys, counts) == total as real
    requires forall i :: 0 <= i < |keys| ==> reasons[keys[i]] == Percent(counts[keys[i]], total)
    ensures Near(SumAt(keys, reasons), 100.0, 0.005 * |keys| as real)
  {
    SumNear(keys, counts, reasons, total);
    ExactWhole(total);
  }

  lemma ExactWhole(total: nat)
    requires total > 0
    ensures Exact(total as real, total) == 100.0
  {
  }

  lemma {:induction false} CountBounded(rows: seq<ReasonRow>, reason: string)
    ensures CountOf(rows, reason) <= TotalOf(rows)
  {
    if rows != [] {
      CountBounded(rows[..|rows| - 1], reason);
    }
  }
}
