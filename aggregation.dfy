/**
 * The dashboard series of portfolio/lib/aggregation.py, computed from the
 * stored tables: the cumulative cash flow, the portfolio value and their
 * ratio over dense calendar ranges, and the allocation of the portfolio held
 * on the previous business day. Series are sequences of optional values over
 * a range of consecutive date ordinals (None is NaN).
 */
module Aggregation {
  import opened Wrappers
  import opened Assoc
  import opened Calendar
  import opened Series

  /** Rows as the queries return them: ordered by date, one per date. */
  predicate Ascending(rows: Dict<int, real>) {
    forall p, q :: 0 <= p < q < |rows| ==> rows[p].0 < rows[q].0
  }

  /** The number or zero for NaN, as `cumsum` and `sum` count it. */
  function OrZero(o: Option<real>): real {
    if o.Some? then o.value else 0.0
  }

  /** The number of days of `date_range_gen(first, last)` over the rows' first and last dates. */
  function Span(rows: Dict<int, real>): nat {
    if rows == [] || rows[|rows| - 1].0 < rows[0].0 then 0 else rows[|rows| - 1].0 - rows[0].0 + 1
  }

  /** Ordered rows lie between the first and the last date, and no date repeats. */
  lemma AscendingBounds(rows: Dict<int, real>)
    requires Ascending(rows) && rows != []
    ensures DistinctKeys(rows)
    ensures forall i :: 0 <= i < |rows| ==> rows[0].0 <= rows[i].0 <= rows[|rows| - 1].0
  {
    forall i | 0 <= i < |rows| ensures rows[0].0 <= rows[i].0 <= rows[|rows| - 1].0 {
      if 0 < i { assert rows[0].0 < rows[i].0; }
      if i < |rows| - 1 { assert rows[i].0 < rows[|rows| - 1].0; }
    }
  }

  /**
   * The left merge of dated rows onto `len` consecutive days from `start`
   * (the frame indexed by `date_range_gen`): each day's amount, or NaN.
   */
  function OnRange(rows: Dict<int, real>, start: int, len: nat): (r: seq<Option<real>>)
    ensures |r| == len
  {
    seq(len, k requires 0 <= k < len => Lookup(rows, start + k))
  }

  // ---------------------------------------------------------------------------
  // pandas' ffill and cumsum on a column

  /** `ffill` of a column: a NaN takes the last number above it, or `carry` when there is none. */
  function Ffill(vals: seq<Option<real>>, carry: Option<real>): (r: seq<Option<real>>)
    ensures |r| == |vals|
    decreases |vals|
  {
    if vals == [] then []
    else if vals[0].Some? then [vals[0]] + Ffill(vals[1..], vals[0])
    else [carry] + Ffill(vals[1..], carry)
  }

  /** Reference for `ffill`: the last number of a column, or `carry` when it holds none. */
  function LastOf(vals: seq<Option<real>>, carry: Option<real>): Option<real>
    decreases |vals|
  {
    if vals == [] then carry else LastOf(vals[1..], if vals[0].Some? then vals[0] else carry)
  }

  /** Row `k` of the forward-filled column is the last number among the rows up to `k`. */
  lemma {:induction false} FfillAt(vals: seq<Option<real>>, carry: Option<real>, k: nat)
    requires k < |vals|
    ensures Ffill(vals, carry)[k] == LastOf(vals[..k + 1], carry)
    decreases k
  {
    var next := if vals[0].Some? then vals[0] else carry;
    assert Ffill(vals, carry) == [next] + Ffill(vals[1..], next);
    assert LastOf(vals[..k + 1], carry) == LastOf(vals[..k + 1][1..], next);
    assert vals[..k + 1][1..] == vals[1..][..k];
    if k > 0 {
      FfillAt(vals[1..], next, k - 1);
    } else {
      assert LastOf([], next) == next;
    }
  }

  /** Row `k` of the forward-filled column is the number at `a` when only NaN lies between. */
  lemma FfillLatest(vals: seq<Option<real>>, carry: Option<real>, k: nat, a: nat)
    requires a <= k < |vals| && vals[a].Some?
    requires forall i :: a < i <= k ==> vals[i].None?
    ensures Ffill(vals, carry)[k] == vals[a]
  {
    var pre := vals[..k + 1];
    FfillAt(vals, carry, k);
    assert pre[a] == vals[a];
    forall i | a < i < |pre| ensures pre[i].None? {
      assert pre[i] == vals[i];
    }
    LastOfAt(pre, carry, a);
  }

  /** A column without numbers leaves the carried value. */
  lemma {:induction false} LastOfNone(vals: seq<Option<real>>, carry: Option<real>)
    requires forall i :: 0 <= i < |vals| ==> vals[i].None?
    ensures LastOf(vals, carry) == carry
    decreases |vals|
  {
    if vals != [] {
      LastOfNone(vals[1..], carry);
    }
  }

  /** The last number of a column is the one at `a` when only NaN follows it. */
  lemma {:induction false} LastOfAt(vals: seq<Option<real>>, carry: Option<real>, a: nat)
    requires a < |vals| && vals[a].Some?
    requires forall i :: a < i < |vals| ==> vals[i].None?
    ensures LastOf(vals, carry) == vals[a]
    decreases a
  {
    var next := if vals[0].Some? then vals[0] else carry;
    if a == 0 {
      LastOfNone(vals[1..], next);
    } else {
      LastOfAt(vals[1..], next, a - 1);
    }
  }

  /** Once a number has been seen, the column always yields one. */
  lemma {:induction false} LastOfSome(vals: seq<Option<real>>, carry: Option<real>)
    requires carry.Some? || (vals != [] && vals[0].Some?)
    ensures LastOf(vals, carry).Some?
    decreases |vals|
  {
    if vals != [] {
      LastOfSome(vals[1..], if vals[0].Some? then vals[0] else carry);
    }
  }

  /** `cumsum` of a column: a running total over the numbers; a NaN stays NaN and adds nothing. */
  function CumSum(vals: seq<Option<real>>, acc: real): (r: seq<Option<real>>)
    ensures |r| == |vals|
    decreases |vals|
  {
    if vals == [] then []
    else if vals[0].Some? then [Some(acc + vals[0].value)] + CumSum(vals[1..], acc + vals[0].value)
    else [None] + CumSum(vals[1..], acc)
  }

  /** The sum of the numbers of a column, NaN counted as nothing. */
  function OptSum(vals: seq<Option<real>>): real
    decreases |vals|
  {
    if vals == [] then 0.0 else OrZero(vals[0]) + OptSum(vals[1..])
  }

  lemma {:induction false} OptSumSnoc(vals: seq<Option<real>>, x: Option<real>)
    ensures OptSum(vals + [x]) == OptSum(vals) + OrZero(x)
    decreases |vals|
  {
    if vals != [] {
      assert (vals + [x])[1..] == vals[1..] + [x];
      OptSumSnoc(vals[1..], x);
    } else {
      assert ([] + [x])[1..] == [];
    }
  }

  /** The forward-filled running total at row `k` is the start value plus every number up to row `k`. */
  lemma {:induction false} FfillCumSumAt(vals: seq<Option<real>>, acc: real, carry: Option<real>, k: nat)
    requires k < |vals|
    requires vals[0].Some? || carry == Some(acc)
    ensures Ffill(CumSum(vals, acc), carry)[k] == Some(acc + OptSum(vals[..k + 1]))
    decreases k
  {
    var head := OrZero(vals[0]);
    var next := if vals[0].Some? then Some(acc + head) else carry;
    assert Ffill(CumSum(vals, acc), carry) == [next] + Ffill(CumSum(vals[1..], acc + head), next);
    assert OptSum(vals[..k + 1]) == head + OptSum(vals[..k + 1][1..]);
    assert vals[..k + 1][1..] == vals[1..][..k];
    if k > 0 {
      FfillCumSumAt(vals[1..], acc + head, next, k - 1);
    }
  }

  // ---------------------------------------------------------------------------
  // create_cumulative_cashflow

  /** Reference: the sum of all amounts dated on or before `d`. */
  function SumUpTo(rows: Dict<int, real>, d: int): real
    decreases |rows|
  {
    if rows == [] then 0.0
    else
      var n := |rows| - 1;
      SumUpTo(rows[..n], d) + (if rows[n].0 <= d then rows[n].1 else 0.0)
  }

  /**
   * `create_cumulative_cashflow` over the stored `(date, cashflow)` rows
   * ordered by date: empty without rows, otherwise the cumulative sum over
   * every day from the first to the last date, gaps forward-filled.
   */
  function CumulativeCashflow(rows: Dict<int, real>): (r: seq<Option<real>>)
    ensures |r| == Span(rows)
  {
    if rows == [] then []
    else Ffill(CumSum(OnRange(rows, rows[0].0, Span(rows)), 0.0), None)
  }

  /** Stepping one day: the total up to `d` adds the amount of `d` itself. */
  lemma {:induction false} SumUpToStep(rows: Dict<int, real>, d: int)
    requires DistinctKeys(rows)
    ensures SumUpTo(rows, d) == SumUpTo(rows, d - 1) + OrZero(Lookup(rows, d))
    decreases |rows|
  {
    if rows != [] {
      var n := |rows| - 1;
      var init := rows[..n];
      assert DistinctKeys(init) by {
        forall i, j | 0 <= i < j < |init| ensures init[i].0 != init[j].0 {
          assert init[i] == rows[i] && init[j] == rows[j];
        }
      }
      SumUpToStep(init, d);
      assert rows == init + [rows[n]];
      LookupAppend(init, [rows[n]], d);
      LookupCons([rows[n]], d);
      assert [rows[n]][1..] == [];
      if rows[n].0 == d {
        assert !HasKey(init, d) by {
          forall i | 0 <= i < |init| ensures init[i].0 != d {
            assert init[i] == rows[i];
          }
        }
      }
    }
  }

  /** Nothing is dated before the first row. */
  lemma {:induction false} SumUpToBefore(rows: Dict<int, real>, d: int)
    requires forall i :: 0 <= i < |rows| ==> d < rows[i].0
    ensures SumUpTo(rows, d) == 0.0
    decreases |rows|
  {
    if rows != [] {
      SumUpToBefore(rows[..|rows| - 1], d);
    }
  }

  /** Nothing is dated after the last row. */
  lemma {:induction false} SumUpToAfter(rows: Dict<int, real>, d: int, e: int)
    requires forall i :: 0 <= i < |rows| ==> rows[i].0 <= d <= e
    ensures SumUpTo(rows, e) == SumUpTo(rows, d)
    decreases |rows|
  {
    if rows != [] {
      var init := rows[..|rows| - 1];
      assert forall i :: 0 <= i < |init| ==> init[i].0 <= d <= e by {
        forall i | 0 <= i < |init| ensures init[i].0 <= d <= e {
          assert init[i] == rows[i];
        }
      }
      SumUpToAfter(init, d, e);
    }
  }

  /** The numbers of the merged range up to day `start + k` sum to the total up to that day. */
  lemma {:induction false} OnRangeSum(rows: Dict<int, real>, start: int, len: nat, k: nat)
    requires DistinctKeys(rows) && forall i :: 0 <= i < |rows| ==> start <= rows[i].0
    requires k < len
    ensures OptSum(OnRange(rows, start, len)[..k + 1]) == SumUpTo(rows, start + k)
    decreases k
  {
    var col := OnRange(rows, start, len);
    assert col[..k + 1] == col[..k] + [col[k]];
    OptSumSnoc(col[..k], col[k]);
    SumUpToStep(rows, start + k);
    if k == 0 {
      SumUpToBefore(rows, start - 1);
    } else {
      OnRangeSum(rows, start, len, k - 1);
    }
  }

  /** Each day of the cumulative series holds the sum of all cash flows dated on or before it. */
  lemma CumulativeCashflowAt(rows: Dict<int, real>, k: nat)
    requires Ascending(rows)
    requires k < |CumulativeCashflow(rows)|
    ensures CumulativeCashflow(rows)[k] == Some(SumUpTo(rows, rows[0].0 + k))
  {
    var col := OnRange(rows, rows[0].0, Span(rows));
    assert CumulativeCashflow(rows) == Ffill(CumSum(col, 0.0), None);
    AscendingBounds(rows);
    LookupAt(rows, 0);
    assert col[0] == Some(rows[0].1);
    FfillCumSumAt(col, 0.0, None, k);
    OnRangeSum(rows, rows[0].0, Span(rows), k);
  }

  // ---------------------------------------------------------------------------
  // create_value_series

  /**
   * `create_value_series` over the `(date, total)` rows of the depot ordered
   * by date: empty without rows, otherwise the totals left-merged onto every
   * day from the first to the last date, forward-filled.
   */
  function ValueSeries(rows: Dict<int, real>): (r: seq<Option<real>>)
    ensures |r| == Span(rows)
  {
    if rows == [] then [] else Ffill(OnRange(rows, rows[0].0, Span(rows)), None)
  }

  /** No row is dated strictly between two consecutive rows, nor after the last one. */
  lemma NoRowBetween(rows: Dict<int, real>, j: nat, d: int)
    requires Ascending(rows) && j < |rows|
    requires rows[j].0 < d && (j + 1 == |rows| || d < rows[j + 1].0)
    ensures Lookup(rows, d) == None
  {
    forall p | 0 <= p < |rows| ensures rows[p].0 != d {
      if p < j { assert rows[p].0 < rows[j].0; }
      if j + 1 < p { assert rows[j + 1].0 < rows[p].0; }
    }
  }

  /** Merged onto a range, the latest row up to day `start + k` is followed by NaN up to that day. */
  lemma OnRangeLatest(rows: Dict<int, real>, start: int, len: nat, k: nat, j: nat)
    requires Ascending(rows) && j < |rows| && k < len
    requires start <= rows[j].0 <= start + k && (j + 1 == |rows| || start + k < rows[j + 1].0)
    ensures OnRange(rows, start, len)[rows[j].0 - start] == Some(rows[j].1)
    ensures forall i :: rows[j].0 - start < i <= k ==> OnRange(rows, start, len)[i].None?
  {
    var col := OnRange(rows, start, len);
    AscendingBounds(rows);
    LookupAt(rows, j);
    assert col[rows[j].0 - start] == Lookup(rows, rows[j].0);
    forall i | rows[j].0 - start < i <= k ensures col[i].None? {
      assert col[i] == Lookup(rows, start + i);
      NoRowBetween(rows, j, start + i);
    }
  }

  /** A day of the value series holds the total of the latest row dated on or before it. */
  lemma ValueSeriesAt(rows: Dict<int, real>, k: nat, j: nat)
    requires Ascending(rows) && j < |rows|
    requires k < |ValueSeries(rows)|
    requires rows[j].0 <= rows[0].0 + k && (j + 1 == |rows| || rows[0].0 + k < rows[j + 1].0)
    ensures ValueSeries(rows)[k] == Some(rows[j].1)
  {
    var start := rows[0].0;
    var col := OnRange(rows, start, Span(rows));
    assert ValueSeries(rows) == Ffill(col, None);
    assert start <= rows[j].0 by {
      if j > 0 { assert rows[0].0 < rows[j].0; }
    }
    OnRangeLatest(rows, start, Span(rows), k, j);
    FfillLatest(col, None, k, rows[j].0 - start);
  }

  /** Every day of the value series holds a number. */
  lemma ValueSeriesPresent(rows: Dict<int, real>, k: nat)
    requires Ascending(rows)
    requires k < |ValueSeries(rows)|
    ensures ValueSeries(rows)[k].Some?
  {
    var col := OnRange(rows, rows[0].0, Span(rows));
    assert ValueSeries(rows) == Ffill(col, None);
    AscendingBounds(rows);
    LookupAt(rows, 0);
    FfillAt(col, None, k);
    LastOfSome(col[..k + 1], None);
  }

  // ---------------------------------------------------------------------------
  // create_performance_series

  /** `total / cashflow`: NaN when either is NaN; a zero divisor (pandas' inf or NaN) is NaN too. */
  function Ratio(total: Option<real>, cash: Option<real>): (r: Option<real>)
    ensures r.Some? <==> total.Some? && cash.Some? && cash.value != 0.0
  {
    if total.Some? && cash.Some? && cash.value != 0.0 then Some(total.value / cash.value) else None
  }

  /** The cumulative series read on day `d`: its value there, or NaN outside its range. */
  function CashOn(cum: seq<Option<real>>, start: int, d: int): Option<real> {
    if start <= d < start + |cum| then cum[d - start] else None
  }

  /** The cumulative series left-merged onto `len` days from `start`. */
  function CashColumn(cum: seq<Option<real>>, cashStart: int, start: int, len: nat): seq<Option<real>> {
    seq(len, p requires 0 <= p < len => CashOn(cum, cashStart, start + p))
  }

  /** `total / cashflow` row by row. */
  function Divide(totals: seq<Option<real>>, cash: seq<Option<real>>): seq<Option<real>>
    requires |totals| == |cash|
  {
    seq(|totals|, k requires 0 <= k < |totals| => Ratio(totals[k], cash[k]))
  }

  /**
   * The performance frame over the days of a value series starting at
   * `start`: the value and the merged cumulative cash flow, both
   * forward-filled, divided row by row.
   */
  function Performance(value: seq<Option<real>>, cum: seq<Option<real>>, cashStart: int, start: int): (r: seq<Option<real>>)
    ensures |r| == |value|
  {
    Divide(Ffill(value, None), Ffill(CashColumn(cum, cashStart, start, |value|), None))
  }

  /**
   * `create_performance_series`: empty when either series is empty;
   * otherwise, on each day of the value series, the total divided by the
   * cumulative cash flow of that day left-merged on, both forward-filled.
   */
  function PerformanceSeries(values: Dict<int, real>, cashflows: Dict<int, real>): (r: seq<Option<real>>)
    ensures |r| == if CumulativeCashflow(cashflows) == [] then 0 else |ValueSeries(values)|
  {
    var cum, value := CumulativeCashflow(cashflows), ValueSeries(values);
    if cum == [] || value == [] then [] else Performance(value, cum, cashflows[0].0, values[0].0)
  }

  /** A row of the performance frame whose value is present: that value over the last merged cash flow up to it. */
  lemma {:induction false} PerformanceRow(value: seq<Option<real>>, cum: seq<Option<real>>, cashStart: int, start: int, k: nat)
    requires k < |value| && value[k].Some?
    ensures Performance(value, cum, cashStart, start)[k]
            == Ratio(value[k], LastOf(CashColumn(cum, cashStart, start, |value|)[..k + 1], None))
  {
    var cash := CashColumn(cum, cashStart, start, |value|);
    assert Performance(value, cum, cashStart, start)[k] == Ratio(Ffill(value, None)[k], Ffill(cash, None)[k]);
    FfillAt(value, None, k);
    assert value[..k + 1][k] == value[k];
    LastOfAt(value[..k + 1], None, k);
    FfillAt(cash, None, k);
  }

  /**
   * The merged cash flow up to day `start + k` ends with the cumulative
   * value of day `e`, the latest day of the cumulative series not after it.
   */
  lemma {:induction false} MergedCashAt(cum: seq<Option<real>>, cashStart: int, start: int, len: nat, k: nat, e: int)
    requires k < len && cashStart <= e < cashStart + |cum| && start <= e <= start + k
    requires cum[e - cashStart].Some?
    requires e == start + k || e == cashStart + |cum| - 1
    ensures LastOf(CashColumn(cum, cashStart, start, len)[..k + 1], None) == cum[e - cashStart]
  {
    var full := CashColumn(cum, cashStart, start, len);
    var merged := full[..k + 1];
    var a: nat := e - start;
    assert merged[a] == full[a] == CashOn(cum, cashStart, start + a);
    forall i | a < i < |merged| ensures merged[i].None? {
      assert merged[i] == full[i] == CashOn(cum, cashStart, start + i);
    }
    LastOfAt(merged, None, a);
  }

  /** The merged cash flow is NaN up to a day before the cumulative series, or when the range starts after it. */
  lemma {:induction false} MergedCashNone(cum: seq<Option<real>>, cashStart: int, start: int, len: nat, k: nat)
    requires k < len
    requires start + k < cashStart || cashStart + |cum| <= start
    ensures LastOf(CashColumn(cum, cashStart, start, len)[..k + 1], None) == None
  {
    var full := CashColumn(cum, cashStart, start, len);
    var merged := full[..k + 1];
    forall i | 0 <= i < |merged| ensures merged[i].None? {
      assert merged[i] == full[i] == CashOn(cum, cashStart, start + i);
    }
    LastOfNone(merged, None);
  }

  /** The performance of day `k` is the total over the last merged cash flow up to that day. */
  lemma PerformanceColumns(values: Dict<int, real>, cashflows: Dict<int, real>, k: nat)
    requires Ascending(values) && CumulativeCashflow(cashflows) != []
    requires k < |ValueSeries(values)|
    ensures PerformanceSeries(values, cashflows)[k]
            == Ratio(ValueSeries(values)[k],
                     LastOf(CashColumn(CumulativeCashflow(cashflows), cashflows[0].0, values[0].0, |ValueSeries(values)|)[..k + 1], None))
  {
    var value, cum := ValueSeries(values), CumulativeCashflow(cashflows);
    assert PerformanceSeries(values, cashflows) == Performance(value, cum, cashflows[0].0, values[0].0);
    ValueSeriesPresent(values, k);
    PerformanceRow(value, cum, cashflows[0].0, values[0].0, k);
  }

  /** The day of the cumulative series that a merge read on `d` ends with: `d` itself, or the series' last day. */
  function LastCashDay(cashflows: Dict<int, real>, d: int): int
    requires cashflows != []
  {
    if d <= cashflows[|cashflows| - 1].0 then d else cashflows[|cashflows| - 1].0
  }

  /** From the first cash flow on, the cumulative series ends on a day holding the sum of the cash flows up to `d`. */
  lemma LatestCash(cashflows: Dict<int, real>, d: int)
    requires Ascending(cashflows) && cashflows != [] && cashflows[0].0 <= d
    ensures var e := LastCashDay(cashflows, d);
            cashflows[0].0 <= e < cashflows[0].0 + |CumulativeCashflow(cashflows)|
            && (e == d || e == cashflows[0].0 + |CumulativeCashflow(cashflows)| - 1)
            && CumulativeCashflow(cashflows)[e - cashflows[0].0] == Some(SumUpTo(cashflows, d))
  {
    var cStart, cEnd := cashflows[0].0, cashflows[|cashflows| - 1].0;
    var e := LastCashDay(cashflows, d);
    AscendingBounds(cashflows);
    assert |CumulativeCashflow(cashflows)| == cEnd - cStart + 1;
    CumulativeCashflowAt(cashflows, e - cStart);
    if e < d {
      SumUpToAfter(cashflows, cEnd, d);
    }
  }

  /**
   * The cumulative series merged onto `len` days from `start` and
   * forward-filled: on a day from the first cash flow on, for a range
   * starting no later than the last cash flow, the sum of the cash flows up
   * to that day.
   */
  lemma CashColumnAt(cashflows: Dict<int, real>, start: int, len: nat, k: nat)
    requires Ascending(cashflows) && cashflows != [] && k < len
    requires cashflows[0].0 <= start + k && start <= cashflows[|cashflows| - 1].0
    ensures LastOf(CashColumn(CumulativeCashflow(cashflows), cashflows[0].0, start, len)[..k + 1], None)
            == Some(SumUpTo(cashflows, start + k))
  {
    LatestCash(cashflows, start + k);
    MergedCashAt(CumulativeCashflow(cashflows), cashflows[0].0, start, len, k, LastCashDay(cashflows, start + k));
  }

  /**
   * On a day of the value series from the first cash flow on, when the value
   * series starts no later than the last cash flow, the performance is the
   * total over the cash flow summed up to that day.
   */
  lemma PerformanceAt(values: Dict<int, real>, cashflows: Dict<int, real>, k: nat)
    requires Ascending(values) && Ascending(cashflows) && cashflows != []
    requires k < |ValueSeries(values)|
    requires cashflows[0].0 <= values[0].0 + k && values[0].0 <= cashflows[|cashflows| - 1].0
    ensures PerformanceSeries(values, cashflows)[k] == Ratio(ValueSeries(values)[k], Some(SumUpTo(cashflows, values[0].0 + k)))
  {
    var cum, value := CumulativeCashflow(cashflows), ValueSeries(values);
    AscendingBounds(cashflows);
    assert cum != [];
    var cash := LastOf(CashColumn(cum, cashflows[0].0, values[0].0, |value|)[..k + 1], None);
    CashColumnAt(cashflows, values[0].0, |value|, k);
    assert cash == Some(SumUpTo(cashflows, values[0].0 + k));
    PerformanceColumns(values, cashflows, k);
    assert PerformanceSeries(values, cashflows)[k] == Ratio(value[k], cash);
  }

  /** Before the first cash flow the performance is NaN. */
  lemma PerformanceBeforeCash(values: Dict<int, real>, cashflows: Dict<int, real>, k: nat)
    requires Ascending(values) && CumulativeCashflow(cashflows) != []
    requires k < |ValueSeries(values)|
    requires values[0].0 + k < cashflows[0].0
    ensures PerformanceSeries(values, cashflows)[k] == None
  {
    PerformanceColumns(values, cashflows, k);
    MergedCashNone(CumulativeCashflow(cashflows), cashflows[0].0, values[0].0, |ValueSeries(values)|, k);
  }

  /** When the value series starts after the last day of the cumulative series, the performance is NaN throughout. */
  lemma PerformanceAfterCash(values: Dict<int, real>, cashflows: Dict<int, real>, k: nat)
    requires Ascending(values) && CumulativeCashflow(cashflows) != []
    requires k < |ValueSeries(values)|
    requires cashflows[0].0 + |CumulativeCashflow(cashflows)| <= values[0].0
    ensures PerformanceSeries(values, cashflows)[k] == None
  {
    PerformanceColumns(values, cashflows, k);
    MergedCashNone(CumulativeCashflow(cashflows), cashflows[0].0, values[0].0, |ValueSeries(values)|, k);
  }

  // ---------------------------------------------------------------------------
  // create_portfolio

  /** `date.weekday()` of a date ordinal: 0 is Monday (ordinal 1, 0001-01-01, is a Monday). */
  function Weekday(d: int): (w: int)
    ensures 0 <= w < 7
  {
    (d + 6) % 7
  }

  /** `today - BDay(1)`: the latest weekday strictly before `today`. */
  function PreviousBusinessDay(today: int): (r: int)
    ensures r < today && Weekday(r) < 5
    ensures forall e :: r < e < today ==> Weekday(e) >= 5
  {
    var w := Weekday(today);
    if w == 0 then today - 3 else if w == 6 then today - 2 else today - 1
  }

  /** A position held on the date: symbol, pieces and the price of that date. */
  datatype Position = Position(symbol: string, size: real, price: real)

  /** A row of the allocation table. */
  datatype Allocated = Allocated(symbol: string, size: real, price: real, subtotal: real, allocation: Option<real>)

  /** `pieces * price`, the `subtotal` annotation. */
  function Subtotal(p: Position): real {
    p.size * p.price
  }

  /** `subtotal.sum()`. */
  function Total(ps: seq<Position>): real
    decreases |ps|
  {
    if ps == [] then 0.0 else Total(ps[..|ps| - 1]) + Subtotal(ps[|ps| - 1])
  }

  /** `subtotal / total`: NaN for a zero total. */
  function Share(subtotal: real, total: real): (r: Option<real>)
    ensures r.Some? <==> total != 0.0
  {
    if total != 0.0 then Some(subtotal / total) else None
  }

  /** A row of the table with its subtotal shared against `total`. */
  function Row(p: Position, total: real): Allocated {
    Allocated(p.symbol, p.size, p.price, Subtotal(p), Share(Subtotal(p), total))
  }

  /** The rows of the table with each subtotal shared against `total`. */
  function AllocateAgainst(ps: seq<Position>, total: real): (r: seq<Allocated>)
    ensures |r| == |ps|
  {
    seq(|ps|, i requires 0 <= i < |ps| => Row(ps[i], total))
  }

  /** `create_portfolio`'s allocation table: empty without positions, else each subtotal over their sum. */
  function Allocation(ps: seq<Position>): (r: seq<Allocated>)
    ensures |r| == |ps|
    ensures forall i :: 0 <= i < |ps| ==>
              r[i].symbol == ps[i].symbol && r[i].subtotal == Subtotal(ps[i])
              && (r[i].allocation.Some? <==> Total(ps) != 0.0)
  {
    if |ps| == 0 then [] else AllocateAgainst(ps, Total(ps))
  }

  /** The sum of the allocations, NaN counted as nothing. */
  function AllocationSum(rows: seq<Allocated>): real
    decreases |rows|
  {
    if rows == [] then 0.0 else AllocationSum(rows[..|rows| - 1]) + OrZero(rows[|rows| - 1].allocation)
  }

  lemma DivideSum(u: real, v: real, t: real)
    requires t != 0.0
    ensures (u + v) / t == u / t + v / t
  {
  }

  /** Shared against a nonzero total, the allocations sum to the subtotals' sum over that total. */
  lemma {:induction false} AllocateAgainstSum(ps: seq<Position>, total: real)
    requires total != 0.0
    ensures AllocationSum(AllocateAgainst(ps, total)) == Total(ps) / total
    decreases |ps|
  {
    if ps != [] {
      var n := |ps| - 1;
      var r := AllocateAgainst(ps, total);
      var rest := AllocateAgainst(ps[..n], total);
      assert r[..n] == rest by {
        forall i | 0 <= i < n ensures r[..n][i] == rest[i] {
          assert r[..n][i] == r[i] == Row(ps[i], total);
          assert rest[i] == Row(ps[..n][i], total);
        }
      }
      AllocateAgainstSum(ps[..n], total);
      var u, v := Total(ps[..n]), Subtotal(ps[n]);
      assert r[n] == Row(ps[n], total);
      assert AllocationSum(r) == AllocationSum(rest) + v / total;
      DivideSum(u, v, total);
    }
  }

  /** With a nonzero total, the allocations sum to one. */
  lemma AllocationsSumToOne(ps: seq<Position>)
    requires Total(ps) != 0.0
    ensures AllocationSum(Allocation(ps)) == 1.0
  {
    var t := Total(ps);
    assert ps != [];
    assert Allocation(ps) == AllocateAgainst(ps, t);
    AllocateAgainstSum(ps, t);
    assert t / t == 1.0;
  }
}
