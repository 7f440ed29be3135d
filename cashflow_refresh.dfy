/**
 * `refresh_cashflows` (portfolio/views.py, and its copy in
 * portfolio/lib/helpers.py): the cash flows since the last stored day are
 * fetched from the broker, summed per day, given a running total that
 * continues the stored one, spread over every calendar day between the first
 * and the last new flow, and appended to the `Cashflows` table.
 */
module CashflowRefresh {
  import opened Wrappers
  import opened Assoc
  import opened Calendar
  import opened Orm
  import opened DegiroApi
  import opened DegiroHelpers
  import opened Aggregation
  import opened Store

  /** The day assumed as the last stored one when the table is empty: 1 April 2020. */
  const CashStart: int := Ordinal(Date(2020, 4, 1))

  /** No two rows of the table share a date (`date = DateField(unique=True)`). */
  predicate UniqueDates(cfs: seq<CashflowRow>) {
    forall i, j :: 0 <= i < j < |cfs| ==> cfs[i].date != cfs[j].date
  }

  function Dates(cfs: seq<CashflowRow>): (r: seq<int>)
    ensures |r| == |cfs|
  {
    seq(|cfs|, i requires 0 <= i < |cfs| => cfs[i].date)
  }

  /** The filter `date=d`. */
  function OnDate(d: int): CashflowRow -> bool {
    (x: CashflowRow) => x.date == d
  }

  /**
   * The latest stored date and its `cumsum`: DoesNotExist (an empty table)
   * falls back to 1 April 2020 and zero; several rows on the latest date
   * raise MultipleObjectsReturned, which is not caught.
   */
  function LastCumsum(cfs: seq<CashflowRow>): (r: Result<(int, Option<real>)>)
    ensures cfs == [] ==> r == Ok((CashStart, Some(0.0)))
    ensures r.Err? ==> r.error == MultipleObjects
  {
    match LatestOf(Dates(cfs))
    case None => Ok((CashStart, Some(0.0)))
    case Some(d) =>
      match Get(cfs, OnDate(d))
      case Ok(i) => Ok((d, cfs[i].cumsum))
      case Err(e) => if e == DoesNotExist then Ok((CashStart, Some(0.0))) else Err(e)
  }

  /** With unique dates the lookup succeeds, on the latest stored date, with that row's running total. */
  lemma LastCumsumLatest(cfs: seq<CashflowRow>)
    requires UniqueDates(cfs) && cfs != []
    ensures LastCumsum(cfs).Ok?
    ensures var (d, c) := LastCumsum(cfs).value;
            (exists i :: 0 <= i < |cfs| && cfs[i].date == d && cfs[i].cumsum == c) &&
            forall i :: 0 <= i < |cfs| ==> cfs[i].date <= d
  {
    var dates := Dates(cfs);
    LatestOfBounds(dates);
    var d := LatestOf(dates).value;
    var i :| 0 <= i < |dates| && dates[i] == d;
    assert OnDate(d)(cfs[i]);
    forall j | 0 <= j < |cfs| && OnDate(d)(cfs[j]) ensures j == i {
      assert cfs[j].date == cfs[i].date;
    }
    GetOk(cfs, OnDate(d), i);
    assert LastCumsum(cfs) == Ok((d, cfs[i].cumsum));
    forall j | 0 <= j < |cfs| ensures cfs[j].date <= d {
      assert dates[j] == cfs[j].date;
    }
  }

  /** The lookup fails exactly when two stored rows share the latest date. */
  lemma LastCumsumDuplicate(cfs: seq<CashflowRow>)
    ensures LastCumsum(cfs).Err? <==>
              cfs != [] && exists i, j :: 0 <= i < j < |cfs| && cfs[i].date == cfs[j].date == LatestOf(Dates(cfs)).value
  {
    if cfs != [] {
      var d := LatestOf(Dates(cfs)).value;
      GetMultiple(cfs, OnDate(d));
      if exists i, j :: 0 <= i < j < |cfs| && cfs[i].date == cfs[j].date == d {
        var i, j :| 0 <= i < j < |cfs| && cfs[i].date == cfs[j].date == d;
        assert OnDate(d)(cfs[i]) && OnDate(d)(cfs[j]);
      }
      if exists i, j :: 0 <= i < j < |cfs| && OnDate(d)(cfs[i]) && OnDate(d)(cfs[j]) {
        var i, j :| 0 <= i < j < |cfs| && OnDate(d)(cfs[i]) && OnDate(d)(cfs[j]);
        assert cfs[i].date == cfs[j].date == d;
      }
    }
  }

  // ---------------------------------------------------------------------------
  // The running total

  /** Reference: the sum of the amounts of the rows. */
  function SumValues(rows: Dict<int, real>): real
    decreases |rows|
  {
    if rows == [] then 0.0 else rows[0].1 + SumValues(rows[1..])
  }

  /** `cashflow.cumsum()` started from `acc`, kept beside each row's date. */
  function Cumulated(flows: Dict<int, real>, acc: real): (r: Dict<int, real>)
    ensures |r| == |flows|
    ensures forall k :: 0 <= k < |r| ==> r[k].0 == flows[k].0
    decreases |flows|
  {
    if flows == [] then []
    else [(flows[0].0, acc + flows[0].1)] + Cumulated(flows[1..], acc + flows[0].1)
  }

  /** Row `j` of the running total holds `acc` plus the amounts of rows `0..j`. */
  lemma {:induction false} CumulatedAt(flows: Dict<int, real>, acc: real, j: nat)
    requires j < |flows|
    ensures Cumulated(flows, acc)[j].1 == acc + SumValues(flows[..j + 1])
    decreases j
  {
    var head := flows[..j + 1];
    assert head[0] == flows[0];
    if j > 0 {
      assert head[1..] == flows[1..][..j];
      CumulatedAt(flows[1..], acc + flows[0].1, j - 1);
    } else {
      assert head[1..] == [];
    }
  }

  /** Each row of the running total is the previous one plus the row's own amount. */
  lemma CumulatedStep(flows: Dict<int, real>, acc: real, j: nat)
    requires j + 1 < |flows|
    ensures Cumulated(flows, acc)[0].1 == acc + flows[0].1
    ensures Cumulated(flows, acc)[j + 1].1 == Cumulated(flows, acc)[j].1 + flows[j + 1].1
  {
    CumulatedAt(flows, acc, j);
    CumulatedAt(flows, acc, j + 1);
    SumValuesSnoc(flows[..j + 1], flows[j + 1]);
    assert flows[..j + 2] == flows[..j + 1] + [flows[j + 1]];
  }

  lemma {:induction false} SumValuesSnoc(rows: Dict<int, real>, x: (int, real))
    ensures SumValues(rows + [x]) == SumValues(rows) + x.1
    decreases |rows|
  {
    if rows == [] {
      assert ([] + [x])[1..] == [];
    } else {
      assert (rows + [x])[1..] == rows[1..] + [x];
      SumValuesSnoc(rows[1..], x);
    }
  }

  /** The running total keeps the dates, so it stays ordered by date. */
  lemma CumulatedAscending(flows: Dict<int, real>, acc: real)
    requires Ascending(flows)
    ensures Ascending(Cumulated(flows, acc)) && Span(Cumulated(flows, acc)) == Span(flows)
  {
  }

  /**
   * The running total as `refresh_cashflows` writes it: the `cumsum` of the
   * new flows from zero, with the stored total added to the FIRST row only.
   */
  function FirstRowOffset(flows: Dict<int, real>, last: real): (r: Dict<int, real>)
    requires flows != []
    ensures |r| == |flows|
  {
    var c := Cumulated(flows, 0.0);
    c[0 := (c[0].0, c[0].1 + last)]
  }

  /**
   * As written, the running total continues the stored one on the first new
   * day only: from the second day on it drops the stored total again.
   */
  lemma FirstRowOffsetDrops(flows: Dict<int, real>, last: real, j: nat)
    requires 0 < j < |flows|
    ensures FirstRowOffset(flows, last)[0].1 == Cumulated(flows, last)[0].1
    ensures FirstRowOffset(flows, last)[j].1 == Cumulated(flows, last)[j].1 - last
    ensures last != 0.0 ==> FirstRowOffset(flows, last)[1].1 != FirstRowOffset(flows, last)[0].1 + flows[1].1
  {
    CumulatedAt(flows, 0.0, 0);
    CumulatedAt(flows, last, 0);
    CumulatedAt(flows, 0.0, j);
    CumulatedAt(flows, last, j);
    CumulatedAt(flows, 0.0, 1);
    CumulatedAt(flows, last, 1);
  }

  // ---------------------------------------------------------------------------
  // The upload

  /**
   * The rows of `upload_df`: every day from the first to the last new flow,
   * with the flows and their running total from `last` left-merged onto it
   * and both columns forward-filled.
   */
  function UploadRows(flows: Dict<int, real>, last: real): (r: seq<CashflowRow>)
    ensures |r| == Span(flows)
  {
    var cash := ValueSeries(flows);
    var cum := ValueSeries(Cumulated(flows, last));
    seq(Span(flows), k requires 0 <= k < Span(flows) => CashflowRow(flows[0].0 + k, OrZero(cash[k]), cum[k]))
  }

  /**
   * Day `k` of the upload carries the cash flow of the latest flow day on or
   * before it (repeated over the days without flows), and the stored total
   * plus every new flow up to that day.
   */
  lemma UploadRowsAt(flows: Dict<int, real>, last: real, k: nat, j: nat)
    requires Ascending(flows) && j < |flows| && k < Span(flows)
    requires flows[j].0 <= flows[0].0 + k && (j + 1 == |flows| || flows[0].0 + k < flows[j + 1].0)
    ensures UploadRows(flows, last)[k] == CashflowRow(flows[0].0 + k, flows[j].1, Some(last + SumValues(flows[..j + 1])))
  {
    var cum := Cumulated(flows, last);
    CumulatedAscending(flows, last);
    ValueSeriesAt(flows, k, j);
    ValueSeriesAt(cum, k, j);
    CumulatedAt(flows, last, j);
  }

  /**
   * What `refresh_cashflows` appends to the table, or the error that escapes
   * it. `fetch(d)` stands for the broker's account movements from day `d` to
   * today. KeyError (no movement has a `change`) ends the refresh quietly, as
   * does an empty frame; without any movement `get_cashflows` raises
   * AttributeError, which is not caught; a stored NULL `cumsum` makes the
   * addition raise TypeError.
   */
  function CashflowUpload(cfs: seq<CashflowRow>, fetch: int -> seq<Movement>): (r: Result<seq<CashflowRow>>)
    ensures r.Err? ==> r.error in {MultipleObjects, AttributeError, TypeError}
  {
    UploadFrom(LastCumsum(cfs), fetch)
  }

  /** The refresh once the lookup of the stored `(date, cumsum)` has succeeded or failed. */
  function UploadFrom(stored: Result<(int, Option<real>)>, fetch: int -> seq<Movement>): Result<seq<CashflowRow>> {
    match stored
    case Err(e) => Err(e)
    case Ok(last) => UploadAfter(last, GetCashflows(fetch(last.0 + 1)))
  }

  /** With the stored `(date, cumsum)` found, the refresh is the upload of the cash flows after that date. */
  lemma UploadFromFound(last: (int, Option<real>), fetch: int -> seq<Movement>)
    ensures UploadFrom(Ok(last), fetch) == UploadAfter(last, GetCashflows(fetch(last.0 + 1)))
  {
  }

  /** The refresh once the stored `(date, cumsum)` and the new cash flows (or their error) are known. */
  function UploadAfter(last: (int, Option<real>), got: Result<Dict<int, real>>): (r: Result<seq<CashflowRow>>)
    ensures r.Err? ==> (got.Err? && got.error != KeyError && r.error == got.error) || r.error == TypeError
  {
    match got
    case Err(e) => if e == KeyError then Ok([]) else Err(e)
    case Ok(flows) =>
      if flows == [] then Ok([])
      else if last.1.None? then Err(TypeError)
      else Ok(UploadRows(flows, last.1.value))
  }

  /**
   * `refresh_cashflows` as written. `df.date.apply(lambda x: x.date)` in
   * `get_cashflows` stores each timestamp's uncalled `date` method instead of
   * its day, so once a transaction movement is present the frame is keyed by
   * method objects and `daterange` (or the NULL `cumsum` addition before it)
   * fails with TypeError: nothing is ever appended.
   */
  function CashflowUploadAsWritten(cfs: seq<CashflowRow>, fetch: int -> seq<Movement>): (r: Result<seq<CashflowRow>>)
    ensures r.Ok? ==> r.value == []
  {
    UploadFromAsWritten(LastCumsum(cfs), fetch)
  }

  /** The as-written refresh once the lookup of the stored `(date, cumsum)` has succeeded or failed. */
  function UploadFromAsWritten(stored: Result<(int, Option<real>)>, fetch: int -> seq<Movement>): Result<seq<CashflowRow>> {
    match stored
    case Err(e) => Err(e)
    case Ok(last) => UploadAfterAsWritten(fetch(last.0 + 1))
  }

  /** The as-written refresh once the movements since the last stored day are known. */
  function UploadAfterAsWritten(ms: seq<Movement>): (r: Result<seq<CashflowRow>>)
    ensures r.Ok? ==> r.value == []
  {
    if ms == [] then Err(AttributeError)
    else if forall i :: 0 <= i < |ms| ==> ms[i].change.None? then Ok([])
    else if exists i :: 0 <= i < |ms| && IsTransaction(ms[i]) then Err(TypeError)
    else Ok([])
  }

  /** The error or the emptiness of a refresh, as the as-written code reports it. */
  function AsWrittenOutcome(r: Result<seq<CashflowRow>>): Result<seq<CashflowRow>> {
    match r
    case Ok(rows) => if rows == [] then Ok([]) else Err(TypeError)
    case Err(e) => Err(e)
  }

  /**
   * As written, the refresh fails with TypeError exactly where the per-day
   * refresh appends rows, and ends like it everywhere else.
   */
  lemma AsWrittenRefreshFails(cfs: seq<CashflowRow>, fetch: int -> seq<Movement>)
    ensures CashflowUploadAsWritten(cfs, fetch) == AsWrittenOutcome(CashflowUpload(cfs, fetch))
  {
    UploadFromAsWrittenFails(LastCumsum(cfs), fetch);
  }

  lemma UploadFromAsWrittenFails(stored: Result<(int, Option<real>)>, fetch: int -> seq<Movement>)
    ensures UploadFromAsWritten(stored, fetch) == AsWrittenOutcome(UploadFrom(stored, fetch))
  {
    if stored.Ok? {
      UploadAfterAsWrittenFails(stored.value, fetch(stored.value.0 + 1));
    }
  }

  /** The same, once the stored `(date, cumsum)` is known. */
  lemma UploadAfterAsWrittenFails(last: (int, Option<real>), ms: seq<Movement>)
    ensures UploadAfterAsWritten(ms) == AsWrittenOutcome(UploadAfter(last, GetCashflows(ms)))
  {
    var got := GetCashflows(ms);
    if got.Ok? {
      var flows := got.value;
      GetCashflowsEmpty(ms);
      if flows != [] {
        GetCashflowsAscending(ms);
        AscendingBounds(flows);
        assert UploadAfterAsWritten(ms) == Err(TypeError);
        assert UploadAfter(last, got) == if last.1.None? then Err(TypeError) else Ok(UploadRows(flows, last.1.value));
      } else {
        assert UploadAfterAsWritten(ms) == Ok([]);
      }
    }
  }

  /** When the broker reports no movement at all, the refresh fails with AttributeError. */
  lemma CashflowUploadNoMovements(cfs: seq<CashflowRow>, fetch: int -> seq<Movement>, d: int)
    requires LastCumsum(cfs).Ok? && LastCumsum(cfs).value.0 == d && fetch(d + 1) == []
    ensures CashflowUpload(cfs, fetch) == Err(AttributeError)
  {
  }

  /** The first day of the cash flows is the day of one of the movements. */
  lemma FirstFlowDay(ms: seq<Movement>, from: int)
    requires GetCashflows(ms).Ok? && GetCashflows(ms).value != []
    requires forall i :: 0 <= i < |ms| ==> from <= Ordinal(ms[i].date.date)
    ensures from <= GetCashflows(ms).value[0].0
  {
    var flows := GetCashflows(ms).value;
    GetCashflowsAscending(ms);
    AscendingBounds(flows);
    LookupAt(flows, 0);
    GetCashflowsOn(ms, flows[0].0);
    TransactionFlowsDated(ms, flows[0].0);
    var m :| 0 <= m < |ms| && TransactionOn(flows[0].0)(ms[m]);
  }

  /** Consecutive days after the latest stored one keep the dates unique. */
  lemma AppendLaterDays(cfs: seq<CashflowRow>, rows: seq<CashflowRow>, d: int)
    requires UniqueDates(cfs) && forall i :: 0 <= i < |cfs| ==> cfs[i].date <= d
    requires forall k :: 0 <= k < |rows| ==> rows[k].date == rows[0].date + k
    requires rows != [] ==> d < rows[0].date
    ensures UniqueDates(cfs + rows)
  {
    var all := cfs + rows;
    forall i, j | 0 <= i < j < |all| ensures all[i].date != all[j].date {
      if j < |cfs| {
        assert all[i] == cfs[i] && all[j] == cfs[j];
      } else if i < |cfs| {
        assert all[j] == rows[j - |cfs|];
        assert all[i] == cfs[i];
      } else {
        assert all[i] == rows[i - |cfs|] && all[j] == rows[j - |cfs|];
      }
    }
  }

  /**
   * New flows dated after `d`, appended to a table whose dates are unique and
   * on or before `d`, keep the dates unique.
   */
  lemma UploadAfterFresh(cfs: seq<CashflowRow>, last: (int, Option<real>), got: Result<Dict<int, real>>, d: int)
    requires UniqueDates(cfs) && forall i :: 0 <= i < |cfs| ==> cfs[i].date <= d
    requires got.Ok? && got.value != [] ==> d < got.value[0].0
    requires UploadAfter(last, got).Ok?
    ensures UniqueDates(cfs + UploadAfter(last, got).value)
  {
    AppendLaterDays(cfs, UploadAfter(last, got).value, d);
  }

  /**
   * The appended days come after every stored one, so the table keeps its
   * unique dates, provided the broker returns only movements `ms` from the
   * requested day on.
   */
  lemma CashflowUploadFresh(cfs: seq<CashflowRow>, last: (int, Option<real>), ms: seq<Movement>)
    requires UniqueDates(cfs) && LastCumsum(cfs) == Ok(last)
    requires forall i :: 0 <= i < |ms| ==> last.0 + 1 <= Ordinal(ms[i].date.date)
    requires UploadAfter(last, GetCashflows(ms)).Ok?
    ensures UniqueDates(cfs + UploadAfter(last, GetCashflows(ms)).value)
  {
    var got := GetCashflows(ms);
    if cfs != [] {
      LastCumsumLatest(cfs);
    }
    if got.Ok? && got.value != [] {
      FirstFlowDay(ms, last.0 + 1);
    }
    UploadAfterFresh(cfs, last, got, last.0);
  }
}
