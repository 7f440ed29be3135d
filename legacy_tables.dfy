/**
 * The legacy tables of portfolio/views.py and portfolio/lib/helpers.py as
 * one object whose fields the views update in place: the daily depot, the
 * price table, the transactions and the cash-flow table.
 */
module LegacyTables {
  import opened Wrappers
  import opened Assoc
  import opened Holdings
  import opened Ledger
  import opened Calendar
  import opened Orm
  import opened DepotRefresh
  import opened DepotPrices
  import Aggregation
  import opened CashflowRefresh
  import opened Store
  import DegiroApi
  import DegiroHelpers
  import Series
  import PH = PerformanceHistory

  /** `cashflow.cumsum()` continued from the stored total `start`, one row at a time. */
  method RunningTotal(flows: Dict<int, real>, start: real) returns (cum: Dict<int, real>)
    ensures cum == Cumulated(flows, start)
  {
    cum := [];
    var acc := start;
    var k := 0;
    while k < |flows|
      invariant 0 <= k <= |flows| && |cum| == k
      invariant acc == start + SumValues(flows[..k])
      invariant forall j :: 0 <= j < k ==> cum[j] == (flows[j].0, start + SumValues(flows[..j + 1]))
    {
      assert flows[..k + 1] == flows[..k] + [flows[k]];
      SumValuesSnoc(flows[..k], flows[k]);
      acc := acc + flows[k].1;
      cum := cum + [(flows[k].0, acc)];
      k := k + 1;
    }
    forall j | 0 <= j < |flows| ensures cum[j] == Cumulated(flows, start)[j] {
      CumulatedAt(flows, start, j);
    }
  }

  /** The legacy tables the views read and write. */
  class Tables {
    var depot: seq<Position>
    var prices: seq<Series.LongRow>
    var transactions: seq<Transaction>
    var cashflows: seq<Store.CashflowRow>

    constructor()
      ensures depot == [] && prices == [] && transactions == [] && cashflows == []
    {
      depot, prices, transactions, cashflows := [], [], [], [];
    }

    /**
     * `assemble_portfolio`: nothing without transactions; otherwise the days
     * from `latest` through `today + 1` are replayed from the last portfolio,
     * each traded day uploading the new portfolio, until the first error.
     */
    method AssemblePortfolio(last: seq<Position>, latest: int, txs: seq<Transaction>,
                             fetch: seq<string> -> Answer, today: int) returns (r: Result<()>)
      modifies this
      ensures prices == old(prices) && transactions == old(transactions) && cashflows == old(cashflows)
      ensures txs == [] ==> r == Ok(()) && depot == old(depot)
      ensures txs != [] ==>
                var a := AssembleDays(FromPairs(Pieces(last)), txs, fetch, latest, DaysProcessed(latest, today));
                depot == old(depot) + a.rows && (r.Ok? <==> a.error.None?) && (r.Err? ==> a.error == Some(r.error))
    {
      if |txs| == 0 {
        return Ok(());
      }
      r := Replay(FromPairs(Pieces(last)), Day(txs, fetch), latest, today);
    }

    /**
     * `update_transactions`: the new transactions are appended to the
     * transaction table, or, when one repeats a stored id or another new one,
     * the primary key refuses the whole batch with IntegrityError.
     */
    method UpdateTransactions(txs: seq<Transaction>) returns (r: Result<()>)
      modifies this
      ensures depot == old(depot) && prices == old(prices) && cashflows == old(cashflows)
      ensures r.Ok? <==> FreshTransactions(old(transactions), txs)
      ensures r.Ok? ==> transactions == old(transactions) + txs
      ensures r.Err? ==> r.error == IntegrityError && transactions == old(transactions)
    {
      if !FreshTransactions(transactions, txs) {
        return Err(IntegrityError);
      }
      transactions := transactions + txs;
      return Ok(());
    }

    /**
     * `fill_non_transaction_dates`: DoesNotExist on an empty depot; otherwise
     * every date from the earliest through the latest depot date that has no
     * rows receives the previous date's symbols and pieces.
     */
    method FillNonTransactionDates() returns (r: Result<()>)
      modifies this`depot
      ensures prices == old(prices) && transactions == old(transactions) && cashflows == old(cashflows)
      ensures old(depot) == [] ==> r == Err(DoesNotExist) && depot == old(depot)
      ensures old(depot) != [] ==> r == Ok(()) && depot == Filled(old(depot))
    {
      if depot == [] {
        return Err(DoesNotExist);
      }
      var firstDate := EarliestDate(depot);
      var lastDate := LatestDate(depot);
      EarliestNotAfterLatest(depot);
      ghost var start := depot;
      var dateIterator := firstDate;
      while dateIterator <= lastDate
        invariant firstDate <= dateIterator <= lastDate + 1
        invariant depot == FillFrom(start, firstDate, dateIterator - firstDate)
        decreases lastDate - dateIterator
      {
        FillFromNext(start, firstDate, dateIterator - firstDate);
        ghost var next := FillDay(depot, dateIterator);
        if DatedOn(depot, dateIterator) == [] {
          depot := depot + Copies(DatedOn(depot, dateIterator - 1), dateIterator);
        }
        assert depot == next;
        dateIterator := dateIterator + 1;
      }
      return Ok(());
    }

    /** The `while date_iterator <= today` loop of `assemble_portfolio` for the pass `step`. */
    method Replay(h0: Holdings, step: DayFn, latest: int, today: int) returns (r: Result<()>)
      modifies this
      ensures prices == old(prices) && transactions == old(transactions) && cashflows == old(cashflows)
      ensures var a := Run(h0, step, latest, DaysProcessed(latest, today));
              depot == old(depot) + a.rows && (r.Ok? <==> a.error.None?) && (r.Err? ==> a.error == Some(r.error))
    {
      ghost var days := DaysProcessed(latest, today);
      var dateIterator := latest - 1;
      var holdings := h0;
      while dateIterator <= today
        invariant latest - 1 <= dateIterator && dateIterator - latest + 1 <= days
        invariant var a := Run(h0, step, latest, dateIterator - latest + 1);
                  a.error.None? && a.holdings == holdings && depot == old(depot) + a.rows
        invariant prices == old(prices) && transactions == old(transactions) && cashflows == old(cashflows)
        decreases today - dateIterator
      {
        dateIterator := dateIterator + 1;
        var next := ReplayDay(h0, step, latest, dateIterator - latest, holdings, old(depot));
        if next.Err? {
          RunStops(h0, step, latest, dateIterator - latest + 1, days - (dateIterator - latest + 1));
          return Err(next.error);
        }
        holdings := next.value;
      }
      return Ok(());
    }
  

    /** One day of `Replay`: the pass on the current holdings, uploading the new portfolio when there is one. */
    method ReplayDay(ghost h0: Holdings, step: DayFn, latest: int, k: nat, holdings: Holdings,
                     ghost base: seq<Position>) returns (r: Result<Holdings>)
      requires var a := Run(h0, step, latest, k);
               a.error.None? && a.holdings == holdings && depot == base + a.rows
      modifies this
      ensures prices == old(prices) && transactions == old(transactions) && cashflows == old(cashflows)
      ensures var a := Run(h0, step, latest, k + 1);
              depot == base + a.rows && (r.Ok? ==> a.error.None? && a.holdings == r.value)
              && (r.Err? ==> a.error == Some(r.error))
    {
      ghost var a := Run(h0, step, latest, k);
      var next := step(holdings, latest + k);
      RunNext(h0, step, latest, k);
      match next {
        case Err(e) =>
          return Err(e);
        case Ok(None) =>
          return Ok(holdings);
        case Ok(Some(h)) =>
          var rows := Upload(latest + k, h);
          assert Run(h0, step, latest, k + 1) == Assembly(h, a.rows + rows, None);
          assert base + (a.rows + rows) == depot + rows;
          depot := depot + rows;
          return Ok(h);
      }
    }

    /**
     * `refresh_price_data`: every unpriced depot row, in table order, gets
     * the stored price of its symbol and date (0 without one) and is saved;
     * the first exception ends the loop with the rows saved before it kept.
     */
    method RefreshPriceData() returns (r: Result<()>)
      modifies this
      ensures prices == old(prices) && transactions == old(transactions) && cashflows == old(cashflows)
      ensures var p := Reprice(old(depot), old(prices), ZeroKeys(old(depot)));
              depot == p.depot && (r.Ok? <==> p.error.None?) && (r.Err? ==> p.error == Some(r.error))
    {
      var keys := ZeroKeys(depot);
      ghost var start := depot;
      var k := 0;
      while k < |keys|
        invariant 0 <= k <= |keys|
        invariant Reprice(start, prices, keys[..k]) == Progress(depot, None)
        invariant prices == old(prices) && transactions == old(transactions) && cashflows == old(cashflows)
      {
        RepriceNext(start, prices, keys, k, depot);
        var saved := RepriceKey(keys[k]);
        if saved.Err? {
          RepriceStops(start, prices, keys, k + 1);
          return saved;
        }
        k := k + 1;
      }
      assert keys[..k] == keys;
      return Ok(());
    }

    /**
     * One pass of `refresh_price_data`: the stored price of the key (0
     * without one), then the depot row with that key given the price.
     */
    method RepriceKey(key: (string, int)) returns (r: Result<()>)
      modifies this
      ensures prices == old(prices) && transactions == old(transactions) && cashflows == old(cashflows)
      ensures match RepriceOne(old(depot), prices, key)
              case Err(e) => r == Err(e) && depot == old(depot)
              case Ok(d) => r == Ok(()) && depot == d
    {
      var price := StoredPrice(prices, key.0, key.1);
      if price.Err? {
        return Err(price.error);
      }
      var position := Get(depot, DepotKey(key.0, key.1));
      if position.Err? {
        return Err(position.error);
      }
      depot := depot[position.value := depot[position.value].(price := price.value)];
      return Ok(());
    }

    /**
     * `update_price_database`: the rows of the planned download, filled and
     * melted, appended to the price table; nothing without a plan or when the
     * download is empty. `download` stands for `get_yahoo_data` and `ffill`
     * for `ffill_yahoo_data`.
     */
    method UpdatePriceDatabase(today: int, download: PriceRequest -> Series.Frame, ffill: Series.Frame -> Series.Frame)
      requires forall f :: ffill(f).WellFormed()
      modifies this
      ensures depot == old(depot) && transactions == old(transactions) && cashflows == old(cashflows)
      ensures prices == old(prices) + NewPrices(PricePlan(old(depot), old(prices), today), download, ffill)
    {
      var plan := PricePlan(depot, prices, today);
      if plan.None? {
        return;
      }
      var yahoo := download(plan.value);
      if EmptyFrame(yahoo) {
        return;
      }
      prices := prices + Series.Melt(ffill(yahoo));
    }

    /**
     * `refresh_cashflows`: the latest stored `(date, cumsum)` (the start date
     * and 0 on an empty table), the cash flows after that date, and one row
     * per day from the first to the last flow day, the running total
     * continued from the stored one. The table is left as it was on every
     * error and when no cash flow comes back.
     */
    method RefreshCashflows(fetch: int -> seq<DegiroApi.Movement>) returns (r: Result<()>)
      modifies this
      ensures depot == old(depot) && prices == old(prices) && transactions == old(transactions)
      ensures var u := CashflowUpload(old(cashflows), fetch);
              (u.Ok? ==> r == Ok(()) && cashflows == old(cashflows) + u.value) &&
              (u.Err? ==> r == Err(u.error) && cashflows == old(cashflows))
    {
      r := RefreshFrom(LastCumsum(cashflows), fetch);
    }

    /** The refresh once the latest stored `(date, cumsum)`, or the error of looking it up, is known. */
    method RefreshFrom(stored: Result<(int, Option<real>)>, fetch: int -> seq<DegiroApi.Movement>) returns (r: Result<()>)
      modifies this
      ensures depot == old(depot) && prices == old(prices) && transactions == old(transactions)
      ensures var u := UploadFrom(stored, fetch);
              (u.Ok? ==> r == Ok(()) && cashflows == old(cashflows) + u.value) &&
              (u.Err? ==> r == Err(u.error) && cashflows == old(cashflows))
    {
      if stored.Err? {
        return Err(stored.error);
      }
      var last := stored.value;
      var got := DegiroHelpers.GetCashflows(fetch(last.0 + 1));
      UploadFromFound(last, fetch);
      r := UploadNew(last, got);
    }

    /**
     * The upload once the stored `(date, cumsum)` and the new cash flows are
     * known: nothing when the broker had nothing new (KeyError) or no flow
     * came back, the error otherwise, and TypeError when the stored total is
     * missing.
     */
    method UploadNew(last: (int, Option<real>), got: Result<Dict<int, real>>) returns (r: Result<()>)
      modifies this
      ensures depot == old(depot) && prices == old(prices) && transactions == old(transactions)
      ensures var u := UploadAfter(last, got);
              (u.Ok? ==> r == Ok(()) && cashflows == old(cashflows) + u.value) &&
              (u.Err? ==> r == Err(u.error) && cashflows == old(cashflows))
    {
      if got.Err? {
        if got.error == KeyError {
          return Ok(());
        }
        return Err(got.error);
      }
      var flows := got.value;
      if flows == [] {
        return Ok(());
      }
      if last.1.None? {
        return Err(TypeError);
      }
      AppendUpload(flows, last.1.value);
      return Ok(());
    }

    /**
     * One row per day from the first to the last flow day: the day's cash
     * flow and the running total continued from `total`, both carried over
     * the days without a flow.
     */
    method AppendUpload(flows: Dict<int, real>, total: real)
      requires flows != []
      modifies this
      ensures depot == old(depot) && prices == old(prices) && transactions == old(transactions)
      ensures cashflows == old(cashflows) + UploadRows(flows, total)
    {
      var cum := RunningTotal(flows, total);
      var cash := Aggregation.ValueSeries(flows);
      var filled := Aggregation.ValueSeries(cum);
      cashflows := cashflows + seq(Aggregation.Span(flows), k requires 0 <= k < Aggregation.Span(flows) =>
        CashflowRow(flows[0].0 + k, Aggregation.OrZero(cash[k]), filled[k]));
    }

    /** The kept rows extended up to the day before `today`; IndexError when nothing is kept. */
    method ExtendKept(kept: seq<Position>, today: int) returns (r: Result<seq<Position>>)
      ensures r == PH.ExtendedKept(kept, prices, today)
    {
      if kept == [] {
        return Err(IndexError);
      }
      var latest := LatestOf(PH.DatesOf(kept)).value;
      r := ExtendOver(kept, latest, DateRange(latest + 1, today - 1));
    }

    /**
     * The loop over the gap days: each day appends the rows held on day
     * `latest` that have a price on that day, priced; KeyError when no gap
     * day has a price.
     */
    method ExtendOver(kept: seq<Position>, latest: int, gaps: seq<int>) returns (r: Result<seq<Position>>)
      ensures r == PH.ExtendedOver(kept, latest, prices, gaps)
    {
      var gapPrices := Filter(prices, PH.InDays(gaps));
      if gapPrices == [] {
        return Err(KeyError);
      }
      var saved := Filter(kept, PH.OnDay(latest));
      var portfolio := kept;
      var k := 0;
      while k < |gaps|
        invariant 0 <= k <= |gaps|
        invariant portfolio == PH.Extended(kept, saved, gapPrices, gaps[..k])
      {
        PH.ExtendedNext(kept, saved, gapPrices, gaps, k);
        portfolio := portfolio + PH.GapRows(saved, gapPrices, gaps[k]);
        k := k + 1;
      }
      assert gaps[..k] == gaps;
      return Ok(portfolio);
    }

    /**
     * `create_performance_time_series` over the tables: the kept depot rows,
     * extended day by day over the days after the latest one, totalled per
     * day and divided by the running cash total.
     */
    method PerformanceTimeSeries(today: int) returns (r: Result<(seq<(int, Option<real>)>, int)>)
      ensures r == PH.PerformanceTimeSeries(depot, prices, cashflows, today)
    {
      if depot == [] {
        return Err(AttributeError);
      }
      var extended := ExtendKept(PH.Kept(depot), today);
      if extended.Err? {
        return Err(extended.error);
      }
      var portfolio := extended.value;
      if cashflows == [] {
        return Err(KeyError);
      }
      var series := PH.Returns(PH.DailyTotals(portfolio), cashflows);
      return Ok((series, series[|series| - 1].0));
    }
  }
}
