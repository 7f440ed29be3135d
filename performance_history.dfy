/**
 * `create_performance_time_series` of portfolio/lib/helpers.py: the daily
 * return of the legacy depot, that is the depot's value per day divided by the
 * cumulative cash paid in. The depot rows are trimmed, extended over the days
 * after the last depot day with the last holdings priced per day, totalled
 * per day and set against the stored running cash total.
 */
module PerformanceHistory {
  import opened Wrappers
  import opened Assoc
  import opened Calendar
  import opened Orm
  import opened DepotRefresh
  import Series
  import Store
  import Aggregation
  import DepotPrices
  import CashflowRefresh
  import DegiroHelpers

  /** The symbol left out of the series. */
  const Excluded: string := "BITCOIN XBTE"

  /** `portfolio_df.symbol != 'BITCOIN XBTE'`. */
  function Included(): Position -> bool {
    (x: Position) => x.symbol != Excluded
  }

  /** `portfolio_df.date < d`. */
  function Before(d: int): Position -> bool {
    (x: Position) => x.date < d
  }

  /** `portfolio_df.date == d`. */
  function OnDay(d: int): Position -> bool {
    (x: Position) => x.date == d
  }

  /** `date__in=[*ffill_dates]`. */
  function InDays(days: seq<int>): Series.LongRow -> bool {
    (p: Series.LongRow) => p.date in days
  }

  function DatesOf(rows: seq<Position>): (r: seq<int>)
    ensures |r| == |rows|
  {
    seq(|rows|, i requires 0 <= i < |rows| => rows[i].date)
  }

  // ---------------------------------------------------------------------------
  // Trimming

  /**
   * The rows the series starts from: the depot without the excluded symbol,
   * and, when some of those rows have no price yet, only the rows dated
   * before the earliest of them.
   */
  function Kept(depot: seq<Position>): seq<Position> {
    var rows := Filter(depot, Included());
    var zeros := Filter(rows, DepotPrices.IsUnpriced());
    if zeros == [] then rows else Filter(rows, Before(EarliestOf(DatesOf(zeros)).value))
  }

  /**
   * A row is kept exactly when it is a depot row of another symbol than the
   * excluded one, dated before every unpriced row of such a symbol.
   */
  lemma KeptMembers(depot: seq<Position>, x: Position)
    ensures x in Kept(depot) <==>
              x in depot && x.symbol != Excluded &&
              forall z :: z in depot && z.symbol != Excluded && z.price == Unpriced ==> x.date < z.date
  {
    var rows := Filter(depot, Included());
    var zeros := Filter(rows, DepotPrices.IsUnpriced());
    FilterMembers(depot, Included());
    FilterMembers(rows, DepotPrices.IsUnpriced());
    if zeros == [] {
      forall z | z in depot && z.symbol != Excluded ensures z.price != Unpriced {
        assert Included()(z);
        assert z !in zeros;
      }
    } else {
      var dates := DatesOf(zeros);
      EarliestOfBounds(dates);
      var e := EarliestOf(dates).value;
      FilterMembers(rows, Before(e));
      if x in Kept(depot) {
        forall z | z in depot && z.symbol != Excluded && z.price == Unpriced ensures x.date < z.date {
          assert Included()(z) && DepotPrices.IsUnpriced()(z);
          var i :| 0 <= i < |zeros| && zeros[i] == z;
          assert dates[i] == z.date;
        }
      }
      var i :| 0 <= i < |dates| && dates[i] == e;
      assert zeros[i] in rows && zeros[i].price == Unpriced;
    }
  }

  // ---------------------------------------------------------------------------
  // Extending over the gap days

  /** One saved row inner-joined with the prices of its symbol on day `g`, in price order. */
  function PricedCopies(s: Position, prices: seq<Series.LongRow>, g: int): (r: seq<Position>)
  {
    var ps := Filter(prices, DepotPrices.PriceKey(s.symbol, g));
    seq(|ps|, k requires 0 <= k < |ps| => Position(g, s.symbol, s.pieces, ps[k].price))
  }

  /** `pd.merge(depot_on_date, prices_df, on=['symbol', 'date'])`: the saved rows on day `g`, each with its prices. */
  function GapRows(saved: seq<Position>, prices: seq<Series.LongRow>, g: int): seq<Position>
    decreases |saved|
  {
    if saved == [] then []
    else
      var n := |saved| - 1;
      GapRows(saved[..n], prices, g) + PricedCopies(saved[n], prices, g)
  }

  /** A copy with its price. */
  predicate CopyOf(r: Position, s: Position, p: Series.LongRow, g: int) {
    p.symbol == s.symbol && p.date == g && r == Position(g, s.symbol, s.pieces, p.price)
  }

  lemma PricedCopiesMembers(s: Position, prices: seq<Series.LongRow>, g: int, r: Position)
    ensures r in PricedCopies(s, prices, g) <==> exists p :: p in prices && CopyOf(r, s, p, g)
  {
    var ps := Filter(prices, DepotPrices.PriceKey(s.symbol, g));
    var copies := PricedCopies(s, prices, g);
    FilterMembers(prices, DepotPrices.PriceKey(s.symbol, g));
    if r in copies {
      var k :| 0 <= k < |copies| && copies[k] == r;
      assert ps[k] in ps;
      assert CopyOf(r, s, ps[k], g);
    }
    if exists p :: p in prices && CopyOf(r, s, p, g) {
      var p :| p in prices && CopyOf(r, s, p, g);
      assert DepotPrices.PriceKey(s.symbol, g)(p);
      var k :| 0 <= k < |ps| && ps[k] == p;
      assert copies[k] == r;
    }
  }

  /**
   * The rows of a gap day are exactly the saved rows that have a price on
   * that day, each priced; a saved symbol without a price on the day is dropped.
   */
  lemma {:induction false} GapRowsMembers(saved: seq<Position>, prices: seq<Series.LongRow>, g: int, r: Position)
    ensures r in GapRows(saved, prices, g) <==> exists s, p :: s in saved && p in prices && CopyOf(r, s, p, g)
    decreases |saved|
  {
    if saved != [] {
      var n := |saved| - 1;
      GapRowsMembers(saved[..n], prices, g, r);
      PricedCopiesMembers(saved[n], prices, g, r);
      assert saved == saved[..n] + [saved[n]];
      if exists s, p :: s in saved && p in prices && CopyOf(r, s, p, g) {
        var s, p :| s in saved && p in prices && CopyOf(r, s, p, g);
        if s != saved[n] {
          assert s in saved[..n];
        }
      }
    }
  }

  /** `rows`, then the rows `day` gives for each of `days` in turn. */
  function AppendDays(rows: seq<Position>, day: int -> seq<Position>, days: seq<int>): (r: seq<Position>)
    ensures |rows| <= |r|
    decreases |days|
  {
    if days == [] then rows
    else
      var n := |days| - 1;
      AppendDays(rows, day, days[..n]) + day(days[n])
  }

  /** The days whose rows include `x`. */
  function Yields(day: int -> seq<Position>, x: Position): int -> bool {
    (g: int) => x in day(g)
  }

  lemma {:induction false} AppendDaysMembers(rows: seq<Position>, day: int -> seq<Position>, days: seq<int>, x: Position)
    ensures x in AppendDays(rows, day, days) <==> x in rows || AnyOf(days, Yields(day, x))
    decreases |days|
  {
    if days != [] {
      var n := |days| - 1;
      AppendDaysMembers(rows, day, days[..n], x);
      AnyOfSnoc(days, Yields(day, x));
      assert AppendDays(rows, day, days) == AppendDays(rows, day, days[..n]) + day(days[n]);
    }
  }

  /** The rows of a gap day, as a function of the day. */
  function GapDay(saved: seq<Position>, prices: seq<Series.LongRow>): int -> seq<Position> {
    (g: int) => GapRows(saved, prices, g)
  }

  /** The rows after the loop over the gap days: `rows`, then the rows of each gap day in turn. */
  function Extended(rows: seq<Position>, saved: seq<Position>, prices: seq<Series.LongRow>, gaps: seq<int>): (r: seq<Position>)
    ensures |rows| <= |r|
  {
    AppendDays(rows, GapDay(saved, prices), gaps)
  }

  /** One more gap day of the loop. */
  lemma ExtendedNext(rows: seq<Position>, saved: seq<Position>, prices: seq<Series.LongRow>, gaps: seq<int>, k: nat)
    requires k < |gaps|
    ensures Extended(rows, saved, prices, gaps[..k + 1]) == Extended(rows, saved, prices, gaps[..k]) + GapRows(saved, prices, gaps[k])
  {
    assert gaps[..k + 1][..k] == gaps[..k];
  }

  /** The extended rows are the starting rows and the rows of the gap days. */
  lemma ExtendedMembers(rows: seq<Position>, saved: seq<Position>, prices: seq<Series.LongRow>, gaps: seq<int>, x: Position)
    ensures x in Extended(rows, saved, prices, gaps) <==>
              x in rows || exists i :: 0 <= i < |gaps| && x in GapRows(saved, prices, gaps[i])
  {
    AppendDaysMembers(rows, GapDay(saved, prices), gaps, x);
    assert AnyOf(gaps, Yields(GapDay(saved, prices), x)) <==> exists i :: 0 <= i < |gaps| && x in GapRows(saved, prices, gaps[i]);
  }

  // ---------------------------------------------------------------------------
  // Returns

  /** `total = pieces * price`. */
  function Total(x: Position): real {
    x.pieces * x.price
  }

  /** The `(date, total)` column pairs of the rows. */
  function Totals(rows: seq<Position>): (r: seq<(int, real)>)
    ensures |r| == |rows|
  {
    seq(|rows|, i requires 0 <= i < |rows| => (rows[i].date, Total(rows[i])))
  }

  /** The stored `cumsum` of day `d`, as the left merge finds it: NaN without a row. */
  function CumsumOn(cfs: seq<Store.CashflowRow>, d: int): Option<real> {
    var m := IndicesWhere(cfs, CashflowRefresh.OnDate(d));
    if m == [] then None else cfs[m[0]].cumsum
  }

  /**
   * The `return` column: per day of the daily totals, the total over the
   * running cash total left-merged onto those days and forward-filled.
   */
  function Returns(perf: Dict<int, real>, cfs: seq<Store.CashflowRow>): (r: seq<(int, Option<real>)>)
    ensures |r| == |perf|
  {
    var cum := Aggregation.Ffill(seq(|perf|, i requires 0 <= i < |perf| => CumsumOn(cfs, perf[i].0)), None);
    seq(|perf|, i requires 0 <= i < |perf| => (perf[i].0, Aggregation.Ratio(Some(perf[i].1), cum[i])))
  }

  /**
   * The return of day `i` divides its total by the cash total of the latest
   * day `j` up to it that has one; with unique dates that is the row of day `j`.
   */
  lemma ReturnsAt(perf: Dict<int, real>, cfs: seq<Store.CashflowRow>, i: nat, j: nat)
    requires j <= i < |perf| && CumsumOn(cfs, perf[j].0).Some?
    requires forall l :: j < l <= i ==> CumsumOn(cfs, perf[l].0).None?
    ensures Returns(perf, cfs)[i] == (perf[i].0, Aggregation.Ratio(Some(perf[i].1), CumsumOn(cfs, perf[j].0)))
  {
    var col := seq(|perf|, l requires 0 <= l < |perf| => CumsumOn(cfs, perf[l].0));
    Aggregation.FfillLatest(col, None, i, j);
  }

  /** Without a cash total on any day up to day `i`, the return of day `i` is NaN. */
  lemma ReturnsBeforeCash(perf: Dict<int, real>, cfs: seq<Store.CashflowRow>, i: nat)
    requires i < |perf| && forall l :: 0 <= l <= i ==> CumsumOn(cfs, perf[l].0).None?
    ensures Returns(perf, cfs)[i] == (perf[i].0, None)
  {
    var col := seq(|perf|, l requires 0 <= l < |perf| => CumsumOn(cfs, perf[l].0));
    Aggregation.FfillAt(col, None, i);
    Aggregation.LastOfNone(col[..i + 1], None);
  }

  /** With unique dates the merged cash total of a day is the `cumsum` of the row of that day. */
  lemma CumsumOnRow(cfs: seq<Store.CashflowRow>, i: nat)
    requires CashflowRefresh.UniqueDates(cfs) && i < |cfs|
    ensures CumsumOn(cfs, cfs[i].date) == cfs[i].cumsum
  {
    var p := CashflowRefresh.OnDate(cfs[i].date);
    forall j | 0 <= j < |cfs| && p(cfs[j]) ensures j == i {
    }
    IndicesWhereSingle(cfs, p, i);
  }

  // ---------------------------------------------------------------------------
  // The whole series

  /**
   * The depot rows the series is built from: the kept rows, then the rows
   * held on the latest kept day priced on each day after it up to yesterday.
   * An empty depot has no `pieces` column (AttributeError); nothing kept
   * leaves no latest row (IndexError); without a price on those days the
   * price frame has no columns to select (KeyError).
   */
  function ExtendedDepot(depot: seq<Position>, prices: seq<Series.LongRow>, today: int): (r: Result<seq<Position>>)
    ensures r.Ok? ==> r.value != []
    ensures r.Err? ==> r.error in {AttributeError, IndexError, KeyError}
  {
    if depot == [] then Err(AttributeError) else ExtendedKept(Kept(depot), prices, today)
  }

  /** The kept rows extended up to yesterday; IndexError when nothing is kept. */
  function ExtendedKept(kept: seq<Position>, prices: seq<Series.LongRow>, today: int): (r: Result<seq<Position>>)
    ensures r.Ok? ==> r.value != []
    ensures r.Err? ==> r.error in {IndexError, KeyError}
  {
    if kept == [] then Err(IndexError)
    else
      var latest := LatestOf(DatesOf(kept)).value;
      ExtendedOver(kept, latest, prices, DateRange(latest + 1, today - 1))
  }

  /** The rows extended over the gap days after `latest`; KeyError when no gap day has a price. */
  function ExtendedOver(kept: seq<Position>, latest: int, prices: seq<Series.LongRow>, gaps: seq<int>): (r: Result<seq<Position>>)
    ensures r.Ok? ==> |kept| <= |r.value|
    ensures r.Err? ==> r.error == KeyError
  {
    var gapPrices := Filter(prices, InDays(gaps));
    if gapPrices == [] then Err(KeyError)
    else Ok(Extended(kept, Filter(kept, OnDay(latest)), gapPrices, gaps))
  }

  /** `groupby('date').sum()` of the totals: one row per day in date order. */
  function DailyTotals(rows: seq<Position>): (r: Dict<int, real>)
    ensures rows != [] ==> r != []
  {
    DegiroHelpers.GroupSorted(Totals(rows))
  }

  /**
   * `create_performance_time_series` on the depot, price and cash-flow
   * tables: the `(date, return)` rows in date order and the last date.
   * Without a cash-flow row the merged frame has no `cumsum` column (KeyError).
   */
  function PerformanceTimeSeries(depot: seq<Position>, prices: seq<Series.LongRow>,
                                 cfs: seq<Store.CashflowRow>, today: int): (r: Result<(seq<(int, Option<real>)>, int)>)
    ensures r.Err? ==> r.error in {AttributeError, IndexError, KeyError}
    ensures r.Ok? ==> r.value.0 != [] && r.value.1 == r.value.0[|r.value.0| - 1].0
  {
    match ExtendedDepot(depot, prices, today)
    case Err(e) => Err(e)
    case Ok(rows) =>
      if cfs == [] then Err(KeyError)
      else
        var series := Returns(DailyTotals(rows), cfs);
        Ok((series, series[|series| - 1].0))
  }

  /** A depot that already reaches yesterday leaves no gap day to price, and the series fails with KeyError. */
  lemma UpToDateDepotFails(depot: seq<Position>, prices: seq<Series.LongRow>, cfs: seq<Store.CashflowRow>, today: int)
    requires Kept(depot) != [] && today - 1 <= LatestOf(DatesOf(Kept(depot))).value
    ensures PerformanceTimeSeries(depot, prices, cfs, today) == Err(KeyError)
  {
    var gaps := DateRange(LatestOf(DatesOf(Kept(depot))).value + 1, today - 1);
    assert gaps == [];
    FilterNone(prices, InDays(gaps));
  }
}
