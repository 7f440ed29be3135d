/**
 * The `DepotManager` queries of portfolio/managers.py over the depot rows
 * (each joined with its dimension row, so every row has a date and a symbol).
 */
module Managers {
  import opened Wrappers
  import opened Ledger

  /** `get_latest_date`: None when there are no rows, the largest date otherwise. */
  function LatestDate(rows: seq<PortfolioRow>): (r: Option<int>)
    ensures r.None? <==> rows == []
    ensures r.Some? ==> exists i :: 0 <= i < |rows| && rows[i].date == r.value
    ensures r.Some? ==> forall i :: 0 <= i < |rows| ==> rows[i].date <= r.value
    decreases |rows|
  {
    if rows == [] then None
    else
      var n := |rows| - 1;
      match LatestDate(rows[..n])
      case None => Some(rows[n].date)
      case Some(m) =>
        assert forall i :: 0 <= i < n ==> rows[i] == rows[..n][i];
        Some(if rows[n].date > m then rows[n].date else m)
  }

  /**
   * The rows dated `d`, in order: the day filter the callers of
   * `get_portfolio_at_date(d)` expect; portfolio/managers.py does not define it.
   */
  function PortfolioAt(rows: seq<PortfolioRow>, d: int): (r: seq<PortfolioRow>)
    ensures forall x :: x in r <==> x in rows && x.date == d
    decreases |rows|
  {
    if rows == [] then []
    else
      var n := |rows| - 1;
      assert forall x :: x in rows <==> x in rows[..n] || x == rows[n] by {
        assert rows == rows[..n] + [rows[n]];
      }
      PortfolioAt(rows[..n], d) + (if rows[n].date == d then [rows[n]] else [])
  }

  /** `get_latest_portfolio`: no rows without rows, otherwise exactly the rows dated on the latest date. */
  function LatestPortfolio(rows: seq<PortfolioRow>): (r: seq<PortfolioRow>)
    ensures rows == [] ==> r == []
    ensures forall x :: x in r <==> x in rows && LatestDate(rows) == Some(x.date)
  {
    match LatestDate(rows)
    case None => []
    case Some(m) => PortfolioAt(rows, m)
  }

  /** The latest portfolio is the one on the latest date: no row of it is older than another row. */
  lemma LatestPortfolioNewest(rows: seq<PortfolioRow>, x: PortfolioRow, y: PortfolioRow)
    requires x in LatestPortfolio(rows) && y in rows
    ensures y.date <= x.date
  {
    var i :| 0 <= i < |rows| && rows[i] == y;
  }

  /** A non-empty depot always has a non-empty latest portfolio. */
  lemma LatestPortfolioNonEmpty(rows: seq<PortfolioRow>)
    requires rows != []
    ensures LatestPortfolio(rows) != []
  {
    var m := LatestDate(rows).value;
    var i :| 0 <= i < |rows| && rows[i].date == m;
    assert rows[i] in LatestPortfolio(rows);
  }
}
