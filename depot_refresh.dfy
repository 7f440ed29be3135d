/**
 * The older depot refresh of portfolio/views.py (`refresh_depot_data` and the
 * views beside it) and of its copy in degiro/portfolio/views.py. These views
 * work on the legacy tables, where a depot row carries its own date, symbol,
 * pieces and price. The refresh rebuilds the daily depot from the broker's
 * transactions, copies the previous day into gap days, looks up missing
 * prices, plans the price download and extends the cash-flow table.
 */
module DepotRefresh {
  import opened Wrappers
  import opened Assoc
  import opened Holdings
  import opened Ledger
  import Calendar
  import Managers
  import DegiroApi
  import Series
  import Store

  /** A row of the legacy depot table. */
  datatype Position = Position(date: int, symbol: string, pieces: real, price: real)

  /** The price of a depot row that has not been priced yet, the field's default. */
  const Unpriced: real := 0.0

  /** `datetime.date(2020, 1, 1)`: where an empty depot starts. */
  const DepotStart: int := Calendar.Ordinal(Calendar.Date(2020, 1, 1))

  // ---------------------------------------------------------------------------
  // get_last_portfolio

  /** The depot rows as the manager queries see them. */
  function AsRows(depot: seq<Position>): (r: seq<PortfolioRow>)
    ensures |r| == |depot|
  {
    seq(|depot|, i requires 0 <= i < |depot| => PortfolioRow(depot[i].date, depot[i].symbol, depot[i].pieces))
  }

  /** `Depot.objects.filter(date=d)`: the rows dated `d`, in table order. */
  function DatedOn(depot: seq<Position>, d: int): (r: seq<Position>)
    decreases |depot|
  {
    if depot == [] then []
    else
      var n := |depot| - 1;
      DatedOn(depot[..n], d) + (if depot[n].date == d then [depot[n]] else [])
  }

  /** The rows dated `d` are exactly the depot's rows of that date. */
  lemma {:induction false} DatedOnMembers(depot: seq<Position>, d: int)
    ensures forall x :: x in DatedOn(depot, d) <==> x in depot && x.date == d
    decreases |depot|
  {
    if depot != [] {
      var n := |depot| - 1;
      assert depot == depot[..n] + [depot[n]];
      DatedOnMembers(depot[..n], d);
    }
  }

  /**
   * `get_last_portfolio`: the latest depot date and the rows of that date;
   * 2020-01-01 and no rows when the depot is empty.
   */
  function LastPortfolio(depot: seq<Position>): (r: (int, seq<Position>))
    ensures depot == [] ==> r == (DepotStart, [])
    ensures depot != [] ==> exists i :: 0 <= i < |depot| && depot[i].date == r.0
    ensures forall i :: 0 <= i < |depot| ==> depot[i].date <= r.0
    ensures forall x :: x in r.1 <==> x in depot && x.date == r.0
  {
    var rows := AsRows(depot);
    match Managers.LatestDate(rows)
    case None => (DepotStart, [])
    case Some(m) =>
      assert forall i :: 0 <= i < |depot| ==> depot[i].date == rows[i].date;
      DatedOnMembers(depot, m);
      (m, DatedOn(depot, m))
  }

  /** `{x['symbol']: x['pieces'] for x in last_portfolio}`, before the dictionary is built. */
  function Pieces(rows: seq<Position>): (r: seq<(string, real)>)
    ensures |r| == |rows|
  {
    seq(|rows|, i requires 0 <= i < |rows| => (rows[i].symbol, rows[i].pieces))
  }

  // ---------------------------------------------------------------------------
  // exclude_existing_transactions

  /** The ids of the stored transactions. */
  function Ids(txs: seq<Transaction>): (r: seq<string>)
    ensures |r| == |txs|
  {
    seq(|txs|, i requires 0 <= i < |txs| => txs[i].id)
  }

  /** `[x for x in transactions if x['id'] not in existing]`. */
  function ExcludeExisting(txs: seq<Transaction>, existing: seq<string>): (r: seq<Transaction>)
    ensures forall t :: t in r <==> t in txs && t.id !in existing
    decreases |txs|
  {
    if txs == [] then []
    else
      var n := |txs| - 1;
      assert forall x :: x in txs <==> x in txs[..n] || x == txs[n] by {
        assert txs == txs[..n] + [txs[n]];
      }
      ExcludeExisting(txs[..n], existing) + (if txs[n].id in existing then [] else [txs[n]])
  }

  /**
   * The exclusion keeps the original order: it distributes over
   * concatenation, so the kept transactions appear as they came.
   */
  lemma {:induction false} ExcludeAppend(a: seq<Transaction>, b: seq<Transaction>, existing: seq<string>)
    ensures ExcludeExisting(a + b, existing) == ExcludeExisting(a, existing) + ExcludeExisting(b, existing)
    decreases |b|
  {
    if b == [] {
      assert a + b == a;
    } else {
      var n := |b| - 1;
      assert (a + b)[..|a + b| - 1] == a + b[..n];
      assert (a + b)[|a + b| - 1] == b[n];
      ExcludeAppend(a, b[..n], existing);
    }
  }

  // ---------------------------------------------------------------------------
  // assemble_portfolio: one day

  /** `[t for t in transactions if t['buysell'] == side and t['date'] == d]`. */
  function DayDeals(txs: seq<Transaction>, side: string, d: int): (r: seq<Transaction>)
    ensures forall t :: t in r <==> t in txs && t.buysell == side && t.date == d
    decreases |txs|
  {
    if txs == [] then []
    else
      var n := |txs| - 1;
      assert forall x :: x in txs <==> x in txs[..n] || x == txs[n] by {
        assert txs == txs[..n] + [txs[n]];
      }
      DayDeals(txs[..n], side, d) + (if txs[n].buysell == side && txs[n].date == d then [txs[n]] else [])
  }

  /** The product ids of the deals, in order. */
  function ProductIds(deals: seq<Transaction>): (r: seq<string>)
    ensures |r| == |deals|
  {
    seq(|deals|, i requires 0 <= i < |deals| => deals[i].productId)
  }

  /** `list(set(ids))`: each id once (the order of a Python set is left open; here, first occurrence). */
  function Distinct(ids: seq<string>): (r: seq<string>)
    ensures forall x :: x in r <==> x in ids
    ensures forall i, j :: 0 <= i < j < |r| ==> r[i] != r[j]
    decreases |ids|
  {
    if ids == [] then []
    else
      var n := |ids| - 1;
      assert forall x :: x in ids <==> x in ids[..n] || x == ids[n] by {
        assert ids == ids[..n] + [ids[n]];
      }
      var r := Distinct(ids[..n]);
      if ids[n] in r then r else r + [ids[n]]
  }

  /**
   * A product lookup answer: each product id with the `symbol` of its
   * record, or None when the record has no `symbol`.
   */
  type Answer = Dict<string, Option<string>>

  /** The first chunk of at most ten ids. */
  function FirstChunk(ids: seq<string>): seq<string> {
    if |ids| <= DegiroApi.ChunkSize then ids else ids[..DegiroApi.ChunkSize]
  }

  /** `get_info_by_productId(ids)[0]`: the answer to the first chunk. */
  function FirstAnswer(ids: seq<string>, fetch: seq<string> -> Answer): Answer {
    fetch(FirstChunk(ids))
  }

  /** The first answer is the first of the answers to all the chunks. */
  lemma FirstAnswerIsFirst(ids: seq<string>, fetch: seq<string> -> Answer)
    requires ids != []
    ensures DegiroApi.Chunks(ids) != [] && DegiroApi.Chunks(ids)[0] == FirstChunk(ids)
    ensures FirstAnswer(ids, fetch) == DegiroApi.Answers(DegiroApi.Chunks(ids), fetch)[0]
  {
  }

  /** `{k: v['symbol']}` for one entry of the answer: KeyError when the record has no symbol. */
  function SymbolOf(entry: (string, Option<string>)): Result<(string, string)> {
    if entry.1.None? then Err(KeyError) else Ok((entry.0, entry.1.value))
  }

  /** The id-to-symbol dictionary built from the whole answer. */
  function Symbols(answer: Answer): Result<Dict<string, string>> {
    match MapResult(answer, SymbolOf)
    case Err(e) => Err(e)
    case Ok(ps) => Ok(FromPairs(ps))
  }

  /** One deal as `(symbol, quantity)`; KeyError when its product id has no symbol. */
  function Resolve(symbols: Dict<string, string>): Transaction -> Result<(string, real)> {
    (t: Transaction) => match Lookup(symbols, t.productId)
                        case None => Err(KeyError)
                        case Some(s) => Ok((s, t.quantity))
  }

  /**
   * `{x['symbol']: x['quantity'] for x in daily_red}`: the deals by symbol,
   * a later deal of a symbol replacing the quantity of an earlier one.
   */
  function Reduce(deals: seq<Transaction>, symbols: Dict<string, string>): Result<Holdings> {
    match MapResult(deals, Resolve(symbols))
    case Err(e) => Err(e)
    case Ok(ps) => Ok(FromPairs(ps))
  }

  /**
   * One side of a day: `{}` without deals; IndexError for an empty first
   * answer; None (the day is skipped) when the answer's first key is
   * `errors`; otherwise the reduced deals.
   */
  function Side(deals: seq<Transaction>, ids: seq<string>, fetch: seq<string> -> Answer): Result<Option<Holdings>>
  {
    if deals == [] then Ok(Some([]))
    else
      var answer := FirstAnswer(ids, fetch);
      if answer == [] then Err(IndexError)
      else if answer[0].0 == "errors" then Ok(None)
      else
        match Symbols(answer)
        case Err(e) => Err(e)
        case Ok(symbols) =>
          match Reduce(deals, symbols)
          case Err(e) => Err(e)
          case Ok(q) => Ok(Some(q))
  }

  /** The buys of day `d`, looked up with each product id once. */
  function Buys(txs: seq<Transaction>, d: int, fetch: seq<string> -> Answer): Result<Option<Holdings>> {
    var deals := DayDeals(txs, "B", d);
    Side(deals, Distinct(ProductIds(deals)), fetch)
  }

  /** The sells of day `d`, looked up with their product ids as they come. */
  function Sells(txs: seq<Transaction>, d: int, fetch: seq<string> -> Answer): Result<Option<Holdings>> {
    var deals := DayDeals(txs, "S", d);
    Side(deals, ProductIds(deals), fetch)
  }

  /**
   * One pass of the loop of `assemble_portfolio`: None when the day has no
   * buy or sell or when a lookup reports `errors` (nothing is uploaded);
   * otherwise `Counter(h) + Counter(buys) + Counter(sells)`.
   */
  function DayStep(h: Holdings, txs: seq<Transaction>, d: int, fetch: seq<string> -> Answer): Result<Option<Holdings>> {
    if DayDeals(txs, "B", d) == [] && DayDeals(txs, "S", d) == [] then Ok(None)
    else
      match Buys(txs, d, fetch)
      case Err(e) => Err(e)
      case Ok(None) => Ok(None)
      case Ok(Some(b)) =>
        match Sells(txs, d, fetch)
        case Err(e) => Err(e)
        case Ok(None) => Ok(None)
        case Ok(Some(s)) => Ok(Some(CounterAdd(CounterAdd(h, b), s)))
  }

  /** `upload_new_transactions`: one unpriced depot row per held symbol. */
  function Upload(d: int, h: Holdings): (r: seq<Position>)
    ensures |r| == |h|
  {
    seq(|h|, i requires 0 <= i < |h| => Position(d, h[i].0, h[i].1, Unpriced))
  }

  /** A later deal of a symbol wins: its quantity is the symbol's entry. */
  lemma ReduceLast(deals: seq<Transaction>, symbols: Dict<string, string>, i: nat, s: string)
    requires Reduce(deals, symbols).Ok?
    requires i < |deals| && Lookup(symbols, deals[i].productId) == Some(s)
    requires forall j :: i < j < |deals| ==> Lookup(symbols, deals[j].productId) != Some(s)
    ensures Lookup(Reduce(deals, symbols).value, s) == Some(deals[i].quantity)
  {
    var f := Resolve(symbols);
    MapResultOk(deals, f);
    var ps := MapResult(deals, f).value;
    assert ps[i] == (s, deals[i].quantity);
    forall j | i < j < |ps| ensures ps[j].0 != s {
      assert ps[j] == f(deals[j]).value;
    }
    FromPairsLast(ps, s, i);
  }

  /** A symbol no deal resolves to has no entry. */
  lemma ReduceAbsent(deals: seq<Transaction>, symbols: Dict<string, string>, s: string)
    requires Reduce(deals, symbols).Ok?
    requires forall j :: 0 <= j < |deals| ==> Lookup(symbols, deals[j].productId) != Some(s)
    ensures Lookup(Reduce(deals, symbols).value, s) == None
  {
    var f := Resolve(symbols);
    MapResultOk(deals, f);
    var ps := MapResult(deals, f).value;
    forall j | 0 <= j < |ps| ensures ps[j].0 != s {
      assert ps[j] == f(deals[j]).value;
    }
    MergeUntouched([], ps, s);
  }

  /** A reduced side is a dictionary. */
  lemma SideDistinct(deals: seq<Transaction>, ids: seq<string>, fetch: seq<string> -> Answer)
    requires Side(deals, ids, fetch).Ok? && Side(deals, ids, fetch).value.Some?
    ensures DistinctKeys(Side(deals, ids, fetch).value.value)
  {
    if deals != [] {
      var answer := FirstAnswer(ids, fetch);
      var symbols := Symbols(answer).value;
      var ps := MapResult(deals, Resolve(symbols)).value;
      MergeKeepsDistinct([], ps);
    }
  }

  /** `Counter(a) + Counter(b)` as a count: the sum, or zero where the sum is not positive. */
  function Clip(x: real): real {
    if x > 0.0 then x else 0.0
  }

  /** `Counter(h) + Counter(b) + Counter(q)` as counts: each addition keeps only positive totals. */
  lemma CountsAfter(h: Holdings, b: Holdings, q: Holdings, s: string)
    requires DistinctKeys(h) && DistinctKeys(b) && DistinctKeys(q)
    ensures var total := Clip(Count(h, s) + Count(b, s)) + Count(q, s);
            Lookup(CounterAdd(CounterAdd(h, b), q), s) == if total > 0.0 then Some(total) else None
  {
    var mid := CounterAdd(h, b);
    CounterAddLookup(h, b, s);
    CounterAddDistinct(h, b);
    CounterAddLookup(mid, q, s);
    assert Count(mid, s) == Clip(Count(h, s) + Count(b, s));
  }

  /**
   * The portfolio after a traded day: a symbol holds its old pieces plus
   * its buys (dropped when not positive) plus its sells, when that is
   * positive, and is gone otherwise.
   */
  lemma DayStepCounts(h: Holdings, txs: seq<Transaction>, d: int, fetch: seq<string> -> Answer,
                      b: Holdings, q: Holdings, s: string)
    requires DistinctKeys(h)
    requires DayDeals(txs, "B", d) != [] || DayDeals(txs, "S", d) != []
    requires Buys(txs, d, fetch) == Ok(Some(b)) && Sells(txs, d, fetch) == Ok(Some(q))
    ensures var total := Clip(Count(h, s) + Count(b, s)) + Count(q, s);
            DayStep(h, txs, d, fetch) == Ok(Some(CounterAdd(CounterAdd(h, b), q)))
            && Lookup(CounterAdd(CounterAdd(h, b), q), s) == if total > 0.0 then Some(total) else None
  {
    var buys := DayDeals(txs, "B", d);
    var sells := DayDeals(txs, "S", d);
    SideDistinct(buys, Distinct(ProductIds(buys)), fetch);
    SideDistinct(sells, ProductIds(sells), fetch);
    CountsAfter(h, b, q, s);
  }

  /** A portfolio that trades on a day is again a dictionary of positive counts. */
  lemma DayStepHoldings(h: Holdings, txs: seq<Transaction>, d: int, fetch: seq<string> -> Answer)
    requires DistinctKeys(h)
    requires DayStep(h, txs, d, fetch).Ok? && DayStep(h, txs, d, fetch).value.Some?
    ensures var next := DayStep(h, txs, d, fetch).value.value;
            DistinctKeys(next) && forall i :: 0 <= i < |next| ==> next[i].1 > 0.0
  {
    var buys := DayDeals(txs, "B", d);
    var sells := DayDeals(txs, "S", d);
    var b := Buys(txs, d, fetch).value.value;
    var q := Sells(txs, d, fetch).value.value;
    SideDistinct(buys, Distinct(ProductIds(buys)), fetch);
    SideDistinct(sells, ProductIds(sells), fetch);
    CounterAddDistinct(h, b);
    CounterAddDistinct(CounterAdd(h, b), q);
  }

  /** The uploaded rows of a day: one per held symbol, with its pieces. */
  lemma UploadHeld(d: int, h: Holdings)
    requires DistinctKeys(h)
    ensures forall i :: 0 <= i < |h| ==> Upload(d, h)[i].date == d && Lookup(h, Upload(d, h)[i].symbol) == Some(Upload(d, h)[i].pieces)
    ensures forall i, j :: 0 <= i < j < |h| ==> Upload(d, h)[i].symbol != Upload(d, h)[j].symbol
  {
    forall i | 0 <= i < |h| ensures Lookup(h, Upload(d, h)[i].symbol) == Some(Upload(d, h)[i].pieces) {
      LookupAt(h, i);
    }
  }

  // ---------------------------------------------------------------------------
  // assemble_portfolio: the days

  /** One pass of the loop as a function of the running portfolio and the day. */
  type DayFn = (Holdings, int) -> Result<Option<Holdings>>

  /** The pass of `assemble_portfolio` for these transactions and this product lookup. */
  function Day(txs: seq<Transaction>, fetch: seq<string> -> Answer): DayFn {
    (h: Holdings, d: int) => DayStep(h, txs, d, fetch)
  }

  /** The running portfolio, the uploaded rows, and the error that ended the loop, if one did. */
  datatype Assembly = Assembly(holdings: Holdings, rows: seq<Position>, error: Option<Error>)

  /** One day's outcome applied to the loop state: an error ends it, None keeps it, a portfolio is uploaded. */
  function Extend(a: Assembly, next: Result<Option<Holdings>>, d: int): Assembly {
    match next
    case Err(e) => a.(error := Some(e))
    case Ok(None) => a
    case Ok(Some(h)) => Assembly(h, a.rows + Upload(d, h), None)
  }

  /** The loop over the `n` days from `from`, stopping at the first error. */
  function Run(h0: Holdings, step: DayFn, from: int, n: nat): Assembly
    decreases n
  {
    if n == 0 then Assembly(h0, [], None)
    else
      var a := Run(h0, step, from, n - 1);
      if a.error.Some? then a else Extend(a, step(a.holdings, from + n - 1), from + n - 1)
  }

  /** One more day of a loop that has not stopped. */
  lemma RunNext(h0: Holdings, step: DayFn, from: int, n: nat)
    requires Run(h0, step, from, n).error.None?
    ensures var a := Run(h0, step, from, n);
            Run(h0, step, from, n + 1) == Extend(a, step(a.holdings, from + n), from + n)
  {
  }

  /** The loop of `assemble_portfolio` over the `n` days from `from`. */
  function AssembleDays(h0: Holdings, txs: seq<Transaction>, fetch: seq<string> -> Answer, from: int, n: nat): Assembly {
    Run(h0, Day(txs, fetch), from, n)
  }

  /** The days the loop visits: from `latest_date` through `today + 1`, none when that range is empty. */
  function DaysProcessed(latest: int, today: int): nat {
    if latest <= today + 1 then today + 2 - latest else 0
  }

  /** A dictionary of positive counts. */
  predicate Held(h: Holdings) {
    DistinctKeys(h) && forall i :: 0 <= i < |h| ==> h[i].1 > 0.0
  }

  /** A pass that turns a dictionary into a dictionary of positive counts whenever it uploads. */
  ghost predicate KeepsHeld(step: DayFn) {
    forall h, d :: DistinctKeys(h) && step(h, d).Ok? && step(h, d).value.Some? ==> Held(step(h, d).value.value)
  }

  lemma DayKeepsHeld(txs: seq<Transaction>, fetch: seq<string> -> Answer)
    ensures KeepsHeld(Day(txs, fetch))
  {
    var step := Day(txs, fetch);
    forall h, d | DistinctKeys(h) && step(h, d).Ok? && step(h, d).value.Some?
      ensures Held(step(h, d).value.value)
    {
      DayStepHoldings(h, txs, d, fetch);
    }
  }

  lemma {:induction false} RunRows(h0: Holdings, step: DayFn, from: int, n: nat)
    requires DistinctKeys(h0) && KeepsHeld(step)
    ensures var a := Run(h0, step, from, n);
            DistinctKeys(a.holdings)
            && forall i :: 0 <= i < |a.rows| ==>
                 from <= a.rows[i].date < from + n && a.rows[i].pieces > 0.0 && a.rows[i].price == Unpriced
    decreases n
  {
    if n > 0 {
      var a := Run(h0, step, from, n - 1);
      RunRows(h0, step, from, n - 1);
      var d := from + n - 1;
      if a.error.None? && step(a.holdings, d).Ok? && step(a.holdings, d).value.Some? {
        var h := step(a.holdings, d).value.value;
        assert Held(h);
        var rows := a.rows + Upload(d, h);
        assert Run(h0, step, from, n) == Assembly(h, rows, None);
        forall i | 0 <= i < |rows|
          ensures from <= rows[i].date < from + n && rows[i].pieces > 0.0 && rows[i].price == Unpriced
        {
          if i >= |a.rows| {
            assert rows[i] == Position(d, h[i - |a.rows|].0, h[i - |a.rows|].1, Unpriced);
          }
        }
      }
    }
  }

  /**
   * The running portfolio stays a dictionary, and every uploaded row is
   * dated within the processed days, unpriced and holds positive pieces.
   */
  lemma AssembleRows(h0: Holdings, txs: seq<Transaction>, fetch: seq<string> -> Answer, from: int, n: nat)
    requires DistinctKeys(h0)
    ensures var a := AssembleDays(h0, txs, fetch, from, n);
            DistinctKeys(a.holdings)
            && forall i :: 0 <= i < |a.rows| ==>
                 from <= a.rows[i].date < from + n && a.rows[i].pieces > 0.0 && a.rows[i].price == Unpriced
  {
    DayKeepsHeld(txs, fetch);
    RunRows(h0, Day(txs, fetch), from, n);
  }

  lemma {:induction false} RunStops(h0: Holdings, step: DayFn, from: int, n: nat, m: nat)
    requires Run(h0, step, from, n).error.Some?
    ensures Run(h0, step, from, n + m) == Run(h0, step, from, n)
    decreases m
  {
    if m > 0 {
      RunStops(h0, step, from, n, m - 1);
    }
  }

  /** After the first error the loop has stopped: later days change nothing. */
  lemma AssembleStops(h0: Holdings, txs: seq<Transaction>, fetch: seq<string> -> Answer, from: int, n: nat, m: nat)
    requires AssembleDays(h0, txs, fetch, from, n).error.Some?
    ensures AssembleDays(h0, txs, fetch, from, n + m) == AssembleDays(h0, txs, fetch, from, n)
  {
    RunStops(h0, Day(txs, fetch), from, n, m);
  }

  /** The days the pass leaves alone whatever the portfolio. */
  ghost predicate Quiet(step: DayFn, d: int) {
    forall h :: step(h, d) == Ok(None)
  }

  lemma {:induction false} RunQuiet(h0: Holdings, step: DayFn, from: int, n: nat, m: nat)
    requires forall d :: from + n <= d < from + n + m ==> Quiet(step, d)
    ensures Run(h0, step, from, n + m) == Run(h0, step, from, n)
    decreases m
  {
    if m > 0 {
      RunQuiet(h0, step, from, n, m - 1);
      var d := from + n + m - 1;
      assert Quiet(step, d);
    }
  }

  /** Days without a buy or a sell upload nothing and leave the running portfolio as it was. */
  lemma QuietDays(h0: Holdings, txs: seq<Transaction>, fetch: seq<string> -> Answer, from: int, n: nat, m: nat)
    requires forall d :: from + n <= d < from + n + m ==> DayDeals(txs, "B", d) == [] && DayDeals(txs, "S", d) == []
    ensures AssembleDays(h0, txs, fetch, from, n + m) == AssembleDays(h0, txs, fetch, from, n)
  {
    var step := Day(txs, fetch);
    forall d | from + n <= d < from + n + m ensures Quiet(step, d) {
      forall h ensures step(h, d) == Ok(None) {
        assert DayDeals(txs, "B", d) == [] && DayDeals(txs, "S", d) == [];
      }
    }
    RunQuiet(h0, step, from, n, m);
  }

  /** The buys of a day are skipped when their lookup answers `errors` first. */
  lemma BuysSkipped(txs: seq<Transaction>, d: int, fetch: seq<string> -> Answer)
    requires DayDeals(txs, "B", d) != []
    requires var answer := FirstAnswer(Distinct(ProductIds(DayDeals(txs, "B", d))), fetch);
             answer != [] && answer[0].0 == "errors"
    ensures Buys(txs, d, fetch) == Ok(None)
  {
    var deals := DayDeals(txs, "B", d);
    assert Side(deals, Distinct(ProductIds(deals)), fetch) == Ok(None);
  }

  /** A pass is quiet on a day whose buys are skipped. */
  lemma DayQuiet(txs: seq<Transaction>, d: int, fetch: seq<string> -> Answer)
    requires Buys(txs, d, fetch) == Ok(None)
    ensures Quiet(Day(txs, fetch), d)
  {
    forall h ensures Day(txs, fetch)(h, d) == Ok(None) {
      assert Day(txs, fetch)(h, d) == DayStep(h, txs, d, fetch);
    }
  }

  // ---------------------------------------------------------------------------
  // fill_non_transaction_dates

  /** The `(symbol, pieces)` of `rows` inserted again on day `d`, unpriced. */
  function Copies(rows: seq<Position>, d: int): (r: seq<Position>)
    ensures |r| == |rows|
  {
    seq(|rows|, i requires 0 <= i < |rows| => Position(d, rows[i].symbol, rows[i].pieces, Unpriced))
  }

  /** `Depot.objects.earliest('date').date`. */
  function EarliestDate(depot: seq<Position>): int
    requires depot != []
  {
    if |depot| == 1 then depot[0].date
    else
      var m := EarliestDate(depot[1..]);
      if depot[0].date <= m then depot[0].date else m
  }

  /** `Depot.objects.latest('date').date`. */
  function LatestDate(depot: seq<Position>): int
    requires depot != []
  {
    if |depot| == 1 then depot[0].date
    else
      var m := LatestDate(depot[1..]);
      if depot[0].date >= m then depot[0].date else m
  }

  /** The earliest and the latest date are dates of the depot, and bound all its dates. */
  lemma {:induction false} DateBounds(depot: seq<Position>)
    requires depot != []
    ensures exists i :: 0 <= i < |depot| && depot[i].date == EarliestDate(depot)
    ensures exists i :: 0 <= i < |depot| && depot[i].date == LatestDate(depot)
    ensures forall i :: 0 <= i < |depot| ==> EarliestDate(depot) <= depot[i].date <= LatestDate(depot)
  {
    if |depot| > 1 {
      DateBounds(depot[1..]);
      assert forall i :: 1 <= i < |depot| ==> depot[i] == depot[1..][i - 1];
      var j :| 0 <= j < |depot[1..]| && depot[1..][j].date == EarliestDate(depot[1..]);
      var k :| 0 <= k < |depot[1..]| && depot[1..][k].date == LatestDate(depot[1..]);
      var lo := if depot[0].date <= EarliestDate(depot[1..]) then 0 else j + 1;
      var hi := if depot[0].date >= LatestDate(depot[1..]) then 0 else k + 1;
      assert depot[lo].date == EarliestDate(depot);
      assert depot[hi].date == LatestDate(depot);
    } else {
      assert depot[0].date == EarliestDate(depot);
    }
  }

  /** One pass of the loop: a day without rows receives the previous day's rows. */
  function FillDay(t: seq<Position>, d: int): seq<Position> {
    if DatedOn(t, d) == [] then t + Copies(DatedOn(t, d - 1), d) else t
  }

  /** A pass of a loop over the days that rewrites the depot. */
  type DayUpdate = (seq<Position>, int) -> seq<Position>

  /** The depot after `step` has visited the `n` days from `first`. */
  function Sweep(depot: seq<Position>, step: DayUpdate, first: int, n: nat): seq<Position>
    decreases n
  {
    if n == 0 then depot else step(Sweep(depot, step, first, n - 1), first + n - 1)
  }

  function FillStep(): DayUpdate {
    (t: seq<Position>, d: int) => FillDay(t, d)
  }

  /** The depot after `fill_non_transaction_dates` has visited the `n` days from `first`. */
  function FillFrom(depot: seq<Position>, first: int, n: nat): seq<Position> {
    Sweep(depot, FillStep(), first, n)
  }

  lemma {:induction false} DatedOnAppend(a: seq<Position>, b: seq<Position>, d: int)
    ensures DatedOn(a + b, d) == DatedOn(a, d) + DatedOn(b, d)
    decreases |b|
  {
    if b == [] {
      assert a + b == a;
    } else {
      var n := |b| - 1;
      assert (a + b)[..|a + b| - 1] == a + b[..n];
      assert (a + b)[|a + b| - 1] == b[n];
      DatedOnAppend(a, b[..n], d);
    }
  }

  lemma {:induction false} DatedOnCopies(rows: seq<Position>, e: int, d: int)
    ensures DatedOn(Copies(rows, e), d) == if d == e then Copies(rows, e) else []
    decreases |rows|
  {
    if rows != [] {
      var n := |rows| - 1;
      assert Copies(rows, e)[..n] == Copies(rows[..n], e);
      DatedOnCopies(rows[..n], e, d);
    }
  }

  /** A pass changes only the rows of its own day, and only when that day has none. */
  lemma FillDayKeeps(t: seq<Position>, e: int, d: int)
    requires d != e || DatedOn(t, e) != []
    ensures DatedOn(FillDay(t, e), d) == DatedOn(t, d)
  {
    if DatedOn(t, e) == [] {
      var c := Copies(DatedOn(t, e - 1), e);
      DatedOnAppend(t, c, d);
      DatedOnCopies(DatedOn(t, e - 1), e, d);
      assert DatedOn(t, d) + [] == DatedOn(t, d);
    }
  }

  /** A pass on a day without rows gives it the previous day's rows. */
  lemma FillDayCopies(t: seq<Position>, e: int)
    requires DatedOn(t, e) == []
    ensures DatedOn(FillDay(t, e), e) == Copies(DatedOn(t, e - 1), e)
  {
    var c := Copies(DatedOn(t, e - 1), e);
    DatedOnAppend(t, c, e);
    DatedOnCopies(DatedOn(t, e - 1), e, e);
    assert [] + c == c;
  }

  /** Every other day keeps its rows. */
  ghost predicate OnlyItsDay(step: DayUpdate) {
    forall t, e, d :: d != e ==> DatedOn(step(t, e), d) == DatedOn(t, d)
  }

  /** A day with rows keeps them. */
  ghost predicate KeepsDated(step: DayUpdate) {
    forall t, e :: DatedOn(t, e) != [] ==> DatedOn(step(t, e), e) == DatedOn(t, e)
  }

  lemma FillStepLocal()
    ensures OnlyItsDay(FillStep()) && KeepsDated(FillStep())
  {
    forall t, e, d | d != e ensures DatedOn(FillStep()(t, e), d) == DatedOn(t, d) {
      FillDayKeeps(t, e, d);
    }
    forall t, e | DatedOn(t, e) != [] ensures DatedOn(FillStep()(t, e), e) == DatedOn(t, e) {
      FillDayKeeps(t, e, e);
    }
  }

  /** Days the loop has not reached yet keep their rows. */
  lemma {:induction false} SweepLater(depot: seq<Position>, step: DayUpdate, first: int, n: nat, d: int)
    requires OnlyItsDay(step) && first + n <= d
    ensures DatedOn(Sweep(depot, step, first, n), d) == DatedOn(depot, d)
    decreases n
  {
    if n > 0 {
      SweepLater(depot, step, first, n - 1, d);
    }
  }

  /** Once the loop is past a day, later passes leave it alone. */
  lemma {:induction false} SweepStable(depot: seq<Position>, step: DayUpdate, first: int, k: nat, n: nat, d: int)
    requires OnlyItsDay(step) && d < first + k && k <= n
    ensures DatedOn(Sweep(depot, step, first, n), d) == DatedOn(Sweep(depot, step, first, k), d)
    decreases n
  {
    if n > k {
      SweepStable(depot, step, first, k, n - 1, d);
    }
  }

  lemma SweepKeepsDated(depot: seq<Position>, step: DayUpdate, first: int, n: nat, d: int)
    requires OnlyItsDay(step) && KeepsDated(step)
    requires first <= d < first + n && DatedOn(depot, d) != []
    ensures DatedOn(Sweep(depot, step, first, n), d) == DatedOn(depot, d)
  {
    var k := d - first;
    SweepLater(depot, step, first, k, d);
    SweepStable(depot, step, first, k + 1, n, d);
  }

  /** A visited day with rows of its own keeps them. */
  lemma FillFromKeepsDated(depot: seq<Position>, first: int, n: nat, d: int)
    requires first <= d < first + n && DatedOn(depot, d) != []
    ensures DatedOn(FillFrom(depot, first, n), d) == DatedOn(depot, d)
  {
    FillStepLocal();
    SweepKeepsDated(depot, FillStep(), first, n, d);
  }

  /** Days outside the visited ones keep their rows. */
  lemma FillFromOutside(depot: seq<Position>, first: int, n: nat, d: int)
    requires d < first || first + n <= d
    ensures DatedOn(FillFrom(depot, first, n), d) == DatedOn(depot, d)
  {
    FillStepLocal();
    if d < first {
      SweepStable(depot, FillStep(), first, 0, n, d);
    } else {
      SweepLater(depot, FillStep(), first, n, d);
    }
  }

  /** A visited day without rows of its own holds the previous day's rows again. */
  lemma FillFromCopiesGap(depot: seq<Position>, first: int, n: nat, d: int)
    requires first < d < first + n && DatedOn(depot, d) == []
    ensures DatedOn(FillFrom(depot, first, n), d) == Copies(DatedOn(FillFrom(depot, first, n), d - 1), d)
  {
    var k := d - first;
    FillStepLocal();
    var step := FillStep();
    SweepLater(depot, step, first, k, d);
    var t := Sweep(depot, step, first, k);
    assert Sweep(depot, step, first, k + 1) == FillDay(t, d);
    FillDayCopies(t, d);
    SweepStable(depot, step, first, k + 1, n, d);
    SweepStable(depot, step, first, k, n, d - 1);
  }

  /** Starting from a day with rows, every visited day ends up with rows. */
  lemma {:induction false} FillFromCovers(depot: seq<Position>, first: int, n: nat, d: int)
    requires DatedOn(depot, first) != [] && first <= d < first + n
    ensures DatedOn(FillFrom(depot, first, n), d) != []
    decreases d - first
  {
    if DatedOn(depot, d) != [] {
      FillFromKeepsDated(depot, first, n, d);
    } else {
      FillFromCovers(depot, first, n, d - 1);
      FillFromCopiesGap(depot, first, n, d);
    }
  }

  /** One more day of the fill. */
  lemma FillFromNext(depot: seq<Position>, first: int, n: nat)
    ensures FillFrom(depot, first, n + 1) == FillDay(FillFrom(depot, first, n), first + n)
  {
  }

  /** The depot after `fill_non_transaction_dates`: the days from its earliest through its latest date. */
  function Filled(depot: seq<Position>): seq<Position>
    requires depot != []
  {
    var first := EarliestDate(depot);
    FillFrom(depot, first, LatestDate(depot) - first + 1)
  }

  lemma EarliestNotAfterLatest(depot: seq<Position>)
    requires depot != []
    ensures EarliestDate(depot) <= LatestDate(depot)
  {
    DateBounds(depot);
    assert EarliestDate(depot) <= depot[0].date <= LatestDate(depot);
  }

  /** The earliest date has rows, and a date with rows lies between the earliest and the latest. */
  lemma DatedRange(depot: seq<Position>, d: int)
    requires depot != []
    ensures DatedOn(depot, EarliestDate(depot)) != []
    ensures DatedOn(depot, d) != [] ==> EarliestDate(depot) <= d <= LatestDate(depot)
  {
    DateBounds(depot);
    var i :| 0 <= i < |depot| && depot[i].date == EarliestDate(depot);
    DatedOnMembers(depot, EarliestDate(depot));
    assert depot[i] in DatedOn(depot, EarliestDate(depot));
    if DatedOn(depot, d) != [] {
      DatedOnMembers(depot, d);
      var x := DatedOn(depot, d)[0];
      assert x in DatedOn(depot, d);
      var j :| 0 <= j < |depot| && depot[j] == x;
    }
  }

  /** `fill_non_transaction_dates`: a date that has rows keeps exactly those rows. */
  lemma FilledKeepsDated(depot: seq<Position>, d: int)
    requires depot != [] && DatedOn(depot, d) != []
    ensures DatedOn(Filled(depot), d) == DatedOn(depot, d)
  {
    var first, last := EarliestDate(depot), LatestDate(depot);
    DatedRange(depot, d);
    assert first <= d <= last;
    var n: nat := last - first + 1;
    assert Filled(depot) == FillFrom(depot, first, n);
    FillFromKeepsDated(depot, first, n, d);
  }

  /** Dates before the earliest and after the latest depot date are untouched. */
  lemma FilledOutside(depot: seq<Position>, d: int)
    requires depot != [] && (d < EarliestDate(depot) || LatestDate(depot) < d)
    ensures DatedOn(Filled(depot), d) == DatedOn(depot, d)
  {
    var first := EarliestDate(depot);
    FillFromOutside(depot, first, LatestDate(depot) - first + 1, d);
  }

  /** A date in the depot's range without rows receives the previous date's (filled) rows, unpriced. */
  lemma FilledGap(depot: seq<Position>, d: int)
    requires depot != [] && EarliestDate(depot) < d <= LatestDate(depot) && DatedOn(depot, d) == []
    ensures DatedOn(Filled(depot), d) == Copies(DatedOn(Filled(depot), d - 1), d)
  {
    var first := EarliestDate(depot);
    FillFromCopiesGap(depot, first, LatestDate(depot) - first + 1, d);
  }

  /** After the fill no date from the earliest through the latest is missing. */
  lemma FilledCovers(depot: seq<Position>, d: int)
    requires depot != [] && EarliestDate(depot) <= d <= LatestDate(depot)
    ensures DatedOn(Filled(depot), d) != []
  {
    var first := EarliestDate(depot);
    DatedRange(depot, d);
    FillFromCovers(depot, first, LatestDate(depot) - first + 1, d);
  }
}
