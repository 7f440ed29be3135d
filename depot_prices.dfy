/**
 * The price views of portfolio/views.py over the legacy tables:
 * `refresh_price_data`, which gives every unpriced depot row the stored price
 * of its symbol and date, and the download plan of `update_price_database`,
 * which decides which symbols are requested from which date.
 */
module DepotPrices {
  import opened Wrappers
  import opened Orm
  import opened DepotRefresh
  import Series

  // ---------------------------------------------------------------------------
  // refresh_price_data

  /** The filter `symbol=symbol, date=date` on the depot table. */
  function DepotKey(symbol: string, date: int): Position -> bool {
    (x: Position) => x.symbol == symbol && x.date == date
  }

  /** The filter `symbol=symbol, date=date` on the price table. */
  function PriceKey(symbol: string, date: int): Series.LongRow -> bool {
    (x: Series.LongRow) => x.symbol == symbol && x.date == date
  }

  /** The filter `price__exact=0`. */
  function IsUnpriced(): Position -> bool {
    (x: Position) => x.price == Unpriced
  }

  /** `list(Depot.objects.filter(price__exact=0).values('symbol', 'date'))`, in table order. */
  function ZeroKeys(depot: seq<Position>): (r: seq<(string, int)>)
    ensures |r| == |IndicesWhere(depot, IsUnpriced())|
  {
    var z := IndicesWhere(depot, IsUnpriced());
    seq(|z|, k requires 0 <= k < |z| => (depot[z[k]].symbol, depot[z[k]].date))
  }

  /**
   * `Prices.objects.get(**key).price` with ObjectDoesNotExist caught: the
   * price of the one price row with the key, 0 when there is none; a second
   * row with the key raises MultipleObjectsReturned, which is not caught.
   */
  function StoredPrice(prices: seq<Series.LongRow>, symbol: string, date: int): (r: Result<real>)
    ensures r.Err? ==> r.error == MultipleObjects
  {
    match Get(prices, PriceKey(symbol, date))
    case Ok(i) => Ok(prices[i].price)
    case Err(e) => if e == DoesNotExist then Ok(0.0) else Err(e)
  }

  /** The only price row with the key gives its price. */
  lemma StoredPriceFound(prices: seq<Series.LongRow>, symbol: string, date: int, j: nat)
    requires j < |prices| && prices[j].symbol == symbol && prices[j].date == date
    requires forall i :: 0 <= i < |prices| && prices[i].symbol == symbol && prices[i].date == date ==> i == j
    ensures StoredPrice(prices, symbol, date) == Ok(prices[j].price)
  {
    GetOk(prices, PriceKey(symbol, date), j);
  }

  /** Without a price row for the key the price is 0. */
  lemma StoredPriceMissing(prices: seq<Series.LongRow>, symbol: string, date: int)
    requires forall i :: 0 <= i < |prices| ==> prices[i].symbol != symbol || prices[i].date != date
    ensures StoredPrice(prices, symbol, date) == Ok(0.0)
  {
    GetMissing(prices, PriceKey(symbol, date));
  }

  /** Two price rows for the key raise MultipleObjectsReturned. */
  lemma StoredPriceDuplicate(prices: seq<Series.LongRow>, symbol: string, date: int, i: nat, j: nat)
    requires i < j < |prices|
    requires prices[i].symbol == symbol && prices[i].date == date
    requires prices[j].symbol == symbol && prices[j].date == date
    ensures StoredPrice(prices, symbol, date) == Err(MultipleObjects)
  {
    GetMultiple(prices, PriceKey(symbol, date));
  }

  /** The state of the loop: the depot as saved so far and the exception that ended the loop, if any. */
  datatype Progress = Progress(depot: seq<Position>, error: Option<Error>)

  /**
   * One pass of the loop: the stored price of the key, then the depot row
   * `Depot.objects.get(**key)` given that price and saved.
   */
  function RepriceOne(depot: seq<Position>, prices: seq<Series.LongRow>, key: (string, int)): Result<seq<Position>> {
    match StoredPrice(prices, key.0, key.1)
    case Err(e) => Err(e)
    case Ok(price) =>
      match Get(depot, DepotKey(key.0, key.1))
      case Err(e) => Err(e)
      case Ok(i) => Ok(depot[i := depot[i].(price := price)])
  }

  /** One pass of a loop over keys: the depot after the pass, or the exception it raised. */
  type Pass = (seq<Position>, (string, int)) -> Result<seq<Position>>

  /** A loop over `keys`: it stops at the first exception, and the rows saved before it stay saved. */
  function Loop(pass: Pass, depot: seq<Position>, keys: seq<(string, int)>): Progress
    decreases |keys|
  {
    if keys == [] then Progress(depot, None)
    else
      var n := |keys| - 1;
      var p := Loop(pass, depot, keys[..n]);
      if p.error.Some? then p
      else
        match pass(p.depot, keys[n])
        case Err(e) => Progress(p.depot, Some(e))
        case Ok(d) => Progress(d, None)
  }

  /** One more key for a loop that has not stopped. */
  lemma LoopNext(pass: Pass, depot: seq<Position>, keys: seq<(string, int)>, k: nat, d: seq<Position>)
    requires k < |keys| && Loop(pass, depot, keys[..k]) == Progress(d, None)
    ensures Loop(pass, depot, keys[..k + 1]) ==
              match pass(d, keys[k])
              case Err(e) => Progress(d, Some(e))
              case Ok(next) => Progress(next, None)
  {
    assert keys[..k + 1][..k] == keys[..k];
  }

  /** Once a loop has stopped, the remaining keys change nothing. */
  lemma {:induction false} LoopStops(pass: Pass, depot: seq<Position>, keys: seq<(string, int)>, k: nat)
    requires k <= |keys| && Loop(pass, depot, keys[..k]).error.Some?
    ensures Loop(pass, depot, keys) == Loop(pass, depot, keys[..k])
    decreases |keys| - k
  {
    if k < |keys| {
      var n := |keys| - 1;
      assert keys[..n][..k] == keys[..k];
      LoopStops(pass, depot, keys[..n], k);
    } else {
      assert keys[..k] == keys;
    }
  }

  /** The pass of `refresh_price_data`. */
  function RepricePass(prices: seq<Series.LongRow>): Pass {
    (d: seq<Position>, key: (string, int)) => RepriceOne(d, prices, key)
  }

  /** The loop of `refresh_price_data` over `keys`. */
  function Reprice(depot: seq<Position>, prices: seq<Series.LongRow>, keys: seq<(string, int)>): Progress {
    Loop(RepricePass(prices), depot, keys)
  }

  /** One more key for the loop of `refresh_price_data` that has not stopped. */
  lemma RepriceNext(depot: seq<Position>, prices: seq<Series.LongRow>, keys: seq<(string, int)>, k: nat, d: seq<Position>)
    requires k < |keys| && Reprice(depot, prices, keys[..k]) == Progress(d, None)
    ensures Reprice(depot, prices, keys[..k + 1]) ==
              match RepriceOne(d, prices, keys[k])
              case Err(e) => Progress(d, Some(e))
              case Ok(next) => Progress(next, None)
  {
    LoopNext(RepricePass(prices), depot, keys, k, d);
  }

  /** Once the loop of `refresh_price_data` has stopped, the remaining keys change nothing. */
  lemma RepriceStops(depot: seq<Position>, prices: seq<Series.LongRow>, keys: seq<(string, int)>, k: nat)
    requires k <= |keys| && Reprice(depot, prices, keys[..k]).error.Some?
    ensures Reprice(depot, prices, keys) == Reprice(depot, prices, keys[..k])
  {
    LoopStops(RepricePass(prices), depot, keys, k);
  }

  /** No two depot rows share a symbol and a date (the legacy table does not enforce it). */
  predicate UniqueKeys(depot: seq<Position>) {
    forall i, j :: 0 <= i < j < |depot| ==> depot[i].symbol != depot[j].symbol || depot[i].date != depot[j].date
  }

  /** A depot row given the stored price of its symbol and date, when that lookup succeeds. */
  function Repriced(prices: seq<Series.LongRow>, x: Position): Position {
    match StoredPrice(prices, x.symbol, x.date)
    case Ok(p) => x.(price := p)
    case Err(_) => x
  }

  /** Rows that keep their symbol and date, one for one. */
  predicate SameKeys(a: seq<Position>, b: seq<Position>) {
    |a| == |b| && forall i :: 0 <= i < |a| ==> a[i].symbol == b[i].symbol && a[i].date == b[i].date
  }

  /**
   * The loop only ever changes prices, and the only exception that can end
   * it is MultipleObjectsReturned: every key it looks up comes from a row of
   * the depot, so `Depot.objects.get` always finds at least one row.
   */
  lemma {:induction false} RepriceKeepsKeys(depot: seq<Position>, prices: seq<Series.LongRow>, k: nat)
    requires k <= |ZeroKeys(depot)|
    ensures SameKeys(Reprice(depot, prices, ZeroKeys(depot)[..k]).depot, depot)
    ensures Reprice(depot, prices, ZeroKeys(depot)[..k]).error in {None, Some(MultipleObjects)}
    decreases k
  {
    var keys := ZeroKeys(depot);
    if k > 0 {
      var z := IndicesWhere(depot, IsUnpriced());
      assert keys[..k][..k - 1] == keys[..k - 1];
      RepriceKeepsKeys(depot, prices, k - 1);
      var p := Reprice(depot, prices, keys[..k - 1]);
      var key := keys[k - 1];
      if p.error.None? {
        RepriceNext(depot, prices, keys, k - 1, p.depot);
        var row := z[k - 1];
        assert p.depot[row].symbol == key.0 && p.depot[row].date == key.1;
        GetMissing(p.depot, DepotKey(key.0, key.1));
      }
    }
  }

  /** The outcome of the loop over the first `k` unpriced rows, when the depot keys are unique and every price lookup succeeds. */
  ghost predicate RepricedUpTo(depot: seq<Position>, prices: seq<Series.LongRow>, k: nat, p: Progress)
    requires k <= |IndicesWhere(depot, IsUnpriced())|
  {
    var z := IndicesWhere(depot, IsUnpriced());
    p.error.None? && |p.depot| == |depot|
    && forall i :: 0 <= i < |depot| ==> p.depot[i] == if i in z[..k] then Repriced(prices, depot[i]) else depot[i]
  }

  /** The `k`-th unpriced row is found by its key alone and takes its stored price. */
  lemma RepriceRow(depot: seq<Position>, prices: seq<Series.LongRow>, k: nat)
    requires UniqueKeys(depot)
    requires forall i :: 0 <= i < |depot| && depot[i].price == Unpriced ==> StoredPrice(prices, depot[i].symbol, depot[i].date).Ok?
    requires 0 < k <= |ZeroKeys(depot)|
    requires RepricedUpTo(depot, prices, k - 1, Reprice(depot, prices, ZeroKeys(depot)[..k - 1]))
    ensures var p := Reprice(depot, prices, ZeroKeys(depot)[..k - 1]);
            var row := IndicesWhere(depot, IsUnpriced())[k - 1];
            Reprice(depot, prices, ZeroKeys(depot)[..k]) == Progress(p.depot[row := Repriced(prices, depot[row])], None)
  {
    var keys := ZeroKeys(depot);
    var z := IndicesWhere(depot, IsUnpriced());
    IndicesWhereAll(depot, IsUnpriced());
    var p := Reprice(depot, prices, keys[..k - 1]);
    var row := z[k - 1];
    var key := keys[k - 1];
    assert key == (depot[row].symbol, depot[row].date);
    assert row !in z[..k - 1];
    assert p.depot[row] == depot[row];
    forall j | 0 <= j < |p.depot| && DepotKey(key.0, key.1)(p.depot[j]) ensures j == row {
      assert p.depot[j].symbol == depot[j].symbol && p.depot[j].date == depot[j].date;
    }
    GetOk(p.depot, DepotKey(key.0, key.1), row);
    RepriceNext(depot, prices, keys, k - 1, p.depot);
  }

  /** Repricing the `k`-th unpriced row extends the outcome over the first `k - 1` to the first `k`. */
  lemma RepricedUpToNext(depot: seq<Position>, prices: seq<Series.LongRow>, k: nat, d: seq<Position>)
    requires 0 < k <= |IndicesWhere(depot, IsUnpriced())|
    requires RepricedUpTo(depot, prices, k - 1, Progress(d, None))
    ensures var row := IndicesWhere(depot, IsUnpriced())[k - 1];
            RepricedUpTo(depot, prices, k, Progress(d[row := Repriced(prices, depot[row])], None))
  {
    var z := IndicesWhere(depot, IsUnpriced());
    IndicesWhereAll(depot, IsUnpriced());
    var row := z[k - 1];
    var next := d[row := Repriced(prices, depot[row])];
    forall i | 0 <= i < |depot|
      ensures next[i] == if i in z[..k] then Repriced(prices, depot[i]) else depot[i]
    {
      assert z[..k] == z[..k - 1] + [row];
    }
  }

  /** The loop over the first `k` unpriced rows extends the loop over the first `k - 1` by one repriced row. */
  lemma RepricePrefixStep(depot: seq<Position>, prices: seq<Series.LongRow>, k: nat)
    requires UniqueKeys(depot)
    requires forall i :: 0 <= i < |depot| && depot[i].price == Unpriced ==> StoredPrice(prices, depot[i].symbol, depot[i].date).Ok?
    requires 0 < k <= |ZeroKeys(depot)|
    requires RepricedUpTo(depot, prices, k - 1, Reprice(depot, prices, ZeroKeys(depot)[..k - 1]))
    ensures RepricedUpTo(depot, prices, k, Reprice(depot, prices, ZeroKeys(depot)[..k]))
  {
    var p := Reprice(depot, prices, ZeroKeys(depot)[..k - 1]);
    RepriceRow(depot, prices, k);
    RepricedUpToNext(depot, prices, k, p.depot);
  }

  lemma {:induction false} RepricePrefix(depot: seq<Position>, prices: seq<Series.LongRow>, k: nat)
    requires UniqueKeys(depot)
    requires forall i :: 0 <= i < |depot| && depot[i].price == Unpriced ==> StoredPrice(prices, depot[i].symbol, depot[i].date).Ok?
    requires k <= |ZeroKeys(depot)|
    ensures RepricedUpTo(depot, prices, k, Reprice(depot, prices, ZeroKeys(depot)[..k]))
    decreases k
  {
    if k == 0 {
      assert ZeroKeys(depot)[..0] == [];
    } else {
      RepricePrefix(depot, prices, k - 1);
      RepricePrefixStep(depot, prices, k);
    }
  }

  /**
   * `refresh_price_data` on a depot with unique keys whose price lookups
   * succeed: no exception, every row with price 0 takes the stored price of
   * its symbol and date (0 when none is stored), and every other row is
   * unchanged.
   */
  lemma RefreshPrices(depot: seq<Position>, prices: seq<Series.LongRow>)
    requires UniqueKeys(depot)
    requires forall i :: 0 <= i < |depot| && depot[i].price == Unpriced ==> StoredPrice(prices, depot[i].symbol, depot[i].date).Ok?
    ensures var p := Reprice(depot, prices, ZeroKeys(depot));
            p.error.None? && |p.depot| == |depot|
            && forall i :: 0 <= i < |depot| ==>
                 p.depot[i] == if depot[i].price == Unpriced then Repriced(prices, depot[i]) else depot[i]
  {
    var keys := ZeroKeys(depot);
    var z := IndicesWhere(depot, IsUnpriced());
    RepricePrefix(depot, prices, |keys|);
    assert keys[..|keys|] == keys;
    assert z[..|z|] == z;
    IndicesWhereAll(depot, IsUnpriced());
  }

  // ---------------------------------------------------------------------------
  // update_price_database: what to download

  /** `[x['symbol'] for x in Depot.objects.values('symbol').distinct()]`, in first-seen order. */
  function DepotSymbols(depot: seq<Position>): seq<string> {
    Distinct(seq(|depot|, i requires 0 <= i < |depot| => depot[i].symbol))
  }

  /** `[x['symbol'] for x in Prices.objects.values('symbol').distinct()]`, in first-seen order. */
  function PriceSymbols(prices: seq<Series.LongRow>): seq<string> {
    Distinct(seq(|prices|, i requires 0 <= i < |prices| => prices[i].symbol))
  }

  /** `[x for x in symbols if x not in existing]`. */
  function Without(symbols: seq<string>, existing: seq<string>): (r: seq<string>)
    ensures forall x :: x in r <==> x in symbols && x !in existing
    ensures (forall i, j :: 0 <= i < j < |symbols| ==> symbols[i] != symbols[j]) ==>
              forall i, j :: 0 <= i < j < |r| ==> r[i] != r[j]
    decreases |symbols|
  {
    if symbols == [] then []
    else
      var n := |symbols| - 1;
      assert forall x :: x in symbols <==> x in symbols[..n] || x == symbols[n] by {
        assert symbols == symbols[..n] + [symbols[n]];
      }
      Without(symbols[..n], existing) + (if symbols[n] in existing then [] else [symbols[n]])
  }

  /** The dates of the price table. */
  function PriceDates(prices: seq<Series.LongRow>): seq<int> {
    seq(|prices|, i requires 0 <= i < |prices| => prices[i].date)
  }

  /** The arguments of `get_yahoo_data(symbols, start=..., end=...)`. */
  datatype PriceRequest = PriceRequest(symbols: seq<string>, start: int, end: int)

  /**
   * The decision of `update_price_database`: with stored prices, the day after
   * the latest price date; with depot symbols that have no price at all,
   * 2020-01-01 instead. Either way only the symbols without prices are
   * requested, up to `today`. No request when neither applies.
   */
  function PricePlan(depot: seq<Position>, prices: seq<Series.LongRow>, today: int): (r: Option<PriceRequest>)
    ensures r.Some? ==> r.value.end == today
  {
    var missing := Without(DepotSymbols(depot), PriceSymbols(prices));
    if missing != [] then Some(PriceRequest(missing, DepotStart, today))
    else if prices != [] then Some(PriceRequest(missing, LatestOf(PriceDates(prices)).value + 1, today))
    else None
  }

  /** Nothing is requested exactly when both the depot and the price table are empty. */
  lemma PricePlanNone(depot: seq<Position>, prices: seq<Series.LongRow>, today: int)
    ensures PricePlan(depot, prices, today).None? <==> depot == [] && prices == []
  {
    if depot != [] && prices == [] {
      var ds := seq(|depot|, i requires 0 <= i < |depot| => depot[i].symbol);
      var ps := seq(|prices|, i requires 0 <= i < |prices| => prices[i].symbol);
      assert ps == [];
      assert ds[0] in ds;
      assert ds[0] in Without(DepotSymbols(depot), PriceSymbols(prices));
    }
  }

  /** The requested symbols are exactly the depot symbols without any stored price, each once. */
  lemma PricePlanSymbols(depot: seq<Position>, prices: seq<Series.LongRow>, today: int, s: string)
    requires PricePlan(depot, prices, today).Some?
    ensures var req := PricePlan(depot, prices, today).value;
            (s in req.symbols <==> (exists i :: 0 <= i < |depot| && depot[i].symbol == s)
                                   && forall j :: 0 <= j < |prices| ==> prices[j].symbol != s)
            && forall i, j :: 0 <= i < j < |req.symbols| ==> req.symbols[i] != req.symbols[j]
  {
    var ds := seq(|depot|, i requires 0 <= i < |depot| => depot[i].symbol);
    var ps := seq(|prices|, i requires 0 <= i < |prices| => prices[i].symbol);
    assert (s in ds) <==> exists i :: 0 <= i < |depot| && depot[i].symbol == s by {
      if s in ds {
        var i :| 0 <= i < |ds| && ds[i] == s;
        assert depot[i].symbol == s;
      }
      if exists i :: 0 <= i < |depot| && depot[i].symbol == s {
        var i :| 0 <= i < |depot| && depot[i].symbol == s;
        assert ds[i] == s;
      }
    }
    assert (s in ps) <==> exists j :: 0 <= j < |prices| && prices[j].symbol == s by {
      if s in ps {
        var j :| 0 <= j < |ps| && ps[j] == s;
        assert prices[j].symbol == s;
      }
      if exists j :: 0 <= j < |prices| && prices[j].symbol == s {
        var j :| 0 <= j < |prices| && prices[j].symbol == s;
        assert ps[j] == s;
      }
    }
  }

  /**
   * The start date: 2020-01-01 when some depot symbol has no price; otherwise
   * the day after the latest stored price, and then no symbol is requested,
   * so the stored prices are never extended.
   */
  lemma PricePlanStart(depot: seq<Position>, prices: seq<Series.LongRow>, today: int)
    requires PricePlan(depot, prices, today).Some?
    ensures var req := PricePlan(depot, prices, today).value;
            (req.symbols != [] ==> req.start == DepotStart)
            && (req.symbols == [] ==>
                  prices != []
                  && (exists j :: 0 <= j < |prices| && prices[j].date + 1 == req.start)
                  && forall j :: 0 <= j < |prices| ==> prices[j].date < req.start)
  {
    var req := PricePlan(depot, prices, today).value;
    if req.symbols == [] {
      var dates := PriceDates(prices);
      LatestOfBounds(dates);
      assert forall j :: 0 <= j < |prices| ==> dates[j] == prices[j].date;
      var j :| 0 <= j < |dates| && dates[j] == LatestOf(dates).value;
      assert prices[j].date + 1 == req.start;
    }
  }

  /** The frame `get_yahoo_data` returned has no rows or no columns (`yahoo_df.empty`). */
  predicate EmptyFrame(f: Series.Frame) {
    f.index == [] || f.columns == []
  }

  /**
   * The price rows `update_price_database` inserts: none without a request or
   * when the download is empty, otherwise the filled frame melted into
   * `(date, symbol, price)` rows with the missing prices dropped. `download`
   * stands for `get_yahoo_data` and `ffill` for `ffill_yahoo_data`.
   */
  function NewPrices(plan: Option<PriceRequest>, download: PriceRequest -> Series.Frame,
                     ffill: Series.Frame -> Series.Frame): (r: seq<Series.LongRow>)
    requires forall f :: ffill(f).WellFormed()
    ensures plan.None? ==> r == []
  {
    match plan
    case None => []
    case Some(req) =>
      var frame := download(req);
      if EmptyFrame(frame) then [] else Series.Melt(ffill(frame))
  }
}
