/**
 * The loading stage of the batch ETL (class `Loading` in portfolio/lib/etl.py).
 * It writes the transformation's output into the tables of a `Database`: the
 * transactions, the product records, the cash flows (new dates created, stored
 * dates overwritten), the new `(symbol, date)` pairs, and the price and depot
 * rows keyed by the id of their dimension row.
 */
module EtlLoad {
  import opened Wrappers
  import opened Assoc
  import opened Ledger
  import opened Series
  import opened Store
  import opened EtlTransform

  /** The `transformation_data` dictionary handed from the transformation stage. */
  datatype TransformationData = TransformationData(
    transactions: seq<Transaction>,
    productInfo: ProductInfo,
    cashFlows: seq<(int, real)>,
    priceData: seq<LongRow>,
    portfolios: seq<PortfolioRow>,
    symbolDateCombs: seq<(string, int)>)

  const LoadingKeys: set<string> :=
    {"transactions", "product_info", "cash_flows", "price_data", "portfolios", "symbol_date_combs"}

  /** The constructor's key checks: AssertionError unless all six keys are present. */
  lemma LoadingKeysChecked(keys: set<string>)
    ensures CheckKeys(keys, LoadingKeys).Ok? <==>
              "transactions" in keys && "product_info" in keys && "cash_flows" in keys
              && "price_data" in keys && "portfolios" in keys && "symbol_date_combs" in keys
    ensures CheckKeys(keys, LoadingKeys).Err? ==> CheckKeys(keys, LoadingKeys).error == AssertionError
  {
    if "transactions" in keys && "product_info" in keys && "cash_flows" in keys
       && "price_data" in keys && "portfolios" in keys && "symbol_date_combs" in keys {
      forall k | k in LoadingKeys ensures k in keys { }
    }
  }

  // ---------------------------------------------------------------------------
  // _load_cash_flows

  /** The dates of `dates` that already have a stored row (`Cashflow.objects.get_existing(dates)`). */
  function ExistingDates(stored: seq<CashflowRow>, dates: seq<int>): (ex: set<int>)
    ensures forall d :: d in ex <==> d in dates && StoredCashflow(stored, d).Some?
  {
    set i | 0 <= i < |stored| && stored[i].date in dates :: stored[i].date
  }

  /** The dates of the records, in order. */
  function Dates(flows: seq<(int, real)>): (ds: seq<int>)
    ensures |ds| == |flows| && forall i :: 0 <= i < |flows| ==> ds[i] == flows[i].0
  {
    seq(|flows|, i requires 0 <= i < |flows| => flows[i].0)
  }

  /** The records whose date is (`stored`) or is not (`!stored`) among the existing dates, in order. */
  function FlowsWhere(flows: seq<(int, real)>, existing: set<int>, stored: bool): seq<(int, real)>
    decreases |flows|
  {
    if flows == [] then []
    else
      var n := |flows| - 1;
      FlowsWhere(flows[..n], existing, stored) + (if (flows[n].0 in existing) == stored then [flows[n]] else [])
  }

  /** The records to create: those whose date is not stored yet. */
  function NewFlows(cfs: seq<CashflowRow>, flows: seq<(int, real)>): seq<(int, real)> {
    FlowsWhere(flows, ExistingDates(cfs, Dates(flows)), false)
  }

  /** The records to update: those whose date is stored already. */
  function UpdateFlows(cfs: seq<CashflowRow>, flows: seq<(int, real)>): seq<(int, real)> {
    FlowsWhere(flows, ExistingDates(cfs, Dates(flows)), true)
  }

  /** The cash-flow table after `_load_cash_flows`: the new records bulk-created, then each update applied in turn. */
  function LoadedCashflows(cfs: seq<CashflowRow>, flows: seq<(int, real)>): seq<CashflowRow> {
    UpsertAll(Appended(cfs, NewFlows(cfs, flows)), UpdateFlows(cfs, flows))
  }

  /** A record lands in exactly the group its date selects. */
  lemma {:induction false} FlowsWhereMembers(flows: seq<(int, real)>, existing: set<int>, stored: bool, x: (int, real))
    ensures x in FlowsWhere(flows, existing, stored) <==> x in flows && (x.0 in existing) == stored
    decreases |flows|
  {
    if flows != [] {
      var n := |flows| - 1;
      FlowsWhereMembers(flows[..n], existing, stored, x);
      assert flows == flows[..n] + [flows[n]];
    }
  }

  /** The two groups together hold every record exactly as often as the input does. */
  lemma {:induction false} FlowsWhereCover(flows: seq<(int, real)>, existing: set<int>)
    ensures multiset(FlowsWhere(flows, existing, false)) + multiset(FlowsWhere(flows, existing, true)) == multiset(flows)
    decreases |flows|
  {
    if flows != [] {
      var n := |flows| - 1;
      FlowsWhereCover(flows[..n], existing);
      assert flows == flows[..n] + [flows[n]];
    }
  }

  /** The split of the source: new and updated records are disjoint and cover the input. */
  lemma SplitPartitions(cfs: seq<CashflowRow>, flows: seq<(int, real)>)
    ensures multiset(NewFlows(cfs, flows)) + multiset(UpdateFlows(cfs, flows)) == multiset(flows)
    ensures forall x :: x in NewFlows(cfs, flows) ==> StoredCashflow(cfs, x.0).None?
    ensures forall x :: x in UpdateFlows(cfs, flows) ==> StoredCashflow(cfs, x.0).Some?
  {
    var ex := ExistingDates(cfs, Dates(flows));
    FlowsWhereCover(flows, ex);
    forall x | x in NewFlows(cfs, flows) ensures StoredCashflow(cfs, x.0).None? {
      FlowsWhereMembers(flows, ex, false, x);
    }
    forall x | x in UpdateFlows(cfs, flows) ensures StoredCashflow(cfs, x.0).Some? {
      FlowsWhereMembers(flows, ex, true, x);
    }
  }

  /** A group holding the date of `d` gives it the input's last amount ... */
  lemma {:induction false} FlowsWhereLastKept(flows: seq<(int, real)>, existing: set<int>, stored: bool, d: int)
    requires (d in existing) == stored
    ensures LastFor(FlowsWhere(flows, existing, stored), d) == LastFor(flows, d)
    decreases |flows|
  {
    if flows != [] {
      var n := |flows| - 1;
      FlowsWhereLastKept(flows[..n], existing, stored, d);
      var init := FlowsWhere(flows[..n], existing, stored);
      if (flows[n].0 in existing) == stored {
        assert (init + [flows[n]])[..|init|] == init;
      } else {
        assert init + [] == init;
      }
    }
  }

  /** ... and the other group gives it none. */
  lemma {:induction false} FlowsWhereLastDropped(flows: seq<(int, real)>, existing: set<int>, stored: bool, d: int)
    requires (d in existing) != stored
    ensures LastFor(FlowsWhere(flows, existing, stored), d) == None
    decreases |flows|
  {
    if flows != [] {
      var n := |flows| - 1;
      FlowsWhereLastDropped(flows[..n], existing, stored, d);
      var init := FlowsWhere(flows[..n], existing, stored);
      if (flows[n].0 in existing) == stored {
        assert (init + [flows[n]])[..|init|] == init;
      } else {
        assert init + [] == init;
      }
    }
  }

  /** After loading, every date holds the last amount the records give it, or keeps its stored amount. */
  lemma LoadedCashflowsLookup(cfs: seq<CashflowRow>, flows: seq<(int, real)>, d: int)
    ensures StoredCashflow(LoadedCashflows(cfs, flows), d) == Override(LastFor(flows, d), StoredCashflow(cfs, d))
  {
    var ex := ExistingDates(cfs, Dates(flows));
    var created := Appended(cfs, NewFlows(cfs, flows));
    UpsertAllLookup(created, UpdateFlows(cfs, flows), d);
    AppendedLookup(cfs, NewFlows(cfs, flows), d);
    if d in ex {
      FlowsWhereLastKept(flows, ex, true, d);
      FlowsWhereLastDropped(flows, ex, false, d);
    } else {
      FlowsWhereLastKept(flows, ex, false, d);
      FlowsWhereLastDropped(flows, ex, true, d);
    }
  }

  /** With one record per date (the transformation's grouped cash flows), a loaded date holds its record's amount. */
  lemma LoadedCashflowsDict(cfs: seq<CashflowRow>, flows: Dict<int, real>, d: int)
    requires DistinctKeys(flows)
    ensures StoredCashflow(LoadedCashflows(cfs, flows), d) == Override(Lookup(flows, d), StoredCashflow(cfs, d))
  {
    LoadedCashflowsLookup(cfs, flows, d);
    LastForLookup(flows, d);
  }

  /** A group of records with distinct dates keeps them distinct. */
  lemma {:induction false} FlowsWhereDistinct(flows: seq<(int, real)>, existing: set<int>, stored: bool)
    requires DistinctKeys(flows)
    ensures DistinctKeys(FlowsWhere(flows, existing, stored))
    decreases |flows|
  {
    if flows != [] {
      var n := |flows| - 1;
      var init := flows[..n];
      assert DistinctKeys(init) by {
        forall i, j | 0 <= i < j < |init| ensures init[i].0 != init[j].0 {
          assert init[i] == flows[i] && init[j] == flows[j];
        }
      }
      FlowsWhereDistinct(init, existing, stored);
      var g := FlowsWhere(init, existing, stored);
      if (flows[n].0 in existing) == stored {
        forall i | 0 <= i < |g| ensures g[i].0 != flows[n].0 {
          FlowsWhereMembers(init, existing, stored, g[i]);
          var k :| 0 <= k < |init| && init[k] == g[i];
          assert init[k] == flows[k];
        }
        var all := g + [flows[n]];
        forall i, j | 0 <= i < j < |all| ensures all[i].0 != all[j].0 {
          if j == |g| {
            assert all[i] == g[i];
          } else {
            assert all[i] == g[i] && all[j] == g[j];
          }
        }
      } else {
        assert g + [] == g;
      }
    }
  }

  /** With one record per date, the bulk create of the new records meets the table's unique date. */
  lemma NewFlowsFresh(cfs: seq<CashflowRow>, flows: seq<(int, real)>)
    requires DistinctKeys(flows)
    ensures FreshCashflowDates(cfs, NewFlows(cfs, flows))
  {
    var ex := ExistingDates(cfs, Dates(flows));
    var created := NewFlows(cfs, flows);
    FlowsWhereDistinct(flows, ex, false);
    forall i, j | 0 <= i < |cfs| && 0 <= j < |created| ensures cfs[i].date != created[j].0 {
      FlowsWhereMembers(flows, ex, false, created[j]);
    }
  }

  // ---------------------------------------------------------------------------
  // _symbol_date_prep

  /** A depot or price record: its `(symbol, date)` and the column kept beside the id (`pieces` or `price`). */
  datatype Record = Record(symbol: string, date: int, value: real)

  /** The price rows as records keeping `price`. */
  function PriceRecords(rows: seq<LongRow>): (r: seq<Record>)
    ensures |r| == |rows| && forall i :: 0 <= i < |rows| ==> r[i] == Record(rows[i].symbol, rows[i].date, rows[i].price)
  {
    seq(|rows|, i requires 0 <= i < |rows| => Record(rows[i].symbol, rows[i].date, rows[i].price))
  }

  /** The portfolio rows as records keeping `pieces`. */
  function DepotRecords(rows: seq<PortfolioRow>): (r: seq<Record>)
    ensures |r| == |rows| && forall i :: 0 <= i < |rows| ==> r[i] == Record(rows[i].symbol, rows[i].date, rows[i].pieces)
  {
    seq(|rows|, i requires 0 <= i < |rows| => Record(rows[i].symbol, rows[i].date, rows[i].pieces))
  }

  /** The stored dimension rows whose date is among `dates` and whose symbol is among `symbols` (`get_existing`). */
  function ExistingDims(dims: seq<DimRow>, dates: set<int>, symbols: set<string>): (r: seq<DimRow>)
    ensures forall row :: row in r <==> row in dims && row.date in dates && row.symbol in symbols
    decreases |dims|
  {
    if dims == [] then []
    else
      var n := |dims| - 1;
      var row := dims[n];
      ExistingDims(dims[..n], dates, symbols) + (if row.date in dates && row.symbol in symbols then [row] else [])
  }

  /**
   * `_symbol_date_prep`: nothing for no records; otherwise each record, in
   * order, with the id of the existing dimension row of its pair, or none
   * where the left merge finds no row.
   */
  function Prep(records: seq<Record>, dims: seq<DimRow>): (r: seq<Keyed>)
    ensures |r| == |records|
  {
    if |records| == 0 then []
    else
      var dates := set i | 0 <= i < |records| :: records[i].date;
      var symbols := set i | 0 <= i < |records| :: records[i].symbol;
      var existing := ExistingDims(dims, dates, symbols);
      seq(|records|, i requires 0 <= i < |records| =>
        Keyed(records[i].value, FindDim(existing, records[i].symbol, records[i].date)))
  }

  /** Each prepared record keeps its value and finds an id exactly when its pair is stored, an id of that pair. */
  lemma PrepAt(records: seq<Record>, dims: seq<DimRow>, i: nat)
    requires i < |records|
    ensures Prep(records, dims)[i].value == records[i].value
    ensures Prep(records, dims)[i].symbolDateId.Some? <==> (records[i].symbol, records[i].date) in DimKeys(dims)
    ensures Prep(records, dims)[i].symbolDateId.Some? ==>
              DimRow(Prep(records, dims)[i].symbolDateId.value, records[i].symbol, records[i].date) in dims
  {
    var dates := set k | 0 <= k < |records| :: records[k].date;
    var symbols := set k | 0 <= k < |records| :: records[k].symbol;
    var existing := ExistingDims(dims, dates, symbols);
    var s, d := records[i].symbol, records[i].date;
    assert d in dates && s in symbols;
    FindDimNone(existing, s, d);
    if (s, d) in DimKeys(dims) {
      var k :| 0 <= k < |dims| && dims[k].symbol == s && dims[k].date == d;
      assert dims[k] in existing;
      var j :| 0 <= j < |existing| && existing[j] == dims[k];
    }
  }

  /** Every record's `(symbol, date)` pair is among `keys`. */
  predicate Paired(records: seq<Record>, keys: set<(string, int)>) {
    forall i :: 0 <= i < |records| ==> (records[i].symbol, records[i].date) in keys
  }

  /** Records whose pairs are all stored are all resolved, so their bulk create succeeds. */
  lemma PrepResolved(records: seq<Record>, dims: seq<DimRow>)
    requires Paired(records, DimKeys(dims))
    ensures Resolved(dims, Prep(records, dims))
  {
    var r := Prep(records, dims);
    forall i | 0 <= i < |r| ensures r[i].symbolDateId.Some? && HasDim(dims, r[i].symbolDateId.value) {
      PrepAt(records, dims, i);
      var row := DimRow(r[i].symbolDateId.value, records[i].symbol, records[i].date);
      var k :| 0 <= k < |dims| && dims[k] == row;
    }
  }

  /** The left merge leaves an id missing exactly when some record's pair is not stored. */
  lemma PrepKeyed(records: seq<Record>, dims: seq<DimRow>)
    ensures AllKeyed(Prep(records, dims)) <==> Paired(records, DimKeys(dims))
    ensures AllKeyed(Prep(records, dims)) ==> Resolved(dims, Prep(records, dims))
  {
    var r := Prep(records, dims);
    if AllKeyed(r) {
      forall i | 0 <= i < |records| ensures (records[i].symbol, records[i].date) in DimKeys(dims) {
        PrepAt(records, dims, i);
      }
      PrepResolved(records, dims);
    } else {
      var i :| 0 <= i < |r| && r[i].symbolDateId.None?;
      PrepAt(records, dims, i);
    }
  }

  /** The asset rows of the product records, in the dictionary's order. */
  function AssetRows(info: ProductInfo): (r: seq<Product>)
    ensures |r| == |info| && forall i :: 0 <= i < |info| ==> r[i] == info[i].1
  {
    seq(|info|, i requires 0 <= i < |info| => info[i].1)
  }

  // ---------------------------------------------------------------------------
  // The loading object

  class Loading {
    const data: TransformationData
    const db: Database

    /** The constructor after its key checks. */
    constructor(data: TransformationData, db: Database)
      ensures this.data == data && this.db == db
    {
      this.data := data;
      this.db := db;
    }

    /** `_load_transactions`: all transactions appended, or IntegrityError on a stored or repeated id. */
    method LoadTransactions() returns (r: Result<()>)
      requires db.Valid()
      modifies db
      ensures db.Valid()
      ensures r.Ok? <==> FreshTransactions(old(db.transactions), data.transactions)
      ensures r.Ok? ==> db.transactions == old(db.transactions) + data.transactions
      ensures r.Err? ==> r.error == IntegrityError && db.transactions == old(db.transactions)
      ensures unchanged(db`dims, db`depot, db`prices, db`assets, db`cashflows, db`nextId)
    {
      r := db.BulkCreateTransactions(data.transactions);
    }

    /** `_load_product_info`: one asset row per product record, in the dictionary's order. */
    method LoadProductInfo()
      requires db.Valid()
      modifies db
      ensures db.Valid()
      ensures db.assets == old(db.assets) + AssetRows(data.productInfo)
      ensures unchanged(db`dims, db`depot, db`prices, db`transactions, db`cashflows, db`nextId)
    {
      db.BulkCreateAssets(AssetRows(data.productInfo));
    }

    /**
     * `_load_cash_flows`: records of dates not stored yet are bulk-created
     * (refused as a whole on a repeated date), then every record of a stored
     * date overwrites that date's amount.
     */
    method LoadCashFlows() returns (r: Result<()>)
      requires db.Valid()
      modifies db
      ensures db.Valid()
      ensures r.Ok? <==> FreshCashflowDates(old(db.cashflows), NewFlows(old(db.cashflows), data.cashFlows))
      ensures r.Ok? ==> db.cashflows == LoadedCashflows(old(db.cashflows), data.cashFlows)
      ensures r.Err? ==> r.error == IntegrityError && db.cashflows == old(db.cashflows)
      ensures unchanged(db`dims, db`depot, db`prices, db`transactions, db`assets, db`nextId)
    {
      var flows := data.cashFlows;
      var stored := db.cashflows;
      var created := NewFlows(stored, flows);
      var updates := UpdateFlows(stored, flows);
      r := db.BulkCreateCashflows(created);
      if r.Err? {
        return;
      }
      UpdateCashFlows(updates);
    }

    /** The `update_or_create` loop of `_load_cash_flows`: each record applied in turn. */
    method UpdateCashFlows(updates: seq<(int, real)>)
      requires db.Valid()
      modifies db
      ensures db.Valid()
      ensures db.cashflows == UpsertAll(old(db.cashflows), updates)
      ensures unchanged(db`dims, db`depot, db`prices, db`transactions, db`assets, db`nextId)
    {
      var i := 0;
      while i < |updates|
        invariant 0 <= i <= |updates|
        invariant db.Valid()
        invariant db.cashflows == UpsertAll(old(db.cashflows), updates[..i])
        invariant unchanged(db`dims, db`depot, db`prices, db`transactions, db`assets, db`nextId)
      {
        assert updates[..i + 1][..i] == updates[..i];
        db.UpdateOrCreateCashflow(updates[i].0, updates[i].1);
        i := i + 1;
      }
      assert updates[..i] == updates;
    }

    /** `_load_symbol_date_combs`: the new pairs inserted, or IntegrityError on a stored or repeated pair. */
    method LoadSymbolDateCombs() returns (r: Result<()>)
      requires db.Valid()
      modifies db
      ensures db.Valid()
      ensures r.Ok? <==> FreshCombs(old(db.dims), data.symbolDateCombs)
      ensures r.Ok? ==> DimKeys(db.dims) == DimKeys(old(db.dims)) + set c | c in data.symbolDateCombs
      ensures r.Err? ==> r.error == IntegrityError && db.dims == old(db.dims)
      ensures unchanged(db`depot, db`prices, db`transactions, db`assets, db`cashflows)
    {
      r := db.BulkCreateDims(data.symbolDateCombs);
    }

    /** The price table after a successful `_load_price_data`: one row per price record, appended, keyed by its pair's dimension row. */
    ghost predicate PricesLoaded(before: seq<PriceRow>, after: seq<PriceRow>, dims: seq<DimRow>) {
      && |after| == |before| + |data.priceData|
      && after[..|before|] == before
      && forall i :: 0 <= i < |data.priceData| ==>
           after[|before| + i].price == data.priceData[i].price
           && DimRow(after[|before| + i].symbolDateId, data.priceData[i].symbol, data.priceData[i].date) in dims
    }

    /** The depot table after a successful `_load_portfolios`: one row per portfolio record, appended, keyed likewise. */
    ghost predicate DepotLoaded(before: seq<DepotRow>, after: seq<DepotRow>, dims: seq<DimRow>) {
      && |after| == |before| + |data.portfolios|
      && after[..|before|] == before
      && forall i :: 0 <= i < |data.portfolios| ==>
           after[|before| + i].pieces == data.portfolios[i].pieces
           && DimRow(after[|before| + i].symbolDateId, data.portfolios[i].symbol, data.portfolios[i].date) in dims
    }

    /**
     * `_load_price_data`: the prepared price records inserted; a record whose
     * pair has no dimension row is left without an id by the merge, and the
     * integer conversion of that NaN raises ValueError before any insert.
     */
    method LoadPriceData() returns (r: Result<()>)
      requires db.Valid()
      modifies db
      ensures db.Valid()
      ensures r.Ok? <==> Paired(PriceRecords(data.priceData), DimKeys(db.dims))
      ensures r.Ok? ==> PricesLoaded(old(db.prices), db.prices, db.dims)
      ensures r.Err? ==> r.error == ValueError && db.prices == old(db.prices)
      ensures unchanged(db`dims, db`depot, db`transactions, db`assets, db`cashflows, db`nextId)
    {
      var records := PriceRecords(data.priceData);
      var keyed := Prep(records, db.dims);
      PrepKeyed(records, db.dims);
      r := db.BulkCreatePrices(keyed);
      if r.Ok? {
        forall i | 0 <= i < |data.priceData|
          ensures db.prices[|old(db.prices)| + i].price == data.priceData[i].price
          ensures DimRow(db.prices[|old(db.prices)| + i].symbolDateId, data.priceData[i].symbol, data.priceData[i].date) in db.dims
        {
          PrepAt(records, db.dims, i);
        }
      }
    }

    /** `_load_portfolios`: the prepared depot records inserted, with the same ValueError for a pair without a dimension row. */
    method LoadPortfolios() returns (r: Result<()>)
      requires db.Valid()
      modifies db
      ensures db.Valid()
      ensures r.Ok? <==> Paired(DepotRecords(data.portfolios), DimKeys(db.dims))
      ensures r.Ok? ==> DepotLoaded(old(db.depot), db.depot, db.dims)
      ensures r.Err? ==> r.error == ValueError && db.depot == old(db.depot)
      ensures unchanged(db`dims, db`prices, db`transactions, db`assets, db`cashflows, db`nextId)
    {
      var records := DepotRecords(data.portfolios);
      var keyed := Prep(records, db.dims);
      PrepKeyed(records, db.dims);
      r := db.BulkCreateDepot(keyed);
      if r.Ok? {
        forall i | 0 <= i < |data.portfolios|
          ensures db.depot[|old(db.depot)| + i].pieces == data.portfolios[i].pieces
          ensures DimRow(db.depot[|old(db.depot)| + i].symbolDateId, data.portfolios[i].symbol, data.portfolios[i].date) in db.dims
        {
          PrepAt(records, db.dims, i);
        }
      }
    }

    /**
     * How `run` ends, given the tables before it: IntegrityError from the
     * first of transactions, new cash-flow dates and new pairs that breaks
     * a unique key, then ValueError when a price or depot record has a pair
     * that is neither stored nor among the new ones; otherwise success.
     * Loading the product information cannot fail.
     */
    function LoadOutcome(txs0: seq<Transaction>, cfs0: seq<CashflowRow>, dims0: seq<DimRow>): Result<()> {
      var keys := DimKeys(dims0) + set c | c in data.symbolDateCombs;
      if !FreshTransactions(txs0, data.transactions) then Err(IntegrityError)
      else if !FreshCashflowDates(cfs0, NewFlows(cfs0, data.cashFlows)) then Err(IntegrityError)
      else if !FreshCombs(dims0, data.symbolDateCombs) then Err(IntegrityError)
      else if !Paired(PriceRecords(data.priceData), keys) then Err(ValueError)
      else if !Paired(DepotRecords(data.portfolios), keys) then Err(ValueError)
      else Ok(())
    }

    /** What a successful `run` leaves behind, given the tables before it. */
    ghost predicate Loaded(txs0: seq<Transaction>, assets0: seq<Product>, cfs0: seq<CashflowRow>, dims0: seq<DimRow>,
                           prices0: seq<PriceRow>, depot0: seq<DepotRow>)
      reads db
    {
      && db.transactions == txs0 + data.transactions
      && db.assets == assets0 + AssetRows(data.productInfo)
      && db.cashflows == LoadedCashflows(cfs0, data.cashFlows)
      && DimKeys(db.dims) == DimKeys(dims0) + set c | c in data.symbolDateCombs
      && PricesLoaded(prices0, db.prices, db.dims)
      && DepotLoaded(depot0, db.depot, db.dims)
    }

    /** `run`: the six loads in order; the first error stops the run, and the tables keep their invariant throughout. */
    method Run() returns (r: Result<()>)
      requires db.Valid()
      modifies db
      ensures db.Valid()
      ensures r == LoadOutcome(old(db.transactions), old(db.cashflows), old(db.dims))
      ensures r.Ok? ==> Loaded(old(db.transactions), old(db.assets), old(db.cashflows), old(db.dims), old(db.prices), old(db.depot))
    {
      r := LoadTransactions();
      if r.Err? {
        return;
      }
      LoadProductInfo();
      r := LoadCashFlows();
      if r.Err? {
        return;
      }
      r := LoadSymbolDateCombs();
      if r.Err? {
        return;
      }
      r := LoadPriceData();
      if r.Err? {
        return;
      }
      r := LoadPortfolios();
      if r.Ok? {
        assert r.value == ();
      }
    }
  }
}
