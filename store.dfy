/**
 * The tables of portfolio/models.py as rows held by a `Database` object. The
 * declared constraints (unique `(symbol, date)` dimension rows, transaction id
 * as primary key, unique cash-flow date, depot and price rows referencing an
 * existing dimension row) are its invariant `Valid()`, and every write either
 * keeps them or is refused with `IntegrityError` and changes nothing.
 */
module Store {
  import opened Wrappers
  import opened Assoc
  import opened Ledger

  /** A `DimensionSymbolDate` row; `id` is the surrogate key depot and price rows refer to. */
  datatype DimRow = DimRow(id: nat, symbol: string, date: int)

  /** A `Depot` row: pieces held of the dimension row `symbolDateId`. */
  datatype DepotRow = DepotRow(pieces: real, symbolDateId: nat)

  /** A `Prices` row: the price of the dimension row `symbolDateId`. */
  datatype PriceRow = PriceRow(price: real, symbolDateId: nat)

  /** A `Cashflows` row; `cumsum` is None where the writer does not set it. */
  datatype CashflowRow = CashflowRow(date: int, cashflow: real, cumsum: Option<real>)

  /** A row of depot or price data after `_symbol_date_prep`: a value and the id of its dimension row, if found. */
  datatype Keyed = Keyed(value: real, symbolDateId: Option<nat>)

  /** `Prices.price` has default 0. */
  const DefaultPrice: real := 0.0

  predicate UniqueSymbolDates(dims: seq<DimRow>) {
    forall i, j :: 0 <= i < j < |dims| ==> (dims[i].symbol, dims[i].date) != (dims[j].symbol, dims[j].date)
  }

  predicate UniqueIds(dims: seq<DimRow>) {
    forall i, j :: 0 <= i < j < |dims| ==> dims[i].id != dims[j].id
  }

  predicate IdsBelow(dims: seq<DimRow>, next: nat) {
    forall i :: 0 <= i < |dims| ==> dims[i].id < next
  }

  /** Every depot row references an existing dimension row. */
  predicate DepotResolved(dims: seq<DimRow>, depot: seq<DepotRow>) {
    forall i :: 0 <= i < |depot| ==> HasDim(dims, depot[i].symbolDateId)
  }

  /** Every price row references an existing dimension row. */
  predicate PricesResolved(dims: seq<DimRow>, prices: seq<PriceRow>) {
    forall i :: 0 <= i < |prices| ==> HasDim(dims, prices[i].symbolDateId)
  }

  predicate UniqueTransactionIds(txs: seq<Transaction>) {
    forall i, j :: 0 <= i < j < |txs| ==> txs[i].id != txs[j].id
  }

  predicate UniqueCashflowDates(cfs: seq<CashflowRow>) {
    forall i, j :: 0 <= i < j < |cfs| ==> cfs[i].date != cfs[j].date
  }

  predicate HasDim(dims: seq<DimRow>, id: nat) {
    exists i :: 0 <= i < |dims| && dims[i].id == id
  }

  /** The `(symbol, date)` pairs of the dimension table. */
  function DimKeys(dims: seq<DimRow>): (keys: set<(string, int)>)
    ensures forall s, d :: (s, d) in keys <==> exists i :: 0 <= i < |dims| && dims[i].symbol == s && dims[i].date == d
  {
    set i | 0 <= i < |dims| :: (dims[i].symbol, dims[i].date)
  }

  /** The dimension row with id `id`. */
  function DimOf(dims: seq<DimRow>, id: nat): (r: DimRow)
    requires HasDim(dims, id)
    ensures r in dims && r.id == id
    decreases |dims|
  {
    if dims[0].id == id then dims[0]
    else
      assert HasDim(dims[1..], id) by {
        var i :| 0 <= i < |dims| && dims[i].id == id;
        assert dims[1..][i - 1].id == id;
      }
      DimOf(dims[1..], id)
  }

  /** The id of the dimension row for `(symbol, date)`, if there is one. */
  function FindDim(dims: seq<DimRow>, symbol: string, date: int): (r: Option<nat>)
    ensures r.Some? ==> DimRow(r.value, symbol, date) in dims
    decreases |dims|
  {
    if dims == [] then None
    else if dims[0].symbol == symbol && dims[0].date == date then Some(dims[0].id)
    else FindDim(dims[1..], symbol, date)
  }

  /** Nothing is found exactly when no row carries the pair. */
  lemma {:induction false} FindDimNone(dims: seq<DimRow>, symbol: string, date: int)
    ensures FindDim(dims, symbol, date).None? <==> (symbol, date) !in DimKeys(dims)
    decreases |dims|
  {
    if dims != [] {
      if dims[0].symbol == symbol && dims[0].date == date {
        assert (dims[0].symbol, dims[0].date) in DimKeys(dims);
      } else {
        FindDimNone(dims[1..], symbol, date);
        if (symbol, date) in DimKeys(dims) {
          var i :| 0 <= i < |dims| && dims[i].symbol == symbol && dims[i].date == date;
          assert dims[1..][i - 1] == dims[i];
        }
        if (symbol, date) in DimKeys(dims[1..]) {
          var i :| 0 <= i < |dims[1..]| && dims[1..][i].symbol == symbol && dims[1..][i].date == date;
          assert dims[i + 1] == dims[1..][i];
        }
      }
    }
  }

  /** In a table with unique `(symbol, date)` pairs, a row found by its pair is the only one with that pair. */
  lemma FindDimUnique(dims: seq<DimRow>, symbol: string, date: int, i: nat)
    requires UniqueSymbolDates(dims)
    requires i < |dims| && dims[i].symbol == symbol && dims[i].date == date
    ensures FindDim(dims, symbol, date) == Some(dims[i].id)
  {
    FindDimNone(dims, symbol, date);
    assert (dims[i].symbol, dims[i].date) in DimKeys(dims);
    var r := FindDim(dims, symbol, date);
    var j :| 0 <= j < |dims| && dims[j] == DimRow(r.value, symbol, date);
    assert !(i < j) && !(j < i);
  }

  /** Keys a batch of new `(symbol, date)` pairs may be inserted under without breaking uniqueness. */
  predicate FreshCombs(dims: seq<DimRow>, combs: seq<(string, int)>) {
    (forall i :: 0 <= i < |combs| ==> combs[i] !in DimKeys(dims))
    && (forall i, j :: 0 <= i < j < |combs| ==> combs[i] != combs[j])
  }

  /** The new dimension rows, numbered from `next`. */
  function NewDims(combs: seq<(string, int)>, next: nat): (r: seq<DimRow>)
    ensures |r| == |combs|
    ensures forall i :: 0 <= i < |r| ==> r[i] == DimRow(next + i, combs[i].0, combs[i].1)
  {
    seq(|combs|, i requires 0 <= i < |combs| => DimRow(next + i, combs[i].0, combs[i].1))
  }

  predicate FreshTransactions(txs: seq<Transaction>, batch: seq<Transaction>) {
    (forall i, j :: 0 <= i < |txs| && 0 <= j < |batch| ==> txs[i].id != batch[j].id)
    && UniqueTransactionIds(batch)
  }

  predicate FreshCashflowDates(cfs: seq<CashflowRow>, batch: seq<(int, real)>) {
    (forall i, j :: 0 <= i < |cfs| && 0 <= j < |batch| ==> cfs[i].date != batch[j].0)
    && (forall i, j :: 0 <= i < j < |batch| ==> batch[i].0 != batch[j].0)
  }

  /** Every keyed row carries an id; a missing one is the NaN Django cannot convert to an integer. */
  predicate AllKeyed(rows: seq<Keyed>) {
    forall i :: 0 <= i < |rows| ==> rows[i].symbolDateId.Some?
  }

  /** Every keyed row names an existing dimension row. */
  predicate Resolved(dims: seq<DimRow>, rows: seq<Keyed>) {
    forall i :: 0 <= i < |rows| ==> rows[i].symbolDateId.Some? && HasDim(dims, rows[i].symbolDateId.value)
  }

  /** The index of the cash-flow row dated `date`, if any. */
  function CashflowIndex(cfs: seq<CashflowRow>, date: int): (r: Option<nat>)
    ensures r.None? <==> forall i :: 0 <= i < |cfs| ==> cfs[i].date != date
    ensures r.Some? ==> r.value < |cfs| && cfs[r.value].date == date
    decreases |cfs|
  {
    if cfs == [] then None
    else
      var n := |cfs| - 1;
      if cfs[n].date == date then Some(n) else CashflowIndex(cfs[..n], date)
  }

  /** The stored amount of date `d`, if some row carries it. */
  function StoredCashflow(cfs: seq<CashflowRow>, d: int): Option<real> {
    match CashflowIndex(cfs, d)
    case None => None
    case Some(k) => Some(cfs[k].cashflow)
  }

  /** The last amount a batch of `(date, amount)` records gives date `d`. */
  function LastFor(batch: seq<(int, real)>, d: int): Option<real>
    decreases |batch|
  {
    if batch == [] then None
    else
      var n := |batch| - 1;
      if batch[n].0 == d then Some(batch[n].1) else LastFor(batch[..n], d)
  }

  /** A value that takes precedence over a fallback when it is present. */
  function Override(o: Option<real>, fallback: Option<real>): Option<real> {
    if o.Some? then o else fallback
  }

  /** In a batch with distinct dates, the last amount of a date is its only amount. */
  lemma {:induction false} LastForLookup(batch: seq<(int, real)>, d: int)
    requires DistinctKeys(batch)
    ensures LastFor(batch, d) == Lookup(batch, d)
    decreases |batch|
  {
    if batch != [] {
      var n := |batch| - 1;
      var init := batch[..n];
      assert DistinctKeys(init) by {
        forall i, j | 0 <= i < j < |init| ensures init[i].0 != init[j].0 {
          assert init[i] == batch[i] && init[j] == batch[j];
        }
      }
      LastForLookup(init, d);
      assert batch == init + [batch[n]];
      LookupAppend(init, [batch[n]], d);
      LookupCons([batch[n]], d);
      assert [batch[n]][1..] == [];
      if batch[n].0 == d {
        assert !HasKey(init, d) by {
          forall i | 0 <= i < |init| ensures init[i].0 != d {
            assert init[i] == batch[i];
          }
        }
      }
    }
  }

  /** The rows `bulk_create` appends for a batch of `(date, amount)` records; `cumsum` is left unset. */
  function Appended(cfs: seq<CashflowRow>, batch: seq<(int, real)>): (r: seq<CashflowRow>)
    ensures |r| == |cfs| + |batch|
    decreases |batch|
  {
    if batch == [] then cfs
    else
      var n := |batch| - 1;
      Appended(cfs, batch[..n]) + [CashflowRow(batch[n].0, batch[n].1, None)]
  }

  /** `update_or_create(date=d, defaults={'cashflow': c})`: the row of `d` takes amount `c`, or a new row is appended. */
  function Upsert(cfs: seq<CashflowRow>, date: int, c: real): (r: seq<CashflowRow>)
    ensures |r| >= |cfs|
  {
    match CashflowIndex(cfs, date)
    case Some(k) => cfs[k := cfs[k].(cashflow := c)]
    case None => cfs + [CashflowRow(date, c, None)]
  }

  /** `update_or_create` for each record of a batch, in order. */
  function UpsertAll(cfs: seq<CashflowRow>, batch: seq<(int, real)>): seq<CashflowRow>
    decreases |batch|
  {
    if batch == [] then cfs
    else
      var n := |batch| - 1;
      Upsert(UpsertAll(cfs, batch[..n]), batch[n].0, batch[n].1)
  }

  /** The appended rows, written out one per record. */
  lemma {:induction false} AppendedRows(cfs: seq<CashflowRow>, batch: seq<(int, real)>)
    ensures Appended(cfs, batch) == cfs + seq(|batch|, i requires 0 <= i < |batch| => CashflowRow(batch[i].0, batch[i].1, None))
    decreases |batch|
  {
    if batch != [] {
      var n := |batch| - 1;
      AppendedRows(cfs, batch[..n]);
    }
  }

  /** The row search looks from the end: an appended row for `d` is the one found. */
  lemma CashflowIndexSnoc(cfs: seq<CashflowRow>, row: CashflowRow, d: int)
    ensures StoredCashflow(cfs + [row], d) == if row.date == d then Some(row.cashflow) else StoredCashflow(cfs, d)
  {
    assert (cfs + [row])[..|cfs|] == cfs;
  }

  /** Rows with the same dates are searched alike. */
  lemma {:induction false} CashflowIndexSameDates(a: seq<CashflowRow>, b: seq<CashflowRow>, d: int)
    requires |a| == |b| && forall i :: 0 <= i < |a| ==> a[i].date == b[i].date
    ensures CashflowIndex(a, d) == CashflowIndex(b, d)
    decreases |a|
  {
    if a != [] {
      var n := |a| - 1;
      CashflowIndexSameDates(a[..n], b[..n], d);
    }
  }

  /** After an update or create of date `d`, `d` holds the new amount. */
  lemma UpsertHit(cfs: seq<CashflowRow>, d: int, c: real)
    ensures StoredCashflow(Upsert(cfs, d, c), d) == Some(c)
  {
    match CashflowIndex(cfs, d)
    case Some(k) =>
      CashflowIndexSameDates(cfs[k := cfs[k].(cashflow := c)], cfs, d);
    case None =>
      CashflowIndexSnoc(cfs, CashflowRow(d, c, None), d);
  }

  /** ... and every other date keeps its amount. */
  lemma UpsertMiss(cfs: seq<CashflowRow>, date: int, c: real, d: int)
    requires d != date
    ensures StoredCashflow(Upsert(cfs, date, c), d) == StoredCashflow(cfs, d)
  {
    match CashflowIndex(cfs, date)
    case Some(k) =>
      var u := cfs[k := cfs[k].(cashflow := c)];
      CashflowIndexSameDates(u, cfs, d);
    case None =>
      CashflowIndexSnoc(cfs, CashflowRow(date, c, None), d);
  }

  /** After a batch of updates or creates, a date holds the batch's last amount for it, or keeps its amount. */
  lemma {:induction false} UpsertAllLookup(cfs: seq<CashflowRow>, batch: seq<(int, real)>, d: int)
    ensures StoredCashflow(UpsertAll(cfs, batch), d) == Override(LastFor(batch, d), StoredCashflow(cfs, d))
    decreases |batch|
  {
    if batch != [] {
      var n := |batch| - 1;
      UpsertAllLookup(cfs, batch[..n], d);
      if batch[n].0 == d {
        UpsertHit(UpsertAll(cfs, batch[..n]), d, batch[n].1);
      } else {
        UpsertMiss(UpsertAll(cfs, batch[..n]), batch[n].0, batch[n].1, d);
      }
    }
  }

  /** After a bulk create, a date holds the batch's last amount for it, or keeps its amount. */
  lemma {:induction false} AppendedLookup(cfs: seq<CashflowRow>, batch: seq<(int, real)>, d: int)
    ensures StoredCashflow(Appended(cfs, batch), d) == Override(LastFor(batch, d), StoredCashflow(cfs, d))
    decreases |batch|
  {
    if batch != [] {
      var n := |batch| - 1;
      AppendedLookup(cfs, batch[..n], d);
      var row := CashflowRow(batch[n].0, batch[n].1, None);
      CashflowIndexSnoc(Appended(cfs, batch[..n]), row, d);
    }
  }

  /** Appending fresh pairs under fresh ids keeps the dimension table's keys unique and adds exactly those pairs. */
  lemma AppendDims(dims: seq<DimRow>, combs: seq<(string, int)>, next: nat)
    requires UniqueSymbolDates(dims) && UniqueIds(dims) && (forall i :: 0 <= i < |dims| ==> dims[i].id < next)
    requires FreshCombs(dims, combs)
    ensures var all := dims + NewDims(combs, next);
            UniqueSymbolDates(all) && UniqueIds(all)
            && (forall i :: 0 <= i < |all| ==> all[i].id < next + |combs|)
            && DimKeys(all) == DimKeys(dims) + set c | c in combs
  {
    var added := NewDims(combs, next);
    var all := dims + added;
    forall i, j | 0 <= i < j < |all|
      ensures (all[i].symbol, all[i].date) != (all[j].symbol, all[j].date)
    {
      if j >= |dims| {
        assert all[j] == added[j - |dims|];
        if i < |dims| {
          assert combs[j - |dims|] !in DimKeys(dims);
          assert (dims[i].symbol, dims[i].date) in DimKeys(dims);
        } else {
          assert all[i] == added[i - |dims|];
        }
      }
    }
    forall i, j | 0 <= i < j < |all| ensures all[i].id != all[j].id {
      if j >= |dims| {
        assert all[j] == added[j - |dims|];
        if i >= |dims| {
          assert all[i] == added[i - |dims|];
        }
      }
    }
    forall i | 0 <= i < |all| ensures all[i].id < next + |combs| {
      if i >= |dims| {
        assert all[i] == added[i - |dims|];
      }
    }
    forall c | c in DimKeys(all) ensures c in DimKeys(dims) + set c | c in combs {
      var i :| 0 <= i < |all| && all[i].symbol == c.0 && all[i].date == c.1;
      if i >= |dims| {
        assert all[i] == added[i - |dims|];
        assert combs[i - |dims|] == c;
      } else {
        assert all[i] == dims[i];
      }
    }
    forall c | c in DimKeys(dims) + set c | c in combs ensures c in DimKeys(all) {
      if c in DimKeys(dims) {
        var i :| 0 <= i < |dims| && dims[i].symbol == c.0 && dims[i].date == c.1;
        assert all[i] == dims[i];
      } else {
        var k :| 0 <= k < |combs| && combs[k] == c;
        assert all[|dims| + k] == added[k];
      }
    }
  }

  /** Growing the dimension table keeps every reference into it valid. */
  lemma DimsFKKept(dims: seq<DimRow>, all: seq<DimRow>, depot: seq<DepotRow>, prices: seq<PriceRow>)
    requires |dims| <= |all| && all[..|dims|] == dims
    requires forall i :: 0 <= i < |depot| ==> HasDim(dims, depot[i].symbolDateId)
    requires forall i :: 0 <= i < |prices| ==> HasDim(dims, prices[i].symbolDateId)
    ensures forall i :: 0 <= i < |depot| ==> HasDim(all, depot[i].symbolDateId)
    ensures forall i :: 0 <= i < |prices| ==> HasDim(all, prices[i].symbolDateId)
  {
    forall i | 0 <= i < |depot| ensures HasDim(all, depot[i].symbolDateId) {
      var k :| 0 <= k < |dims| && dims[k].id == depot[i].symbolDateId;
      assert all[k] == dims[k];
    }
    forall i | 0 <= i < |prices| ensures HasDim(all, prices[i].symbolDateId) {
      var k :| 0 <= k < |dims| && dims[k].id == prices[i].symbolDateId;
      assert all[k] == dims[k];
    }
  }

  class Database {
    var dims: seq<DimRow>
    var depot: seq<DepotRow>
    var prices: seq<PriceRow>
    var transactions: seq<Transaction>
    var assets: seq<Product>
    var cashflows: seq<CashflowRow>
    var nextId: nat

    /** The constraints declared in portfolio/models.py, plus fresh surrogate keys. */
    ghost predicate Valid()
      reads this
    {
      UniqueSymbolDates(dims) && UniqueIds(dims) && IdsBelow(dims, nextId)
      && UniqueTransactionIds(transactions)
      && UniqueCashflowDates(cashflows)
      && DepotResolved(dims, depot) && PricesResolved(dims, prices)
    }

    constructor()
      ensures Valid()
      ensures dims == [] && depot == [] && prices == [] && transactions == [] && assets == [] && cashflows == []
    {
      dims, depot, prices, transactions, assets, cashflows := [], [], [], [], [], [];
      nextId := 0;
    }

    /** `DimensionSymbolDate.objects.bulk_create`: all pairs inserted, or IntegrityError when one is already stored or repeated. */
    method BulkCreateDims(combs: seq<(string, int)>) returns (r: Result<()>)
      requires Valid()
      modifies this
      ensures Valid()
      ensures r.Ok? <==> FreshCombs(old(dims), combs)
      ensures r.Err? ==> r.error == IntegrityError && dims == old(dims) && nextId == old(nextId)
      ensures r.Ok? ==> dims == old(dims) + NewDims(combs, old(nextId)) && nextId == old(nextId) + |combs|
      ensures r.Ok? ==> DimKeys(dims) == DimKeys(old(dims)) + set c | c in combs
      ensures unchanged(this`depot, this`prices, this`transactions, this`assets, this`cashflows)
    {
      if !FreshCombs(dims, combs) {
        return Err(IntegrityError);
      }
      var all := dims + NewDims(combs, nextId);
      AppendDims(dims, combs, nextId);
      assert all[..|dims|] == dims;
      DimsFKKept(dims, all, depot, prices);
      dims := all;
      nextId := nextId + |combs|;
      return Ok(());
    }

    /**
     * `Depot.objects.bulk_create`: a row without an id fails the integer
     * conversion with ValueError before anything is written; otherwise every
     * row must name a stored dimension row, or IntegrityError and nothing is written.
     */
    method BulkCreateDepot(rows: seq<Keyed>) returns (r: Result<()>)
      requires Valid()
      modifies this`depot
      ensures Valid()
      ensures r.Ok? <==> Resolved(dims, rows)
      ensures r.Err? ==> r.error == (if AllKeyed(rows) then IntegrityError else ValueError) && depot == old(depot)
      ensures r.Ok? ==> depot == old(depot) + seq(|rows|, i requires 0 <= i < |rows| && rows[i].symbolDateId.Some? =>
                                                   DepotRow(rows[i].value, rows[i].symbolDateId.value))
    {
      if !AllKeyed(rows) {
        return Err(ValueError);
      }
      if !Resolved(dims, rows) {
        return Err(IntegrityError);
      }
      depot := depot + seq(|rows|, i requires 0 <= i < |rows| && rows[i].symbolDateId.Some? =>
                                     DepotRow(rows[i].value, rows[i].symbolDateId.value));
      return Ok(());
    }

    /** `Price.objects.bulk_create`, with the same id conversion and foreign-key rule as the depot. */
    method BulkCreatePrices(rows: seq<Keyed>) returns (r: Result<()>)
      requires Valid()
      modifies this`prices
      ensures Valid()
      ensures r.Ok? <==> Resolved(dims, rows)
      ensures r.Err? ==> r.error == (if AllKeyed(rows) then IntegrityError else ValueError) && prices == old(prices)
      ensures r.Ok? ==> prices == old(prices) + seq(|rows|, i requires 0 <= i < |rows| && rows[i].symbolDateId.Some? =>
                                                     PriceRow(rows[i].value, rows[i].symbolDateId.value))
    {
      if !AllKeyed(rows) {
        return Err(ValueError);
      }
      if !Resolved(dims, rows) {
        return Err(IntegrityError);
      }
      prices := prices + seq(|rows|, i requires 0 <= i < |rows| && rows[i].symbolDateId.Some? =>
                                       PriceRow(rows[i].value, rows[i].symbolDateId.value));
      return Ok(());
    }

    /** `Transaction.objects.bulk_create`: a repeated or already stored id is refused by the primary key. */
    method BulkCreateTransactions(batch: seq<Transaction>) returns (r: Result<()>)
      requires Valid()
      modifies this`transactions
      ensures Valid()
      ensures r.Ok? <==> FreshTransactions(old(transactions), batch)
      ensures r.Err? ==> r.error == IntegrityError && transactions == old(transactions)
      ensures r.Ok? ==> transactions == old(transactions) + batch
    {
      if !FreshTransactions(transactions, batch) {
        return Err(IntegrityError);
      }
      var all := transactions + batch;
      forall i, j | 0 <= i < j < |all| ensures all[i].id != all[j].id {
        if i >= |transactions| {
          assert all[i] == batch[i - |transactions|] && all[j] == batch[j - |transactions|];
        } else if j >= |transactions| {
          assert all[j] == batch[j - |transactions|];
        }
      }
      transactions := all;
      return Ok(());
    }

    /** `Asset.objects.bulk_create`: the asset table has no constraint besides its key. */
    method BulkCreateAssets(batch: seq<Product>)
      requires Valid()
      modifies this`assets
      ensures Valid()
      ensures assets == old(assets) + batch
    {
      assets := assets + batch;
    }

    /** `Cashflow.objects.bulk_create` of `(date, cashflow)` records: a stored or repeated date is refused. */
    method BulkCreateCashflows(batch: seq<(int, real)>) returns (r: Result<()>)
      requires Valid()
      modifies this`cashflows
      ensures Valid()
      ensures r.Ok? <==> FreshCashflowDates(old(cashflows), batch)
      ensures r.Err? ==> r.error == IntegrityError && cashflows == old(cashflows)
      ensures r.Ok? ==> cashflows == Appended(old(cashflows), batch)
    {
      if !FreshCashflowDates(cashflows, batch) {
        return Err(IntegrityError);
      }
      var added := seq(|batch|, i requires 0 <= i < |batch| => CashflowRow(batch[i].0, batch[i].1, None));
      var all := cashflows + added;
      forall i, j | 0 <= i < j < |all| ensures all[i].date != all[j].date {
        if i >= |cashflows| {
          assert all[i] == added[i - |cashflows|] && all[j] == added[j - |cashflows|];
        } else if j >= |cashflows| {
          assert all[j] == added[j - |cashflows|];
        }
      }
      AppendedRows(cashflows, batch);
      cashflows := all;
      return Ok(());
    }

    /** `Cashflow.objects.update_or_create(date=d, defaults={'cashflow': c})`. */
    method UpdateOrCreateCashflow(date: int, cashflow: real)
      requires Valid()
      modifies this`cashflows
      ensures Valid()
      ensures cashflows == Upsert(old(cashflows), date, cashflow)
    {
      match CashflowIndex(cashflows, date)
      case Some(k) =>
        cashflows := cashflows[k := cashflows[k].(cashflow := cashflow)];
      case None =>
        cashflows := cashflows + [CashflowRow(date, cashflow, None)];
    }

    /** Deleting a dimension row deletes the depot and price rows that reference it (`on_delete=CASCADE`). */
    method DeleteDim(id: nat)
      requires Valid()
      modifies this`dims, this`depot, this`prices
      ensures Valid()
      ensures dims == Without(old(dims), id)
      ensures depot == DepotWithout(old(depot), id) && prices == PricesWithout(old(prices), id)
    {
      DeleteKeepsRefs(dims, depot, prices, id, nextId);
      dims, depot, prices := Without(dims, id), DepotWithout(depot, id), PricesWithout(prices, id);
    }

    /** The depot joined with its dimension rows: `(date, symbol, pieces)` per depot row, in table order. */
    function DepotView(): (r: seq<PortfolioRow>)
      reads this
      requires Valid()
      ensures |r| == |depot|
      ensures forall i :: 0 <= i < |r| ==>
                r[i].pieces == depot[i].pieces
                && DimRow(depot[i].symbolDateId, r[i].symbol, r[i].date) in dims
    {
      var rows, ds := depot, dims;
      seq(|rows|, i requires 0 <= i < |rows| && HasDim(ds, rows[i].symbolDateId) =>
        var dim := DimOf(ds, rows[i].symbolDateId);
        PortfolioRow(dim.date, dim.symbol, rows[i].pieces))
    }
  }

  /** The rows of a dimension table other than the one with id `id`, in order. */
  function Without(dims: seq<DimRow>, id: nat): seq<DimRow>
    decreases |dims|
  {
    if dims == [] then []
    else
      var n := |dims| - 1;
      Without(dims[..n], id) + (if dims[n].id != id then [dims[n]] else [])
  }

  /** Exactly the rows with another id remain. */
  lemma {:induction false} WithoutMembers(dims: seq<DimRow>, id: nat)
    ensures forall row :: row in Without(dims, id) <==> row in dims && row.id != id
    decreases |dims|
  {
    if dims != [] {
      var n := |dims| - 1;
      WithoutMembers(dims[..n], id);
      assert dims == dims[..n] + [dims[n]];
    }
  }

  /** Deleting a dimension row and the rows that reference it leaves every remaining reference resolved. */
  lemma DeleteKeepsRefs(dims: seq<DimRow>, depot: seq<DepotRow>, prices: seq<PriceRow>, id: nat, nextId: nat)
    requires UniqueSymbolDates(dims) && UniqueIds(dims) && IdsBelow(dims, nextId)
    requires DepotResolved(dims, depot) && PricesResolved(dims, prices)
    ensures UniqueSymbolDates(Without(dims, id)) && UniqueIds(Without(dims, id)) && IdsBelow(Without(dims, id), nextId)
    ensures DepotResolved(Without(dims, id), DepotWithout(depot, id))
    ensures PricesResolved(Without(dims, id), PricesWithout(prices, id))
  {
    var keptDims := Without(dims, id);
    var keptDepot := DepotWithout(depot, id);
    var keptPrices := PricesWithout(prices, id);
    WithoutMembers(dims, id);
    DepotWithoutMembers(depot, id);
    PricesWithoutMembers(prices, id);
    WithoutUnique(dims, id);
    forall i | 0 <= i < |keptDims| ensures keptDims[i].id < nextId {
      assert keptDims[i] in dims;
    }
    forall i | 0 <= i < |keptDepot| ensures HasDim(keptDims, keptDepot[i].symbolDateId) {
      var row := keptDepot[i];
      assert row in keptDepot;
      var p :| 0 <= p < |depot| && depot[p] == row;
      WithoutKeepsDim(dims, id, row.symbolDateId);
    }
    forall i | 0 <= i < |keptPrices| ensures HasDim(keptDims, keptPrices[i].symbolDateId) {
      var row := keptPrices[i];
      assert row in keptPrices;
      var p :| 0 <= p < |prices| && prices[p] == row;
      WithoutKeepsDim(dims, id, row.symbolDateId);
    }
  }

  /** Every other id still has its dimension row. */
  lemma WithoutKeepsDim(dims: seq<DimRow>, id: nat, other: nat)
    requires HasDim(dims, other) && other != id
    ensures HasDim(Without(dims, id), other)
  {
    var k :| 0 <= k < |dims| && dims[k].id == other;
    WithoutMembers(dims, id);
    assert dims[k] in Without(dims, id);
    var j :| 0 <= j < |Without(dims, id)| && Without(dims, id)[j] == dims[k];
  }

  /** Removing rows keeps the dimension keys unique. */
  lemma {:induction false} WithoutUnique(dims: seq<DimRow>, id: nat)
    requires UniqueSymbolDates(dims) && UniqueIds(dims)
    ensures UniqueSymbolDates(Without(dims, id)) && UniqueIds(Without(dims, id))
    decreases |dims|
  {
    if dims != [] {
      var n := |dims| - 1;
      var rest := Without(dims[..n], id);
      WithoutUnique(dims[..n], id);
      WithoutMembers(dims[..n], id);
      if dims[n].id != id {
        var r := rest + [dims[n]];
        forall i | 0 <= i < |rest|
          ensures (rest[i].symbol, rest[i].date) != (dims[n].symbol, dims[n].date) && rest[i].id != dims[n].id
        {
          assert rest[i] in dims[..n];
          var k :| 0 <= k < n && dims[..n][k] == rest[i];
          assert dims[k] == rest[i];
        }
        forall i, j | 0 <= i < j < |r|
          ensures (r[i].symbol, r[i].date) != (r[j].symbol, r[j].date) && r[i].id != r[j].id
        {
          if j == |rest| {
            assert r[i] == rest[i] && r[j] == dims[n];
          } else {
            assert r[i] == rest[i] && r[j] == rest[j];
          }
        }
      }
    }
  }

  /** The depot rows that do not reference dimension row `id`, in order. */
  function DepotWithout(rows: seq<DepotRow>, id: nat): seq<DepotRow>
    decreases |rows|
  {
    if rows == [] then []
    else
      var n := |rows| - 1;
      DepotWithout(rows[..n], id) + (if rows[n].symbolDateId != id then [rows[n]] else [])
  }

  /** The cascade removes exactly the depot rows referencing `id`. */
  lemma {:induction false} DepotWithoutMembers(rows: seq<DepotRow>, id: nat)
    ensures forall row :: row in DepotWithout(rows, id) <==> row in rows && row.symbolDateId != id
    decreases |rows|
  {
    if rows != [] {
      var n := |rows| - 1;
      DepotWithoutMembers(rows[..n], id);
      assert rows == rows[..n] + [rows[n]];
    }
  }

  /** The price rows that do not reference dimension row `id`, in order. */
  function PricesWithout(rows: seq<PriceRow>, id: nat): seq<PriceRow>
    decreases |rows|
  {
    if rows == [] then []
    else
      var n := |rows| - 1;
      PricesWithout(rows[..n], id) + (if rows[n].symbolDateId != id then [rows[n]] else [])
  }

  /** The cascade removes exactly the price rows referencing `id`. */
  lemma {:induction false} PricesWithoutMembers(rows: seq<PriceRow>, id: nat)
    ensures forall row :: row in PricesWithout(rows, id) <==> row in rows && row.symbolDateId != id
    decreases |rows|
  {
    if rows != [] {
      var n := |rows| - 1;
      PricesWithoutMembers(rows[..n], id);
      assert rows == rows[..n] + [rows[n]];
    }
  }
}
