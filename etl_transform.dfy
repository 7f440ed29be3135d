/**
 * The transformation stage of the batch ETL (class `Transformation` in
 * portfolio/lib/etl.py). It takes the extracted data: raw broker transactions,
 * raw product info, the price frame, the start date and the broker's account
 * movements. Each step cleans one part and overwrites one field of the object,
 * reading the stored tables where the source queries them. `today` is a
 * parameter.
 */
module EtlTransform {
  import opened Wrappers
  import opened Assoc
  import opened Calendar
  import opened DateFormats
  import opened Holdings
  import opened Ledger
  import opened Series
  import opened Store
  import opened Managers
  import opened DegiroApi

  /** A transaction as the broker reports it. */
  datatype RawTransaction = RawTransaction(
    id: string, productId: string, date: string, buysell: string, price: real, quantity: real, total: real)

  /** A product record as the broker reports it. */
  datatype RawProduct = RawProduct(
    id: string, isin: string, symbol: string, name: string, productTypeId: string, currency: string)

  /** The `data` dictionary of the extraction stage. */
  datatype ExtractionData = ExtractionData(
    transactions: seq<RawTransaction>,
    productInfo: Dict<string, RawProduct>,
    priceData: Frame,
    fromDate: int,
    cashFlows: seq<Movement>)
  {
    /** A dictionary has distinct keys; the price frame has one column per symbol and ascending, distinct dates. */
    predicate WellFormed() {
      DistinctKeys(productInfo) && priceData.WellFormed() && StrictlyIncreasing(priceData.index)
    }
  }

  const ExtractionKeys: set<string> := {"transactions", "product_info", "price_data", "from_date", "cash_flows"}

  /** The constructor's key checks: AssertionError unless every expected key is present. */
  function CheckKeys(keys: set<string>, expected: set<string>): (r: Result<()>)
    ensures r.Ok? <==> expected <= keys
    ensures r.Err? ==> r.error == AssertionError
  {
    if expected <= keys then Ok(()) else Err(AssertionError)
  }

  // ---------------------------------------------------------------------------
  // _transform_transactions

  /** `strptime(findall(r'\d{4}-\d{2}-\d{2}')[0], '%Y-%m-%d')`: IndexError without a match, ValueError when it is no date. */
  function FirstIsoDate(s: string): (r: Result<PyDate>)
    ensures r.Err? <==> FirstIsoMatch(s, 0).None? || ParseIso(s[FirstIsoMatch(s, 0).value..FirstIsoMatch(s, 0).value + 10]).None?
    ensures r.Err? ==> (r.error == IndexError <==> FirstIsoMatch(s, 0).None?)
    ensures r.Err? ==> r.error == IndexError || r.error == ValueError
    ensures r.Ok? ==> exists i :: 0 <= i && i + 10 <= |s| && IsoPatternAt(s, i) && ParseIso(s[i..i + 10]) == Some(r.value)
                                  && forall j :: 0 <= j < i ==> !IsoPatternAt(s, j)
  {
    match FirstIsoMatch(s, 0)
    case None => Err(IndexError)
    case Some(i) =>
      match ParseIso(s[i..i + 10])
      case None => Err(ValueError)
      case Some(d) => Ok(d)
  }

  /** A broker timestamp, or any text that starts with a formatted date, yields that date. */
  lemma FirstIsoDateOfPrefix(d: PyDate, rest: string)
    ensures FirstIsoDate(FormatIso(d) + rest) == Ok(d)
  {
    var s := FormatIso(d) + rest;
    assert IsoPatternAt(s, 0);
    assert s[0..10] == FormatIso(d);
    ParseIsoFormatIso(d);
  }

  /** One cleaned transaction: ids kept as text, the date reduced to its calendar day. */
  function CleanTransaction(raw: RawTransaction): (r: Result<Transaction>)
    ensures r.Ok? <==> FirstIsoDate(raw.date).Ok?
    ensures r.Err? ==> r.error == FirstIsoDate(raw.date).error
    ensures r.Ok? ==> r.value.date == Ordinal(FirstIsoDate(raw.date).value)
                      && r.value.id == raw.id && r.value.productId == raw.productId && r.value.buysell == raw.buysell
                      && r.value.price == raw.price && r.value.quantity == raw.quantity && r.value.total == raw.total
  {
    match FirstIsoDate(raw.date)
    case Err(e) => Err(e)
    case Ok(d) => Ok(Transaction(raw.id, raw.productId, Ordinal(d), raw.buysell, raw.price, raw.quantity, raw.total))
  }

  // ---------------------------------------------------------------------------
  // _transform_product_info

  function CleanProduct(raw: RawProduct): Product {
    Product(raw.id, raw.isin, raw.symbol, raw.name, raw.productTypeId, raw.currency)
  }

  // ---------------------------------------------------------------------------
  // _transform_cash_flows

  /** Deposits and withdrawals: type `CASH_TRANSACTION` with description `Einzahlung` or `Auszahlung`. */
  predicate IsCashFlow(m: Movement) {
    m.kind == JStr("CASH_TRANSACTION") && (m.description == JStr("Einzahlung") || m.description == JStr("Auszahlung"))
  }

  function CashFlowMovements(ms: seq<Movement>): (r: seq<Movement>)
    ensures forall m :: m in r <==> m in ms && IsCashFlow(m)
    decreases |ms|
  {
    if ms == [] then []
    else
      var n := |ms| - 1;
      assert ms == ms[..n] + [ms[n]];
      CashFlowMovements(ms[..n]) + (if IsCashFlow(ms[n]) then [ms[n]] else [])
  }

  /** `{'date': cf['date'].date(), 'cashflow': cf['change']}`: KeyError without a change. */
  function FlowOf(m: Movement): (r: Result<(int, real)>)
    ensures r.Ok? <==> m.change.Some? && m.change.value.JNum?
    ensures r.Err? ==> (r.error == KeyError <==> m.change.None?)
    ensures r.Ok? ==> r.value == (Ordinal(m.date.date), m.change.value.n)
  {
    match m.change
    case None => Err(KeyError)
    case Some(JNum(v)) => Ok((Ordinal(m.date.date), v))
    case Some(_) => Err(TypeError)
  }

  /** The filtered cash flows of the extracted movements. */
  function CashFlows(ms: seq<Movement>): Result<seq<(int, real)>> {
    MapResult(CashFlowMovements(ms), FlowOf)
  }

  /** Some flow is dated `d`. */
  predicate Dated(flows: seq<(int, real)>, d: int)
    decreases |flows|
  {
    flows != [] && (flows[|flows| - 1].0 == d || Dated(flows[..|flows| - 1], d))
  }

  /** `grouped[d] += c` when `d` is already grouped, `grouped[d] = c` otherwise. */
  function Accumulate(prior: Option<real>, c: real): real {
    if prior.Some? then prior.value + c else c
  }

  /** The grouping loop: one entry per date, in order of first appearance, holding the running sum. */
  function GroupByDate(flows: seq<(int, real)>): (r: Dict<int, real>)
    ensures DistinctKeys(r)
    decreases |flows|
  {
    if flows == [] then []
    else
      var n := |flows| - 1;
      var g := GroupByDate(flows[..n]);
      PutKeepsDistinct(g, flows[n].0, Accumulate(Lookup(g, flows[n].0), flows[n].1));
      Put(g, flows[n].0, Accumulate(Lookup(g, flows[n].0), flows[n].1))
  }

  /** The sum of the flows dated `d`. */
  function SumOn(flows: seq<(int, real)>, d: int): real
    decreases |flows|
  {
    if flows == [] then 0.0
    else
      var n := |flows| - 1;
      SumOn(flows[..n], d) + (if flows[n].0 == d then flows[n].1 else 0.0)
  }

  lemma {:induction false} SumOnUndated(flows: seq<(int, real)>, d: int)
    requires !Dated(flows, d)
    ensures SumOn(flows, d) == 0.0
    decreases |flows|
  {
    if flows != [] {
      SumOnUndated(flows[..|flows| - 1], d);
    }
  }

  lemma DatedSnoc(flows: seq<(int, real)>, f: (int, real), d: int)
    ensures Dated(flows + [f], d) <==> Dated(flows, d) || f.0 == d
  {
    assert (flows + [f])[..|flows|] == flows;
  }

  lemma GroupByDateSnoc(flows: seq<(int, real)>, f: (int, real))
    ensures GroupByDate(flows + [f]) == Put(GroupByDate(flows), f.0, Accumulate(Lookup(GroupByDate(flows), f.0), f.1))
  {
    assert (flows + [f])[..|flows|] == flows;
  }

  lemma SumOnSnoc(flows: seq<(int, real)>, f: (int, real), d: int)
    ensures SumOn(flows + [f], d) == SumOn(flows, d) + (if f.0 == d then f.1 else 0.0)
  {
    assert (flows + [f])[..|flows|] == flows;
  }

  /** One grouping step on a date that held `sum` over the earlier flows (or was absent, with `sum` zero). */
  lemma GroupStepLookup(g: Dict<int, real>, e: int, c: real, d: int, dated: bool, sum: real)
    requires Lookup(g, d) == (if dated then Some(sum) else None)
    requires !dated ==> sum == 0.0
    ensures Lookup(Put(g, e, Accumulate(Lookup(g, e), c)), d)
            == if dated || e == d then Some(sum + if e == d then c else 0.0) else None
  {
    PutLookup(g, e, Accumulate(Lookup(g, e), c), d);
  }

  /** Each date of the grouped flows holds the sum of that date's flows; a date without flows is absent. */
  lemma {:induction false} GroupByDateLookup(flows: seq<(int, real)>, d: int)
    ensures Lookup(GroupByDate(flows), d) == if Dated(flows, d) then Some(SumOn(flows, d)) else None
    decreases |flows|
  {
    if flows != [] {
      var n := |flows| - 1;
      var init, f := flows[..n], flows[n];
      assert flows == init + [f];
      GroupByDateLookup(init, d);
      DatedSnoc(init, f, d);
      GroupByDateSnoc(init, f);
      SumOnSnoc(init, f, d);
      if !Dated(init, d) {
        SumOnUndated(init, d);
      }
      GroupStepLookup(GroupByDate(init), f.0, f.1, d, Dated(init, d), SumOn(init, d));
    }
  }

  /** The stored rows whose date is one of the grouped dates. */
  function GroupedIn(g: Dict<int, real>): CashflowRow -> bool {
    (row: CashflowRow) => HasKey(g, row.date)
  }

  /** `Cashflow.objects.get_existing(dates)`: the stored rows dated on one of the grouped dates. */
  function StoredOn(cfs: seq<CashflowRow>, g: Dict<int, real>): (r: seq<CashflowRow>)
    ensures AllOf(r, GroupedIn(g))
    decreases |cfs|
  {
    if cfs == [] then []
    else
      var n := |cfs| - 1;
      var last := if HasKey(g, cfs[n].date) then [cfs[n]] else [];
      AllOfAppend(StoredOn(cfs[..n], g), last, GroupedIn(g));
      StoredOn(cfs[..n], g) + last
  }

  /** A stored row is fetched exactly when its date is one of the grouped dates. */
  lemma {:induction false} StoredOnMembers(cfs: seq<CashflowRow>, g: Dict<int, real>, row: CashflowRow)
    ensures row in StoredOn(cfs, g) <==> row in cfs && HasKey(g, row.date)
    decreases |cfs|
  {
    if cfs != [] {
      var n := |cfs| - 1;
      StoredOnMembers(cfs[..n], g, row);
      assert cfs == cfs[..n] + [cfs[n]];
    }
  }

  /** What one stored row contributes to date `d`. */
  function AmountOn(row: CashflowRow, d: int): real {
    if row.date == d then row.cashflow else 0.0
  }

  /** The amount the rows store for date `d`, zero when none does. */
  function StoredAmount(rows: seq<CashflowRow>, d: int): real
    decreases |rows|
  {
    if rows == [] then 0.0
    else
      var n := |rows| - 1;
      StoredAmount(rows[..n], d) + AmountOn(rows[n], d)
  }

  lemma StoredAmountPrefix(rows: seq<CashflowRow>, n: nat, d: int)
    requires n < |rows|
    ensures StoredAmount(rows[..n + 1], d) == StoredAmount(rows[..n], d) + AmountOn(rows[n], d)
  {
    assert rows[..n + 1][..n] == rows[..n];
  }

  /** With unique stored dates, what is stored for `d` is the amount of the one row dated `d`. */
  lemma {:induction false} StoredAmountUnique(rows: seq<CashflowRow>, d: int)
    requires UniqueCashflowDates(rows)
    ensures StoredAmount(rows, d) == match CashflowIndex(rows, d) case None => 0.0 case Some(i) => rows[i].cashflow
    decreases |rows|
  {
    if rows != [] {
      var n := |rows| - 1;
      assert UniqueCashflowDates(rows[..n]);
      StoredAmountUnique(rows[..n], d);
      if rows[n].date == d {
        assert forall i :: 0 <= i < n ==> rows[..n][i].date != d;
      }
    }
  }

  lemma {:induction false} StoredAmountAppend(a: seq<CashflowRow>, b: seq<CashflowRow>, d: int)
    requires |b| <= 1
    ensures StoredAmount(a + b, d) == StoredAmount(a, d) + StoredAmount(b, d)
  {
    if b != [] {
      assert (a + b)[..|a|] == a;
      assert StoredAmount(b, d) == StoredAmount(b[..0], d) + AmountOn(b[0], d);
    } else {
      assert a + b == a;
    }
  }

  /** The stored rows on the grouped dates carry the same amount per grouped date as the whole table. */
  lemma {:induction false} StoredOnAmount(cfs: seq<CashflowRow>, g: Dict<int, real>, d: int)
    requires HasKey(g, d)
    ensures StoredAmount(StoredOn(cfs, g), d) == StoredAmount(cfs, d)
    decreases |cfs|
  {
    if cfs != [] {
      var n := |cfs| - 1;
      StoredOnAmount(cfs[..n], g, d);
      var last: seq<CashflowRow> := if HasKey(g, cfs[n].date) then [cfs[n]] else [];
      StoredAmountAppend(StoredOn(cfs[..n], g), last, d);
    }
  }

  /** What `_transform_cash_flows` stores: the grouped flows with the amounts already stored on their dates added. */
  function MergedCashFlows(flows: seq<(int, real)>, stored: seq<CashflowRow>): Result<Dict<int, real>> {
    var g := GroupByDate(flows);
    AddRows(g, StoredOn(stored, g))
  }

  /**
   * The merge always succeeds; each date with at least one deposit or
   * withdrawal appears once, holding the sum of that date's flows plus the
   * amount stored for it; no other date appears.
   */
  lemma MergedCashFlowsLookup(flows: seq<(int, real)>, stored: seq<CashflowRow>, d: int)
    ensures MergedCashFlows(flows, stored).Ok?
    ensures DistinctKeys(MergedCashFlows(flows, stored).value)
    ensures Lookup(MergedCashFlows(flows, stored).value, d) == Added(Lookup(GroupByDate(flows), d), StoredAmount(stored, d))
  {
    var g := GroupByDate(flows);
    var m := AddRows(g, StoredOn(stored, g));
    assert MergedCashFlows(flows, stored) == m;
    AddStoredLookup(g, stored, d);
  }

  /** A date with at least one deposit or withdrawal holds the sum of that date's flows plus the amount stored for it. */
  lemma MergedCashFlowsDated(flows: seq<(int, real)>, stored: seq<CashflowRow>, d: int)
    requires Dated(flows, d)
    ensures MergedCashFlows(flows, stored).Ok?
    ensures Lookup(MergedCashFlows(flows, stored).value, d) == Some(SumOn(flows, d) + StoredAmount(stored, d))
  {
    MergedCashFlowsLookup(flows, stored, d);
    GroupByDateLookup(flows, d);
  }

  /** No other date appears. */
  lemma MergedCashFlowsUndated(flows: seq<(int, real)>, stored: seq<CashflowRow>, d: int)
    requires !Dated(flows, d)
    ensures MergedCashFlows(flows, stored).Ok?
    ensures Lookup(MergedCashFlows(flows, stored).value, d) == None
  {
    MergedCashFlowsLookup(flows, stored, d);
    GroupByDateLookup(flows, d);
  }

  /** Adding the stored rows on the grouped dates succeeds, keeps the keys, and adds each date's stored amount. */
  lemma AddStoredLookup(g: Dict<int, real>, stored: seq<CashflowRow>, d: int)
    requires DistinctKeys(g)
    ensures AddRows(g, StoredOn(stored, g)).Ok?
    ensures DistinctKeys(AddRows(g, StoredOn(stored, g)).value)
    ensures Lookup(AddRows(g, StoredOn(stored, g)).value, d) == Added(Lookup(g, d), StoredAmount(stored, d))
  {
    var rows := StoredOn(stored, g);
    AddRowsKeys(g, rows);
    AddRowsLookup(g, rows, d);
    SameKeysDistinct(AddRows(g, rows).value, g);
    if HasKey(g, d) {
      StoredOnAmount(stored, g, d);
    }
  }

  /** One more flow of the same list extends the grouping by one step. */
  lemma GroupByDatePrefix(flows: seq<(int, real)>, i: nat)
    requires i < |flows|
    ensures var g := GroupByDate(flows[..i]);
            GroupByDate(flows[..i + 1]) == Put(g, flows[i].0, Accumulate(Lookup(g, flows[i].0), flows[i].1))
  {
    assert flows[..i + 1][..i] == flows[..i];
    assert flows[..i + 1][i] == flows[i];
  }

  /** The grouping loop of `_transform_cash_flows`. */
  method GroupCashFlows(flows: seq<(int, real)>) returns (grouped: Dict<int, real>)
    ensures grouped == GroupByDate(flows)
  {
    grouped := [];
    var i := 0;
    while i < |flows|
      invariant 0 <= i <= |flows|
      invariant grouped == GroupByDate(flows[..i])
    {
      var d, c := flows[i].0, flows[i].1;
      GroupByDatePrefix(flows, i);
      var prior := Lookup(grouped, d);
      var total := if prior.Some? then prior.value + c else c;
      assert total == Accumulate(prior, c);
      grouped := Put(grouped, d, total);
      i := i + 1;
    }
    assert flows[..i] == flows;
  }

  /**
   * The loop `cash_flows_grouped[cf['date']] += cf['cashflow']` over the stored
   * rows, step by step; every row's date must already be grouped.
   */
  function AddRows(g: Dict<int, real>, rows: seq<CashflowRow>): Result<Dict<int, real>>
    decreases |rows|
  {
    if rows == [] then Ok(g)
    else
      var n := |rows| - 1;
      match AddRows(g, rows[..n])
      case Err(e) => Err(e)
      case Ok(a) => AddRow(a, rows[n])
  }

  /** `cash_flows_grouped[cf['date']] += cf['cashflow']` for one row: a `KeyError` when the date is not grouped. */
  function AddRow(a: Dict<int, real>, row: CashflowRow): Result<Dict<int, real>> {
    match Lookup(a, row.date)
    case None => Err(KeyError)
    case Some(v) => Ok(Put(a, row.date, v + row.cashflow))
  }

  /** One more stored row of the same list extends the loop by one step. */
  lemma AddRowsPrefix(g: Dict<int, real>, rows: seq<CashflowRow>, k: nat)
    requires k < |rows|
    ensures AddRows(g, rows[..k + 1]) == match AddRows(g, rows[..k]) case Err(e) => Err(e) case Ok(a) => AddRow(a, rows[k])
  {
    assert rows[..k + 1][..k] == rows[..k];
    assert rows[..k + 1][k] == rows[k];
  }

  /** When every stored date is grouped, the loop succeeds and leaves the keys in their order. */
  lemma {:induction false} AddRowsKeys(g: Dict<int, real>, rows: seq<CashflowRow>)
    requires AllOf(rows, GroupedIn(g))
    ensures AddRows(g, rows).Ok?
    ensures Keys(AddRows(g, rows).value) == Keys(g)
    decreases |rows|
  {
    if rows != [] {
      var n := |rows| - 1;
      AllOfPrefix(rows, GroupedIn(g), n);
      AddRowsKeys(g, rows[..n]);
      var a := AddRows(g, rows[..n]).value;
      var e := rows[n].date;
      AllOfAt(rows, GroupedIn(g), n);
      SameKeysHasKey(a, g, e);
      PutKeys(a, e, Lookup(a, e).value + rows[n].cashflow);
    }
  }

  /** ... and adds to each date exactly the amount the rows store for it. */
  lemma {:induction false} AddRowsLookup(g: Dict<int, real>, rows: seq<CashflowRow>, d: int)
    requires AllOf(rows, GroupedIn(g))
    ensures AddRows(g, rows).Ok?
    ensures Lookup(AddRows(g, rows).value, d) == Added(Lookup(g, d), StoredAmount(rows, d))
    decreases |rows|
  {
    if rows == [] {
      assert AddRows(g, rows) == Ok(g) && StoredAmount(rows, d) == 0.0;
      AddedZero(Lookup(g, d));
    } else {
      var n := |rows| - 1;
      AllOfPrefix(rows, GroupedIn(g), n);
      AddRowsLookup(g, rows[..n], d);
      AddRowsLookupStep(g, rows, d);
    }
  }

  /** The last stored row's step of `AddRowsLookup`. */
  lemma AddRowsLookupStep(g: Dict<int, real>, rows: seq<CashflowRow>, d: int)
    requires rows != [] && AllOf(rows, GroupedIn(g))
    requires AddRows(g, rows[..|rows| - 1]).Ok?
    requires Lookup(AddRows(g, rows[..|rows| - 1]).value, d) == Added(Lookup(g, d), StoredAmount(rows[..|rows| - 1], d))
    ensures AddRows(g, rows).Ok?
    ensures Lookup(AddRows(g, rows).value, d) == Added(Lookup(g, d), StoredAmount(rows, d))
  {
    var n := |rows| - 1;
    var a := AddRows(g, rows[..n]).value;
    var before := StoredAmount(rows[..n], d);
    AddRowsLast(g, rows, a);
    assert StoredAmount(rows, d) == before + AmountOn(rows[n], d);
    AllOfAt(rows, GroupedIn(g), n);
    AddRowLookup(g, a, rows[n], d, before);
  }

  /** The loop's last step adds the last stored row to what the earlier rows left. */
  lemma AddRowsLast(g: Dict<int, real>, rows: seq<CashflowRow>, a: Dict<int, real>)
    requires rows != [] && AllOf(rows, GroupedIn(g))
    requires AddRows(g, rows[..|rows| - 1]) == Ok(a)
    ensures AddRow(a, rows[|rows| - 1]).Ok?
    ensures AddRows(g, rows) == AddRow(a, rows[|rows| - 1])
  {
    var n := |rows| - 1;
    AllOfPrefix(rows, GroupedIn(g), n);
    AddRowsKeys(g, rows[..n]);
    AllOfAt(rows, GroupedIn(g), n);
    SameKeysHasKey(a, g, rows[n].date);
  }

  /** An amount added to a value that may be missing. */
  function Added(o: Option<real>, amount: real): Option<real> {
    match o case None => None case Some(v) => Some(v + amount)
  }

  lemma AddedZero(o: Option<real>)
    ensures Added(o, 0.0) == o
  {
  }

  lemma AddedTwice(o: Option<real>, before: real, c: real, x: real)
    requires o.Some? && x == Added(o, before).value + c
    ensures Added(o, before + c) == Some(x)
  {
  }

  /** Adding a row's amount to its grouped date adds it to what is looked up for that date and nothing for any other date. */
  lemma AddRowLookup(g: Dict<int, real>, a: Dict<int, real>, row: CashflowRow, d: int, before: real)
    requires HasKey(g, row.date) && AddRow(a, row).Ok?
    requires Lookup(a, d) == Added(Lookup(g, d), before)
    ensures Lookup(AddRow(a, row).value, d) == Added(Lookup(g, d), before + AmountOn(row, d))
  {
    var x := Lookup(a, row.date).value + row.cashflow;
    assert AddRow(a, row) == Ok(Put(a, row.date, x));
    var after := Added(Lookup(g, d), before + AmountOn(row, d));
    if row.date == d {
      AddedTwice(Lookup(g, d), before, row.cashflow, x);
    }
    PutLookupCases(a, row.date, x, d, Lookup(a, d), after);
  }

  /** A step of the loop finds the row's date among the grouped keys, and leaves the keys as they were. */
  lemma AddRowsStep(g: Dict<int, real>, rows: seq<CashflowRow>, k: nat, a: Dict<int, real>)
    requires k < |rows| && AllOf(rows, GroupedIn(g))
    requires AddRows(g, rows[..k]) == Ok(a) && Keys(a) == Keys(g)
    ensures HasKey(a, rows[k].date)
    ensures AddRow(a, rows[k]).Ok? && Keys(AddRow(a, rows[k]).value) == Keys(g)
    ensures AddRows(g, rows[..k + 1]) == AddRow(a, rows[k])
  {
    var e := rows[k].date;
    AllOfAt(rows, GroupedIn(g), k);
    SameKeysHasKey(a, g, e);
    AddRowsPrefix(g, rows, k);
    PutKeys(a, e, Lookup(a, e).value + rows[k].cashflow);
  }

  /** The loop that adds to each grouped date the amount already stored on it. */
  method AddExisting(g: Dict<int, real>, existing: seq<CashflowRow>) returns (grouped: Dict<int, real>)
    requires DistinctKeys(g)
    requires AllOf(existing, GroupedIn(g))
    ensures AddRows(g, existing) == Ok(grouped)
  {
    grouped := g;
    var k := 0;
    while k < |existing|
      invariant 0 <= k <= |existing|
      invariant AddRows(g, existing[..k]) == Ok(grouped)
      invariant Keys(grouped) == Keys(g)
    {
      var row := existing[k];
      AddRowsStep(g, existing, k, grouped);
      var prior := Lookup(grouped, row.date);
      grouped := Put(grouped, row.date, prior.value + row.cashflow);
      k := k + 1;
    }
    assert existing[..k] == existing;
  }

  // ---------------------------------------------------------------------------
  // _build_portfolio

  /** `{x['symbol']: x['pieces'] for x in get_portfolio_at_date(from_date)}`: a later row for a symbol wins. */
  function StartHoldings(view: seq<PortfolioRow>, from: int): Holdings {
    var rows := PortfolioAt(view, from);
    FromPairs(seq(|rows|, i requires 0 <= i < |rows| => (rows[i].symbol, rows[i].pieces)))
  }

  /** The inner loop of `_build_portfolio`: the day's totals per symbol, KeyError for an unknown product id. */
  method DailyQuantities(daily: seq<Transaction>, info: ProductInfo) returns (r: Result<Holdings>)
    ensures r == DayQuantities(daily, info, AsWritten)
  {
    var q: Holdings := [];
    var j := 0;
    while j < |daily|
      invariant 0 <= j <= |daily|
      invariant DayQuantities(daily[..j], info, AsWritten) == Ok(q)
    {
      var t := daily[j];
      DayQuantitiesSnoc(daily[..j], t, info, AsWritten);
      assert daily[..j + 1] == daily[..j] + [t];
      var product := Lookup(info, t.productId);
      if product.None? {
        DayQuantitiesPrefixErr(daily, info, j + 1);
        return Err(KeyError);
      }
      q := AddQuantity(q, product.value.symbol, t.quantity, AsWritten);
      j := j + 1;
    }
    assert daily[..j] == daily;
    return Ok(q);
  }

  /** A prefix of the day with an unknown product id makes the whole day fail. */
  lemma DayQuantitiesPrefixErr(day: seq<Transaction>, info: ProductInfo, j: nat)
    requires j <= |day| && DayQuantities(day[..j], info, AsWritten).Err?
    ensures DayQuantities(day, info, AsWritten) == Err(KeyError)
  {
    var t :| t in day[..j] && !HasKey(info, t.productId);
    assert t in day;
  }

  /**
   * One day of the calendar walk: a day without buys or sells keeps the
   * holdings (`continue`); otherwise the day totals are added with `Counter`.
   */
  method NextDay(holdings: Holdings, txs: seq<Transaction>, info: ProductInfo, date: int) returns (next: Result<Holdings>)
    ensures next == NextHoldings(holdings, txs, info, date, AsWritten)
  {
    var daily := DayTransactions(txs, date);
    if |daily| == 0 {
      return Ok(holdings);
    }
    var q := DailyQuantities(daily, info);
    if q.Err? {
      return Err(q.error);
    }
    return Ok(CounterAdd(holdings, q.value));
  }

  /** The outer loop of `_build_portfolio`: one portfolio per day from `from` through `today`, none when `from` is not before `today`. */
  method DailyPortfolios(h0: Holdings, txs: seq<Transaction>, info: ProductInfo, from: int, today: int)
    returns (r: Result<seq<DayPortfolio>>)
    ensures r == BuildPortfolios(h0, txs, info, from, today, AsWritten)
  {
    if from >= today {
      return Ok([]);
    }
    var days: seq<DayPortfolio> := [];
    var date := from;
    var holdings := h0;
    while date <= today
      invariant from <= date <= today + 1
      invariant ReplayUntil(h0, txs, info, from, date, AsWritten) == Ok(Replayed(holdings, days))
    {
      var next := WalkDay(h0, txs, info, from, today, date, holdings, days);
      if next.Err? {
        return Err(next.error);
      }
      holdings := next.value;
      days := days + [DayPortfolio(date, holdings)];
      date := date + 1;
    }
    BuildFromReplay(h0, txs, info, from, today, AsWritten, holdings, days);
    return Ok(days);
  }

  /** One iteration of the outer loop: the replay grows by one day, or the whole build fails. */
  method WalkDay(h0: Holdings, txs: seq<Transaction>, info: ProductInfo, from: int, today: int, date: int,
                 holdings: Holdings, days: seq<DayPortfolio>) returns (next: Result<Holdings>)
    requires from < today && from <= date <= today
    requires ReplayUntil(h0, txs, info, from, date, AsWritten) == Ok(Replayed(holdings, days))
    ensures next.Err? ==> BuildPortfolios(h0, txs, info, from, today, AsWritten) == Err(next.error)
    ensures next.Ok? ==> ReplayUntil(h0, txs, info, from, date + 1, AsWritten) == Ok(Replayed(next.value, days + [DayPortfolio(date, next.value)]))
  {
    next := NextDay(holdings, txs, info, date);
    ReplayStep(h0, txs, info, from, date, AsWritten, holdings, days, next);
    if next.Err? {
      BuildFails(h0, txs, info, from, today, AsWritten, date + 1);
    }
  }

  /** The unnesting loops of `_build_portfolio`: one row per symbol of each day, and the rows' `(symbol, date)` pairs. */
  method UnnestPortfolios(days: seq<DayPortfolio>) returns (rows: seq<PortfolioRow>, combs: set<(string, int)>)
    ensures rows == Unnest(days) && combs == RowKeys(rows)
  {
    rows, combs := [], {};
    var k := 0;
    while k < |days|
      invariant 0 <= k <= |days|
      invariant rows == Unnest(days[..k])
      invariant combs == RowKeys(rows)
    {
      assert days[..k + 1][..k] == days[..k];
      var p := days[k];
      var line := UnnestDay(p);
      var j := 0;
      while j < |p.holdings|
        invariant 0 <= j <= |p.holdings|
        invariant rows == Unnest(days[..k]) + line[..j]
        invariant combs == RowKeys(rows)
      {
        var row := PortfolioRow(p.date, p.holdings[j].0, p.holdings[j].1);
        assert line[..j + 1] == line[..j] + [row];
        rows := rows + [row];
        combs := combs + {(row.symbol, row.date)};
        j := j + 1;
      }
      assert line[..j] == line;
      k := k + 1;
    }
    assert days[..k] == days;
  }

  // ---------------------------------------------------------------------------
  // _transform_price_data and _transform_symbol_date_combs

  /** The `(symbol, date)` pairs of the long-format prices. */
  function PriceKeys(rows: seq<LongRow>): set<(string, int)>
  {
    set x | x in rows :: (x.symbol, x.date)
  }

  /** `DimensionSymbolDate.objects.filter(date__in=dates)`: the stored pairs on one of the given dates. */
  function StoredCombsOn(dims: seq<DimRow>, combs: set<(string, int)>): (r: set<(string, int)>)
    ensures r <= DimKeys(dims)
  {
    set c | c in DimKeys(dims) && exists e :: e in combs && e.1 == c.1
  }

  /** Filtering against the stored pairs of the same dates is filtering against all stored pairs. */
  lemma NewCombs(dims: seq<DimRow>, combs: set<(string, int)>)
    ensures (set c | c in combs && c !in StoredCombsOn(dims, combs)) == combs - DimKeys(dims)
  {
    forall c | c in combs && c in DimKeys(dims) ensures c in StoredCombsOn(dims, combs) {
      assert c in combs && c.1 == c.1;
    }
  }

  // ---------------------------------------------------------------------------
  // The transformation object

  class Transformation {
    const extracted: ExtractionData
    var transactions: seq<Transaction>
    var productInfo: ProductInfo
    var cashFlows: Dict<int, real>
    var priceData: seq<LongRow>
    var portfolios: seq<PortfolioRow>
    var symbolDateCombs: set<(string, int)>

    /** The constructor after its key checks: every output starts empty. */
    constructor(data: ExtractionData)
      ensures extracted == data
      ensures transactions == [] && productInfo == [] && cashFlows == [] && priceData == [] && portfolios == []
      ensures symbolDateCombs == {}
    {
      extracted := data;
      transactions := [];
      productInfo := [];
      cashFlows := [];
      priceData := [];
      portfolios := [];
      symbolDateCombs := {};
    }

    /** `_transform_transactions`: one cleaned record per raw transaction, in order, or the first error. */
    method TransformTransactions() returns (r: Result<()>)
      modifies this`transactions
      ensures r.Ok? <==> MapResult(extracted.transactions, CleanTransaction).Ok?
      ensures r.Err? ==> r.error == MapResult(extracted.transactions, CleanTransaction).error
                         && transactions == old(transactions)
      ensures r.Ok? ==> transactions == MapResult(extracted.transactions, CleanTransaction).value
    {
      var raws := extracted.transactions;
      var clean: seq<Transaction> := [];
      var i := 0;
      while i < |raws|
        invariant 0 <= i <= |raws|
        invariant MapResult(raws[..i], CleanTransaction) == Ok(clean)
      {
        assert raws[..i + 1][..i] == raws[..i];
        var t := CleanTransaction(raws[i]);
        if t.Err? {
          MapResultErrPersists(raws, CleanTransaction, i + 1);
          return Err(t.error);
        }
        clean := clean + [t.value];
        i := i + 1;
      }
      assert raws[..i] == raws;
      transactions := clean;
      return Ok(());
    }

    /** `_transform_product_info`: the same product ids, each with its cleaned record. */
    method TransformProductInfo()
      requires DistinctKeys(extracted.productInfo)
      modifies this`productInfo
      ensures productInfo == MapValues(extracted.productInfo, CleanProduct)
    {
      var raw := extracted.productInfo;
      var clean: ProductInfo := [];
      var k := 0;
      while k < |raw|
        invariant 0 <= k <= |raw|
        invariant clean == MapValues(raw[..k], CleanProduct)
      {
        assert !HasKey(clean, raw[k].0) by {
          forall i | 0 <= i < k ensures clean[i].0 != raw[k].0 {
            assert raw[..k][i] == raw[i];
          }
        }
        PutNew(clean, raw[k].0, CleanProduct(raw[k].1));
        clean := Put(clean, raw[k].0, CleanProduct(raw[k].1));
        assert raw[..k + 1] == raw[..k] + [raw[k]];
        k := k + 1;
      }
      assert raw[..k] == raw;
      productInfo := clean;
    }

    /**
     * `_transform_cash_flows`: the deposits and withdrawals grouped by date,
     * with any amount already stored on a date added to it.
     */
    method TransformCashFlows(stored: seq<CashflowRow>) returns (r: Result<()>)
      modifies this`cashFlows
      ensures r.Ok? <==> CashFlows(extracted.cashFlows).Ok?
      ensures r.Err? ==> r.error == CashFlows(extracted.cashFlows).error && cashFlows == old(cashFlows)
      ensures r.Ok? ==> MergedCashFlows(CashFlows(extracted.cashFlows).value, stored) == Ok(cashFlows)
    {
      var flows := CashFlows(extracted.cashFlows);
      if flows.Err? {
        return Err(flows.error);
      }
      var grouped := GroupCashFlows(flows.value);
      var existing := StoredOn(stored, grouped);
      if |existing| == 0 {
        cashFlows := grouped;
        return Ok(());
      }
      cashFlows := AddExisting(grouped, existing);
      return Ok(());
    }

    /**
     * `_build_portfolio`: the daily portfolios from the start date through
     * `today`, proved to be `BuildPortfolios` with the rule as written, then
     * unnested into rows whose `(symbol, date)` pairs join the combinations.
     */
    method BuildPortfolio(depot: seq<PortfolioRow>, today: int) returns (r: Result<()>)
      modifies this`portfolios, this`symbolDateCombs
      ensures var built := BuildPortfolios(StartHoldings(depot, extracted.fromDate), transactions, productInfo,
                                           extracted.fromDate, today, AsWritten);
              && (r.Ok? <==> built.Ok?)
              && (r.Err? ==> r.error == KeyError && portfolios == old(portfolios) && symbolDateCombs == old(symbolDateCombs))
              && (r.Ok? ==> portfolios == Unnest(built.value) && symbolDateCombs == old(symbolDateCombs) + RowKeys(portfolios))
    {
      var from := extracted.fromDate;
      var h0 := StartHoldings(depot, from);
      var days := DailyPortfolios(h0, transactions, productInfo, from, today);
      if days.Err? {
        return Err(KeyError);
      }
      var rows, combs := UnnestPortfolios(days.value);
      portfolios := rows;
      symbolDateCombs := symbolDateCombs + combs;
      return Ok(());
    }

    /** `_transform_price_data`: the forward-filled prices in long format, missing prices dropped, their pairs added. */
    method TransformPriceData() returns (r: Result<()>)
      requires extracted.WellFormed()
      modifies this`priceData, this`symbolDateCombs
      ensures r.Ok? <==> extracted.priceData.index != []
      ensures r.Err? ==> r.error == IndexError && priceData == old(priceData) && symbolDateCombs == old(symbolDateCombs)
      ensures r.Ok? ==> priceData == Melt(FfillPriceData(extracted.priceData).value)
                        && symbolDateCombs == old(symbolDateCombs) + PriceKeys(priceData)
    {
      var filled := FfillPriceData(extracted.priceData);
      if filled.Err? {
        return Err(filled.error);
      }
      priceData := Melt(filled.value);
      symbolDateCombs := symbolDateCombs + PriceKeys(priceData);
      return Ok(());
    }

    /** `_transform_symbol_date_combs`: only the pairs that are not stored yet remain. */
    method TransformSymbolDateCombs(dims: seq<DimRow>)
      modifies this`symbolDateCombs
      ensures symbolDateCombs == old(symbolDateCombs) - DimKeys(dims)
    {
      var existing := StoredCombsOn(dims, symbolDateCombs);
      NewCombs(dims, symbolDateCombs);
      symbolDateCombs := set c | c in symbolDateCombs && c !in existing;
    }

    /**
     * What a successful `run` leaves behind, given the stored cash flows,
     * the stored depot, the stored dimension rows and the combinations held
     * before the run.
     */
    ghost predicate Transformed(stored: seq<CashflowRow>, depot: seq<PortfolioRow>, dims: seq<DimRow>,
                                combs0: set<(string, int)>, today: int)
      requires extracted.WellFormed()
      reads this
    {
      && Cleaned(stored)
      && PortfoliosBuilt(depot, today)
      && PricesMelted()
      && symbolDateCombs == combs0 + RowKeys(portfolios) + PriceKeys(priceData) - DimKeys(dims)
    }

    /** The first three steps' results: cleaned transactions and product information, merged cash flows. */
    ghost predicate Cleaned(stored: seq<CashflowRow>)
      reads this`transactions, this`productInfo, this`cashFlows
    {
      && MapResult(extracted.transactions, CleanTransaction) == Ok(transactions)
      && productInfo == MapValues(extracted.productInfo, CleanProduct)
      && CashFlows(extracted.cashFlows).Ok?
      && MergedCashFlows(CashFlows(extracted.cashFlows).value, stored) == Ok(cashFlows)
    }

    /** The replayed portfolios, unnested into rows. */
    ghost predicate PortfoliosBuilt(depot: seq<PortfolioRow>, today: int)
      reads this`transactions, this`productInfo, this`portfolios
    {
      var built := BuildPortfolios(StartHoldings(depot, extracted.fromDate), transactions, productInfo,
                                   extracted.fromDate, today, AsWritten);
      built.Ok? && portfolios == Unnest(built.value)
    }

    /** The forward-filled prices in long format. */
    ghost predicate PricesMelted()
      requires extracted.WellFormed()
      reads this`priceData
    {
      extracted.priceData.index != [] && priceData == Melt(FfillPriceData(extracted.priceData).value)
    }

    /**
     * How `run` ends: the error of the first step that raises one, in step
     * order (transactions, cash flows, portfolios, prices), or success.
     * Product information and the combination step cannot fail.
     */
    function RunOutcome(depot: seq<PortfolioRow>, today: int): Result<()> {
      match MapResult(extracted.transactions, CleanTransaction)
      case Err(e) => Err(e)
      case Ok(txs) => OutcomeFromCashFlows(txs, depot, today)
    }

    /** The outcome of the steps from the cash flows on, once the transactions are cleaned. */
    function OutcomeFromCashFlows(txs: seq<Transaction>, depot: seq<PortfolioRow>, today: int): Result<()> {
      match CashFlows(extracted.cashFlows)
      case Err(e) => Err(e)
      case Ok(_) => OutcomeFromPortfolios(txs, depot, today)
    }

    /** The outcome of the steps from the portfolios on: KeyError for an unknown product, IndexError for an empty price frame. */
    function OutcomeFromPortfolios(txs: seq<Transaction>, depot: seq<PortfolioRow>, today: int): Result<()> {
      var info := MapValues(extracted.productInfo, CleanProduct);
      if BuildPortfolios(StartHoldings(depot, extracted.fromDate), txs, info, extracted.fromDate, today, AsWritten).Err? then Err(KeyError)
      else if extracted.priceData.index == [] then Err(IndexError)
      else Ok(())
    }

    /** `run`: the six steps in order; the first error stops the run. */
    method Run(stored: seq<CashflowRow>, depot: seq<PortfolioRow>, dims: seq<DimRow>, today: int) returns (r: Result<()>)
      requires extracted.WellFormed()
      modifies this`transactions, this`productInfo, this`cashFlows, this`portfolios, this`priceData, this`symbolDateCombs
      ensures r == RunOutcome(depot, today)
      ensures r.Ok? ==> Transformed(stored, depot, dims, old(symbolDateCombs), today)
    {
      r := TransformTransactions();
      if r.Ok? {
        TransformProductInfo();
        r := RunFromCashFlows(stored, depot, dims, today, old(symbolDateCombs));
      }
    }

    /** The steps of `run` after the transactions and the product information. */
    method RunFromCashFlows(stored: seq<CashflowRow>, depot: seq<PortfolioRow>, dims: seq<DimRow>, today: int,
                            ghost combs0: set<(string, int)>) returns (r: Result<()>)
      requires extracted.WellFormed()
      requires MapResult(extracted.transactions, CleanTransaction) == Ok(transactions)
      requires productInfo == MapValues(extracted.productInfo, CleanProduct)
      requires symbolDateCombs == combs0
      modifies this`cashFlows, this`portfolios, this`priceData, this`symbolDateCombs
      ensures r == OutcomeFromCashFlows(transactions, depot, today)
      ensures r.Ok? ==> Transformed(stored, depot, dims, combs0, today)
    {
      r := TransformCashFlows(stored);
      if r.Ok? {
        r := RunFromPortfolios(stored, depot, dims, today, combs0);
      }
    }

    /** The steps of `run` after the cash flows: portfolios, prices, new combinations. */
    method RunFromPortfolios(stored: seq<CashflowRow>, depot: seq<PortfolioRow>, dims: seq<DimRow>, today: int,
                             ghost combs0: set<(string, int)>) returns (r: Result<()>)
      requires extracted.WellFormed()
      requires Cleaned(stored)
      requires symbolDateCombs == combs0
      modifies this`portfolios, this`priceData, this`symbolDateCombs
      ensures r == OutcomeFromPortfolios(transactions, depot, today)
      ensures r.Ok? ==> Transformed(stored, depot, dims, combs0, today)
    {
      ghost var built := BuildPortfolios(StartHoldings(depot, extracted.fromDate), transactions, productInfo,
                                         extracted.fromDate, today, AsWritten);
      assert OutcomeFromPortfolios(transactions, depot, today)
             == if built.Err? then Err(KeyError) else if extracted.priceData.index == [] then Err(IndexError) else Ok(());
      r := BuildPortfolio(depot, today);
      if r.Ok? {
        r := RunFromPrices(dims, combs0 + RowKeys(portfolios));
      }
    }

    /** The steps of `run` after the portfolios: prices, then the new combinations. */
    method RunFromPrices(dims: seq<DimRow>, ghost combs1: set<(string, int)>) returns (r: Result<()>)
      requires extracted.WellFormed()
      requires symbolDateCombs == combs1
      modifies this`priceData, this`symbolDateCombs
      ensures r == if extracted.priceData.index == [] then Err(IndexError) else Ok(())
      ensures r.Ok? ==> PricesMelted() && symbolDateCombs == combs1 + PriceKeys(priceData) - DimKeys(dims)
    {
      r := TransformPriceData();
      if r.Ok? {
        TransformSymbolDateCombs(dims);
        assert r.value == ();
      }
    }
  }
}
