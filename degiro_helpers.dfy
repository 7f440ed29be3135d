/**
 * The helpers of portfolio/lib/degiro_helpers.py around the broker client:
 * the product lookup in chunks of ten, the daily cash flows derived from the
 * account movements, and the allocation table of the current portfolio.
 */
module DegiroHelpers {
  import opened Wrappers
  import opened Assoc
  import opened Calendar
  import opened DegiroApi
  import opened EtlTransform
  import Aggregation

  // ---------------------------------------------------------------------------
  // get_info_by_productId

  /**
   * `get_info_by_productId`: one request per chunk of at most ten ids
   * (`fetch` stands for `get_product_by_id`), the answers appended in chunk
   * order rather than merged.
   */
  method GetInfoByProductId<V>(ids: seq<string>, fetch: seq<string> -> Dict<string, V>)
    returns (out: seq<Dict<string, V>>)
    ensures out == Answers(Chunks(ids), fetch)
  {
    var chunks := Chunks(ids);
    out := [];
    var k := 0;
    while k < |chunks|
      invariant 0 <= k <= |chunks|
      invariant out == Answers(chunks[..k], fetch)
    {
      out := out + [fetch(chunks[k])];
      k := k + 1;
    }
    assert chunks[..k] == chunks;
  }

  // ---------------------------------------------------------------------------
  // get_cashflows

  /** `df.type == 'TRANSACTION'`. */
  predicate IsTransaction(m: Movement) {
    m.kind == JStr("TRANSACTION")
  }

  /** The `change` of a movement; a missing one is NaN, which `sum` skips, and one that is not a number is read as 0. */
  function ChangeOf(m: Movement): real {
    if m.change.Some? && m.change.value.JNum? then m.change.value.n else 0.0
  }

  function Negate(x: real): real {
    -x
  }

  /** The transactions among the movements, each as its calendar day and its change, in order. */
  function TransactionFlows(ms: seq<Movement>): seq<(int, real)>
    decreases |ms|
  {
    if ms == [] then []
    else
      var n := |ms| - 1;
      TransactionFlows(ms[..n]) + (if IsTransaction(ms[n]) then [(Ordinal(ms[n].date.date), ChangeOf(ms[n]))] else [])
  }

  /** The transactions that fall on day `d`. */
  function TransactionOn(d: int): Movement -> bool {
    (m: Movement) => IsTransaction(m) && Ordinal(m.date.date) == d
  }

  /** A day has transaction flows exactly when a transaction movement falls on it. */
  lemma {:induction false} TransactionFlowsDated(ms: seq<Movement>, d: int)
    ensures Dated(TransactionFlows(ms), d) <==> AnyOf(ms, TransactionOn(d))
    decreases |ms|
  {
    if ms != [] {
      var n := |ms| - 1;
      var init := TransactionFlows(ms[..n]);
      TransactionFlowsDated(ms[..n], d);
      AnyOfSnoc(ms, TransactionOn(d));
      if IsTransaction(ms[n]) {
        DatedSnoc(init, (Ordinal(ms[n].date.date), ChangeOf(ms[n])), d);
        assert TransactionOn(d)(ms[n]) <==> Ordinal(ms[n].date.date) == d;
      } else {
        assert TransactionFlows(ms) == init + [] == init;
        assert !TransactionOn(d)(ms[n]);
      }
    }
  }

  /** Adds `c` on day `d` to rows ordered by date: to the row of `d`, or as a new row in date order. */
  function AddSorted(rows: Dict<int, real>, d: int, c: real): (r: Dict<int, real>)
    ensures r != [] && r[0].0 == (if rows == [] || d < rows[0].0 then d else rows[0].0)
    decreases |rows|
  {
    if rows == [] then [(d, c)]
    else if rows[0].0 == d then [(d, rows[0].1 + c)] + rows[1..]
    else if d < rows[0].0 then [(d, c)] + rows
    else [rows[0]] + AddSorted(rows[1..], d, c)
  }

  lemma AscendingTail(rows: Dict<int, real>)
    requires Aggregation.Ascending(rows) && rows != []
    ensures Aggregation.Ascending(rows[1..])
    ensures forall i :: 0 <= i < |rows[1..]| ==> rows[0].0 < rows[1..][i].0
  {
    forall i | 0 <= i < |rows[1..]| ensures rows[0].0 < rows[1..][i].0 {
      assert rows[1..][i] == rows[i + 1];
    }
  }

  /** Adding keeps the rows ordered by date. */
  lemma {:induction false} AddSortedAscending(rows: Dict<int, real>, d: int, c: real)
    requires Aggregation.Ascending(rows)
    ensures Aggregation.Ascending(AddSorted(rows, d, c))
    decreases |rows|
  {
    var r := AddSorted(rows, d, c);
    if rows != [] {
      AscendingTail(rows);
      if rows[0].0 == d {
        forall p, q | 0 <= p < q < |r| ensures r[p].0 < r[q].0 {
          assert r[q].0 == rows[q].0;
          if p > 0 {
            assert r[p].0 == rows[p].0;
          }
        }
      } else if d < rows[0].0 {
        forall p, q | 0 <= p < q < |r| ensures r[p].0 < r[q].0 {
          assert r[q] == rows[q - 1];
          if p > 0 {
            assert r[p] == rows[p - 1];
          }
        }
      } else {
        var t := AddSorted(rows[1..], d, c);
        AddSortedAscending(rows[1..], d, c);
        assert r == [rows[0]] + t;
        assert rows[0].0 < t[0].0;
        forall p, q | 0 <= p < q < |r| ensures r[p].0 < r[q].0 {
          assert r[q] == t[q - 1];
          if p > 0 {
            assert r[p] == t[p - 1];
          } else if q > 1 {
            assert t[0].0 < t[q - 1].0;
          }
        }
      }
    }
  }

  /** Adding puts the sum on day `d` and leaves every other day as it was. */
  lemma {:induction false} AddSortedLookup(rows: Dict<int, real>, d: int, c: real, e: int)
    requires Aggregation.Ascending(rows)
    ensures Lookup(AddSorted(rows, d, c), e) == if e == d then Some(Accumulate(Lookup(rows, d), c)) else Lookup(rows, e)
    decreases |rows|
  {
    var r := AddSorted(rows, d, c);
    if rows == [] {
      LookupCons(r, e);
    } else {
      LookupCons(r, e);
      LookupCons(rows, e);
      LookupCons(rows, d);
      AscendingTail(rows);
      if rows[0].0 == d {
        assert r[1..] == rows[1..];
      } else if d < rows[0].0 {
        assert r[1..] == rows;
        if e == d {
          Aggregation.AscendingBounds(rows);
          assert !HasKey(rows, d);
        }
      } else {
        assert r[1..] == AddSorted(rows[1..], d, c);
        AddSortedLookup(rows[1..], d, c, e);
      }
    }
  }

  /** `groupby('date').sum()` over dated flows: one row per day, in date order. */
  function GroupSorted(flows: seq<(int, real)>): Dict<int, real>
    decreases |flows|
  {
    if flows == [] then []
    else
      var n := |flows| - 1;
      AddSorted(GroupSorted(flows[..n]), flows[n].0, flows[n].1)
  }

  /** The grouped rows are ordered by date, and each day holds the sum of that day's flows; a day without flows is absent. */
  lemma {:induction false} GroupSortedLookup(flows: seq<(int, real)>, d: int)
    ensures Aggregation.Ascending(GroupSorted(flows))
    ensures Lookup(GroupSorted(flows), d) == if Dated(flows, d) then Some(SumOn(flows, d)) else None
    decreases |flows|
  {
    if flows != [] {
      var n := |flows| - 1;
      var init, f := flows[..n], flows[n];
      assert flows == init + [f];
      GroupSortedLookup(init, d);
      GroupSortedLookup(init, f.0);
      AddSortedAscending(GroupSorted(init), f.0, f.1);
      AddSortedLookup(GroupSorted(init), f.0, f.1, d);
      DatedSnoc(init, f, d);
      SumOnSnoc(init, f, d);
      if !Dated(init, d) {
        SumOnUndated(init, d);
      }
    }
  }

  /**
   * `get_cashflows` on the movements since the start date: the changes of the
   * `'TRANSACTION'` movements summed per day, in date order, and negated into
   * `cashflow`. Without movements the frame has no `type` column
   * (AttributeError); when no movement has a `change` the column selection
   * raises KeyError.
   */
  function GetCashflows(ms: seq<Movement>): (r: Result<Dict<int, real>>)
    ensures r.Err? <==> ms == [] || forall i :: 0 <= i < |ms| ==> ms[i].change.None?
  {
    if ms == [] then Err(AttributeError)
    else if forall i :: 0 <= i < |ms| ==> ms[i].change.None? then Err(KeyError)
    else Ok(MapValues(GroupSorted(TransactionFlows(ms)), Negate))
  }

  /** The cash flows are ordered by day. */
  lemma GetCashflowsAscending(ms: seq<Movement>)
    requires GetCashflows(ms).Ok?
    ensures Aggregation.Ascending(GetCashflows(ms).value)
  {
    var g := GroupSorted(TransactionFlows(ms));
    var r := MapValues(g, Negate);
    assert GetCashflows(ms).value == r;
    GroupSortedLookup(TransactionFlows(ms), 0);
    assert forall p :: 0 <= p < |r| ==> r[p].0 == g[p].0;
  }

  /**
   * A day holds minus the sum of the changes of that day's transactions;
   * days without a transaction are absent.
   */
  lemma GetCashflowsOn(ms: seq<Movement>, d: int)
    requires GetCashflows(ms).Ok?
    ensures var flows := TransactionFlows(ms);
            Lookup(GetCashflows(ms).value, d) == if Dated(flows, d) then Some(-SumOn(flows, d)) else None
  {
    var flows := TransactionFlows(ms);
    var g := GroupSorted(flows);
    var r := MapValues(g, Negate);
    assert GetCashflows(ms).value == r;
    GroupSortedLookup(flows, d);
    MapValuesLookup(g, Negate, d);
    if Dated(flows, d) {
      assert Lookup(r, d) == Some(Negate(SumOn(flows, d)));
    } else {
      assert Lookup(r, d) == None;
    }
  }

  /** There are no cash flows exactly when no movement is a transaction. */
  lemma GetCashflowsEmpty(ms: seq<Movement>)
    requires GetCashflows(ms).Ok?
    ensures GetCashflows(ms).value == [] <==> forall i :: 0 <= i < |ms| ==> !IsTransaction(ms[i])
  {
    var flows := GetCashflows(ms).value;
    if flows != [] {
      var d := flows[0].0;
      assert HasKey(flows, d);
      GetCashflowsOn(ms, d);
      TransactionFlowsDated(ms, d);
      var m :| 0 <= m < |ms| && TransactionOn(d)(ms[m]);
    }
    forall i | 0 <= i < |ms| && IsTransaction(ms[i]) ensures flows != [] {
      var d := Ordinal(ms[i].date.date);
      assert TransactionOn(d)(ms[i]);
      TransactionFlowsDated(ms, d);
      GetCashflowsOn(ms, d);
    }
  }

  // ---------------------------------------------------------------------------
  // generate_portfolio_data

  /** A product position of `get_portfolio()['PRODUCT']`. */
  datatype Product = Product(symbol: string, name: string, size: real, price: real)

  /** A row of the table: name, `int(size)`, and the symbol, price, subtotal and allocation. */
  datatype PortfolioLine = PortfolioLine(name: string, size: int, row: Aggregation.Allocated)

  /** Python's `int()` on a float: truncation toward zero. */
  function Trunc(x: real): (r: int)
    ensures 0.0 <= x ==> r as real <= x < r as real + 1.0
    ensures x < 0.0 ==> r as real - 1.0 < x <= r as real
  {
    if 0.0 <= x then x.Floor else -((-x).Floor)
  }

  function Positions(products: seq<Product>): (ps: seq<Aggregation.Position>)
    ensures |ps| == |products|
  {
    seq(|products|, i requires 0 <= i < |products| =>
      Aggregation.Position(products[i].symbol, products[i].size, products[i].price))
  }

  /**
   * `generate_portfolio_data`: per product the truncated size, the subtotal
   * `size * price` and its share of the account's `equity` (NaN when the
   * equity is zero).
   */
  function PortfolioData(products: seq<Product>, equity: real): (r: seq<PortfolioLine>)
    ensures |r| == |products|
  {
    var rows := Aggregation.AllocateAgainst(Positions(products), equity);
    seq(|products|, i requires 0 <= i < |products| => PortfolioLine(products[i].name, Trunc(products[i].size), rows[i]))
  }

  function Rows(lines: seq<PortfolioLine>): seq<Aggregation.Allocated> {
    seq(|lines|, i requires 0 <= i < |lines| => lines[i].row)
  }

  /**
   * The allocations are shares of the equity, not of the positions' total:
   * they sum to that total over the equity, which is one only when the
   * equity is the sum of the subtotals.
   */
  lemma PortfolioDataAllocations(products: seq<Product>, equity: real)
    requires equity != 0.0
    ensures Aggregation.AllocationSum(Rows(PortfolioData(products, equity)))
            == Aggregation.Total(Positions(products)) / equity
  {
    var ps := Positions(products);
    assert Rows(PortfolioData(products, equity)) == Aggregation.AllocateAgainst(ps, equity);
    Aggregation.AllocateAgainstSum(ps, equity);
  }
}
