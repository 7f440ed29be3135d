/**
 * The daily portfolio ledger that `Transformation._build_portfolio` rebuilds
 * (portfolio/lib/etl.py): starting from the stored portfolio, walk the
 * calendar one day at a time, total each day's buys and sells per symbol and
 * add the totals to the running holdings with `Counter` addition.
 *
 * These functions are the specification the imperative builder is proved
 * against. The same-day totalling is parameterised by a rule: `AsWritten` is
 * what the code does (a transaction equal to minus the running day total is
 * skipped), `Netting` is the evidently intended plain sum.
 */
module Ledger {
  import opened Wrappers
  import opened Assoc
  import opened Holdings

  /** A cleaned transaction; `date` is a date ordinal and sells carry negative quantities. */
  datatype Transaction = Transaction(
    id: string, productId: string, date: int, buysell: string, price: real, quantity: real, total: real)

  /** A cleaned product record, keyed by product id in `ProductInfo`. */
  datatype Product = Product(productId: string, isin: string, symbol: string, name: string, kind: string, currency: string)

  type ProductInfo = Dict<string, Product>

  predicate IsTrade(t: Transaction) {
    t.buysell == "S" || t.buysell == "B"
  }

  /** The buys and sells dated `d`, in their original order. */
  function DayTransactions(txs: seq<Transaction>, d: int): (r: seq<Transaction>)
    ensures forall t :: t in r <==> t in txs && IsTrade(t) && t.date == d
    ensures forall k :: 0 <= k < |r| ==> IsTrade(r[k]) && r[k].date == d
    decreases |txs|
  {
    if txs == [] then []
    else
      var n := |txs| - 1;
      DayTransactions(txs[..n], d) + (if IsTrade(txs[n]) && txs[n].date == d then [txs[n]] else [])
  }

  datatype SameDayRule = AsWritten | Netting

  /** Adds one transaction's quantity to the day totals. */
  function AddQuantity(q: Holdings, symbol: string, quantity: real, rule: SameDayRule): Holdings {
    match Lookup(q, symbol)
    case None => Put(q, symbol, quantity)
    case Some(v) => if rule == AsWritten && -v == quantity then q else Put(q, symbol, v + quantity)
  }

  /** Every transaction's product id has product info. */
  predicate AllKnown(day: seq<Transaction>, info: ProductInfo) {
    forall t :: t in day ==> HasKey(info, t.productId)
  }

  /** The per-symbol totals of one day's transactions; KeyError for a product id without product info. */
  function DayQuantities(day: seq<Transaction>, info: ProductInfo, rule: SameDayRule): (r: Result<Holdings>)
    ensures r.Ok? <==> AllKnown(day, info)
    ensures r.Err? ==> r.error == KeyError
    ensures r.Ok? ==> DistinctKeys(r.value)
    decreases |day|
  {
    if day == [] then Ok([])
    else
      var n := |day| - 1;
      AllKnownSnoc(day, info);
      match DayQuantities(day[..n], info, rule)
      case Err(e) => Err(e)
      case Ok(q) =>
        match Lookup(info, day[n].productId)
        case None => Err(KeyError)
        case Some(p) =>
          AddQuantityDistinct(q, p.symbol, day[n].quantity, rule);
          Ok(AddQuantity(q, p.symbol, day[n].quantity, rule))
  }

  /** A day's product ids all resolve exactly when its earlier ones and its last one do. */
  lemma AllKnownSnoc(day: seq<Transaction>, info: ProductInfo)
    requires day != []
    ensures AllKnown(day, info) <==> AllKnown(day[..|day| - 1], info) && HasKey(info, day[|day| - 1].productId)
  {
    var n := |day| - 1;
    assert day == day[..n] + [day[n]];
  }

  /** Adding a quantity keeps the symbols distinct. */
  lemma AddQuantityDistinct(q: Holdings, symbol: string, quantity: real, rule: SameDayRule)
    requires DistinctKeys(q)
    ensures DistinctKeys(AddQuantity(q, symbol, quantity, rule))
  {
    match Lookup(q, symbol)
    case None => PutKeepsDistinct(q, symbol, quantity);
    case Some(v) => PutKeepsDistinct(q, symbol, v + quantity);
  }

  /** The symbol of a product id every transaction of the day resolves. */
  function SymbolOf(info: ProductInfo, pid: string): string
    requires HasKey(info, pid)
  {
    Lookup(info, pid).value.symbol
  }

  /** The plain sum of the day's quantities for `s`. */
  function SumFor(day: seq<Transaction>, info: ProductInfo, s: string): real
    requires AllKnown(day, info)
    decreases |day|
  {
    if day == [] then 0.0
    else
      var n := |day| - 1;
      assert day[n] in day;
      assert forall t :: t in day[..n] ==> t in day;
      SumFor(day[..n], info, s) + (if SymbolOf(info, day[n].productId) == s then day[n].quantity else 0.0)
  }

  /** Extending a day by one transaction extends the totals by that transaction. */
  lemma DayQuantitiesSnoc(day: seq<Transaction>, t: Transaction, info: ProductInfo, rule: SameDayRule)
    ensures DayQuantities(day + [t], info, rule)
            == match DayQuantities(day, info, rule)
               case Err(e) => Err(e)
               case Ok(q) =>
                 match Lookup(info, t.productId)
                 case None => Err(KeyError)
                 case Some(p) => Ok(AddQuantity(q, p.symbol, t.quantity, rule))
  {
    assert (day + [t])[..|day|] == day;
  }

  lemma AddQuantityNetting(q: Holdings, symbol: string, quantity: real)
    ensures AddQuantity(q, symbol, quantity, Netting) == Put(q, symbol, Count(q, symbol) + quantity)
  {
  }

  /** One netted step: the new transaction's symbol gains its quantity. */
  lemma NettedStep(q: Holdings, init: seq<Transaction>, t: Transaction, info: ProductInfo, v: real)
    requires DayQuantities(init, info, Netting) == Ok(q)
    requires HasKey(info, t.productId)
    requires v == Count(q, SymbolOf(info, t.productId)) + t.quantity
    ensures DayQuantities(init + [t], info, Netting) == Ok(Put(q, SymbolOf(info, t.productId), v))
  {
    DayQuantitiesSnoc(init, t, info, Netting);
    AddQuantityNetting(q, SymbolOf(info, t.productId), t.quantity);
  }

  /** Extending a day by one transaction adds its quantity to its symbol's plain sum. */
  lemma SumForSnoc(init: seq<Transaction>, t: Transaction, info: ProductInfo, s: string)
    requires AllKnown(init + [t], info)
    ensures AllKnown(init, info) && HasKey(info, t.productId)
    ensures SumFor(init + [t], info, s) == SumFor(init, info, s) + (if SymbolOf(info, t.productId) == s then t.quantity else 0.0)
  {
    assert t in init + [t];
    assert forall u :: u in init ==> u in init + [t];
    assert (init + [t])[..|init|] == init;
  }

  /**
   * With the `Netting` rule a symbol's day total is the plain sum of the
   * quantities of the day's transactions that resolve to it.
   */
  lemma {:induction false} NettedDayTotal(day: seq<Transaction>, info: ProductInfo, s: string)
    requires AllKnown(day, info)
    ensures DayQuantities(day, info, Netting).Ok?
    ensures Count(DayQuantities(day, info, Netting).value, s) == SumFor(day, info, s)
    decreases |day|
  {
    if day != [] {
      var n := |day| - 1;
      var init, t := day[..n], day[n];
      assert day == init + [t];
      SumForSnoc(init, t, info, s);
      NettedDayTotal(init, info, s);
      var q := DayQuantities(init, info, Netting).value;
      var sym := SymbolOf(info, t.productId);
      var v := Count(q, sym) + t.quantity;
      NettedStep(q, init, t, info, v);
      PutLookup(q, sym, v, s);
    }
  }

  /**
   * With the `Netting` rule a symbol appears in the day totals exactly when
   * one of the day's transactions resolves to it.
   */
  lemma {:induction false} NettedDaySymbols(day: seq<Transaction>, info: ProductInfo, s: string)
    requires AllKnown(day, info)
    ensures DayQuantities(day, info, Netting).Ok?
    ensures HasKey(DayQuantities(day, info, Netting).value, s)
            <==> exists t :: t in day && SymbolOf(info, t.productId) == s
    decreases |day|
  {
    if day != [] {
      var n := |day| - 1;
      var init, t := day[..n], day[n];
      assert day == init + [t];
      SumForSnoc(init, t, info, s);
      NettedDaySymbols(init, info, s);
      var q := DayQuantities(init, info, Netting).value;
      var sym := SymbolOf(info, t.productId);
      var v := Count(q, sym) + t.quantity;
      NettedStep(q, init, t, info, v);
      PutLookup(q, sym, v, s);
      assert (exists u :: u in day && SymbolOf(info, u.productId) == s)
             <==> (exists u :: u in init && SymbolOf(info, u.productId) == s) || sym == s by {
        if exists u :: u in day && SymbolOf(info, u.productId) == s {
          var u :| u in day && SymbolOf(info, u.productId) == s;
          if u != t { assert u in init; }
        }
      }
    }
  }

  // ---------------------------------------------------------------------------
  // The code as written: counterexamples to plain summing

  const SampleInfo: ProductInfo := [("1", Product("1", "", "X", "", "", ""))]

  function Trade(quantity: real): Transaction {
    Transaction("", "1", 0, if quantity < 0.0 then "S" else "B", 0.0, quantity, 0.0)
  }

  /** One trade of `X` on a day that holds only `X`. */
  lemma TradeStep(day: seq<Transaction>, v: real, x: real, rule: SameDayRule)
    requires DayQuantities(day, SampleInfo, rule) == Ok([("X", v)])
    ensures DayQuantities(day + [Trade(x)], SampleInfo, rule)
            == Ok(if rule == AsWritten && -v == x then [("X", v)] else [("X", v + x)])
  {
    LookupCons(SampleInfo, "1");
    assert Lookup(SampleInfo, "1") == Some(Product("1", "", "X", "", "", ""));
    DayQuantitiesSnoc(day, Trade(x), SampleInfo, rule);
    var q: Holdings := [("X", v)];
    LookupCons(q, "X");
    assert Lookup(q, "X") == Some(v);
    PutCons(q, "X", v + x);
    assert q[1..] == [];
    assert Put(q, "X", v + x) == [("X", v + x)];
  }

  /** The first trade of the day. */
  lemma FirstTrade(x: real, rule: SameDayRule)
    ensures DayQuantities([Trade(x)], SampleInfo, rule) == Ok([("X", x)])
  {
    LookupCons(SampleInfo, "1");
    assert Lookup(SampleInfo, "1") == Some(Product("1", "", "X", "", "", ""));
    DayQuantitiesSnoc([], Trade(x), SampleInfo, rule);
    assert [] + [Trade(x)] == [Trade(x)];
    assert Put([], "X", x) == [("X", x)];
  }

  /**
   * Buying `x` and selling `x` of a symbol on the same day leaves a day total
   * of `x` with the skip rule, so the sold position is still held afterwards;
   * the plain sum is 0 and the position is gone.
   */
  lemma SkipRuleKeepsSoldPosition(x: real)
    requires x > 0.0
    ensures DayQuantities([Trade(x), Trade(-x)], SampleInfo, AsWritten) == Ok([("X", x)])
    ensures CounterAdd([], [("X", x)]) == [("X", x)]
    ensures DayQuantities([Trade(x), Trade(-x)], SampleInfo, Netting) == Ok([("X", 0.0)])
    ensures CounterAdd([], [("X", 0.0)]) == []
  {
    SoldPositionKept(x);
    SoldPositionDropped(x);
  }

  /** The skip rule ignores the sale, and the bought position is kept. */
  lemma SoldPositionKept(x: real)
    requires x > 0.0
    ensures DayQuantities([Trade(x), Trade(-x)], SampleInfo, AsWritten) == Ok([("X", x)])
    ensures CounterAdd([], [("X", x)]) == [("X", x)]
  {
    SecondTrade([Trade(x), Trade(-x)], x, -x, x, AsWritten);
    CounterAddSingle("X", x);
  }

  /** The plain sum nets the sale to 0, and the position is gone. */
  lemma SoldPositionDropped(x: real)
    ensures DayQuantities([Trade(x), Trade(-x)], SampleInfo, Netting) == Ok([("X", 0.0)])
    ensures CounterAdd([], [("X", 0.0)]) == []
  {
    SecondTrade([Trade(x), Trade(-x)], x, -x, 0.0, Netting);
    CounterAddSingle("X", 0.0);
  }

  /** Adding a one-symbol counter to an empty one keeps the symbol only with a positive count. */
  lemma CounterAddSingle(s: string, v: real)
    ensures CounterAdd([], [(s, v)]) == if v > 0.0 then [(s, v)] else []
  {
    var empty: Holdings, b: Holdings := [], [(s, v)];
    assert b[1..] == [] && b[0] == (s, v);
    assert !HasKey(empty, s);
    assert AddLeft(empty, b) == [];
    assert AddRight(empty, b[1..]) == [];
    assert AddRight(empty, b) == if v > 0.0 then [(s, v)] else [];
  }

  /** With the skip rule the day total depends on the order of the transactions. */
  lemma SkipRuleOrderDependent(x: real, y: real)
    requires x > 0.0 && y > 0.0
    ensures DayQuantities([Trade(x), Trade(-x), Trade(y)], SampleInfo, AsWritten) == Ok([("X", x + y)])
    ensures DayQuantities([Trade(x), Trade(y), Trade(-x)], SampleInfo, AsWritten) == Ok([("X", y)])
  {
    SkipThenBuy(x, y);
    BuyThenSkip(x, y);
  }

  /** Buying `x`, selling `x`, then buying `y`: the sale is skipped. */
  lemma SkipThenBuy(x: real, y: real)
    requires x > 0.0 && y > 0.0
    ensures DayQuantities([Trade(x), Trade(-x), Trade(y)], SampleInfo, AsWritten) == Ok([("X", x + y)])
  {
    ThreeTrades([Trade(x), Trade(-x), Trade(y)], x, -x, y, x, x + y, AsWritten);
  }

  /** Buying `x`, buying `y`, then selling `x`: the sale counts. */
  lemma BuyThenSkip(x: real, y: real)
    requires x > 0.0 && y > 0.0
    ensures DayQuantities([Trade(x), Trade(y), Trade(-x)], SampleInfo, AsWritten) == Ok([("X", y)])
  {
    ThreeTrades([Trade(x), Trade(y), Trade(-x)], x, y, -x, x + y, y, AsWritten);
  }

  /** Three trades of `X`: the second leaves `v`, the third `w`, each skipped when the rule skips it. */
  lemma ThreeTrades(day: seq<Transaction>, a: real, b: real, c: real, v: real, w: real, rule: SameDayRule)
    requires day == [Trade(a), Trade(b), Trade(c)]
    requires v == if rule == AsWritten && -a == b then a else a + b
    requires w == if rule == AsWritten && -v == c then v else v + c
    ensures DayQuantities(day, SampleInfo, rule) == Ok([("X", w)])
  {
    SecondTrade([Trade(a), Trade(b)], a, b, v, rule);
    ThirdTrade(a, b, c, v, w, rule);
  }

  /** Two trades of `X` leave `w`: `a + b`, or `a` when the rule skips the second. */
  lemma SecondTrade(day: seq<Transaction>, a: real, b: real, w: real, rule: SameDayRule)
    requires day == [Trade(a), Trade(b)]
    requires w == if rule == AsWritten && -a == b then a else a + b
    ensures DayQuantities(day, SampleInfo, rule) == Ok([("X", w)])
  {
    FirstTrade(a, rule);
    assert [Trade(a)] + [Trade(b)] == [Trade(a), Trade(b)];
    TradeStep([Trade(a)], a, b, rule);
  }

  /** A third trade of `X` after two that left `v` leaves `w`: `v + c`, or `v` when the rule skips it. */
  lemma ThirdTrade(a: real, b: real, c: real, v: real, w: real, rule: SameDayRule)
    requires DayQuantities([Trade(a), Trade(b)], SampleInfo, rule) == Ok([("X", v)])
    requires w == if rule == AsWritten && -v == c then v else v + c
    ensures DayQuantities([Trade(a), Trade(b), Trade(c)], SampleInfo, rule) == Ok([("X", w)])
  {
    assert [Trade(a), Trade(b)] + [Trade(c)] == [Trade(a), Trade(b), Trade(c)];
    TradeStep([Trade(a), Trade(b)], v, c, rule);
  }

  lemma AddQuantityAgree(q: Holdings, symbol: string, quantity: real)
    requires Count(q, symbol) != -quantity
    ensures AddQuantity(q, symbol, quantity, AsWritten) == AddQuantity(q, symbol, quantity, Netting)
  {
  }

  /**
   * Transaction by transaction, in order: each has product info, and the
   * running total of its symbol before it is not minus its quantity.
   */
  predicate NoCancellation(day: seq<Transaction>, info: ProductInfo)
    decreases |day|
  {
    day == [] ||
    var n := |day| - 1;
    && NoCancellation(day[..n], info)
    && DayQuantities(day[..n], info, AsWritten).Ok?
    && HasKey(info, day[n].productId)
    && Count(DayQuantities(day[..n], info, AsWritten).value, SymbolOf(info, day[n].productId)) != -day[n].quantity
  }

  /** When no transaction cancels the running day total, the code as written computes the plain sum. */
  lemma {:induction false} SkipRuleAgreesWithoutCancellation(day: seq<Transaction>, info: ProductInfo)
    requires NoCancellation(day, info)
    ensures DayQuantities(day, info, AsWritten) == DayQuantities(day, info, Netting)
    decreases |day|
  {
    if day != [] {
      var n := |day| - 1;
      var init, t := day[..n], day[n];
      SkipRuleAgreesWithoutCancellation(init, info);
      AddQuantityAgree(DayQuantities(init, info, AsWritten).value, SymbolOf(info, t.productId), t.quantity);
      assert day == init + [t];
      DayQuantitiesSnoc(init, t, info, AsWritten);
      DayQuantitiesSnoc(init, t, info, Netting);
    }
  }

  // ---------------------------------------------------------------------------
  // Day-by-day replay

  datatype DayPortfolio = DayPortfolio(date: int, holdings: Holdings)

  /** The portfolio after day `d`: unchanged without trades, `Counter`-merged with the day totals otherwise. */
  function NextHoldings(h: Holdings, txs: seq<Transaction>, info: ProductInfo, d: int, rule: SameDayRule)
    : (r: Result<Holdings>)
    ensures r.Err? ==> r.error == KeyError
  {
    var day := DayTransactions(txs, d);
    if day == [] then Ok(h)
    else
      match DayQuantities(day, info, rule)
      case Err(e) => Err(e)
      case Ok(q) => Ok(CounterAdd(h, q))
  }

  datatype Replayed = Replayed(holdings: Holdings, days: seq<DayPortfolio>)

  /** The portfolios of days `from` .. `until - 1`, and the holdings after the last of them. */
  function ReplayUntil(h0: Holdings, txs: seq<Transaction>, info: ProductInfo, from: int, until: int, rule: SameDayRule)
    : (r: Result<Replayed>)
    requires from <= until
    ensures r.Err? ==> r.error == KeyError
    ensures r.Ok? ==> |r.value.days| == until - from
    ensures r.Ok? ==> forall i :: 0 <= i < |r.value.days| ==> r.value.days[i].date == from + i
    ensures r.Ok? && from < until ==> r.value.holdings == r.value.days[until - from - 1].holdings
    ensures r.Ok? && from == until ==> r.value.holdings == h0
    decreases until - from
  {
    if until == from then Ok(Replayed(h0, []))
    else
      match ReplayUntil(h0, txs, info, from, until - 1, rule)
      case Err(e) => Err(e)
      case Ok(l) =>
        match NextHoldings(l.holdings, txs, info, until - 1, rule)
        case Err(e) => Err(e)
        case Ok(h) => Ok(Replayed(h, l.days + [DayPortfolio(until - 1, h)]))
  }

  /** `_build_portfolio`'s list of daily portfolios: days `from` .. `today`, none when `from` is not before `today`. */
  function BuildPortfolios(h0: Holdings, txs: seq<Transaction>, info: ProductInfo, from: int, today: int, rule: SameDayRule)
    : (r: Result<seq<DayPortfolio>>)
    ensures r.Err? ==> r.error == KeyError
    ensures r.Ok? ==> |r.value| == if from < today then today - from + 1 else 0
    ensures r.Ok? ==> forall i :: 0 <= i < |r.value| ==> r.value[i].date == from + i
  {
    if today <= from then Ok([])
    else
      match ReplayUntil(h0, txs, info, from, today + 1, rule)
      case Err(e) => Err(e)
      case Ok(l) => Ok(l.days)
  }

  /** The replay one day further: the next day's holdings appended, or the first error. */
  lemma ReplayExtend(h0: Holdings, txs: seq<Transaction>, info: ProductInfo, from: int, until: int, rule: SameDayRule)
    requires from <= until
    ensures ReplayUntil(h0, txs, info, from, until + 1, rule)
            == match ReplayUntil(h0, txs, info, from, until, rule)
               case Err(e) => Err(e)
               case Ok(l) =>
                 match NextHoldings(l.holdings, txs, info, until, rule)
                 case Err(e) => Err(e)
                 case Ok(h) => Ok(Replayed(h, l.days + [DayPortfolio(until, h)]))
  {
  }

  /** `ReplayExtend` from a known replay, with the next day's holdings named. */
  lemma ReplayStep(h0: Holdings, txs: seq<Transaction>, info: ProductInfo, from: int, until: int, rule: SameDayRule,
                   holdings: Holdings, days: seq<DayPortfolio>, next: Result<Holdings>)
    requires from <= until && ReplayUntil(h0, txs, info, from, until, rule) == Ok(Replayed(holdings, days))
    requires next == NextHoldings(holdings, txs, info, until, rule)
    ensures next.Err? ==> ReplayUntil(h0, txs, info, from, until + 1, rule).Err?
    ensures next.Ok? ==>
              ReplayUntil(h0, txs, info, from, until + 1, rule) == Ok(Replayed(next.value, days + [DayPortfolio(until, next.value)]))
  {
    ReplayExtend(h0, txs, info, from, until, rule);
  }

  /** The portfolios built up to `today` are the replayed days through `today`. */
  lemma BuildFromReplay(h0: Holdings, txs: seq<Transaction>, info: ProductInfo, from: int, today: int, rule: SameDayRule,
                         holdings: Holdings, days: seq<DayPortfolio>)
    requires from < today && ReplayUntil(h0, txs, info, from, today + 1, rule) == Ok(Replayed(holdings, days))
    ensures BuildPortfolios(h0, txs, info, from, today, rule) == Ok(days)
  {
  }

  /** A replay that failed on some day before `today + 1` makes the whole build fail. */
  lemma BuildFails(h0: Holdings, txs: seq<Transaction>, info: ProductInfo, from: int, today: int, rule: SameDayRule,
                   until: int)
    requires from < today && from <= until <= today + 1 && ReplayUntil(h0, txs, info, from, until, rule).Err?
    ensures BuildPortfolios(h0, txs, info, from, today, rule) == Err(KeyError)
  {
    ReplayErrPersists(h0, txs, info, from, until, today + 1, rule);
  }

  /** A replay that failed stays failed however many days follow. */
  lemma {:induction false} ReplayErrPersists(h0: Holdings, txs: seq<Transaction>, info: ProductInfo, from: int,
                                             until: int, end: int, rule: SameDayRule)
    requires from <= until <= end && ReplayUntil(h0, txs, info, from, until, rule).Err?
    ensures ReplayUntil(h0, txs, info, from, end, rule).Err?
    decreases end - until
  {
    if until < end {
      ReplayExtend(h0, txs, info, from, until, rule);
      ReplayErrPersists(h0, txs, info, from, until + 1, end, rule);
    }
  }

  /** Each replayed day is the previous day's portfolio (the start portfolio for the first) advanced by one day. */
  lemma {:induction false} ReplayDay(h0: Holdings, txs: seq<Transaction>, info: ProductInfo, from: int, until: int,
                                     rule: SameDayRule, i: nat)
    requires from <= until && ReplayUntil(h0, txs, info, from, until, rule).Ok?
    requires i < until - from
    ensures var days := ReplayUntil(h0, txs, info, from, until, rule).value.days;
            NextHoldings(if i == 0 then h0 else days[i - 1].holdings, txs, info, from + i, rule) == Ok(days[i].holdings)
    decreases until - from
  {
    ReplayExtend(h0, txs, info, from, until - 1, rule);
    var l := ReplayUntil(h0, txs, info, from, until - 1, rule).value;
    var h := NextHoldings(l.holdings, txs, info, until - 1, rule).value;
    var days := ReplayUntil(h0, txs, info, from, until, rule).value.days;
    assert days == l.days + [DayPortfolio(until - 1, h)];
    if i < until - from - 1 {
      ReplayDay(h0, txs, info, from, until - 1, rule, i);
      assert days[i] == l.days[i];
      if i > 0 { assert days[i - 1] == l.days[i - 1]; }
    } else if i > 0 {
      assert days[i - 1] == l.days[i - 1];
    }
  }

  /** A day without buys or sells repeats the previous portfolio unchanged. */
  lemma CarryForward(h0: Holdings, txs: seq<Transaction>, info: ProductInfo, from: int, today: int,
                     rule: SameDayRule, i: nat)
    requires BuildPortfolios(h0, txs, info, from, today, rule).Ok?
    requires i < |BuildPortfolios(h0, txs, info, from, today, rule).value|
    requires DayTransactions(txs, from + i) == []
    ensures var days := BuildPortfolios(h0, txs, info, from, today, rule).value;
            days[i].holdings == if i == 0 then h0 else days[i - 1].holdings
  {
    ReplayQuietDay(h0, txs, info, from, today + 1, rule, i);
  }

  /** On a trading day the replayed portfolio is the `Counter` sum of the previous one and the day totals. */
  lemma ReplayTradeDay(h0: Holdings, txs: seq<Transaction>, info: ProductInfo, from: int, until: int,
                       rule: SameDayRule, i: nat)
    requires from <= until && ReplayUntil(h0, txs, info, from, until, rule).Ok?
    requires i < until - from && DayTransactions(txs, from + i) != []
    ensures DayQuantities(DayTransactions(txs, from + i), info, rule).Ok?
    ensures var days := ReplayUntil(h0, txs, info, from, until, rule).value.days;
            days[i].holdings
            == CounterAdd(if i == 0 then h0 else days[i - 1].holdings, DayQuantities(DayTransactions(txs, from + i), info, rule).value)
  {
    var days := ReplayUntil(h0, txs, info, from, until, rule).value.days;
    ReplayDay(h0, txs, info, from, until, rule, i);
    var prev := if i == 0 then h0 else days[i - 1].holdings;
    var day := DayTransactions(txs, from + i);
    assert NextHoldings(prev, txs, info, from + i, rule)
           == match DayQuantities(day, info, rule)
              case Err(e) => Err(e)
              case Ok(q) => Ok(CounterAdd(prev, q));
  }

  /** On a day without trades the replayed portfolio repeats the previous one. */
  lemma ReplayQuietDay(h0: Holdings, txs: seq<Transaction>, info: ProductInfo, from: int, until: int,
                       rule: SameDayRule, i: nat)
    requires from <= until && ReplayUntil(h0, txs, info, from, until, rule).Ok?
    requires i < until - from && DayTransactions(txs, from + i) == []
    ensures var days := ReplayUntil(h0, txs, info, from, until, rule).value.days;
            days[i].holdings == if i == 0 then h0 else days[i - 1].holdings
  {
    ReplayDay(h0, txs, info, from, until, rule, i);
  }

  /** Every replayed portfolio is a dictionary when the start portfolio is. */
  lemma {:induction false} ReplayKeepsDistinct(h0: Holdings, txs: seq<Transaction>, info: ProductInfo, from: int,
                                               until: int, rule: SameDayRule, i: nat)
    requires DistinctKeys(h0)
    requires from <= until && ReplayUntil(h0, txs, info, from, until, rule).Ok?
    requires i < until - from
    ensures DistinctKeys(ReplayUntil(h0, txs, info, from, until, rule).value.days[i].holdings)
  {
    var days := ReplayUntil(h0, txs, info, from, until, rule).value.days;
    var prev := if i == 0 then h0 else days[i - 1].holdings;
    assert DistinctKeys(prev) by {
      if i > 0 {
        ReplayKeepsDistinct(h0, txs, info, from, until, rule, i - 1);
      }
    }
    if DayTransactions(txs, from + i) == [] {
      ReplayQuietDay(h0, txs, info, from, until, rule, i);
    } else {
      ReplayTradeDay(h0, txs, info, from, until, rule, i);
      CounterAddDistinct(prev, DayQuantities(DayTransactions(txs, from + i), info, rule).value);
    }
  }

  /** Every daily portfolio is a dictionary when the start portfolio is. */
  lemma ReplayDistinct(h0: Holdings, txs: seq<Transaction>, info: ProductInfo, from: int, today: int,
                       rule: SameDayRule, i: nat)
    requires DistinctKeys(h0)
    requires BuildPortfolios(h0, txs, info, from, today, rule).Ok?
    requires i < |BuildPortfolios(h0, txs, info, from, today, rule).value|
    ensures DistinctKeys(BuildPortfolios(h0, txs, info, from, today, rule).value[i].holdings)
  {
    ReplayKeepsDistinct(h0, txs, info, from, today + 1, rule, i);
  }

  /**
   * A day with buys or sells holds the `Counter` sum of the previous
   * portfolio and the day totals; with `CounterAddLookup` this gives, per
   * symbol, the previous pieces plus the day total when that is positive.
   */
  lemma TradeDay(h0: Holdings, txs: seq<Transaction>, info: ProductInfo, from: int, today: int,
                 rule: SameDayRule, i: nat)
    requires BuildPortfolios(h0, txs, info, from, today, rule).Ok?
    requires i < |BuildPortfolios(h0, txs, info, from, today, rule).value|
    requires DayTransactions(txs, from + i) != []
    ensures DayQuantities(DayTransactions(txs, from + i), info, rule).Ok?
    ensures var days := BuildPortfolios(h0, txs, info, from, today, rule).value;
            days[i].holdings
            == CounterAdd(if i == 0 then h0 else days[i - 1].holdings, DayQuantities(DayTransactions(txs, from + i), info, rule).value)
  {
    ReplayTradeDay(h0, txs, info, from, today + 1, rule, i);
  }

  /** The replay fails, with KeyError, exactly when a buy or sell in the replayed days has no product info. */
  lemma {:induction false} ReplayFails(h0: Holdings, txs: seq<Transaction>, info: ProductInfo, from: int, until: int,
                                       rule: SameDayRule)
    requires from <= until
    ensures ReplayUntil(h0, txs, info, from, until, rule).Err?
            <==> exists t :: t in txs && IsTrade(t) && from <= t.date < until && !HasKey(info, t.productId)
    decreases until - from
  {
    if from < until {
      ReplayFails(h0, txs, info, from, until - 1, rule);
      var d := until - 1;
      var day := DayTransactions(txs, d);
      if (exists t :: t in txs && IsTrade(t) && t.date == d && !HasKey(info, t.productId)) {
        var t :| t in txs && IsTrade(t) && t.date == d && !HasKey(info, t.productId);
        assert t in day;
      }
    }
  }

  // ---------------------------------------------------------------------------
  // Unnesting into rows and dimension keys

  datatype PortfolioRow = PortfolioRow(date: int, symbol: string, pieces: real)

  function UnnestDay(p: DayPortfolio): (r: seq<PortfolioRow>)
    ensures |r| == |p.holdings|
    ensures forall k :: 0 <= k < |r| ==> r[k] == PortfolioRow(p.date, p.holdings[k].0, p.holdings[k].1)
  {
    seq(|p.holdings|, k requires 0 <= k < |p.holdings| => PortfolioRow(p.date, p.holdings[k].0, p.holdings[k].1))
  }

  /** One `(date, symbol, pieces)` row per symbol of each daily portfolio, day after day. */
  function Unnest(days: seq<DayPortfolio>): seq<PortfolioRow>
    decreases |days|
  {
    if days == [] then []
    else
      var n := |days| - 1;
      Unnest(days[..n]) + UnnestDay(days[n])
  }

  /** A row is unnested exactly when some day carries its date and holds its symbol with its pieces. */
  lemma {:induction false} UnnestRows(days: seq<DayPortfolio>, row: PortfolioRow)
    ensures row in Unnest(days) <==>
              (exists i :: 0 <= i < |days| && row.date == days[i].date && (row.symbol, row.pieces) in days[i].holdings)
    decreases |days|
  {
    if days != [] {
      var n := |days| - 1;
      UnnestRows(days[..n], row);
      var last := UnnestDay(days[n]);
      if row.date == days[n].date && (row.symbol, row.pieces) in days[n].holdings {
        var k :| 0 <= k < |days[n].holdings| && days[n].holdings[k] == (row.symbol, row.pieces);
        assert last[k] == row;
      }
      if (exists i :: 0 <= i < |days| && row.date == days[i].date && (row.symbol, row.pieces) in days[i].holdings) {
        var i :| 0 <= i < |days| && row.date == days[i].date && (row.symbol, row.pieces) in days[i].holdings;
        if i < n {
          assert days[..n][i] == days[i];
        }
      }
    }
  }

  /** The `(symbol, date)` keys of the unnested rows. */
  function RowKeys(rows: seq<PortfolioRow>): set<(string, int)>
  {
    set row | row in rows :: (row.symbol, row.date)
  }
}
