/**
 * The local reshaping in the broker client `DegiroAPI`
 * (portfolio/lib/degiro_api.py): batching product ids in chunks of ten and
 * merging the per-chunk answers, turning the `{name, value}` lists of the
 * account data into dictionaries, and cleaning account movements. Every HTTP
 * exchange is a parameter: its status code and decoded body, or a function
 * that stands for the call.
 */
module DegiroApi {
  import opened Wrappers
  import opened Assoc
  import opened DateFormats

  /** A decoded JSON scalar. */
  datatype Json = JStr(s: string) | JNum(n: real) | JNull

  /** One `{"name": ..., "value": ...}` object; `value` is None when the key is absent. */
  datatype NamedValue = NamedValue(name: string, value: Option<Json>)

  // ---------------------------------------------------------------------------
  // Chunks of ten

  const ChunkSize: nat := 10

  /** `[ids[i * 10:(i + 1) * 10] for i in range((len(ids) + 9) // 10)]`. */
  function Chunks<T>(ids: seq<T>): (r: seq<seq<T>>)
    ensures |r| == (|ids| + ChunkSize - 1) / ChunkSize
    ensures forall i :: 0 <= i < |r| ==> 0 < |r[i]| <= ChunkSize
    decreases |ids|
  {
    if |ids| <= ChunkSize then (if ids == [] then [] else [ids])
    else [ids[..ChunkSize]] + Chunks(ids[ChunkSize..])
  }

  function Concat<T>(parts: seq<seq<T>>): seq<T>
    decreases |parts|
  {
    if parts == [] then [] else parts[0] + Concat(parts[1..])
  }

  /** The chunks, joined back together, are the ids in their original order. */
  lemma {:induction false} ChunksConcat<T>(ids: seq<T>)
    ensures Concat(Chunks(ids)) == ids
    decreases |ids|
  {
    if |ids| > ChunkSize {
      ChunksConcat(ids[ChunkSize..]);
      assert Chunks(ids)[1..] == Chunks(ids[ChunkSize..]);
      assert ids == ids[..ChunkSize] + ids[ChunkSize..];
    }
  }

  /** Every chunk but the last is full. */
  lemma {:induction false} ChunksFull<T>(ids: seq<T>, i: nat)
    requires i + 1 < |Chunks(ids)|
    ensures |Chunks(ids)[i]| == ChunkSize
    decreases |ids|
  {
    if i > 0 {
      assert Chunks(ids)[i] == Chunks(ids[ChunkSize..])[i - 1];
      ChunksFull(ids[ChunkSize..], i - 1);
    }
  }

  // ---------------------------------------------------------------------------
  // get_products_by_id

  /** The dictionaries merged one after the other, `{**out, **answer}` each time. */
  function MergeAll<V>(answers: seq<Dict<string, V>>): Dict<string, V>
    decreases |answers|
  {
    if answers == [] then [] else Merge(MergeAll(answers[..|answers| - 1]), answers[|answers| - 1])
  }

  lemma MergeAllStep<V>(answers: seq<Dict<string, V>>, k: nat)
    requires k < |answers|
    ensures MergeAll(answers[..k + 1]) == Merge(MergeAll(answers[..k]), answers[k])
  {
    assert answers[..k + 1][..k] == answers[..k];
  }

  /** One answer per chunk, in chunk order. */
  function Answers<V>(chunks: seq<seq<string>>, fetch: seq<string> -> Dict<string, V>): (r: seq<Dict<string, V>>)
    ensures |r| == |chunks|
    ensures forall i :: 0 <= i < |r| ==> r[i] == fetch(chunks[i])
  {
    seq(|chunks|, i requires 0 <= i < |chunks| => fetch(chunks[i]))
  }

  /**
   * `get_products_by_id`: one request per chunk (`fetch` stands for
   * `get_product_by_id`), the answers merged in chunk order.
   */
  method GetProductsById<V>(ids: seq<string>, fetch: seq<string> -> Dict<string, V>)
    returns (out: Dict<string, V>)
    ensures out == MergeAll(Answers(Chunks(ids), fetch))
  {
    var chunks := Chunks(ids);
    ghost var answers := Answers(chunks, fetch);
    out := [];
    var k := 0;
    while k < |chunks|
      invariant 0 <= k <= |chunks|
      invariant out == MergeAll(answers[..k])
    {
      MergeAllStep(answers, k);
      out := Merge(out, fetch(chunks[k]));
      k := k + 1;
    }
    assert answers[..|chunks|] == answers;
  }

  /** The dictionaries that have the key `k`. */
  function WithKey<V>(k: string): Dict<string, V> -> bool {
    d => HasKey(d, k)
  }

  /** A key is in the merged answer exactly when some answer has it. */
  lemma {:induction false} MergeAllHasKey<V>(answers: seq<Dict<string, V>>, k: string)
    requires forall i :: 0 <= i < |answers| ==> DistinctKeys(answers[i])
    ensures Lookup(MergeAll(answers), k).Some? <==> AnyOf(answers, WithKey(k))
    decreases |answers|
  {
    if answers != [] {
      var n := |answers| - 1;
      assert forall i :: 0 <= i < n ==> answers[..n][i] == answers[i];
      MergeAllHasKey(answers[..n], k);
      MergeLookup(MergeAll(answers[..n]), answers[n], k);
      AnyOfSnoc(answers, WithKey(k));
    }
  }

  /** In the merged answer a key holds the value of the LAST answer that has it. */
  lemma {:induction false} MergeAllLast<V>(answers: seq<Dict<string, V>>, k: string, i: nat)
    requires forall i :: 0 <= i < |answers| ==> DistinctKeys(answers[i])
    requires i < |answers| && HasKey(answers[i], k)
    requires forall j :: i < j < |answers| ==> !HasKey(answers[j], k)
    ensures Lookup(MergeAll(answers), k) == Lookup(answers[i], k)
    decreases |answers|
  {
    var n := |answers| - 1;
    var init := answers[..n];
    assert MergeAll(answers) == Merge(MergeAll(init), answers[n]);
    MergeLookup(MergeAll(init), answers[n], k);
    if i < n {
      assert forall j :: 0 <= j < n ==> init[j] == answers[j];
      MergeAllLast(init, k, i);
    }
  }

  // ---------------------------------------------------------------------------
  // get_cash_funds

  datatype FundsState = FundsState(key: Option<Json>, funds: Dict<Json, Dict<string, Json>>)

  /**
   * The inner loop over one cash fund's fields: a `currencyCode` field sets
   * the key (which survives from the previous fund), every other field is
   * stored under its name; a field without a value raises KeyError.
   */
  function FundFields(fields: seq<NamedValue>, key: Option<Json>): (r: Result<(Option<Json>, Dict<string, Json>)>)
    ensures r.Ok? ==> DistinctKeys(r.value.1) && !HasKey(r.value.1, "currencyCode")
    ensures r.Err? ==> r.error == KeyError
    decreases |fields|
  {
    if fields == [] then Ok((key, []))
    else
      var n := |fields| - 1;
      var y := fields[n];
      match FundFields(fields[..n], key)
      case Err(e) => Err(e)
      case Ok((k, entry)) =>
        if y.value.None? then Err(KeyError)
        else if y.name == "currencyCode" then Ok((y.value, entry))
        else
          PutKeepsDistinct(entry, y.name, y.value.value);
          PutLookup(entry, y.name, y.value.value, "currencyCode");
          Ok((k, Put(entry, y.name, y.value.value)))
  }

  /** A field that has no value. */
  predicate Valueless(y: NamedValue) {
    y.value.None?
  }

  /** The inner loop fails exactly when some field has no value. */
  lemma {:induction false} FundFieldsErr(fields: seq<NamedValue>, key: Option<Json>)
    ensures FundFields(fields, key).Err? <==> AnyOf(fields, Valueless)
    decreases |fields|
  {
    if fields != [] {
      FundFieldsErr(fields[..|fields| - 1], key);
      AnyOfSnoc(fields, Valueless);
    }
  }

  /** The outer loop: each fund is stored under the key in force after its fields; UnboundLocal when there is none yet. */
  function CashFundsUpTo(rows: seq<seq<NamedValue>>): (r: Result<FundsState>)
    decreases |rows|
  {
    if rows == [] then Ok(FundsState(None, []))
    else
      var n := |rows| - 1;
      match CashFundsUpTo(rows[..n])
      case Err(e) => Err(e)
      case Ok(st) =>
        match FundFields(rows[n], st.key)
        case Err(e) => Err(e)
        case Ok((k, entry)) =>
          if k.None? then Err(UnboundLocal) else Ok(FundsState(k, Put(st.funds, k.value, entry)))
  }

  /** `get_cash_funds` over the decoded `cashFunds.value` list. */
  method GetCashFunds(rows: seq<seq<NamedValue>>) returns (r: Result<Dict<Json, Dict<string, Json>>>)
    ensures CashFundsUpTo(rows).Err? ==> r == Err(CashFundsUpTo(rows).error)
    ensures CashFundsUpTo(rows).Ok? ==> r == Ok(CashFundsUpTo(rows).value.funds)
  {
    var funds: Dict<Json, Dict<string, Json>> := [];
    var key: Option<Json> := None;
    var i := 0;
    while i < |rows|
      invariant 0 <= i <= |rows|
      invariant CashFundsUpTo(rows[..i]) == Ok(FundsState(key, funds))
    {
      var fields := rows[i];
      ghost var st := FundsState(key, funds);
      var entry: Dict<string, Json> := [];
      var j := 0;
      while j < |fields|
        invariant 0 <= j <= |fields|
        invariant FundFields(fields[..j], st.key) == Ok((key, entry))
      {
        var y := fields[j];
        if y.value.None? {
          FundFieldsErr(fields, st.key);
          AnyOfWitness(fields, Valueless, j);
          CashFundsNext(rows, i, st);
          CashFundsErrPersists(rows, i + 1);
          return Err(KeyError);
        }
        FundFieldsNext(fields, st.key, j, key, entry);
        if y.name == "currencyCode" {
          key := y.value;
        } else {
          entry := Put(entry, y.name, y.value.value);
        }
        j := j + 1;
      }
      assert fields[..j] == fields;
      CashFundsNext(rows, i, st);
      if key.None? {
        CashFundsErrPersists(rows, i + 1);
        return Err(UnboundLocal);
      }
      funds := Put(funds, key.value, entry);
      i := i + 1;
    }
    assert rows[..i] == rows;
    return Ok(funds);
  }

  /** One more field of a fund that has a value. */
  lemma FundFieldsNext(fields: seq<NamedValue>, key0: Option<Json>, j: nat, key: Option<Json>, entry: Dict<string, Json>)
    requires j < |fields| && FundFields(fields[..j], key0) == Ok((key, entry)) && fields[j].value.Some?
    ensures FundFields(fields[..j + 1], key0)
            == if fields[j].name == "currencyCode" then Ok((fields[j].value, entry))
               else Ok((key, Put(entry, fields[j].name, fields[j].value.value)))
  {
    assert fields[..j + 1][..j] == fields[..j];
  }

  /** One more fund: its fields' error, UnboundLocal without a key, or the fund stored under the key. */
  lemma CashFundsNext(rows: seq<seq<NamedValue>>, i: nat, st: FundsState)
    requires i < |rows| && CashFundsUpTo(rows[..i]) == Ok(st)
    ensures FundFields(rows[i], st.key).Err? ==> CashFundsUpTo(rows[..i + 1]) == Err(KeyError)
    ensures FundFields(rows[i], st.key).Ok? ==>
              var (k, entry) := FundFields(rows[i], st.key).value;
              CashFundsUpTo(rows[..i + 1]) == if k.None? then Err(UnboundLocal) else Ok(FundsState(k, Put(st.funds, k.value, entry)))
  {
    assert rows[..i + 1][..i] == rows[..i];
  }

  /** Once a prefix of the funds fails, the whole list fails with the same error. */
  lemma {:induction false} CashFundsErrPersists(rows: seq<seq<NamedValue>>, i: nat)
    requires i <= |rows| && CashFundsUpTo(rows[..i]).Err?
    ensures CashFundsUpTo(rows) == CashFundsUpTo(rows[..i])
    decreases |rows| - i
  {
    if i < |rows| {
      assert rows[..i + 1][..i] == rows[..i];
      CashFundsErrPersists(rows, i + 1);
    } else {
      assert rows[..i] == rows;
    }
  }

  /** A fund that names its currency is stored under the value of its last `currencyCode` field. */
  lemma {:induction false} FundFieldsKey(fields: seq<NamedValue>, key: Option<Json>, i: nat)
    requires FundFields(fields, key).Ok?
    requires i < |fields| && fields[i].name == "currencyCode"
    requires forall j :: i < j < |fields| ==> fields[j].name != "currencyCode"
    ensures FundFields(fields, key).value.0 == fields[i].value
    decreases |fields|
  {
    var n := |fields| - 1;
    var init := fields[..n];
    assert forall j :: 0 <= j < n ==> init[j] == fields[j];
    if i < n {
      FundFieldsKey(init, key, i);
    }
  }

  /** A fund without a `currencyCode` field keeps the key of the fund before it. */
  lemma {:induction false} FundFieldsKeepsKey(fields: seq<NamedValue>, key: Option<Json>)
    requires FundFields(fields, key).Ok?
    requires forall i :: 0 <= i < |fields| ==> fields[i].name != "currencyCode"
    ensures FundFields(fields, key).value.0 == key
    decreases |fields|
  {
    if fields != [] {
      var n := |fields| - 1;
      var init := fields[..n];
      assert forall j :: 0 <= j < n ==> init[j] == fields[j];
      FundFieldsKeepsKey(init, key);
    }
  }

  // ---------------------------------------------------------------------------
  // get_portfolio: the reshaping of the account data (the enrichment request
  // that follows it is not modelled)

  function FieldPairs(fields: seq<NamedValue>): (ps: seq<(string, Json)>)
    ensures |ps| == |fields|
    ensures forall i :: 0 <= i < |fields| ==> ps[i] == (fields[i].name, fields[i].value.GetOr(JNull))
  {
    seq(|fields|, i requires 0 <= i < |fields| => (fields[i].name, fields[i].value.GetOr(JNull)))
  }

  /** One position's `{name: value}` dictionary; a field without a value holds null. */
  function PositionEntry(fields: seq<NamedValue>): Dict<string, Json> {
    FromPairs(FieldPairs(fields))
  }

  /** A field name holds the value of its LAST field, or null when that field has none; a name no field has is absent. */
  lemma PositionEntryLookup(fields: seq<NamedValue>, k: string)
    ensures (forall i :: 0 <= i < |fields| ==> fields[i].name != k) ==> Lookup(PositionEntry(fields), k).None?
    ensures forall i :: 0 <= i < |fields| && fields[i].name == k
                        && (forall j :: i < j < |fields| ==> fields[j].name != k)
              ==> Lookup(PositionEntry(fields), k) == Some(fields[i].value.GetOr(JNull))
  {
    var ps := FieldPairs(fields);
    if forall i :: 0 <= i < |fields| ==> fields[i].name != k {
      MergeUntouched([], ps, k);
    }
    forall i | 0 <= i < |fields| && fields[i].name == k && (forall j :: i < j < |fields| ==> fields[j].name != k)
      ensures Lookup(PositionEntry(fields), k) == Some(fields[i].value.GetOr(JNull))
    {
      FromPairsLast(ps, k, i);
    }
  }

  /** A position is closed when its size is zero. */
  predicate Closed(e: Dict<string, Json>) {
    Lookup(e, "size") == Some(JNum(0.0))
  }

  /**
   * The first loop of `get_portfolio`: the positions as dictionaries, closed
   * ones dropped; KeyError when a position has no `size` field.
   */
  function OpenPositions(rows: seq<seq<NamedValue>>): (r: Result<seq<Dict<string, Json>>>)
    ensures r.Err? ==> r.error == KeyError
    decreases |rows|
  {
    if rows == [] then Ok([])
    else
      var n := |rows| - 1;
      var e := PositionEntry(rows[n]);
      match OpenPositions(rows[..n])
      case Err(err) => Err(err)
      case Ok(ps) =>
        if !HasKey(e, "size") then Err(KeyError)
        else Ok(if Closed(e) then ps else ps + [e])
  }

  /** A position that has no `size` field. */
  predicate NoSize(fields: seq<NamedValue>) {
    !HasKey(PositionEntry(fields), "size")
  }

  /** The loop fails exactly when some position has no `size`. */
  lemma {:induction false} OpenPositionsErr(rows: seq<seq<NamedValue>>)
    ensures OpenPositions(rows).Err? <==> AnyOf(rows, NoSize)
    decreases |rows|
  {
    if rows != [] {
      OpenPositionsErr(rows[..|rows| - 1]);
      AnyOfSnoc(rows, NoSize);
    }
  }

  /** The position whose dictionary is `e`, when `e` is not closed. */
  function OpenAs(e: Dict<string, Json>): seq<NamedValue> -> bool {
    fields => e == PositionEntry(fields) && !Closed(e)
  }

  /** Without an error, the loop keeps exactly the open positions. */
  lemma {:induction false} OpenPositionsKept(rows: seq<seq<NamedValue>>, e: Dict<string, Json>)
    requires OpenPositions(rows).Ok?
    ensures e in OpenPositions(rows).value <==> AnyOf(rows, OpenAs(e))
    decreases |rows|
  {
    if rows != [] {
      OpenPositionsKept(rows[..|rows| - 1], e);
      AnyOfSnoc(rows, OpenAs(e));
    }
  }

  /** Positions by `positionType`, then by product `id`. */
  type Grouped = Dict<Json, Dict<Json, Dict<string, Json>>>

  /** A position without the two fields it is filed under. */
  function Stripped(e: Dict<string, Json>): (r: Dict<string, Json>)
    ensures !HasKey(r, "positionType") && !HasKey(r, "id")
    ensures forall k :: k != "positionType" && k != "id" ==> Lookup(r, k) == Lookup(e, k)
  {
    var r := Remove(Remove(e, "positionType"), "id");
    assert !HasKey(r, "positionType") by {
      RemoveLookup(Remove(e, "positionType"), "id", "positionType");
    }
    forall k | k != "positionType" && k != "id" ensures Lookup(r, k) == Lookup(e, k) {
      RemoveLookup(e, "positionType", k);
      RemoveLookup(Remove(e, "positionType"), "id", k);
    }
    r
  }

  /** `portf_n[t][id] = v` on the nested `defaultdict`: the group `t` (empty when new) with `v` stored under `id`. */
  function File(g: Grouped, t: Json, id: Json, v: Dict<string, Json>): Grouped {
    Put(g, t, Put(Lookup(g, t).GetOr([]), id, v))
  }

  /** After filing, the value is found under its type and id. */
  lemma FileFound(g: Grouped, t: Json, id: Json, v: Dict<string, Json>)
    ensures Lookup(File(g, t, id, v), t).Some?
    ensures Lookup(Lookup(File(g, t, id, v), t).value, id) == Some(v)
  {
    var inner := Lookup(g, t).GetOr([]);
    PutLookup(g, t, Put(inner, id, v), t);
    PutLookup(inner, id, v, id);
  }

  /** Filing under another type or another id leaves what is found under `(t2, id2)` as it was. */
  lemma FileKeeps(g: Grouped, t: Json, id: Json, v: Dict<string, Json>, t2: Json, id2: Json)
    requires Lookup(g, t2).Some? && (t != t2 || id != id2)
    ensures Lookup(File(g, t, id, v), t2).Some?
    ensures Lookup(Lookup(File(g, t, id, v), t2).value, id2) == Lookup(Lookup(g, t2).value, id2)
  {
    var inner := Lookup(g, t).GetOr([]);
    PutLookup(g, t, Put(inner, id, v), t2);
    if t == t2 {
      PutLookup(inner, id, v, id2);
    }
  }

  /**
   * The restructuring loop: each position, stripped, is stored under its type
   * and its id (a later position with the same pair replaces an earlier one);
   * KeyError when a position has no `positionType` or no `id`.
   */
  function GroupPositions(ps: seq<Dict<string, Json>>): (r: Result<Grouped>)
    ensures r.Err? ==> r.error == KeyError
    decreases |ps|
  {
    if ps == [] then Ok([])
    else
      var n := |ps| - 1;
      var p := ps[n];
      match GroupPositions(ps[..n])
      case Err(err) => Err(err)
      case Ok(g) =>
        match (Lookup(p, "positionType"), Lookup(p, "id"))
        case (Some(t), Some(id)) => Ok(File(g, t, id, Stripped(p)))
        case _ => Err(KeyError)
  }

  /** A position that lacks `positionType` or `id`. */
  predicate Unfileable(p: Dict<string, Json>) {
    !(HasKey(p, "positionType") && HasKey(p, "id"))
  }

  /** The restructuring fails exactly when some position lacks `positionType` or `id`. */
  lemma {:induction false} GroupPositionsErr(ps: seq<Dict<string, Json>>)
    ensures GroupPositions(ps).Err? <==> AnyOf(ps, Unfileable)
    decreases |ps|
  {
    if ps != [] {
      GroupPositionsErr(ps[..|ps| - 1]);
      AnyOfSnoc(ps, Unfileable);
    }
  }

  /** The positions filed under type `t` and id `id`. */
  function FiledUnder(t: Json, id: Json): Dict<string, Json> -> bool {
    p => Lookup(p, "positionType") == Some(t) && Lookup(p, "id") == Some(id)
  }

  /** The last position filed under a type and an id is the one found there. */
  lemma {:induction false} GroupPositionsLast(ps: seq<Dict<string, Json>>, i: nat, t: Json, id: Json)
    requires GroupPositions(ps).Ok? && i < |ps|
    requires FiledUnder(t, id)(ps[i]) && NoneAfter(ps, i, FiledUnder(t, id))
    ensures Lookup(GroupPositions(ps).value, t).Some?
    ensures Lookup(Lookup(GroupPositions(ps).value, t).value, id) == Some(Stripped(ps[i]))
    decreases |ps|
  {
    var n := |ps| - 1;
    var p, init := ps[n], ps[..n];
    GroupStep(ps);
    var g := GroupPositions(init).value;
    var t', id' := Lookup(p, "positionType").value, Lookup(p, "id").value;
    if i == n {
      assert t' == t && id' == id;
      FileFound(g, t, id, Stripped(p));
    } else {
      assert init[i] == ps[i];
      assert !FiledUnder(t, id)(p);
      NoneAfterPrefix(ps, i, FiledUnder(t, id), n);
      GroupPositionsLast(init, i, t, id);
      FileKeeps(g, t', id', Stripped(p), t, id);
    }
  }

  lemma GroupStep(ps: seq<Dict<string, Json>>)
    requires ps != [] && GroupPositions(ps).Ok?
    ensures var n := |ps| - 1;
            GroupPositions(ps[..n]).Ok? && HasKey(ps[n], "positionType") && HasKey(ps[n], "id")
            && var g := GroupPositions(ps[..n]).value;
               var t, id := Lookup(ps[n], "positionType").value, Lookup(ps[n], "id").value;
               GroupPositions(ps).value == File(g, t, id, Stripped(ps[n]))
  {
  }

  /** `list(portf_n['PRODUCT'].keys())` reads the `defaultdict`, which files an empty `PRODUCT` group when there is none. */
  function WithProductGroup(g: Grouped): (r: Grouped)
    ensures HasKey(r, JStr("PRODUCT"))
    ensures forall t :: t != JStr("PRODUCT") ==> Lookup(r, t) == Lookup(g, t)
    ensures Lookup(r, JStr("PRODUCT")) == Some(Lookup(g, JStr("PRODUCT")).GetOr([]))
  {
    if HasKey(g, JStr("PRODUCT")) then g
    else
      forall t ensures Lookup(Put(g, JStr("PRODUCT"), []), t) == if t == JStr("PRODUCT") then Some([]) else Lookup(g, t) {
        PutLookup(g, JStr("PRODUCT"), [], t);
      }
      Put(g, JStr("PRODUCT"), [])
  }

  /** What `get_portfolio` returns before it asks the broker for product details. */
  function PortfolioShape(rows: seq<seq<NamedValue>>): Result<Grouped> {
    match OpenPositions(rows)
    case Err(e) => Err(e)
    case Ok(ps) =>
      match GroupPositions(ps)
      case Err(e) => Err(e)
      case Ok(g) => Ok(WithProductGroup(g))
  }

  /** `get_portfolio` over the decoded `portfolio.value` list, up to the enrichment request. */
  method GetPortfolio(rows: seq<seq<NamedValue>>) returns (r: Result<Grouped>)
    ensures r == PortfolioShape(rows)
  {
    var open: seq<Dict<string, Json>> := [];
    var i := 0;
    while i < |rows|
      invariant 0 <= i <= |rows|
      invariant OpenPositions(rows[..i]) == Ok(open)
    {
      var fields := rows[i];
      var entry: Dict<string, Json> := [];
      var j := 0;
      while j < |fields|
        invariant 0 <= j <= |fields|
        invariant entry == FromPairs(FieldPairs(fields)[..j])
      {
        var y := fields[j];
        var v := if y.value.Some? then y.value.value else JNull;
        EntryNext(fields, j);
        entry := Put(entry, y.name, v);
        j := j + 1;
      }
      assert FieldPairs(fields)[..j] == FieldPairs(fields);
      OpenPositionsNext(rows, i, open);
      var size := Lookup(entry, "size");
      if size.None? {
        OpenPositionsErrPersists(rows, i + 1);
        return Err(KeyError);
      }
      if size != Some(JNum(0.0)) {
        open := open + [entry];
      }
      i := i + 1;
    }
    assert rows[..i] == rows;
    var g: Grouped := [];
    var k := 0;
    while k < |open|
      invariant 0 <= k <= |open|
      invariant GroupPositions(open[..k]) == Ok(g)
    {
      var p := open[k];
      GroupPositionsNext(open, k, g);
      var t, id := Lookup(p, "positionType"), Lookup(p, "id");
      if t.None? || id.None? {
        GroupPositionsErrPersists(open, k + 1);
        return Err(KeyError);
      }
      g := File(g, t.value, id.value, Stripped(p));
      k := k + 1;
    }
    assert open[..k] == open;
    return Ok(WithProductGroup(g));
  }

  /** `entry[k] = v` for one more field. */
  lemma EntryNext(fields: seq<NamedValue>, j: nat)
    requires j < |fields|
    ensures FromPairs(FieldPairs(fields)[..j + 1])
            == Put(FromPairs(FieldPairs(fields)[..j]), fields[j].name, fields[j].value.GetOr(JNull))
  {
    var ps := FieldPairs(fields);
    MergeSnoc([], ps[..j], ps[j]);
    assert ps[..j + 1] == ps[..j] + [ps[j]];
  }

  /** One more position: KeyError without `size`, dropped when closed, kept otherwise. */
  lemma OpenPositionsNext(rows: seq<seq<NamedValue>>, i: nat, open: seq<Dict<string, Json>>)
    requires i < |rows| && OpenPositions(rows[..i]) == Ok(open)
    ensures var e := PositionEntry(rows[i]);
            OpenPositions(rows[..i + 1]) == if !HasKey(e, "size") then Err(KeyError) else Ok(if Closed(e) then open else open + [e])
  {
    assert rows[..i + 1][..i] == rows[..i];
  }

  /** One more open position: KeyError without `positionType` or `id`, filed otherwise. */
  lemma GroupPositionsNext(ps: seq<Dict<string, Json>>, k: nat, g: Grouped)
    requires k < |ps| && GroupPositions(ps[..k]) == Ok(g)
    ensures GroupPositions(ps[..k + 1])
            == match (Lookup(ps[k], "positionType"), Lookup(ps[k], "id"))
               case (Some(t), Some(id)) => Ok(File(g, t, id, Stripped(ps[k])))
               case _ => Err(KeyError)
  {
    assert ps[..k + 1][..k] == ps[..k];
  }

  lemma {:induction false} OpenPositionsErrPersists(rows: seq<seq<NamedValue>>, i: nat)
    requires i <= |rows| && OpenPositions(rows[..i]).Err?
    ensures OpenPositions(rows) == OpenPositions(rows[..i])
    decreases |rows| - i
  {
    if i < |rows| {
      assert rows[..i + 1][..i] == rows[..i];
      OpenPositionsErrPersists(rows, i + 1);
    } else {
      assert rows[..i] == rows;
    }
  }

  lemma {:induction false} GroupPositionsErrPersists(ps: seq<Dict<string, Json>>, i: nat)
    requires i <= |ps| && GroupPositions(ps[..i]).Err?
    ensures GroupPositions(ps) == GroupPositions(ps[..i])
    decreases |ps| - i
  {
    if i < |ps| {
      assert ps[..i + 1][..i] == ps[..i];
      GroupPositionsErrPersists(ps, i + 1);
    } else {
      assert ps[..i] == ps;
    }
  }

  // ---------------------------------------------------------------------------
  // get_account_movements

  /** Index of the last `c` in `s`. */
  function LastIndexOf(s: string, c: char): (r: Option<nat>)
    ensures r.None? <==> c !in s
    ensures r.Some? ==> r.value < |s| && s[r.value] == c && forall j :: r.value < j < |s| ==> s[j] != c
    decreases |s|
  {
    if s == [] then None
    else if s[|s| - 1] == c then Some(|s| - 1)
    else
      assert s == s[..|s| - 1] + [s[|s| - 1]];
      LastIndexOf(s[..|s| - 1], c)
  }

  /** `''.join(s.rsplit(':', 1))`: the last colon removed, if there is one. */
  function DropLastColon(s: string): string {
    match LastIndexOf(s, ':')
    case None => s
    case Some(i) => s[..i] + s[i + 1..]
  }

  lemma DropLastColonAppend(x: string, y: string)
    requires ':' !in y
    ensures DropLastColon(x + [':'] + y) == x + y
  {
    var s := x + [':'] + y;
    assert s[|x|] == ':';
    assert forall j :: |x| < j < |s| ==> s[j] == y[j - |x| - 1];
    assert LastIndexOf(s, ':') == Some(|x|);
    assert s[..|x|] == x && s[|x| + 1..] == y;
  }

  /** A broker timestamp: whole seconds and an offset in whole minutes under a day. */
  predicate BrokerTime(t: Timestamp) {
    0 <= t.hour < 24 && 0 <= t.minute < 60 && 0 <= t.second < 60
    && t.offsetSeconds % 60 == 0 && -86400 < t.offsetSeconds < 86400 && t.offsetMicros == 0
  }

  /** The offset as `isoformat` writes it, with a colon: `+01:00`. */
  function OffsetText(offset: int): (s: string)
    requires offset % 60 == 0 && -86400 < offset < 86400
    ensures |s| == 6 && (s[0] == '+' || s[0] == '-') && s[3] == ':'
  {
    var a := if offset < 0 then -offset else offset;
    [if offset < 0 then '-' else '+'] + Pad2(a / 3600) + [':'] + Pad2(a / 60 % 60)
  }

  /** `t.isoformat()`, the form of the broker's `date` field, e.g. `2020-03-02T09:00:00+01:00`. */
  function TimestampText(t: Timestamp): string
    requires BrokerTime(t)
  {
    FormatIso(t.date) + "T" + Pad2(t.hour) + [':'] + Pad2(t.minute) + [':'] + Pad2(t.second) + OffsetText(t.offsetSeconds)
  }

  lemma {:induction false} FindTAt(s: string, from: nat, k: nat)
    requires from <= k < |s| && s[k] == 'T'
    requires forall i :: from <= i < k ==> s[i] != 'T' && s[i] != 't'
    ensures FindT(s, from) == Some(k)
    decreases k - from
  {
    if from < k {
      FindTAt(s, from + 1, k);
    }
  }

  lemma {:induction false} CharIndexAt(s: string, c: char, from: nat, k: nat)
    requires from <= k < |s| && s[k] == c
    requires forall i :: from <= i < k ==> s[i] != c
    ensures CharIndex(s, c, from) == Some(k)
    decreases k - from
  {
    if from < k {
      CharIndexAt(s, c, from + 1, k);
    }
  }

  /** A whole-minute offset under a day is its hours and minutes. */
  lemma OffsetParts(a: int)
    requires a % 60 == 0 && 0 <= a < 86400
    ensures a == 3600 * (a / 3600) + 60 * (a / 60 % 60) && a / 3600 < 24 && a / 60 % 60 < 60
  {
    assert a == 60 * (a / 60);
    assert a / 60 == 60 * (a / 3600) + a / 60 % 60;
  }

  /** The offset `isoformat` writes reads back, with its colon and without it. */
  lemma OffsetFieldText(offset: int)
    requires offset % 60 == 0 && -86400 < offset < 86400
    ensures var z := OffsetText(offset); OffsetField(z[..3] + z[4..]) == Some((offset, 0))
    ensures OffsetField(OffsetText(offset)) == Some((offset, 0))
  {
    var a := if offset < 0 then -offset else offset;
    var h, m := a / 3600, a / 60 % 60;
    OffsetParts(a);
    var hh, mm := Pad2(h), Pad2(m);
    var z := OffsetText(offset);
    var w := z[..3] + z[4..];
    assert w == [z[0]] + hh + mm;
    assert w[1..3] == hh && w[3..5] == mm;
    assert OffsetField(w) == Some((offset, 0));
  }

  lemma ClockFields(t: Timestamp)
    requires BrokerTime(t)
    ensures HourField(Pad2(t.hour)) == Some(t.hour)
    ensures MinuteField(Pad2(t.minute)) == Some(t.minute)
    ensures SecondField(Pad2(t.second)) == Some(t.second)
  {
  }

  /** The text `strptime` sees: the broker timestamp without the colon of its offset. */
  function ColonlessText(t: Timestamp): string
    requires BrokerTime(t)
  {
    var z := OffsetText(t.offsetSeconds);
    FormatIso(t.date) + "T" + Pad2(t.hour) + [':'] + Pad2(t.minute) + [':'] + (Pad2(t.second) + (z[..3] + z[4..]))
  }

  lemma DropOffsetColon(t: Timestamp)
    requires BrokerTime(t)
    ensures DropLastColon(TimestampText(t)) == ColonlessText(t)
  {
    var z := OffsetText(t.offsetSeconds);
    assert z == z[..3] + [':'] + z[4..];
    var head := FormatIso(t.date) + "T" + Pad2(t.hour) + [':'] + Pad2(t.minute) + [':'] + Pad2(t.second);
    assert TimestampText(t) == (head + z[..3]) + [':'] + z[4..];
    DropLastColonAppend(head + z[..3], z[4..]);
  }

  /** The clock part, followed by an offset text that reads as the timestamp's offset, reads back as the clock and the offset. */
  lemma ParseClockText(t: Timestamp, w: string)
    requires BrokerTime(t) && w != [] && !IsDigit(w[0])
    requires OffsetField(w) == Some((t.offsetSeconds, t.offsetMicros))
    ensures ParseClock(Pad2(t.hour) + [':'] + (Pad2(t.minute) + [':'] + (Pad2(t.second) + w)))
            == Some((t.hour, t.minute, t.second, t.offsetSeconds, t.offsetMicros))
  {
    var hh, mm, ss := Pad2(t.hour), Pad2(t.minute), Pad2(t.second);
    var clock := ss + w;
    var s := hh + [':'] + (mm + [':'] + clock);
    CharIndexAt(s, ':', 0, 2);
    CharIndexAt(s, ':', 3, 5);
    assert s[..2] == hh && s[3..5] == mm && s[6..] == clock;
    DigitPrefixTwo(ss, w);
    assert clock[..2] == ss && clock[2..] == w;
    ClockFields(t);
  }

  /** A broker timestamp's date and clock, followed by such an offset text, parse back to the timestamp. */
  lemma ParseWithOffset(t: Timestamp, w: string)
    requires BrokerTime(t) && w != [] && !IsDigit(w[0])
    requires OffsetField(w) == Some((t.offsetSeconds, t.offsetMicros))
    ensures ParseTimestamp(FormatIso(t.date) + "T" + Pad2(t.hour) + [':'] + Pad2(t.minute) + [':'] + (Pad2(t.second) + w)) == Some(t)
  {
    var date, hh, mm, ss := FormatIso(t.date), Pad2(t.hour), Pad2(t.minute), Pad2(t.second);
    var rest := hh + [':'] + (mm + [':'] + (ss + w));
    var s := FormatIso(t.date) + "T" + Pad2(t.hour) + [':'] + Pad2(t.minute) + [':'] + (Pad2(t.second) + w);
    assert s == date + "T" + rest;
    FindTAt(s, 0, 10);
    assert s[..10] == date && s[11..] == rest;
    ParseIsoFormatIso(t.date);
    ParseClockText(t, w);
  }

  lemma DigitPrefixTwo(ss: string, w: string)
    requires |ss| == 2 && IsDigit(ss[0]) && IsDigit(ss[1]) && w != [] && !IsDigit(w[0])
    ensures DigitPrefix(ss + w) == 2
  {
    assert (ss + w)[1..] == [ss[1]] + w;
    assert (ss + w)[1..][1..] == w;
  }

  /** The colon dropped from the offset, a broker timestamp reads back as the timestamp it was written from. */
  lemma TimestampRoundTrip(t: Timestamp)
    requires BrokerTime(t)
    ensures ParseTimestamp(DropLastColon(TimestampText(t))) == Some(t)
  {
    DropOffsetColon(t);
    var z := OffsetText(t.offsetSeconds);
    OffsetFieldText(t.offsetSeconds);
    ParseWithOffset(t, z[..3] + z[4..]);
  }

  /** Since Python 3.7 `strptime` also reads the broker timestamp as it stands, colon and all. */
  lemma IsoformatParses(t: Timestamp)
    requires BrokerTime(t)
    ensures ParseTimestamp(TimestampText(t)) == Some(t)
  {
    var z := OffsetText(t.offsetSeconds);
    OffsetFieldText(t.offsetSeconds);
    var head := FormatIso(t.date) + "T" + Pad2(t.hour) + [':'] + Pad2(t.minute) + [':'];
    assert TimestampText(t) == head + (Pad2(t.second) + z);
    ParseWithOffset(t, z);
  }

  /** One movement as the broker sends it; a field is None when its key is absent. */
  datatype RawMovement = RawMovement(
    date: Option<string>, change: Option<Json>, currency: Option<Json>, description: Option<Json>,
    kind: Option<Json>, orderId: Option<Json>, productId: Option<Json>)

  /** One cleaned movement; `kind` is the `type` key. */
  datatype Movement = Movement(
    date: Timestamp, change: Option<Json>, currency: Json, description: Json,
    kind: Json, orderId: Option<Json>, productId: Option<Json>)

  /**
   * One pass of the loop: the date is read first (KeyError when absent,
   * ValueError when it does not parse), then `currency`, `description` and
   * `type` are required; `change`, `orderId` and `productId` are copied when present.
   */
  function CleanMovement(m: RawMovement): (r: Result<Movement>)
    ensures r.Ok? <==> m.date.Some? && ParseTimestamp(DropLastColon(m.date.value)).Some?
                       && m.currency.Some? && m.description.Some? && m.kind.Some?
    ensures m.date.Some? && ParseTimestamp(DropLastColon(m.date.value)).None? ==> r == Err(ValueError)
    ensures r.Err? && r.error != ValueError ==> r == Err(KeyError)
    ensures r.Ok? ==> Some(r.value.date) == ParseTimestamp(DropLastColon(m.date.value))
                      && r.value.change == m.change && r.value.orderId == m.orderId && r.value.productId == m.productId
                      && m.currency == Some(r.value.currency) && m.description == Some(r.value.description)
                      && m.kind == Some(r.value.kind)
  {
    if m.date.None? then Err(KeyError)
    else
      match ParseTimestamp(DropLastColon(m.date.value))
      case None => Err(ValueError)
      case Some(ts) =>
        if m.currency.None? || m.description.None? || m.kind.None? then Err(KeyError)
        else Ok(Movement(ts, m.change, m.currency.value, m.description.value, m.kind.value, m.orderId, m.productId))
  }

  /**
   * `get_account_movements`: both dates are checked first; no movements when
   * the request fails. A successful answer is `data`: None without a `data`
   * key (KeyError), Some(None) when `data` has no `cashMovements` (no
   * movements), Some(Some(ms)) with the raw movements, every one cleaned.
   */
  method GetAccountMovements(fromDate: DateArg, toDate: DateArg, status: int, data: Option<Option<seq<RawMovement>>>)
    returns (r: Result<seq<Movement>>)
    ensures DmyDateString(fromDate).Err? ==> r == Err(DmyDateString(fromDate).error)
    ensures DmyDateString(fromDate).Ok? && DmyDateString(toDate).Err? ==> r == Err(DmyDateString(toDate).error)
    ensures DmyDateString(fromDate).Ok? && DmyDateString(toDate).Ok? ==>
              r == if status != 200 then Ok([])
                   else if data.None? then Err(KeyError)
                   else if data.value.None? then Ok([])
                   else MapResult(data.value.value, CleanMovement)
  {
    var from := DmyDateString(fromDate);
    if from.Err? {
      return Err(from.error);
    }
    var to := DmyDateString(toDate);
    if to.Err? {
      return Err(to.error);
    }
    if status != 200 {
      return Ok([]);
    }
    if data.None? {
      return Err(KeyError);
    }
    if data.value.None? {
      return Ok([]);
    }
    r := CleanMovements(data.value.value);
  }

  /** The `for rmov in data['data']['cashMovements']` loop: every movement cleaned, or the first error. */
  method CleanMovements(raws: seq<RawMovement>) returns (r: Result<seq<Movement>>)
    ensures r == MapResult(raws, CleanMovement)
  {
    var movs: seq<Movement> := [];
    var i := 0;
    while i < |raws|
      invariant 0 <= i <= |raws|
      invariant MapResult(raws[..i], CleanMovement) == Ok(movs)
    {
      assert raws[..i + 1][..i] == raws[..i];
      var m := CleanMovement(raws[i]);
      if m.Err? {
        MapResultErrPersists(raws, CleanMovement, i + 1);
        return Err(m.error);
      }
      movs := movs + [m.value];
      i := i + 1;
    }
    assert raws[..i] == raws;
    return Ok(movs);
  }

  /** A movement whose date is a broker timestamp and which has the required keys is kept, with that timestamp. */
  lemma CleanMovementKeeps(m: RawMovement, t: Timestamp)
    requires BrokerTime(t) && m.date == Some(TimestampText(t))
    requires m.currency.Some? && m.description.Some? && m.kind.Some?
    ensures CleanMovement(m).Ok? && CleanMovement(m).value.date == t
  {
    TimestampRoundTrip(t);
  }

  /** `get_transactions`: both dates are checked first; no transactions when the request fails, else the `data` list (KeyError without it). */
  function GetTransactions<T>(fromDate: DateArg, toDate: DateArg, status: int, data: Option<seq<T>>): (r: Result<seq<T>>)
    ensures r.Err? <==> DmyDateString(fromDate).Err? || DmyDateString(toDate).Err? || (status == 200 && data.None?)
    ensures r.Ok? && status == 200 ==> r == Ok(data.value)
    ensures r.Ok? && status != 200 ==> r == Ok([])
  {
    match (DmyDateString(fromDate), DmyDateString(toDate))
    case (Err(e), _) => Err(e)
    case (_, Err(e)) => Err(e)
    case _ =>
      if status != 200 then Ok([])
      else if data.None? then Err(KeyError)
      else Ok(data.value)
  }
}
