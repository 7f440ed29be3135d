/**
 * Date-indexed series and frames as the pandas code uses them: an index of
 * date ordinals, columns of optional values (None is NaN), a left merge onto
 * a dense calendar range followed by a forward fill, and the melt into long
 * format that drops missing values.
 */
module Series {
  import opened Wrappers
  import opened Calendar

  predicate StrictlyIncreasing(index: seq<int>) {
    forall p, q :: 0 <= p < q < |index| ==> index[p] < index[q]
  }

  /**
   * The value of the latest row dated on or before `d` that has a value; None
   * when there is no such row. This is the reference a forward fill must meet.
   */
  function LastKnown(index: seq<int>, values: seq<Option<real>>, d: int): Option<real>
    requires |values| == |index|
    decreases |index|
  {
    if index == [] then None
    else
      var n := |index| - 1;
      if index[n] <= d && values[n].Some? then values[n] else LastKnown(index[..n], values[..n], d)
  }

  /** Nothing is known before the first date. */
  lemma {:induction false} LastKnownBeforeFirst(index: seq<int>, values: seq<Option<real>>, d: int)
    requires |values| == |index| && StrictlyIncreasing(index)
    requires index != [] && d < index[0]
    ensures LastKnown(index, values, d) == None
    decreases |index|
  {
    var n := |index| - 1;
    if n > 0 {
      LastKnownBeforeFirst(index[..n], values[..n], d);
    }
  }

  /**
   * Stepping one day forward: with `i` the first row dated on or after `d`,
   * the value known at `d` is that row's when it is dated `d` and has one,
   * and the value known the day before otherwise.
   */
  lemma {:induction false} LastKnownStep(index: seq<int>, values: seq<Option<real>>, d: int, i: nat)
    requires |values| == |index| && StrictlyIncreasing(index)
    requires i <= |index|
    requires forall p :: 0 <= p < i ==> index[p] < d
    requires forall p :: i <= p < |index| ==> index[p] >= d
    ensures LastKnown(index, values, d)
            == if i < |index| && index[i] == d && values[i].Some? then values[i] else LastKnown(index, values, d - 1)
    decreases |index|
  {
    if index != [] {
      var n := |index| - 1;
      if i == |index| {
        LastKnownStep(index[..n], values[..n], d, n);
      } else if i == n {
        if index[n] == d && values[n].Some? {
        } else {
          LastKnownStep(index[..n], values[..n], d, n);
        }
      } else {
        assert index[i] < index[n];
        LastKnownStep(index[..n], values[..n], d, i);
      }
    }
  }

  /** The value known at `d` is that of the latest row on or before `d` with a value. */
  lemma {:induction false} LastKnownLatest(index: seq<int>, values: seq<Option<real>>, j: nat, d: int)
    requires |values| == |index| && j < |index|
    requires index[j] <= d && values[j].Some?
    requires forall p :: j < p < |index| ==> d < index[p] || values[p].None?
    ensures LastKnown(index, values, d) == values[j]
    decreases |index|
  {
    var n := |index| - 1;
    if j < n {
      assert forall p :: j < p < n ==> d < index[..n][p] || values[..n][p].None? by {
        forall p | j < p < n ensures d < index[..n][p] || values[..n][p].None? {
          assert index[..n][p] == index[p] && values[..n][p] == values[p];
        }
      }
      LastKnownLatest(index[..n], values[..n], j, d);
    }
  }

  /** Over a dense range of days, a day with a value knows that value. */
  lemma FillDenseKeeps(start: int, values: seq<Option<real>>, k: nat)
    requires k < |values| && values[k].Some?
    ensures LastKnown(DateRange(start, start + |values| - 1), values, start + k) == values[k]
  {
    var days := DateRange(start, start + |values| - 1);
    forall p | k < p < |days| ensures start + k < days[p] || values[p].None? { }
    LastKnownLatest(days, values, k, start + k);
  }

  /** Where every row has a value, something is known from the first date on. */
  lemma {:induction false} LastKnownPresent(index: seq<int>, values: seq<Option<real>>, d: int)
    requires |values| == |index| && index != [] && index[0] <= d
    requires forall p :: 0 <= p < |values| ==> values[p].Some?
    ensures LastKnown(index, values, d).Some?
    decreases |index|
  {
    var n := |index| - 1;
    if n > 0 && index[n] > d {
      LastKnownPresent(index[..n], values[..n], d);
    }
  }

  /**
   * Walks the calendar from `d` to `end`, advancing through the rows (the
   * next unread one is `i`) and carrying the last value seen: pandas' `ffill`
   * over the left merge with the dense range.
   */
  function FillFrom(index: seq<int>, values: seq<Option<real>>, i: nat, d: int, end: int, carry: Option<real>)
    : (r: seq<Option<real>>)
    requires |values| == |index| && i <= |index|
    ensures |r| == if d <= end then end - d + 1 else 0
    decreases end - d
  {
    if end < d then []
    else if i < |index| && index[i] == d then
      var v := if values[i].Some? then values[i] else carry;
      [v] + FillFrom(index, values, i + 1, d + 1, end, v)
    else [carry] + FillFrom(index, values, i, d + 1, end, carry)
  }

  lemma {:induction false} FillFromLastKnown(index: seq<int>, values: seq<Option<real>>, i: nat, d: int, end: int, carry: Option<real>)
    requires |values| == |index| && StrictlyIncreasing(index) && i <= |index|
    requires forall p :: 0 <= p < i ==> index[p] < d
    requires forall p :: i <= p < |index| ==> index[p] >= d
    requires carry == LastKnown(index, values, d - 1)
    ensures forall k :: 0 <= k < |FillFrom(index, values, i, d, end, carry)| ==>
              FillFrom(index, values, i, d, end, carry)[k] == LastKnown(index, values, d + k)
    decreases end - d
  {
    if d <= end {
      LastKnownStep(index, values, d, i);
      var r := FillFrom(index, values, i, d, end, carry);
      if i < |index| && index[i] == d {
        var v := if values[i].Some? then values[i] else carry;
        assert forall p :: i + 1 <= p < |index| ==> index[p] >= d + 1 by {
          forall p | i + 1 <= p < |index| ensures index[p] >= d + 1 {
            assert index[i] < index[p];
          }
        }
        FillFromLastKnown(index, values, i + 1, d + 1, end, v);
        var rest := FillFrom(index, values, i + 1, d + 1, end, v);
        assert r == [v] + rest;
        forall k | 0 < k < |r| ensures r[k] == LastKnown(index, values, d + k) {
          assert r[k] == rest[k - 1];
        }
      } else {
        FillFromLastKnown(index, values, i, d + 1, end, carry);
        var rest := FillFrom(index, values, i, d + 1, end, carry);
        assert r == [carry] + rest;
        forall k | 0 < k < |r| ensures r[k] == LastKnown(index, values, d + k) {
          assert r[k] == rest[k - 1];
        }
      }
    }
  }

  /** One column of `ffill_price_data`, over the dense range from the first to the last date. */
  function FillColumn(index: seq<int>, values: seq<Option<real>>): (r: seq<Option<real>>)
    requires |values| == |index| && index != [] && StrictlyIncreasing(index)
    ensures |r| == index[|index| - 1] - index[0] + 1
    ensures forall k :: 0 <= k < |r| ==> r[k] == LastKnown(index, values, index[0] + k)
  {
    var start, end := index[0], index[|index| - 1];
    assert start <= end by { if |index| > 1 { assert index[0] < index[|index| - 1]; } }
    LastKnownBeforeFirst(index, values, start - 1);
    FillFromLastKnown(index, values, 0, start, end, None);
    FillFrom(index, values, 0, start, end, None)
  }

  /** A named column of a frame. */
  datatype Column = Column(name: string, values: seq<Option<real>>)

  /** A data frame whose index holds date ordinals. */
  datatype Frame = Frame(index: seq<int>, columns: seq<Column>) {
    predicate WellFormed() {
      forall j :: 0 <= j < |columns| ==> |columns[j].values| == |index|
    }
  }

  /**
   * `YF.ffill_price_data`: IndexError on an empty frame (`df.index[0]`);
   * otherwise every calendar day from the first to the last date, with each
   * column forward-filled.
   */
  function FfillPriceData(f: Frame): (r: Result<Frame>)
    requires f.WellFormed() && StrictlyIncreasing(f.index)
    ensures r.Err? <==> f.index == []
    ensures r.Err? ==> r.error == IndexError
    ensures r.Ok? ==> r.value.WellFormed() && |r.value.columns| == |f.columns|
    ensures r.Ok? ==> r.value.index == DateRange(f.index[0], f.index[|f.index| - 1])
    ensures r.Ok? ==> forall j, k :: 0 <= j < |f.columns| && 0 <= k < |r.value.index| ==>
              r.value.columns[j].name == f.columns[j].name
              && r.value.columns[j].values[k] == LastKnown(f.index, f.columns[j].values, r.value.index[k])
  {
    if f.index == [] then Err(IndexError)
    else
      var range := DateRange(f.index[0], f.index[|f.index| - 1]);
      var cols := seq(|f.columns|, j requires 0 <= j < |f.columns| =>
        Column(f.columns[j].name, FillColumn(f.index, f.columns[j].values)));
      Ok(Frame(range, cols))
  }

  /** A row that has a value keeps it after the fill. */
  lemma {:induction false} LastKnownAtRow(index: seq<int>, values: seq<Option<real>>, p: nat)
    requires |values| == |index| && StrictlyIncreasing(index)
    requires p < |index| && values[p].Some?
    ensures LastKnown(index, values, index[p]) == values[p]
    decreases |index|
  {
    var n := |index| - 1;
    if p < n {
      assert index[p] < index[n];
      LastKnownAtRow(index[..n], values[..n], p);
    }
  }

  /** A gap day takes the value of the latest earlier row that has one. */
  lemma {:induction false} LastKnownGap(index: seq<int>, values: seq<Option<real>>, p: nat, d: int)
    requires |values| == |index| && StrictlyIncreasing(index)
    requires p < |index| && values[p].Some? && index[p] <= d
    requires forall q :: p < q < |index| && index[q] <= d ==> values[q].None?
    ensures LastKnown(index, values, d) == values[p]
    decreases |index|
  {
    var n := |index| - 1;
    if p < n {
      LastKnownGap(index[..n], values[..n], p, d);
    }
  }

  // ---------------------------------------------------------------------------
  // `pd.melt(frame, id_vars='index')` followed by `dropna`

  datatype LongRow = LongRow(date: int, symbol: string, price: real)

  function MeltColumn(index: seq<int>, c: Column): seq<LongRow>
    requires |c.values| == |index|
    decreases |index|
  {
    if index == [] then []
    else
      var n := |index| - 1;
      MeltColumn(index[..n], Column(c.name, c.values[..n]))
        + (if c.values[n].Some? then [LongRow(index[n], c.name, c.values[n].value)] else [])
  }

  /** A long row comes out of a column exactly when the column holds its price on its date. */
  lemma {:induction false} MeltColumnRows(index: seq<int>, c: Column, x: LongRow)
    requires |c.values| == |index|
    ensures x in MeltColumn(index, c) <==>
              (exists k :: 0 <= k < |index| && c.values[k] == Some(x.price) && x == LongRow(index[k], c.name, x.price))
    decreases |index|
  {
    if index != [] {
      var n := |index| - 1;
      MeltColumnRows(index[..n], Column(c.name, c.values[..n]), x);
      if exists k :: 0 <= k < |index| && c.values[k] == Some(x.price) && x == LongRow(index[k], c.name, x.price) {
        var k :| 0 <= k < |index| && c.values[k] == Some(x.price) && x == LongRow(index[k], c.name, x.price);
        if k < n {
          assert index[..n][k] == index[k] && c.values[..n][k] == c.values[k];
        }
      }
    }
  }

  /** The long-format rows: column after column, row after row, missing values dropped. */
  function Melt(f: Frame): seq<LongRow>
    requires f.WellFormed()
    decreases |f.columns|
  {
    if f.columns == [] then []
    else
      var n := |f.columns| - 1;
      Melt(Frame(f.index, f.columns[..n])) + MeltColumn(f.index, f.columns[n])
  }

  /** Whether a column of the given index yields the long row `x`. */
  function Yields(index: seq<int>, x: LongRow): Column -> bool {
    (c: Column) => |c.values| == |index| && x in MeltColumn(index, c)
  }

  /** A long row comes out of the frame exactly when it comes out of one of its columns (see `MeltColumnRows`). */
  lemma {:induction false} MeltRows(f: Frame, x: LongRow)
    requires f.WellFormed()
    ensures x in Melt(f) <==> AnyOf(f.columns, Yields(f.index, x))
    decreases |f.columns|
  {
    if f.columns != [] {
      var n := |f.columns| - 1;
      MeltRows(Frame(f.index, f.columns[..n]), x);
      AnyOfSnoc(f.columns, Yields(f.index, x));
    }
  }
}
