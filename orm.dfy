/**
 * Django's single-row query `Model.objects.get(...)` over a table held as a
 * sequence of rows: the one row matching the filter, DoesNotExist when none
 * matches and MultipleObjectsReturned when several do.
 */
module Orm {
  import opened Wrappers

  /** The positions of the rows that satisfy `p`, in table order. */
  function IndicesWhere<T>(xs: seq<T>, p: T -> bool): (r: seq<nat>)
    ensures forall k :: 0 <= k < |r| ==> r[k] < |xs| && p(xs[r[k]])
    decreases |xs|
  {
    if xs == [] then []
    else
      var n := |xs| - 1;
      IndicesWhere(xs[..n], p) + (if p(xs[n]) then [n] else [])
  }

  /** Every matching row is listed, and the positions strictly increase. */
  lemma {:induction false} IndicesWhereAll<T>(xs: seq<T>, p: T -> bool)
    ensures forall i :: 0 <= i < |xs| && p(xs[i]) ==> i in IndicesWhere(xs, p)
    ensures forall a, b :: 0 <= a < b < |IndicesWhere(xs, p)| ==> IndicesWhere(xs, p)[a] < IndicesWhere(xs, p)[b]
    decreases |xs|
  {
    if xs != [] {
      var n := |xs| - 1;
      IndicesWhereAll(xs[..n], p);
      forall i | 0 <= i < n && p(xs[i]) ensures i in IndicesWhere(xs, p) {
        assert xs[..n][i] == xs[i];
      }
    }
  }

  /**
   * `get`: the position of the only row satisfying `p`; DoesNotExist
   * without one, MultipleObjects with more than one.
   */
  function Get<T>(xs: seq<T>, p: T -> bool): (r: Result<nat>)
    ensures r.Ok? ==> r.value < |xs| && p(xs[r.value])
    ensures r.Err? ==> r.error == DoesNotExist || r.error == MultipleObjects
  {
    var m := IndicesWhere(xs, p);
    if |m| == 0 then Err(DoesNotExist) else if |m| == 1 then Ok(m[0]) else Err(MultipleObjects)
  }

  /** `get` returns row `i` exactly when `i` is the only row satisfying the filter. */
  lemma GetOk<T>(xs: seq<T>, p: T -> bool, i: nat)
    ensures Get(xs, p) == Ok(i) <==> i < |xs| && p(xs[i]) && forall j :: 0 <= j < |xs| && p(xs[j]) ==> j == i
  {
    var m := IndicesWhere(xs, p);
    IndicesWhereAll(xs, p);
    if Get(xs, p) == Ok(i) {
      assert |m| == 1 && m[0] == i;
      forall j | 0 <= j < |xs| && p(xs[j]) ensures j == i {
        assert j in m;
      }
    }
    if i < |xs| && p(xs[i]) && forall j :: 0 <= j < |xs| && p(xs[j]) ==> j == i {
      IndicesWhereSingle(xs, p, i);
    }
  }

  /** No matching row, no position. */
  lemma {:induction false} IndicesWhereNone<T>(xs: seq<T>, p: T -> bool)
    requires forall j :: 0 <= j < |xs| ==> !p(xs[j])
    ensures IndicesWhere(xs, p) == []
    decreases |xs|
  {
    if xs != [] {
      var n := |xs| - 1;
      assert forall j :: 0 <= j < n ==> xs[..n][j] == xs[j];
      IndicesWhereNone(xs[..n], p);
    }
  }

  /** A single matching row, a single position. */
  lemma {:induction false} IndicesWhereSingle<T>(xs: seq<T>, p: T -> bool, i: nat)
    requires i < |xs| && p(xs[i]) && forall j :: 0 <= j < |xs| && p(xs[j]) ==> j == i
    ensures IndicesWhere(xs, p) == [i]
    decreases |xs|
  {
    var n := |xs| - 1;
    assert forall j :: 0 <= j < n ==> xs[..n][j] == xs[j];
    if i == n {
      IndicesWhereNone(xs[..n], p);
    } else {
      IndicesWhereSingle(xs[..n], p, i);
    }
  }

  /** `get` raises DoesNotExist exactly when no row satisfies the filter. */
  lemma GetMissing<T>(xs: seq<T>, p: T -> bool)
    ensures Get(xs, p) == Err(DoesNotExist) <==> forall j :: 0 <= j < |xs| ==> !p(xs[j])
  {
    IndicesWhereAll(xs, p);
    var m := IndicesWhere(xs, p);
    if |m| > 0 {
      assert p(xs[m[0]]);
    }
  }

  /** `get` raises MultipleObjects exactly when two rows satisfy the filter. */
  lemma GetMultiple<T>(xs: seq<T>, p: T -> bool)
    ensures Get(xs, p) == Err(MultipleObjects) <==> exists i, j :: 0 <= i < j < |xs| && p(xs[i]) && p(xs[j])
  {
    var m := IndicesWhere(xs, p);
    if |m| > 1 {
      IndicesWhereAll(xs, p);
      assert p(xs[m[0]]) && p(xs[m[1]]) && m[0] < m[1];
    }
    if exists i, j :: 0 <= i < j < |xs| && p(xs[i]) && p(xs[j]) {
      var i, j :| 0 <= i < j < |xs| && p(xs[i]) && p(xs[j]);
      TwoMatches(xs, p, i, j);
    }
  }

  /** Two matching rows give two positions. */
  lemma TwoMatches<T>(xs: seq<T>, p: T -> bool, i: nat, j: nat)
    requires i < j < |xs| && p(xs[i]) && p(xs[j])
    ensures |IndicesWhere(xs, p)| >= 2
  {
    var m := IndicesWhere(xs, p);
    IndicesWhereAll(xs, p);
    assert i in m && j in m;
    var a :| 0 <= a < |m| && m[a] == i;
    var b :| 0 <= b < |m| && m[b] == j;
    assert a != b;
  }

  /** `latest('date').date` over the dates of a table: None for an empty table, else the largest date. */
  function LatestOf(dates: seq<int>): (r: Option<int>)
    ensures r.None? <==> dates == []
    decreases |dates|
  {
    if dates == [] then None
    else
      var n := |dates| - 1;
      match LatestOf(dates[..n])
      case None => Some(dates[n])
      case Some(m) => Some(if dates[n] > m then dates[n] else m)
  }

  /** The latest date is one of the dates and no date is later. */
  lemma {:induction false} LatestOfBounds(dates: seq<int>)
    requires dates != []
    ensures LatestOf(dates).value in dates
    ensures forall i :: 0 <= i < |dates| ==> dates[i] <= LatestOf(dates).value
    decreases |dates|
  {
    var n := |dates| - 1;
    if n > 0 {
      LatestOfBounds(dates[..n]);
      assert forall i :: 0 <= i < n ==> dates[..n][i] == dates[i];
    }
  }

  /** `filter(...)`: the rows satisfying `p`, in table order. */
  function Filter<T>(xs: seq<T>, p: T -> bool): (r: seq<T>)
    ensures |r| <= |xs|
    decreases |xs|
  {
    if xs == [] then []
    else
      var n := |xs| - 1;
      Filter(xs[..n], p) + (if p(xs[n]) then [xs[n]] else [])
  }

  /** A row is selected exactly when it is in the table and satisfies the filter. */
  lemma {:induction false} FilterMembers<T>(xs: seq<T>, p: T -> bool)
    ensures forall x :: x in Filter(xs, p) <==> x in xs && p(x)
    decreases |xs|
  {
    if xs != [] {
      var n := |xs| - 1;
      FilterMembers(xs[..n], p);
      assert xs == xs[..n] + [xs[n]];
    }
  }

  /** No row satisfies the filter, nothing is selected. */
  lemma {:induction false} FilterNone<T>(xs: seq<T>, p: T -> bool)
    requires forall i :: 0 <= i < |xs| ==> !p(xs[i])
    ensures Filter(xs, p) == []
    decreases |xs|
  {
    if xs != [] {
      var n := |xs| - 1;
      assert forall i :: 0 <= i < n ==> xs[..n][i] == xs[i];
      FilterNone(xs[..n], p);
    }
  }

  /** `sort_values('date').date.iloc[0]` over the dates of a table: None for an empty table, else the earliest date. */
  function EarliestOf(dates: seq<int>): (r: Option<int>)
    ensures r.None? <==> dates == []
    decreases |dates|
  {
    if dates == [] then None
    else
      var n := |dates| - 1;
      match EarliestOf(dates[..n])
      case None => Some(dates[n])
      case Some(m) => Some(if dates[n] < m then dates[n] else m)
  }

  /** The earliest date is one of the dates and no date is earlier. */
  lemma {:induction false} EarliestOfBounds(dates: seq<int>)
    requires dates != []
    ensures EarliestOf(dates).value in dates
    ensures forall i :: 0 <= i < |dates| ==> EarliestOf(dates).value <= dates[i]
    decreases |dates|
  {
    var n := |dates| - 1;
    if n > 0 {
      EarliestOfBounds(dates[..n]);
      assert forall i :: 0 <= i < n ==> dates[..n][i] == dates[i];
    }
  }
}
