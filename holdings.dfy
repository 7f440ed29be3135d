/**
 * Holdings: pieces per symbol, as the `{symbol: pieces}` dictionaries of the
 * portfolio builders, and their combination with `collections.Counter`.
 */
module Holdings {
  import opened Wrappers
  import opened Assoc

  type Holdings = Dict<string, real>

  /** `Counter(h)[s]`: a symbol that is not held counts as zero. */
  function Count(h: Holdings, s: string): real {
    Lookup(h, s).GetOr(0.0)
  }

  /** The first loop of `Counter.__add__`: the left operand's symbols, in order, with positive totals. */
  function AddLeft(a: Holdings, b: Holdings): (r: Holdings)
    ensures forall i :: 0 <= i < |r| ==> r[i].1 > 0.0 && HasKey(a, r[i].0)
  {
    if a == [] then []
    else
      var total := a[0].1 + Count(b, a[0].0);
      var rest := AddLeft(a[1..], b);
      assert forall i :: 0 <= i < |rest| ==> HasKey(a, rest[i].0) by {
        forall i | 0 <= i < |rest| ensures HasKey(a, rest[i].0) {
          var j :| 0 <= j < |a[1..]| && a[1..][j].0 == rest[i].0;
          assert a[j + 1].0 == rest[i].0;
        }
      }
      (if total > 0.0 then [(a[0].0, total)] else []) + rest
  }

  /** The second loop of `Counter.__add__`: the right operand's positive entries whose symbol the left one lacks. */
  function AddRight(a: Holdings, b: Holdings): (r: Holdings)
    ensures forall i :: 0 <= i < |r| ==> r[i].1 > 0.0 && !HasKey(a, r[i].0) && HasKey(b, r[i].0)
  {
    if b == [] then []
    else
      var rest := AddRight(a, b[1..]);
      assert forall i :: 0 <= i < |rest| ==> HasKey(b, rest[i].0) by {
        forall i | 0 <= i < |rest| ensures HasKey(b, rest[i].0) {
          var j :| 0 <= j < |b[1..]| && b[1..][j].0 == rest[i].0;
          assert b[j + 1].0 == rest[i].0;
        }
      }
      (if !HasKey(a, b[0].0) && b[0].1 > 0.0 then [b[0]] else []) + rest
  }

  /** `dict(Counter(a) + Counter(b))`: every remaining count is positive. */
  function CounterAdd(a: Holdings, b: Holdings): (r: Holdings)
    ensures forall i :: 0 <= i < |r| ==> r[i].1 > 0.0
  {
    AddLeft(a, b) + AddRight(a, b)
  }

  lemma {:induction false} AddLeftLookup(a: Holdings, b: Holdings, s: string)
    requires DistinctKeys(a)
    ensures Lookup(AddLeft(a, b), s)
            == if HasKey(a, s) && Count(a, s) + Count(b, s) > 0.0 then Some(Count(a, s) + Count(b, s)) else None
  {
    if a != [] {
      var total := a[0].1 + Count(b, a[0].0);
      var head: Holdings := if total > 0.0 then [(a[0].0, total)] else [];
      DistinctTail(a);
      AddLeftLookup(a[1..], b, s);
      LookupAppend(head, AddLeft(a[1..], b), s);
      LookupCons(a, s);
      if head != [] {
        LookupCons(head, s);
      }
      if a[0].0 != s {
        HasKeyTail(a, s);
      }
    }
  }

  lemma {:induction false} AddRightLookup(a: Holdings, b: Holdings, s: string)
    requires DistinctKeys(b)
    ensures Lookup(AddRight(a, b), s)
            == if !HasKey(a, s) && HasKey(b, s) && Count(b, s) > 0.0 then Some(Count(b, s)) else None
  {
    if b != [] {
      var head: Holdings := if !HasKey(a, b[0].0) && b[0].1 > 0.0 then [b[0]] else [];
      DistinctTail(b);
      AddRightLookup(a, b[1..], s);
      LookupAppend(head, AddRight(a, b[1..]), s);
      LookupCons(b, s);
      if head != [] {
        LookupCons(head, s);
      }
      if b[0].0 != s {
        HasKeyTail(b, s);
      }
    }
  }

  /**
   * After `Counter` addition a symbol holds its old pieces plus its delta
   * (missing counts as zero) when that total is positive, and is gone otherwise.
   */
  lemma CounterAddLookup(a: Holdings, b: Holdings, s: string)
    requires DistinctKeys(a) && DistinctKeys(b)
    ensures Lookup(CounterAdd(a, b), s)
            == if Count(a, s) + Count(b, s) > 0.0 then Some(Count(a, s) + Count(b, s)) else None
  {
    AddLeftLookup(a, b, s);
    AddRightLookup(a, b, s);
    LookupAppend(AddLeft(a, b), AddRight(a, b), s);
  }

  lemma {:induction false} AddLeftDistinct(a: Holdings, b: Holdings)
    requires DistinctKeys(a)
    ensures DistinctKeys(AddLeft(a, b))
  {
    if a != [] {
      var total := a[0].1 + Count(b, a[0].0);
      var head: Holdings := if total > 0.0 then [(a[0].0, total)] else [];
      var rest := AddLeft(a[1..], b);
      DistinctTail(a);
      AddLeftDistinct(a[1..], b);
      forall i | 0 <= i < |rest| ensures !HasKey(head, rest[i].0) {
        var j :| 0 <= j < |a[1..]| && a[1..][j].0 == rest[i].0;
        assert a[j + 1].0 != a[0].0;
      }
      DistinctAppend(head, rest);
    }
  }

  lemma {:induction false} AddRightDistinct(a: Holdings, b: Holdings)
    requires DistinctKeys(b)
    ensures DistinctKeys(AddRight(a, b))
  {
    if b != [] {
      var head: Holdings := if !HasKey(a, b[0].0) && b[0].1 > 0.0 then [b[0]] else [];
      var rest := AddRight(a, b[1..]);
      DistinctTail(b);
      AddRightDistinct(a, b[1..]);
      forall i | 0 <= i < |rest| ensures !HasKey(head, rest[i].0) {
        var j :| 0 <= j < |b[1..]| && b[1..][j].0 == rest[i].0;
        assert b[j + 1].0 != b[0].0;
      }
      DistinctAppend(head, rest);
    }
  }

  /** The sum of two holdings is again a dictionary. */
  lemma CounterAddDistinct(a: Holdings, b: Holdings)
    requires DistinctKeys(a) && DistinctKeys(b)
    ensures DistinctKeys(CounterAdd(a, b))
  {
    AddLeftDistinct(a, b);
    AddRightDistinct(a, b);
    var l, r := AddLeft(a, b), AddRight(a, b);
    forall i | 0 <= i < |r| ensures !HasKey(l, r[i].0) {
      AddLeftLookup(a, b, r[i].0);
    }
    DistinctAppend(l, r);
  }

  /** Symbols the delta does not mention keep their pieces, provided those are positive. */
  lemma CounterAddUntouched(a: Holdings, b: Holdings, s: string)
    requires DistinctKeys(a) && DistinctKeys(b) && !HasKey(b, s)
    ensures Lookup(CounterAdd(a, b), s) == if Count(a, s) > 0.0 then Some(Count(a, s)) else None
  {
    CounterAddLookup(a, b, s);
  }
}
