/** Option and Result values, and the kinds of Python exception the modelled code raises. */
module Wrappers {

  datatype Option<+T> = None | Some(value: T) {
    function GetOr(default: T): T {
      match this
      case Some(v) => v
      case None => default
    }
  }

  /** The exception classes that the modelled code raises or lets propagate. */
  datatype Error =
    | KeyError          // a missing dictionary key
    | ValueError        // strptime on a malformed string
    | IndexError        // first element of an empty list or frame
    | AssertionError    // a missing key in the data handed between ETL stages
    | IntegrityError    // a database constraint rejected a write
    | MultipleObjects   // Django's get() found more than one row
    | DoesNotExist      // Django's get(), earliest() or latest() found no row
    | UnboundLocal      // a local variable read before any assignment
    | TypeError         // arithmetic on a value that is not a number
    | AttributeError    // a column read from a frame that does not have it

  datatype Result<+T> = Ok(value: T) | Err(error: Error)

  /**
   * A loop that converts every element and stops at the first that fails:
   * the converted list, or the error of the first failure.
   */
  function MapResult<A, B>(xs: seq<A>, f: A -> Result<B>): Result<seq<B>>
    decreases |xs|
  {
    if xs == [] then Ok([])
    else
      var n := |xs| - 1;
      match MapResult(xs[..n], f)
      case Err(e) => Err(e)
      case Ok(ys) =>
        match f(xs[n])
        case Err(e) => Err(e)
        case Ok(y) => Ok(ys + [y])
  }

  /** The mapping succeeds exactly when `f` succeeds on every element, and then holds `f`'s results in order. */
  lemma {:induction false} MapResultOk<A, B>(xs: seq<A>, f: A -> Result<B>)
    ensures MapResult(xs, f).Ok? <==> forall i :: 0 <= i < |xs| ==> f(xs[i]).Ok?
    ensures MapResult(xs, f).Ok? ==>
              |MapResult(xs, f).value| == |xs| && forall i :: 0 <= i < |xs| ==> MapResult(xs, f).value[i] == f(xs[i]).value
    decreases |xs|
  {
    if xs != [] {
      var n := |xs| - 1;
      MapResultOk(xs[..n], f);
      assert forall i :: 0 <= i < n ==> xs[..n][i] == xs[i];
    }
  }

  /** A failed mapping reports the error of the first element `f` fails on. */
  lemma {:induction false} MapResultErr<A, B>(xs: seq<A>, f: A -> Result<B>)
    requires MapResult(xs, f).Err?
    ensures exists i :: 0 <= i < |xs| && f(xs[i]) == Err(MapResult(xs, f).error)
                        && forall j :: 0 <= j < i ==> f(xs[j]).Ok?
    decreases |xs|
  {
    var n := |xs| - 1;
    assert forall i :: 0 <= i < n ==> xs[..n][i] == xs[i];
    if MapResult(xs[..n], f).Err? {
      MapResultErr(xs[..n], f);
    } else {
      MapResultOk(xs[..n], f);
      assert f(xs[n]) == Err(MapResult(xs, f).error);
    }
  }

  /** Some element of `xs` satisfies `p`. */
  predicate AnyOf<T>(xs: seq<T>, p: T -> bool) {
    exists i :: 0 <= i < |xs| && p(xs[i])
  }

  /** An element of a non-empty list is one of the elements before the last, or the last. */
  lemma AnyOfSnoc<T>(xs: seq<T>, p: T -> bool)
    requires xs != []
    ensures AnyOf(xs, p) <==> AnyOf(xs[..|xs| - 1], p) || p(xs[|xs| - 1])
  {
    var n := |xs| - 1;
    if AnyOf(xs, p) {
      var i :| 0 <= i < |xs| && p(xs[i]);
      if i < n { assert xs[..n][i] == xs[i]; }
    }
    if AnyOf(xs[..n], p) {
      var i :| 0 <= i < n && p(xs[..n][i]);
      assert xs[..n][i] == xs[i];
    }
  }

  lemma AnyOfWitness<T>(xs: seq<T>, p: T -> bool, i: nat)
    requires i < |xs| && p(xs[i])
    ensures AnyOf(xs, p)
  {
  }

  /** Every element of `xs` satisfies `p`. */
  predicate AllOf<T>(xs: seq<T>, p: T -> bool) {
    forall i :: 0 <= i < |xs| ==> p(xs[i])
  }

  lemma AllOfAt<T>(xs: seq<T>, p: T -> bool, i: nat)
    requires AllOf(xs, p) && i < |xs|
    ensures p(xs[i])
  {
  }

  lemma AllOfAppend<T>(xs: seq<T>, ys: seq<T>, p: T -> bool)
    requires AllOf(xs, p) && AllOf(ys, p)
    ensures AllOf(xs + ys, p)
  {
    forall i | 0 <= i < |xs + ys|
      ensures p((xs + ys)[i])
    {
      if i < |xs| { assert (xs + ys)[i] == xs[i]; } else { assert (xs + ys)[i] == ys[i - |xs|]; }
    }
  }

  lemma AllOfPrefix<T>(xs: seq<T>, p: T -> bool, k: nat)
    requires AllOf(xs, p) && k <= |xs|
    ensures AllOf(xs[..k], p)
  {
    forall i | 0 <= i < k
      ensures p(xs[..k][i])
    {
      assert xs[..k][i] == xs[i];
    }
  }

  /** No element of `xs` after position `i` satisfies `p`. */
  predicate NoneAfter<T>(xs: seq<T>, i: nat, p: T -> bool) {
    forall j :: i < j < |xs| ==> !p(xs[j])
  }

  lemma NoneAfterPrefix<T>(xs: seq<T>, i: nat, p: T -> bool, n: nat)
    requires NoneAfter(xs, i, p) && n <= |xs|
    ensures NoneAfter(xs[..n], i, p)
  {
    forall j | i < j < n
      ensures !p(xs[..n][j])
    {
      assert xs[..n][j] == xs[j];
    }
  }

  /** Once a prefix fails, the whole list fails with the same error. */
  lemma {:induction false} MapResultErrPersists<A, B>(xs: seq<A>, f: A -> Result<B>, i: nat)
    requires i <= |xs| && MapResult(xs[..i], f).Err?
    ensures MapResult(xs, f) == MapResult(xs[..i], f)
    decreases |xs| - i
  {
    if i < |xs| {
      assert xs[..i + 1][..i] == xs[..i];
      MapResultErrPersists(xs, f, i + 1);
    } else {
      assert xs[..i] == xs;
    }
  }
}
