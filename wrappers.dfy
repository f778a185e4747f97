// Shared value wrappers: optional values, and results that carry the Python
// exception a failing operation raises.
module Wrappers {

  datatype Option<T> = None | Some(value: T)
  {
    /** The value, or `default` when there is none. */
    function GetOr(default: T): T
    {
      if Some? then value else default
    }
  }

  /** The Python exception classes that the modelled code raises or lets through. */
  datatype Exc =
    | AssertionError
    | ValueError(msg: string)
    | KeyError
    | IndexError
    | TypeError
    | NotImplementedError
    | RuntimeError(msg: string)
    | UnboundLocalError
    /** A str.format replacement field whose syntax the model does not cover. */
    | Unsupported
    /** An exception raised by code outside the model (network, parsers, foreign libraries). */
    | Raised(name: string)

  datatype Result<T> = Ok(value: T) | Err(error: Exc)
  {
    predicate IsFailure()
    {
      Err?
    }

    function PropagateFailure<U>(): Result<U>
      requires Err?
    {
      Err(error)
    }

    function Extract(): T
      requires Ok?
    {
      value
    }
  }

  /**
   * `f` applied to each element in order, as a loop that stops at the first
   * exception does: all the results, or the error of the first that fails.
   */
  function MapResults<A, B>(xs: seq<A>, f: A -> Result<B>): (r: Result<seq<B>>)
    ensures r.Ok? <==> forall i :: 0 <= i < |xs| ==> f(xs[i]).Ok?
    ensures r.Ok? ==> |r.value| == |xs|
    ensures r.Ok? ==> forall i :: 0 <= i < |xs| ==> r.value[i] == f(xs[i]).value
  {
    if xs == [] then Ok([])
    else
      var n := |xs| - 1;
      var p := MapResults(xs[..n], f);
      assert forall i :: 0 <= i < n ==> xs[..n][i] == xs[i];
      if p.Err? then Err(p.error)
      else
        match f(xs[n])
        case Err(e) => Err(e)
        case Ok(y) => Ok(p.value + [y])
  }

  /** The first element that fails decides the error. */
  lemma {:induction false} MapResultsRaise<A, B>(xs: seq<A>, f: A -> Result<B>, i: nat)
    requires i < |xs| && MapResults(xs[..i], f).Ok? && f(xs[i]).Err?
    ensures MapResults(xs, f) == Err(f(xs[i]).error)
    decreases |xs| - i
  {
    if i + 1 == |xs| {
      assert xs[..i] == xs[..|xs| - 1];
    } else {
      var n := |xs| - 1;
      assert xs[..n][..i] == xs[..i];
      assert xs[..n][i] == xs[i];
      MapResultsRaise(xs[..n], f, i);
    }
  }

  /** One more element that succeeds adds its result at the end. */
  lemma MapResultsSnoc<A, B>(xs: seq<A>, x: A, f: A -> Result<B>)
    requires MapResults(xs, f).Ok? && f(x).Ok?
    ensures MapResults(xs + [x], f) == Ok(MapResults(xs, f).value + [f(x).value])
  {
    assert (xs + [x])[..|xs|] == xs;
  }
}
