/** Option and Result: the value-level stand-ins for Python's `None` and for
    exceptions that abort a computation. */
module Wrappers {

  datatype Option<+T> = None | Some(value: T) {
    function GetOr(default: T): T {
      match this
      case Some(v) => v
      case None => default
    }
  }

  datatype Result<+T, +E> = Ok(value: T) | Err(error: E)

  /** A loop that applies `f` to each element in turn, keeping the values,
      and ends at the first failure. */
  function MapSteps<X, Y, E>(f: X -> Result<Y, E>, xs: seq<X>): Result<seq<Y>, E>
    decreases |xs|
  {
    if xs == [] then Ok([])
    else
      match MapSteps(f, xs[..|xs| - 1])
      case Err(e) => Err(e)
      case Ok(ys) =>
        match f(xs[|xs| - 1])
        case Err(e) => Err(e)
        case Ok(y) => Ok(ys + [y])
  }

  /** Applying `f` to each element fails exactly when one application
      does, and otherwise keeps every value, in order. */
  lemma {:induction false} MapStepsMeaning<X, Y, E>(f: X -> Result<Y, E>, xs: seq<X>)
    ensures MapSteps(f, xs).Ok? <==> forall i :: 0 <= i < |xs| ==> f(xs[i]).Ok?
    ensures MapSteps(f, xs).Ok? ==>
      |MapSteps(f, xs).value| == |xs| && forall i :: 0 <= i < |xs| ==> MapSteps(f, xs).value[i] == f(xs[i]).value
    decreases |xs|
  {
    if xs != [] {
      var init := xs[..|xs| - 1];
      MapStepsMeaning(f, init);
      assert forall i :: 0 <= i < |init| ==> init[i] == xs[i];
    }
  }

  /** A failing loop fails at the first element `f` rejects: every
      element before it was applied, and its error is the loop's. */
  lemma {:induction false} MapStepsFirstError<X, Y, E>(f: X -> Result<Y, E>, xs: seq<X>)
    ensures MapSteps(f, xs).Err? ==>
      exists j :: && 0 <= j < |xs|
                  && (forall i :: 0 <= i < j ==> f(xs[i]).Ok?)
                  && f(xs[j]).Err?
                  && MapSteps(f, xs).error == f(xs[j]).error
    decreases |xs|
  {
    if xs != [] && MapSteps(f, xs).Err? {
      var init := xs[..|xs| - 1];
      assert forall i :: 0 <= i < |init| ==> init[i] == xs[i];
      if MapSteps(f, init).Err? {
        MapStepsFirstError(f, init);
        var j :| 0 <= j < |init| && (forall i :: 0 <= i < j ==> f(init[i]).Ok?) && f(init[j]).Err?
                 && MapSteps(f, init).error == f(init[j]).error;
        assert MapSteps(f, xs).error == f(xs[j]).error;
      } else {
        MapStepsMeaning(f, init);
        assert MapSteps(f, xs).error == f(xs[|xs| - 1]).error;
      }
    }
  }

  /** What a failing loop leaves behind: the values of the elements before
      the first rejected one, in order. */
  lemma MapStepsTruncated<X, Y, E>(f: X -> Result<Y, E>, xs: seq<X>)
    ensures MapSteps(f, xs).Err? ==>
      exists j :: && 0 <= j < |xs|
                  && MapSteps(f, xs[..j]).Ok?
                  && |MapSteps(f, xs[..j]).value| == j
                  && (forall i :: 0 <= i < j ==> f(xs[i]).Ok? && MapSteps(f, xs[..j]).value[i] == f(xs[i]).value)
                  && f(xs[j]).Err?
                  && MapSteps(f, xs).error == f(xs[j]).error
  {
    MapStepsFirstError(f, xs);
    if MapSteps(f, xs).Err? {
      var j :| && 0 <= j < |xs|
               && (forall i :: 0 <= i < j ==> f(xs[i]).Ok?)
               && f(xs[j]).Err?
               && MapSteps(f, xs).error == f(xs[j]).error;
      var done := xs[..j];
      assert forall i :: 0 <= i < j ==> done[i] == xs[i];
      MapStepsMeaning(f, done);
    }
  }

  /** The first failure of `f` on `xs[..j]` is the outcome of the whole
      loop: nothing after it runs. */
  lemma {:induction false} MapStepsStops<X, Y, E>(f: X -> Result<Y, E>, xs: seq<X>, j: nat)
    requires j <= |xs| && MapSteps(f, xs[..j]).Err?
    ensures MapSteps(f, xs) == MapSteps(f, xs[..j])
    decreases |xs| - j
  {
    if j < |xs| {
      var ys := xs[..j + 1];
      assert ys[..|ys| - 1] == xs[..j];
      MapStepsStops(f, xs, j + 1);
    } else {
      assert xs[..j] == xs;
    }
  }

  /** The loop MapSteps describes: apply `f` to each element in turn,
      append its value, and return the first failure as soon as it
      happens. */
  method MapLoop<X, Y, E>(f: X -> Result<Y, E>, xs: seq<X>) returns (r: Result<seq<Y>, E>)
    ensures r == MapSteps(f, xs)
  {
    var ys: seq<Y> := [];
    for i := 0 to |xs|
      invariant MapSteps(f, xs[..i]) == Ok(ys)
    {
      assert xs[..i + 1][..i] == xs[..i];
      var y := f(xs[i]);
      if y.Err? {
        MapStepsStops(f, xs, i + 1);
        return Err(y.error);
      }
      ys := ys + [y.value];
    }
    assert xs[..|xs|] == xs;
    return Ok(ys);
  }
}
