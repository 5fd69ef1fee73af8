/**
 * The failures the backend raises: the structured `ApiError` (HTTP status,
 * machine-readable code, message, and the optional `retryAfter` seconds the
 * rate limiter attaches), a plain `Error(message)`, and the `TypeError` the
 * JavaScript runtime throws when a property of `undefined` or `null` is read.
 * A thrown exception is modelled as the `Err` arm of `Result`.
 */
module Errors {

  datatype Option<+T> = None | Some(value: T)

  datatype Error =
    | ApiError(status: int, code: string, message: string, retryAfter: Option<int>)
    | Plain(message: string)
    | TypeError

  datatype Result<+T> = Ok(value: T) | Err(error: Error) {

    predicate IsFailure() {
      Err?
    }

    function PropagateFailure<U>(): Result<U>
      requires Err?
    {
      Err(error)
    }

    function Extract(): T
      requires Ok?
    {
      value
    }
  }

  /** `new ApiError(status, code, message)`: the three-argument constructor. */
  function Api(status: int, code: string, message: string): Error
  {
    ApiError(status, code, message, None)
  }

  /** `xs.map(f)` for an `f` that may throw: the first element whose call
    * throws makes the whole map throw its error. */
  function MapOrThrow<A, B>(f: A -> Result<B>, xs: seq<A>): (r: Result<seq<B>>)
    ensures r.Ok? <==> forall i :: 0 <= i < |xs| ==> f(xs[i]).Ok?
    ensures r.Ok? ==> |r.value| == |xs| && forall i :: 0 <= i < |xs| ==> r.value[i] == f(xs[i]).value
    ensures r.Err? ==> exists i :: 0 <= i < |xs| && f(xs[i]) == Err(r.error) && FirstFailure(f, xs, i)
  {
    if xs == [] then Ok([])
    else if f(xs[0]).Err? then
      assert FirstFailure(f, xs, 0);
      Err(f(xs[0]).error)
    else
      var tail := MapOrThrow(f, xs[1..]);
      assert forall i :: 1 <= i < |xs| ==> xs[i] == xs[1..][i - 1];
      if tail.Err? then
        var j :| 0 <= j < |xs[1..]| && f(xs[1..][j]) == Err(tail.error) && FirstFailure(f, xs[1..], j);
        assert f(xs[j + 1]) == Err(tail.error);
        assert FirstFailure(f, xs, j + 1);
        Err(tail.error)
      else
        Ok([f(xs[0]).value] + tail.value)
  }

  /** Every element before position `i` maps without throwing. */
  predicate FirstFailure<A, B>(f: A -> Result<B>, xs: seq<A>, i: int)
    requires 0 <= i <= |xs|
  {
    forall j :: 0 <= j < i ==> f(xs[j]).Ok?
  }
}
