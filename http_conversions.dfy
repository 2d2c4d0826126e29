/**
 * Extraction (`FromRequest`) and response conversion (`IntoResponse`) for the generic types the
 * runtime provides: the unit type, the one-element tuple, `Extension<T>` and `Either<A, B>`.
 * The conversions of an operation's own input, output and errors are supplied by the protocol
 * and appear elsewhere in the model as function parameters.
 *
 * An extraction future is modelled by what one poll of it yields; the unit and `Extension`
 * extractions are `std::future::ready`, so they yield `Ready` at once.
 */
module HttpConversions {
  import opened Prelude
  import opened Http

  /**
   * `FromRequest for ()`: succeeds at once with `()` and never fails (its error type is
   * `Infallible`). It is a function, so the request is left as it was.
   */
  function UnitFromRequest<V>(req: Request<V>): (r: Poll<Result<(), Infallible>>)
    ensures r.Ready? && r.value.Ok?
  {
    Ready(Ok(()))
  }

  /**
   * `FromRequest for (Arg0,)`: the extraction of `Arg0`, with a success wrapped in a
   * one-element tuple. `arg0` is what polling `Arg0`'s extraction future yields.
   */
  function Tuple1FromRequest<A, E>(arg0: Poll<Result<A, E>>): (r: Poll<Result<Tuple1<A>, E>>)
    ensures r.Pending? <==> arg0.Pending?
    ensures (r.Ready? && r.value.Ok?) <==> (arg0.Ready? && arg0.value.Ok?)
    ensures r.Ready? && r.value.Ok? ==> r.value.value._0 == arg0.value.value
    ensures arg0.Ready? && arg0.value.Err? ==> r == Ready(Err(arg0.value.error))
  {
    MapOk(arg0, (a: A) => Tuple1(a))
  }

  /** `Extension<T>`: a value taken out of the request's extension map. */
  datatype Extension<T> = Extension(value: T)

  /**
   * `FromRequest for Extension<T>`: removes the value stored under `T` from the request's
   * extension map and returns it. The source `expect`s the value to be there and panics
   * otherwise, so its presence is the caller's obligation here; the error type is `Infallible`.
   */
  method ExtensionFromRequest<V>(req: Request<V>, t: TypeId) returns (r: Poll<Result<Extension<V>, Infallible>>)
    requires t in req.extensions
    modifies req
    ensures r == Ready(Ok(Extension(old(req.extensions)[t])))
    ensures t !in req.extensions
    ensures req.extensions == old(req.extensions) - {t}
  {
    var value := req.extensions[t];
    req.extensions := req.extensions - {t};
    r := Ready(Ok(Extension(value)));
  }

  /** `Either<A, B>`: one of two errors, each of which converts to a response. */
  datatype Either<+A, +B> = Left(left: A) | Right(right: B)
  {
    /** `IntoResponse for Either`: the response of whichever side is held. */
    function IntoResponse(leftResponse: A -> Response, rightResponse: B -> Response): (r: Response)
      ensures Left? ==> r == leftResponse(left)
      ensures Right? ==> r == rightResponse(right)
    {
      match this
      case Left(a) => leftResponse(a)
      case Right(b) => rightResponse(b)
    }
  }
}
