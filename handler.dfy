/**
 * Handler normalisation: the two ways of returning from a handler (a plain output or a
 * `Result`), the two kinds of handler (a closure, or a closure joined to a piece of state), and
 * `IntoService`, which turns any handler into an operation service that is always ready and tags
 * every failure as a modelled (`Smithy`) error.
 *
 * A handler is a value: calling it changes nothing, so the state a `StatefulHandler` stores is
 * the same before and after every call. What a handler's future yields when polled is the
 * closure's own result, given by the closure.
 */
module Handler {
  import opened Prelude

  /** `OperationError`: a failure to poll for readiness, or an error the operation's model declares. */
  datatype OperationError<+P, +E> = Poll(pollError: P) | Smithy(smithyError: E)

  predicate IsPollError<T, P, E>(p: Poll<Result<T, OperationError<P, E>>>)
  {
    p.Ready? && p.value.Err? && p.value.error.Poll?
  }

  predicate IsSmithyError<T, P, E>(p: Poll<Result<T, OperationError<P, E>>>)
  {
    p.Ready? && p.value.Err? && p.value.error.Smithy?
  }

  /** `ToResult::into_result` for a `Result`: the value is already in canonical form. */
  function ResultIntoResult<O, E>(x: Result<O, E>): (r: Result<O, E>)
    ensures r.Ok? <==> x.Ok?
    ensures r.Ok? ==> r.value == x.value
    ensures r.Err? ==> r.error == x.error
  {
    x
  }

  /**
   * `ToResult::into_result` for a plain output: the output is wrapped in `Ok`, and the error
   * type is `Infallible`.
   */
  function OutputIntoResult<O>(o: O): (r: Result<O, Infallible>)
    ensures r.Ok? && r.value == o
  {
    Ok(o)
  }

  /**
   * The two `Handler` impls: a closure `FnMut(Input) -> Fut`, and a `StatefulHandler { f, state }`
   * over a closure `Fn(Input, T) -> Fut`. Each closure is given by what its future yields when
   * polled, of type `Poll<R>`, where `R` is the future's output type.
   */
  datatype Handler<!I, !T, R> =
    | Closure(f: I -> Poll<R>)
    | Stateful(g: (I, T) -> Poll<R>, state: T)
  {
    /**
     * `Handler::call`, polled: the closure is applied to the request (a stateful handler also to
     * a copy of its state) and its output is normalised by `intoResult`, the `ToResult` impl
     * of the closure's output type.
     */
    function Call<O, E>(intoResult: R -> Result<O, E>, req: I): (r: Poll<Result<O, E>>)
      ensures Closure? ==> r == MapPoll(f(req), intoResult)
      ensures Stateful? ==> r == MapPoll(g(req, state), intoResult)
    {
      match this
      case Closure(f) => MapPoll(f(req), intoResult)
      case Stateful(g, s) => MapPoll(g(req, s), intoResult)
    }
  }

  /** `AdjoinState::with_state`: joins exactly the closure `g` to exactly the state `s`. */
  function WithState<I, T, R>(g: (I, T) -> Poll<R>, s: T): (h: Handler<I, T, R>)
    ensures h.Stateful? && h.g == g && h.state == s
  {
    Stateful(g, s)
  }

  /**
   * A stateful handler behaves like the closure that has captured its state: joining state is
   * partial application.
   */
  lemma WithStateIsCapture<I, T, R, O, E>(g: (I, T) -> Poll<R>, s: T, intoResult: R -> Result<O, E>, req: I)
    ensures WithState(g, s).Call(intoResult, req) == Handler<I, T, R>.Closure((x: I) => g(x, s)).Call(intoResult, req)
  {
  }

  /** A handler whose closures return a plain output never produces an error. */
  lemma PlainOutputNeverFails<I, T, O>(h: Handler<I, T, O>, req: I)
    ensures var r := h.Call((o: O) => OutputIntoResult(o), req);
      r.Ready? ==> r.value.Ok?
  {
  }

  /** `IntoService`: the service that `HandlerExt::into_service` builds around a handler. */
  datatype IntoService<H> = IntoService(handler: H)
  {
    /**
     * `Service::poll_ready`: the readiness error is `OperationError<Infallible, E>`, where `E`
     * is the handler's error type; see `IntoServiceIsReady`.
     */
    function PollReady<E>(): Poll<Result<(), OperationError<Infallible, E>>>
    {
      Ready(Ok(()))
    }
  }

  /** A handler service is always ready. */
  lemma IntoServiceIsReady<H, E>(s: IntoService<H>)
    ensures s.PollReady<E>() == Ready(Ok(()))
  {
  }

  /** `HandlerExt::into_service`. */
  function IntoServiceOf<H>(h: H): (s: IntoService<H>)
    ensures s.handler == h
  {
    IntoService(h)
  }

  /**
   * `Service::call` of `IntoService`, polled: the handler's `Ok` passes through unchanged, and
   * every handler error becomes `OperationError::Smithy`; a `Poll` error never occurs.
   */
  function ServiceCall<I, T, R, O, E>(s: IntoService<Handler<I, T, R>>, intoResult: R -> Result<O, E>, req: I)
    : (r: Poll<Result<O, OperationError<Infallible, E>>>)
    ensures var h := s.handler.Call(intoResult, req);
      && (r.Pending? <==> h.Pending?)
      && (h.Ready? && h.value.Ok? ==> r == Ready(Ok(h.value.value)))
      && (h.Ready? && h.value.Err? ==> r == Ready(Err(OperationError.Smithy(h.value.error))))
    ensures !IsPollError(r)
  {
    MapErr(s.handler.Call(intoResult, req), (e: E) => OperationError<Infallible, E>.Smithy(e))
  }
}
