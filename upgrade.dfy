/**
 * The protocol upgrade: `Upgrade` wraps an operation service that takes `(input, exts)` and
 * returns typed outputs and `OperationError`s, and turns it into a service from HTTP requests to
 * HTTP responses.
 *
 * Its future, `UpgradeFuture`, is a two-state machine. In state `FromRequest` it polls the
 * extraction future; a failed extraction becomes the extraction error's response, without the
 * inner service being called, and a successful one calls the inner service once and moves to
 * state `Inner`. In state `Inner` it polls the call, and an output or a modelled error becomes a
 * response. The future's output is never an error; a `Poll` error out of the call is a wiring
 * mistake the source declares unreachable, so here it is excluded by a precondition.
 *
 * The sub-futures are opaque handles (`FF` for extraction, `CF` for the call). A `Driver` says,
 * at the moment of one poll, what polling each handle yields, and how the inner service's `call`
 * builds a call future from the extracted arguments. `Conversions` holds the protocol's
 * `IntoResponse` impls for the operation.
 */
module Upgrade {
  import opened Prelude
  import opened Http
  import opened Handler

  /** `Upgrade<P, Op, E, B, S>`: the upgraded service around `inner`. */
  datatype Upgrade<S> = Upgrade(inner: S)

  /** `UpgradeLayer::layer`: wraps exactly the given service. */
  function UpgradeLayer<S>(inner: S): (u: Upgrade<S>)
    ensures u.inner == inner
  {
    Upgrade(inner)
  }

  /** The two states of `UpgradeFuture` (`Inner::FromRequest` and `Inner::Inner`). */
  datatype Inner<FF, CF> = FromRequest(extraction: FF) | Inner(call: CF)

  /** The `IntoResponse` impls of the extraction error `X`, the output `O` and the operation error `E`. */
  datatype Conversions<!X, !O, !E> = Conversions(
    extractionError: X -> Response,
    output: O -> Response,
    error: E -> Response)

  /**
   * What one poll observes: the poll of an extraction future (yielding the arguments `A` or an
   * extraction error `X`), the inner service's `call` on the arguments, and the poll of a call
   * future (yielding an output `O` or an `OperationError<P, E>`).
   */
  datatype Driver<!S, !A, X, O, E, P, !FF, !CF> = Driver(
    pollExtraction: FF -> Poll<Result<A, X>>,
    call: (S, A) -> CF,
    pollCall: CF -> Poll<Result<O, OperationError<P, E>>>)

  /** The call future that a poll in `state` polls, if it gets that far. */
  function CallPolled<S, A, X, O, E, P, FF, CF>(state: Inner<FF, CF>, service: S, d: Driver<S, A, X, O, E, P, FF, CF>)
    : Option<CF>
  {
    match state
    case FromRequest(x) =>
      var e := d.pollExtraction(x);
      if e.Ready? && e.value.Ok? then Some(d.call(service, e.value.value)) else None
    case Inner(c) => Some(c)
  }

  /** The precondition of polling: the call future that is polled does not yield a `Poll` error. */
  predicate NoPollError<S, A, X, O, E, P, FF, CF>(state: Inner<FF, CF>, service: S, d: Driver<S, A, X, O, E, P, FF, CF>)
  {
    var c := CallPolled(state, service, d);
    c.Some? ==> !IsPollError(d.pollCall(c.value))
  }

  /** The response for a polled call in state `Inner`: an output or a modelled error is converted. */
  function CallOutcome<O, E, P, X>(p: Poll<Result<O, OperationError<P, E>>>, conv: Conversions<X, O, E>)
    : (r: Poll<Result<Response, P>>)
    requires !IsPollError(p)
    ensures r.Pending? <==> p.Pending?
    ensures p.Ready? && p.value.Ok? ==> r == Ready(Ok(conv.output(p.value.value)))
    ensures p.Ready? && p.value.Err? ==> r == Ready(Ok(conv.error(p.value.error.smithyError)))
  {
    match p
    case Pending => Pending
    case Ready(Ok(o)) => Ready(Ok(conv.output(o)))
    case Ready(Err(Smithy(e))) => Ready(Ok(conv.error(e)))
  }

  /**
   * `UpgradeFuture::poll` as a function of the state: what the poll returns and the state it
   * leaves behind.
   */
  function Step<S, A, X, O, E, P, FF, CF>(
    state: Inner<FF, CF>, service: S, d: Driver<S, A, X, O, E, P, FF, CF>, conv: Conversions<X, O, E>)
    : (r: (Poll<Result<Response, P>>, Inner<FF, CF>))
    requires NoPollError(state, service, d)
    // the future's output is never an error
    ensures !(r.0.Ready? && r.0.value.Err?)
    // a pending extraction is returned as pending, and leaves the state as it was
    ensures state.FromRequest? && d.pollExtraction(state.extraction).Pending? ==> r == (Pending, state)
    ensures state.Inner? ==> r.1 == state
    // a failed extraction is answered with its own response, and the service is not called
    ensures state.FromRequest? && d.pollExtraction(state.extraction).Ready? && d.pollExtraction(state.extraction).value.Err?
      ==> r == (Ready(Ok(conv.extractionError(d.pollExtraction(state.extraction).value.error))), state)
    // a successful extraction calls the service on the arguments and moves to `Inner`
    ensures state.FromRequest? && d.pollExtraction(state.extraction).Ready? && d.pollExtraction(state.extraction).value.Ok?
      ==> r.1 == Inner(d.call(service, d.pollExtraction(state.extraction).value.value))
    // the only move is from `FromRequest` to `Inner`, on a successful extraction
    ensures r.1 != state ==> state.FromRequest? && r.1.Inner?
    // in state `Inner` afterwards, the poll's result is the converted outcome of the call
    ensures r.1.Inner? ==> CallPolled(state, service, d) == Some(r.1.call)
    ensures r.1.Inner? ==> r.0 == CallOutcome(d.pollCall(r.1.call), conv)
  {
    match state
    case FromRequest(x) =>
      (match d.pollExtraction(x)
       case Pending => (Pending, state)
       case Ready(Err(e)) => (Ready(Ok(conv.extractionError(e))), state)
       case Ready(Ok(a)) =>
         var c := d.call(service, a);
         (CallOutcome(d.pollCall(c), conv), Inner(c)))
    case Inner(c) => (CallOutcome(d.pollCall(c), conv), state)
  }

  /** After a step the future is in state `Inner` or not, and a further step never leaves `Inner`. */
  lemma TransitionHappensOnce<S, A, X, O, E, P, FF, CF>(
    state: Inner<FF, CF>, service: S, d1: Driver<S, A, X, O, E, P, FF, CF>, d2: Driver<S, A, X, O, E, P, FF, CF>,
    conv: Conversions<X, O, E>)
    requires NoPollError(state, service, d1)
    requires NoPollError(Step(state, service, d1, conv).1, service, d2)
    ensures var s1 := Step(state, service, d1, conv).1;
      var s2 := Step(s1, service, d2, conv).1;
      s1.Inner? ==> s2 == s1
  {
  }

  /** `UpgradeFuture`: the future of `Upgrade::call`. */
  class UpgradeFuture<S, A, X, O, E, P, FF, CF> {
    /** The clone of the inner service made by `Upgrade::call`. */
    const service: S
    var inner: Inner<FF, CF>
    /** How many times this future has called `service`. */
    ghost var calls: nat

    ghost predicate Valid()
      reads this
    {
      calls == if inner.Inner? then 1 else 0
    }

    /** A fresh future is in state `FromRequest`, holding the extraction future. */
    constructor (service: S, extraction: FF)
      ensures Valid()
      ensures this.service == service && inner == FromRequest(extraction) && calls == 0
    {
      this.service := service;
      inner := FromRequest(extraction);
      calls := 0;
    }

    /** `Future::poll`: the `loop` of the source, which makes at most one move and then returns. */
    method Poll(d: Driver<S, A, X, O, E, P, FF, CF>, conv: Conversions<X, O, E>) returns (r: Poll<Result<Response, P>>)
      requires Valid()
      requires NoPollError(inner, service, d)
      modifies this
      ensures Valid() && calls <= 1
      // this poll calls the service exactly when it moves from `FromRequest` to `Inner`
      ensures calls == old(calls) + (if old(inner).FromRequest? && inner.Inner? then 1 else 0)
      ensures (r, inner) == Step(old(inner), service, d, conv)
    {
      while true
        invariant Valid()
        invariant calls == old(calls) + (if old(inner).FromRequest? && inner.Inner? then 1 else 0)
        invariant inner == old(inner) || (old(inner).FromRequest? && inner == Step(old(inner), service, d, conv).1)
        invariant NoPollError(inner, service, d)
        decreases if inner.FromRequest? then 1 else 0
      {
        var call;
        match inner {
          case FromRequest(x) =>
            var result := d.pollExtraction(x);
            match result {
              case Pending =>
                return Pending;
              case Ready(Ok(a)) =>
                call := d.call(service, a);
              case Ready(Err(e)) =>
                return Ready(Ok(conv.extractionError(e)));
            }
          case Inner(c) =>
            var result := d.pollCall(c);
            match result {
              case Pending =>
                return Pending;
              case Ready(Ok(o)) =>
                return Ready(Ok(conv.output(o)));
              case Ready(Err(Smithy(e))) =>
                return Ready(Ok(conv.error(e)));
            }
        }
        inner := Inner(call);
        calls := calls + 1;
      }
    }
  }

  /**
   * `Service::poll_ready` of `Upgrade`: the inner service's readiness, with a `Poll` error passed
   * on as it is. A modelled error at readiness is declared unreachable by the source.
   */
  function PollReady<S, P, E>(u: Upgrade<S>, ready: S -> Poll<Result<(), OperationError<P, E>>>)
    : (r: Poll<Result<(), P>>)
    requires !IsSmithyError(ready(u.inner))
    ensures r.Pending? <==> ready(u.inner).Pending?
    ensures r == Ready(Ok(())) <==> ready(u.inner) == Ready(Ok(()))
    ensures r.Ready? && r.value.Err? <==> IsPollError(ready(u.inner))
    ensures r.Ready? && r.value.Err? ==> r.value.error == ready(u.inner).value.error.pollError
  {
    match ready(u.inner)
    case Pending => Pending
    case Ready(Ok(())) => Ready(Ok(()))
    case Ready(Err(Poll(e))) => Ready(Err(e))
  }

  /**
   * `Service::call` of `Upgrade`: a new future in state `FromRequest`, holding the extraction
   * future built from the request and a clone of the inner service.
   */
  method Call<S, V, A, X, O, E, P, FF, CF>(u: Upgrade<S>, req: Request<V>, fromRequest: Request<V> -> FF)
    returns (f: UpgradeFuture<S, A, X, O, E, P, FF, CF>)
    ensures fresh(f) && f.Valid()
    ensures f.service == u.inner && f.inner == FromRequest(fromRequest(req)) && f.calls == 0
  {
    f := new UpgradeFuture(u.inner, fromRequest(req));
  }

  /**
   * The whole pipeline for an operation built from a handler: when extraction succeeds, one poll
   * gives the handler's own outcome on the extracted arguments, with its output or its error
   * converted to a response; and because `IntoService` never yields a `Poll` error, the
   * precondition of polling holds by construction.
   */
  lemma HandlerPipeline<I, T, R, O, E, X, FF, CF>(
    h: Handler<I, T, R>, intoResult: R -> Result<O, E>, x: FF,
    d: Driver<IntoService<Handler<I, T, R>>, I, X, O, E, Infallible, FF, CF>, conv: Conversions<X, O, E>)
    requires d.pollExtraction(x).Ready? && d.pollExtraction(x).value.Ok?
    requires var a := d.pollExtraction(x).value.value;
      d.pollCall(d.call(IntoService(h), a)) == ServiceCall(IntoService(h), intoResult, a)
    ensures NoPollError(FromRequest(x), IntoService(h), d)
    ensures var a := d.pollExtraction(x).value.value;
      var outcome := h.Call(intoResult, a);
      var r := Step(FromRequest(x), IntoService(h), d, conv).0;
      && (r.Pending? <==> outcome.Pending?)
      && (outcome.Ready? && outcome.value.Ok? ==> r == Ready(Ok(conv.output(outcome.value.value))))
      && (outcome.Ready? && outcome.value.Err? ==> r == Ready(Ok(conv.error(outcome.value.error))))
  {
    var a := d.pollExtraction(x).value.value;
    var s := ServiceCall(IntoService(h), intoResult, a);
    assert !IsPollError(s);
  }
}
