/**
 * The router: a map from request path to service. Its readiness does not depend on the routes;
 * `call` looks up the request's path and gives a future that either forwards the request to a
 * clone of the matched service or holds the one-shot error `RoutingError::Missing`.
 *
 * Forwarding is tower's `oneshot`, which waits for the service to be ready and then calls it on
 * the request; what polling it yields at a given moment is given by `oneshot(service, request)`.
 */
module Rest {
  import opened Prelude
  import opened Http
  import Service

  datatype RoutingError = Missing

  /** The state of a `RoutingFuture`: `Inner::Future` (forwarding) or `Inner::Ready` (a routing error). */
  datatype RoutingInner<S, V> = Future(service: S, request: Request<V>) | Resolved(value: Option<RoutingError>)

  /** `Router<S>`. */
  datatype Router<S> = Router(routes: map<string, S>)
  {
    /**
     * `Service::poll_ready`, whose error type wraps `E`, the routes' error type; see
     * `RouterIsReady`.
     */
    function PollReady<E>(): Poll<Result<(), Service.ServiceError<RoutingError, E>>>
    {
      Ready(Ok(()))
    }

    /** `Router::layer`: the same paths, each service `s` replaced by `layer(s)`. */
    function Layer<T>(layer: S -> T): (r: Router<T>)
      ensures r.routes.Keys == routes.Keys
      ensures forall p :: p in routes ==> r.routes[p] == layer(routes[p])
    {
      Router(map p | p in routes :: layer(routes[p]))
    }

    /** The state a future made by `call` starts in: forwarding on a hit, `Some(Missing)` on a miss. */
    function Route<V>(req: Request<V>): (f: RoutingInner<S, V>)
      ensures req.path in routes <==> f.Future?
      ensures f.Future? ==> f.service == routes[req.path] && f.request == req
      ensures f.Resolved? ==> f.value == Some(Missing)
    {
      if req.path in routes then Future(routes[req.path], req) else Resolved(Some(Missing))
    }

    /** `Service::call`: a new `RoutingFuture` in the state `Route` gives. */
    method Call<V>(req: Request<V>) returns (f: RoutingFuture<S, V>)
      ensures fresh(f) && f.inner == Route(req)
    {
      if req.path in routes {
        f := new RoutingFuture(Future(routes[req.path], req));
      } else {
        f := new RoutingFuture(Resolved(Some(Missing)));
      }
    }
  }

  /** The router is always ready, whatever its routes. */
  lemma RouterIsReady<S, E>(r: Router<S>)
    ensures r.PollReady<E>() == Ready(Ok(()))
  {
  }

  /** The last pair of `pairs` with path `p` wins, as for `HashMap::from_iter`. */
  ghost predicate LastWith<S>(pairs: seq<(string, S)>, i: int)
    requires 0 <= i < |pairs|
  {
    forall j :: i < j < |pairs| ==> pairs[j].0 != pairs[i].0
  }

  /**
   * `Router::from_iter`: the routes are exactly the paths of the pairs, each mapped to the service
   * of the last pair with that path.
   */
  function FromIter<S>(pairs: seq<(string, S)>): (r: Router<S>)
    ensures r.routes.Keys == set i | 0 <= i < |pairs| :: pairs[i].0
    ensures forall i :: 0 <= i < |pairs| && LastWith(pairs, i) ==> r.routes[pairs[i].0] == pairs[i].1
    decreases |pairs|
  {
    if pairs == [] then Router(map[])
    else
      var prefix := FromIter(pairs[..|pairs| - 1]);
      var last := pairs[|pairs| - 1];
      assert forall i :: 0 <= i < |pairs| - 1 ==> pairs[..|pairs| - 1][i] == pairs[i];
      Router(prefix.routes[last.0 := last.1])
  }

  /** Layering twice is layering once with the composed function. */
  lemma LayerComposes<S, T, U>(r: Router<S>, f: S -> T, g: T -> U)
    ensures r.Layer(f).Layer(g) == r.Layer((s: S) => g(f(s)))
  {
  }

  /** Layering does not change where a request goes, only the service it goes to. */
  lemma LayerPreservesRouting<S, T, V>(r: Router<S>, f: S -> T, req: Request<V>)
    ensures r.Layer(f).Route(req).Future? <==> r.Route(req).Future?
    ensures r.Route(req).Future? ==> r.Layer(f).Route(req).service == f(r.Route(req).service)
  {
  }

  /**
   * `RoutingFuture::poll` as a function of the state. Forwarding passes the service's result
   * through, wrapping its error as `ServiceError::Poll`; a routing error is taken out of the
   * state and returned as `ServiceError::Routing`. Polling after the error was taken is a
   * violation of the future's contract.
   */
  function RoutingStep<S, V, R, E>(inner: RoutingInner<S, V>, oneshot: (S, Request<V>) -> Poll<Result<R, E>>)
    : (r: (Poll<Result<R, Service.ServiceError<RoutingError, E>>>, RoutingInner<S, V>))
    requires !(inner.Resolved? && inner.value.None?)
    ensures inner.Future? ==> r.1 == inner
    ensures inner.Future? ==> (r.0.Pending? <==> oneshot(inner.service, inner.request).Pending?)
    ensures inner.Future? && oneshot(inner.service, inner.request).Ready? ==>
      match oneshot(inner.service, inner.request).value
      case Ok(v) => r.0 == Ready(Ok(v))
      case Err(e) => r.0 == Ready(Err(Service.ServiceError.Poll(e)))
    ensures inner.Resolved? ==> r == (Ready(Err(Service.ServiceError.Routing(inner.value.value))), Resolved(None))
  {
    match inner
    case Future(s, req) => (MapErr(oneshot(s, req), (e: E) => Service.ServiceError<RoutingError, E>.Poll(e)), inner)
    case Resolved(Some(e)) => (Ready(Err(Service.ServiceError.Routing(e))), Resolved(None))
  }

  /**
   * A miss does not depend on any service: its result is the same whatever the routed services
   * would do.
   */
  lemma MissInvokesNoService<S, V, R, E>(
    r: Router<S>, req: Request<V>, o1: (S, Request<V>) -> Poll<Result<R, E>>, o2: (S, Request<V>) -> Poll<Result<R, E>>)
    requires req.path !in r.routes
    ensures RoutingStep(r.Route(req), o1) == RoutingStep(r.Route(req), o2)
    ensures RoutingStep(r.Route(req), o1).0 == Ready(Err(Service.ServiceError.Routing(Missing)))
  {
  }

  /** `RoutingFuture`: the future of `Router::call`. */
  class RoutingFuture<S, V> {
    var inner: RoutingInner<S, V>

    constructor (inner: RoutingInner<S, V>)
      ensures this.inner == inner
    {
      this.inner := inner;
    }

    /** `Future::poll`; the error of a miss is `take`n, so the future cannot report it twice. */
    method Poll<R, E>(oneshot: (S, Request<V>) -> Poll<Result<R, E>>)
      returns (r: Poll<Result<R, Service.ServiceError<RoutingError, E>>>)
      requires !(inner.Resolved? && inner.value.None?)
      modifies this
      ensures (r, inner) == RoutingStep(old(inner), oneshot)
    {
      match inner {
        case Future(s, req) =>
          r := MapErr(oneshot(s, req), (e: E) => Service.ServiceError<RoutingError, E>.Poll(e));
        case Resolved(value) =>
          var error := value.value;
          inner := Resolved(None);
          r := Ready(Err(Service.ServiceError.Routing(error)));
      }
    }
  }
}
