/**
 * The generated Pokemon service. A builder with one slot per operation, each `OperationNotSet`
 * or set to an `Operation`; `build`, which exists only once both slots are set, upgrades each
 * operation and collects them into a router keyed by the operations' `NAME`s. The composed
 * service turns a routing failure into a response, so only the routed services' own failures
 * come out as errors.
 *
 * `BoxCloneService` erases the two routes' different types; here that is the sum type
 * `RouteService`, one variant per operation.
 */
module PokemonService {
  import opened Prelude
  import opened Http
  import Service
  import opened Rest
  import MakeService
  import Operation
  import opened Operations

  /** A builder slot: `OperationNotSet`, or a set `Operation`. */
  datatype Slot<S> = OperationNotSet | Set(op: Operation.Operation<S>)

  /** `RouteService<B>`: the boxed, upgraded service of one of the two operations. */
  datatype RouteService<S1, S2> =
    | GetPokemonSpeciesRoute(getPokemonSpecies: Operation.HttpService<S1>)
    | EmptyOperationRoute(emptyOperation: Operation.HttpService<S2>)

  /** `PokemonServiceBuilder<Op1, Op2>`. */
  datatype PokemonServiceBuilder<S1, S2> = PokemonServiceBuilder(getPokemonSpecies: Slot<S1>, emptyOperation: Slot<S2>)
  {
    /** `get_pokemon_species`: sets the first slot to `op`; the second is unchanged. */
    function GetPokemonSpecies<T>(op: Operation.Operation<T>): (b: PokemonServiceBuilder<T, S2>)
      ensures b.getPokemonSpecies == Set(op) && b.emptyOperation == emptyOperation
    {
      PokemonServiceBuilder(Set(op), emptyOperation)
    }

    /** `empty_operation`: sets the second slot to `op`; the first is unchanged. */
    function EmptyOperation<T>(op: Operation.Operation<T>): (b: PokemonServiceBuilder<S1, T>)
      ensures b.getPokemonSpecies == getPokemonSpecies && b.emptyOperation == Set(op)
    {
      PokemonServiceBuilder(getPokemonSpecies, Set(op))
    }

    /** The builder types on which `build` exists: both slots hold an `Operation`. */
    predicate Complete()
    {
      getPokemonSpecies.Set? && emptyOperation.Set?
    }

    /**
     * `build`: a router with exactly the routes `GetPokemonSpecies::NAME` and
     * `EmptyOperation::NAME`, each mapped to the upgrade of its own slot's operation.
     */
    function Build(): (svc: PokemonService<RouteService<S1, S2>>)
      requires Complete()
      ensures svc.router.routes.Keys == {GetPokemonSpeciesName, EmptyOperationName}
      ensures svc.router.routes[GetPokemonSpeciesName] == GetPokemonSpeciesRoute(getPokemonSpecies.op.Upgrade())
      ensures svc.router.routes[EmptyOperationName] == EmptyOperationRoute(emptyOperation.op.Upgrade())
    {
      var pairs := [
        (GetPokemonSpeciesName, GetPokemonSpeciesRoute(getPokemonSpecies.op.Upgrade())),
        (EmptyOperationName, EmptyOperationRoute(emptyOperation.op.Upgrade()))];
      assert LastWith(pairs, 0) && LastWith(pairs, 1);
      PokemonService(FromIter(pairs))
    }
  }

  /** `PokemonService::builder`: both slots `OperationNotSet`. */
  function Builder<S1, S2>(): PokemonServiceBuilder<S1, S2>
  {
    PokemonServiceBuilder(OperationNotSet, OperationNotSet)
  }

  /** Each setter touches only its own slot, so the order in which the slots are set does not matter. */
  lemma SettersCommute<S1, S2, T1, T2>(b: PokemonServiceBuilder<S1, S2>, op1: Operation.Operation<T1>, op2: Operation.Operation<T2>)
    ensures b.GetPokemonSpecies(op1).EmptyOperation(op2) == b.EmptyOperation(op2).GetPokemonSpecies(op1)
    ensures b.GetPokemonSpecies(op1).EmptyOperation(op2).Complete()
  {
  }

  /**
   * A new builder has both slots unset and cannot be built; neither can it once only one of
   * its slots is set, only once both are.
   */
  lemma BuildNeedsBothSlots<S1, S2, T1, T2>(op1: Operation.Operation<T1>, op2: Operation.Operation<T2>)
    ensures Builder<S1, S2>().getPokemonSpecies == OperationNotSet && Builder<S1, S2>().emptyOperation == OperationNotSet
    ensures !Builder<S1, S2>().Complete()
    ensures !Builder<S1, S2>().GetPokemonSpecies(op1).Complete()
    ensures !Builder<S1, S2>().EmptyOperation(op2).Complete()
    ensures Builder<S1, S2>().GetPokemonSpecies(op1).EmptyOperation(op2).Complete()
  {
  }

  /** `PokemonService<S>`. */
  datatype PokemonService<S> = PokemonService(router: Router<S>)
  {
    /** `PokemonService::layer`: `layer` applied to every route, under the same paths. */
    function Layer<T>(layer: S -> T): (svc: PokemonService<T>)
      ensures svc.router.routes.Keys == router.routes.Keys
      ensures forall p :: p in router.routes ==> svc.router.routes[p] == layer(router.routes[p])
    {
      PokemonService(router.Layer(layer))
    }

    /** `into_make_service`: a connection factory for this service. */
    function IntoMakeService(): (m: MakeService.IntoMakeService<PokemonService<S>>)
      ensures m.svc == this
    {
      MakeService.New(this)
    }

    /**
     * `Service::poll_ready`: the router's readiness with its error unwrapped, `E` being the
     * routes' error type; see `ServiceIsReady`.
     */
    function PollReady<E>(): Poll<Result<(), E>>
    {
      Readiness(router.PollReady<E>())
    }

    /** `Service::call`: the router's future, whose result is mapped by `ResponseOf` when polled. */
    method Call<V>(req: Request<V>) returns (f: PokemonFuture<S, V>)
      ensures fresh(f) && fresh(f.routing)
      ensures f.routing.inner == router.Route(req)
    {
      var routing := router.Call(req);
      f := new PokemonFuture(routing);
    }
  }

  /** The service is always ready. */
  lemma ServiceIsReady<S, E>(svc: PokemonService<S>)
    ensures svc.PollReady<E>() == Ready(Ok(()))
  {
  }

  /**
   * The closure of `PokemonService::poll_ready`: a `Poll` error is passed on unwrapped; a routing
   * error at readiness is declared unreachable by the source.
   */
  function Readiness<E>(p: Poll<Result<(), Service.ServiceError<RoutingError, E>>>): (r: Poll<Result<(), E>>)
    requires !(p.Ready? && p.value.Err? && p.value.error.Routing?)
    ensures r.Pending? <==> p.Pending?
    ensures r == Ready(Ok(())) <==> p == Ready(Ok(()))
    ensures p.Ready? && p.value.Err? ==> r == Ready(Err(p.value.error.poll))
  {
    match p
    case Pending => Pending
    case Ready(Ok(())) => Ready(Ok(()))
    case Ready(Err(Poll(e))) => Ready(Err(e))
  }

  /**
   * The closure of `PokemonService::call`: a response passes through, a `Poll` error comes out
   * unwrapped as the error, and a routing error becomes its response (so it is never an error).
   */
  function ResponseOf<E>(result: Result<Response, Service.ServiceError<RoutingError, E>>, routingResponse: RoutingError -> Response)
    : (r: Result<Response, E>)
    ensures result.Ok? ==> r == Ok(result.value)
    ensures result.Err? && result.error.Poll? ==> r == Err(result.error.poll)
    ensures result.Err? && result.error.Routing? ==> r == Ok(routingResponse(result.error.routing))
    ensures r.Err? <==> result.Err? && result.error.Poll?
  {
    match result
    case Ok(v) => Ok(v)
    case Err(Poll(e)) => Err(e)
    case Err(Routing(e)) => Ok(routingResponse(e))
  }

  /** A poll of the composed service's future: the routing future's step, with its result mapped. */
  function ServiceStep<S, V, E>(
    inner: RoutingInner<S, V>, oneshot: (S, Request<V>) -> Poll<Result<Response, E>>, routingResponse: RoutingError -> Response)
    : (r: (Poll<Result<Response, E>>, RoutingInner<S, V>))
    requires !(inner.Resolved? && inner.value.None?)
    // only a routed service's own failure comes out as an error, unchanged
    ensures r.0.Ready? && r.0.value.Err? ==>
      inner.Future? && oneshot(inner.service, inner.request) == Ready(Err(r.0.value.error))
    // a routing error always becomes its response
    ensures inner.Resolved? ==> r == (Ready(Ok(routingResponse(inner.value.value))), Resolved(None))
    // a routed service's response passes through, and its pending poll stays pending
    ensures inner.Future? ==> r.1 == inner
    ensures inner.Future? && oneshot(inner.service, inner.request).Ready? && oneshot(inner.service, inner.request).value.Ok?
      ==> r.0 == oneshot(inner.service, inner.request)
    ensures inner.Future? && oneshot(inner.service, inner.request).Ready? && oneshot(inner.service, inner.request).value.Err?
      ==> r.0 == Ready(Err(oneshot(inner.service, inner.request).value.error))
    ensures inner.Future? ==> (r.0.Pending? <==> oneshot(inner.service, inner.request).Pending?)
  {
    var (p, next) := RoutingStep(inner, oneshot);
    (MapPoll(p, (result: Result<Response, Service.ServiceError<RoutingError, E>>) => ResponseOf(result, routingResponse)), next)
  }

  /** The future of `PokemonService::call`: the router's future, mapped. */
  class PokemonFuture<S, V> {
    const routing: RoutingFuture<S, V>

    constructor (routing: RoutingFuture<S, V>)
      ensures this.routing == routing
    {
      this.routing := routing;
    }

    method Poll<E>(oneshot: (S, Request<V>) -> Poll<Result<Response, E>>, routingResponse: RoutingError -> Response)
      returns (r: Poll<Result<Response, E>>)
      requires !(routing.inner.Resolved? && routing.inner.value.None?)
      modifies routing
      ensures (r, routing.inner) == ServiceStep(old(routing.inner), oneshot, routingResponse)
    {
      var p := routing.Poll(oneshot);
      r := MapPoll(p, (result: Result<Response, Service.ServiceError<RoutingError, E>>) => ResponseOf(result, routingResponse));
    }
  }

  /**
   * Routing in the built service: a request for one operation's `NAME` is forwarded to that
   * operation's upgraded service and not to the other's; any other path yields the routing
   * error's response, whatever the services would do.
   */
  lemma BuiltServiceRoutes<S1, S2, V, E>(
    b: PokemonServiceBuilder<S1, S2>, req: Request<V>,
    oneshot: (RouteService<S1, S2>, Request<V>) -> Poll<Result<Response, E>>, routingResponse: RoutingError -> Response)
    requires b.Complete()
    ensures var f := b.Build().router.Route(req);
      && (req.path == GetPokemonSpeciesName ==> f == Future(GetPokemonSpeciesRoute(b.getPokemonSpecies.op.Upgrade()), req))
      && (req.path == EmptyOperationName ==> f == Future(EmptyOperationRoute(b.emptyOperation.op.Upgrade()), req))
      && (req.path != GetPokemonSpeciesName && req.path != EmptyOperationName ==>
            ServiceStep(f, oneshot, routingResponse).0 == Ready(Ok(routingResponse(Missing))))
  {
  }

  /**
   * The routes of a built service are keyed by the bare operation names, which do not begin with
   * `/`. A request whose path begins with `/` is therefore never forwarded: it gets the `Missing`
   * response.
   */
  lemma SlashPathIsMissing<S1, S2, V>(b: PokemonServiceBuilder<S1, S2>, req: Request<V>)
    requires b.Complete()
    requires |req.path| > 0 && req.path[0] == '/'
    ensures b.Build().router.Route(req) == Resolved(Some(Missing))
  {
    assert req.path[0] != GetPokemonSpeciesName[0] && req.path[0] != EmptyOperationName[0];
  }

  /** Layering the service changes the service a request is forwarded to, not whether it is forwarded. */
  lemma LayerKeepsDispatch<S, T, V>(svc: PokemonService<S>, layer: S -> T, req: Request<V>)
    ensures svc.Layer(layer).router.Route(req).Future? <==> svc.router.Route(req).Future?
    ensures svc.router.Route(req).Future? ==>
      svc.Layer(layer).router.Route(req) == Future(layer(svc.router.Route(req).service), req)
  {
  }
}
