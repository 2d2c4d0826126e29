# Request dispatch for a Smithy-style service, modelled in Dafny

This project models the core of a server-side RPC dispatch runtime together with one service
generated from it, the Pokemon service. The runtime composes typed operations into one HTTP service.
- **Handlers** are closures, or stateful closures, returning either a plain output or a `Result`. They are normalised into services whose error is an `OperationError`. That type has two classes: `Poll` for a readiness failure and `Smithy` for a modelled error.
- **Flattened** services take the operation input and its extensions as one flat tuple. They are canonicalised into services of `(input, extensions)`.
- **Extraction**: request extraction (`FromRequest`) and response conversion (`IntoResponse`) go between typed values and HTTP.
- **Upgrade**: an adapter turns a typed operation service into an HTTP service. Its future is a two-phase state machine: extraction first, then the inner call.
- **Operation**: a composite of an inner service and an HTTP layer stack. Upgrading it places the upgrade innermost and the layers outside it, in the order they were added.
- **Router**: looks a request's path up in a map. It forwards the request to the matching service, or resolves to `RoutingError::Missing`.
- **Builder**: the generated builder has one slot per operation. `build` exists only once both slots are set, and it produces a router keyed by the operations' names.
- **Connection factory**: `IntoMakeService` hands out a copy of the service for every connection.

Futures are modelled one poll at a time. A future that is a pure combinator (`map`, `map_ok`, `map_err`, `ready`) is a function on `Poll` values. The two futures that keep state between polls are classes, `UpgradeFuture` and `RoutingFuture`, each with a `Poll` method. Each `Poll` method is proved against a step function on its state:
- `Upgrade.Step` for `UpgradeFuture`;
- `Rest.RoutingStep` for `RoutingFuture`;
- `PokemonService.ServiceStep` for the composed service's future.

Whatever an inner future yields on this poll is a parameter of `Poll`: extraction, the handler's future, and the routed service's `oneshot`. Trait implementations that Rust selects by type become function parameters:
- `ToResult::into_result`;
- `IntoResponse::into_response` of outputs, errors and `RoutingError`;
- the arity-specific `Flattened::unflatten`.

`Request` is a class, because `Extension::from_request` removes an entry from its extension map in place.

Layer ordering follows the code. `Operation::upgrade` builds `Stack::new(UpgradeLayer::new(), layer)`, so the stored layers wrap the already-upgraded HTTP service. A layer added later wraps outermost (runtime/src/operation/mod.rs:32-40 and 73-78). Descriptions of these layers as model-level disagree with the code; the model follows the code.

## Model

| member | source | states |
|---|---|---|
| Handler.ResultIntoResult | runtime/src/operation/handler.rs:36-40 | a `Result` handler output is passed through unchanged: Ok exactly when the input is Ok, with the same value or error |
| Handler.OutputIntoResult | runtime/src/operation/handler.rs:43-47 | a plain handler output always becomes an Ok holding that output |
| Handler.Handler.Call | runtime/src/operation/handler.rs:49-84 | calling a closure handler, or a stateful one, polls the closure's future on the request (with the state's copy for a stateful one) and maps its result through `into_result` |
| Handler.WithState | runtime/src/operation/handler.rs:86-95 | `with_state` yields a stateful handler holding exactly the given function and state |
| Handler.WithStateIsCapture | runtime/src/operation/handler.rs:63-95 | a stateful handler behaves, on every request, as the closure that passes the held state as the second argument |
| Handler.PlainOutputNeverFails | runtime/src/operation/handler.rs:42-47 | a handler whose future yields a plain output never completes with an error |
| Handler.IntoServiceIsReady | runtime/src/operation/handler.rs:148-150 | a handler service is always ready, whatever the handler |
| Handler.IntoServiceOf | runtime/src/operation/handler.rs:101-112 | `into_service` wraps exactly the given handler |
| Handler.ServiceCall | runtime/src/operation/handler.rs:152-154 | the service call is pending exactly when the handler's call is; a handler Ok passes through; a handler error comes out as `OperationError::Smithy` of that error; a `Poll` error is never produced |
| Flattened.Unflatten0 | runtime/src/operation/flattened.rs:33-35 | with no extensions the flattened request is the input itself |
| Flattened.Unflatten1 | runtime/src/operation/flattened.rs:50-52 | with one extension the flattened request holds the input and that extension |
| Flattened.Unflatten2 | runtime/src/operation/flattened.rs:67-69 | with two extensions the flattened request holds the input and both extensions, in order |
| Flattened.UnflattenIsLossless | runtime/src/operation/flattened.rs:25-70 | for every arity, unflattening is inverted by splitting the flat tuple back into input and extensions, in both directions |
| Flattened.UnflattenIsInjective | runtime/src/operation/flattened.rs:25-70 | distinct (input, extensions) pairs never unflatten to the same request |
| Flattened.IntoUnflattened.PollReady | runtime/src/operation/flattened.rs:127-129 | readiness is exactly the inner service's readiness |
| Flattened.IntoUnflattened.Call | runtime/src/operation/flattened.rs:131-134 | a call is the inner service's call on the unflattened request |
| Flattened.IntoUnflatten | runtime/src/operation/flattened.rs:78-87 | `into_unflatten` wraps exactly the given service |
| Flattened.CallPassesComponents | runtime/src/operation/flattened.rs:118-135 | for each arity the inner service receives the input and extension values exactly as given |
| HttpConversions.UnitFromRequest | runtime/src/operation/http_conversions.rs:19-26 | extracting no extensions is immediately ready and succeeds |
| HttpConversions.Tuple1FromRequest | runtime/src/operation/http_conversions.rs:28-38 | extracting a 1-tuple is pending exactly when its element's extraction is pending, and succeeds exactly when it succeeds, with the element wrapped; the element's error is passed through |
| HttpConversions.ExtensionFromRequest | runtime/src/operation/http_conversions.rs:43-58 | extracting an `Extension` is immediately ready with the value stored under its type, and removes exactly that entry from the request's extensions |
| HttpConversions.Either.IntoResponse | runtime/src/operation/http_conversions.rs:68-79 | each side of an `Either` converts with its own side's conversion |
| Upgrade.UpgradeLayer | runtime/src/operation/upgrade.rs:53-61 | the upgrade layer wraps exactly the given service |
| Upgrade.CallOutcome | runtime/src/operation/upgrade.rs:153-162 | the inner call's result becomes a response: the output's response on Ok, the Smithy error's response on error, pending while the call is pending |
| Upgrade.Step | runtime/src/operation/upgrade.rs:140-168 | one poll never yields an error; a pending extraction yields `Pending` and keeps the state; a failed extraction yields the extraction error's response; a successful extraction calls the service and moves to the inner-call phase; the only transition is from extraction to inner call; in the inner-call phase the result is the call's outcome and the phase is kept |
| Upgrade.TransitionHappensOnce | runtime/src/operation/upgrade.rs:140-168 | after a poll has entered the inner-call phase, the next poll stays in it, with the same call |
| Upgrade.UpgradeFuture.constructor | runtime/src/operation/upgrade.rs:92-104 | a new upgrade future holds the service and starts in the extraction phase, with no call made |
| Upgrade.UpgradeFuture.Poll | runtime/src/operation/upgrade.rs:140-168 | a poll's result and new phase are those of `Step`; the poll calls the inner service exactly when it moves from extraction to the inner call, which `Step` allows only once, so the service is called at most once over the future's life |
| Upgrade.PollReady | runtime/src/operation/upgrade.rs:193-198 | readiness is pending, ready or failed exactly when the inner service's is; a `Poll` failure is passed on unwrapped |
| Upgrade.Call | runtime/src/operation/upgrade.rs:200-207 | a call produces a fresh future holding the inner service and the request's extraction, in the extraction phase |
| Upgrade.HandlerPipeline | runtime/src/operation/upgrade.rs:140-168 | for an upgraded handler service, once extraction has succeeded, the response is the conversion of the handler's own result: its output's response, or its error's response |
| Operation.WrapAppend | runtime/src/operation/mod.rs:73-78 | wrapping in the layers `a` and then `b` is the same as wrapping in `a + b` |
| Operation.ApplyIsWrap | runtime/src/operation/mod.rs:32-40 | applying a layer stack wraps the service in the stack's layers, innermost first |
| Operation.StackIsAssociative | runtime/src/operation/mod.rs:73-78 | how stacks are nested does not change the wrapped service |
| Operation.Operation.AddLayer | runtime/src/operation/mod.rs:73-78 | adding a layer keeps the inner service and puts the new layer outermost in the stack |
| Operation.Operation.Upgrade | runtime/src/operation/mod.rs:32-40 | upgrading applies the upgrade layer to the inner service first, then wraps the result in the stored layers, innermost first |
| Operation.FromHandler | runtime/src/operation/mod.rs:59-67 | from a handler: the inner service is that handler's service and there are no layers |
| Operation.FromService | runtime/src/operation/mod.rs:45-53 | from a service: the inner service is its unflattening wrapper and there are no layers |
| Operation.UpgradeWithoutLayers | runtime/src/operation/mod.rs:32-67 | a fresh operation upgrades to the bare upgraded service |
| Operation.LaterLayerIsOutermost | runtime/src/operation/mod.rs:32-40 | of two layers added in turn, the later one wraps the earlier, which wraps the upgraded service |
| Operation.AddLayersInOrder | runtime/src/operation/mod.rs:73-78 | adding a sequence of layers keeps the inner service; upgrading then wraps in the earlier layers followed by the new ones, in order |
| Rest.FromIter | runtime/src/router/rest.rs:20-26 | the router's paths are exactly those of the pairs; for a repeated path the last pair wins |
| Rest.RouterIsReady | runtime/src/router/rest.rs:101-103 | the router is always ready, whatever its routes |
| Rest.Router.Layer | runtime/src/router/rest.rs:30-41 | layering keeps exactly the same paths and applies the layer to each route's service |
| Rest.Router.Route | runtime/src/router/rest.rs:105-116 | a request is forwarded exactly when its path is routed, to that path's service with the request itself; otherwise it resolves to `Missing` |
| Rest.Router.Call | runtime/src/router/rest.rs:105-116 | a call produces a fresh routing future in the state `Route` determines |
| Rest.LayerComposes | runtime/src/router/rest.rs:30-41 | layering twice is layering once with the composed layer |
| Rest.LayerPreservesRouting | runtime/src/router/rest.rs:30-41 | layering changes which service a request goes to, not whether it is routed |
| Rest.RoutingStep | runtime/src/router/rest.rs:57-69 | a forwarded request yields its service's result, with an error wrapped as `ServiceError::Poll`; a resolved routing error is yielded once as `ServiceError::Routing` and then taken |
| Rest.MissInvokesNoService | runtime/src/router/rest.rs:105-116 | for an unrouted path no service is called: the result is `Routing(Missing)` whatever the services would do |
| Rest.RoutingFuture.constructor | runtime/src/router/rest.rs:44-49 | a routing future holds the given state |
| Rest.RoutingFuture.Poll | runtime/src/router/rest.rs:57-69 | a poll's result and new state are those of `RoutingStep` |
| MakeService.IntoMakeService.PollReady | runtime/src/make_service.rs:28-30 | the factory is always ready |
| MakeService.IntoMakeService.Call | runtime/src/make_service.rs:32-34 | each connection immediately receives the wrapped service |
| MakeService.New | runtime/src/make_service.rs:14-16 | the factory wraps exactly the given service |
| MakeService.CallIsIndependentOfTarget | runtime/src/make_service.rs:32-34 | the service handed out does not depend on the connection target |
| PokemonService.PokemonServiceBuilder.GetPokemonSpecies | generated/src/services/pokemon_service.rs:93-101 | sets the `GetPokemonSpecies` slot and leaves the other slot unchanged |
| PokemonService.PokemonServiceBuilder.EmptyOperation | generated/src/services/pokemon_service.rs:103-111 | sets the `EmptyOperation` slot and leaves the other slot unchanged |
| PokemonService.PokemonServiceBuilder.Build | generated/src/services/pokemon_service.rs:114-151 | the built router has exactly the two operation names as paths, each mapped to the upgrade of its own slot's operation |
| PokemonService.SettersCommute | generated/src/services/pokemon_service.rs:92-112 | the setters commute, and setting both slots on any builder makes it buildable |
| PokemonService.BuildNeedsBothSlots | generated/src/services/pokemon_service.rs:44-151 | a new builder has both slots `OperationNotSet` and cannot be built; with only one slot set it still cannot; with both set it can |
| PokemonService.PokemonService.Layer | generated/src/services/pokemon_service.rs:29-36 | layering keeps the same paths and applies the layer to each route |
| PokemonService.PokemonService.IntoMakeService | generated/src/services/pokemon_service.rs:39-41 | the factory hands out this service |
| PokemonService.ServiceIsReady | generated/src/services/pokemon_service.rs:70-75 | the service is always ready: the router is, and `Readiness` keeps a ready `Ok` |
| PokemonService.PokemonService.Call | generated/src/services/pokemon_service.rs:77-83 | a call produces a fresh future over a fresh routing future in the state `Route` determines |
| PokemonService.Readiness | generated/src/services/pokemon_service.rs:71-74 | the router's readiness is passed on with its `Poll` error unwrapped; pending and ready are kept |
| PokemonService.ResponseOf | generated/src/services/pokemon_service.rs:78-82 | a response passes through; a `Poll` error comes out unwrapped; a routing error becomes its response; the result is an error exactly when a `Poll` error came out |
| PokemonService.ServiceStep | generated/src/services/pokemon_service.rs:77-83 | an error comes out exactly when the routed service itself yielded an error, and it is that error; a routing error always becomes its response; a routed service's response and pending are passed through |
| PokemonService.PokemonFuture.constructor | generated/src/services/pokemon_service.rs:63-68 | the service's future holds the given routing future |
| PokemonService.PokemonFuture.Poll | generated/src/services/pokemon_service.rs:63-83 | a poll's result and the routing future's new state are those of `ServiceStep` |
| PokemonService.BuiltServiceRoutes | generated/src/services/pokemon_service.rs:137-150 | in a built service a request for `GetPokemonSpecies` goes to that operation's service, one for `EmptyOperation` to the other's, and any other path yields the `Missing` response |
| PokemonService.SlashPathIsMissing | generated/src/services/pokemon_service.rs:137-150 | the built routes are keyed by the bare operation names, so a request whose path begins with `/` is never forwarded and gets the `Missing` routing error |
| PokemonService.LayerKeepsDispatch | generated/src/services/pokemon_service.rs:29-36 | layering the service changes the target of a request, not whether it is forwarded |

## Left out

- I/O, the executor and `Context`/wakers are not modelled. Polls are driven by the caller, and whatever an inner future yields on a poll is a parameter.
- `Pin`, pin projection, `Clone` of services, `Oneshot`'s own readiness phase and `BoxCloneService` are not modelled. A routed service is a value, and its one-shot call is a parameter. `BoxCloneService` becomes the sum type `RouteService`.
- `map_err(Into::into)` on each route in `build` boxes the route's error into a trait object. The model keeps the route's own error type.
- `Send`/`Sync`/`'static` bounds, and the trait bounds `build` places on the layers and bodies, are compile-time only.
- The extraction of `(Input, Exts)`, the 2-tuple `FromRequest`, `RoutingError::into_response` and the generated protocol conversions have `todo!()` bodies or live in code outside this model. They are parameters: the extraction future in `Upgrade.Driver`, the conversions in `Upgrade.Conversions`, and `routingResponse`.
- `IntoResponse` for `Infallible` (runtime/src/operation/http_conversions.rs:103-107) has no values to convert, so it is not modelled. `Infallible` itself is a one-value datatype, because a Dafny type cannot be empty here. Every contract whose error type is `Infallible` says that no error is produced.
- `OperationShape` is modelled only by the operation names `GetPokemonSpecies` and `EmptyOperation` (module `Operations`). Its input, output and error types are type parameters.
- The second definition of `OperationError` in runtime/src/operation/mod.rs:84-91 is identical to the one in handler.rs. It is modelled once.
- `FnMut` closures that change their own captured state between calls are modelled as pure functions.
- Request bodies, headers and URIs other than the path are not modelled.
- Request paths are arbitrary strings in the model. The built router is keyed by the bare operation names (generated/src/operations/get_pokemon_species.rs:17, generated/src/operations/empty_operation.rs:15) and looks up the URI path (runtime/src/router/rest.rs:106). An HTTP server normally receives paths that begin with `/`, and `PokemonService.SlashPathIsMissing` shows that no such path is routed. The `http` crate's guarantee about path form is not part of this model, so this is recorded here rather than as a defect.
- HttpConversions.ExtensionFromRequest: the panic when the extension is absent is a precondition.
- Upgrade.UpgradeFuture.Poll: the `unreachable!` for a `Poll` error from the inner call is a precondition (`NoPollError`).
- Upgrade.PollReady: the `unreachable!` for a Smithy error at readiness is a precondition.
- PokemonService.Readiness: the `unreachable!` for a routing error at readiness is a precondition.
- Rest.RoutingFuture.Poll: the panic on polling after completion is a precondition.
- Polling `UpgradeFuture` after it has completed is outside the model's contract.
- runtime/src/router/mod.rs, shape.rs and the example usage.rs are context only and are not part of this model.
