/**
 * The connection factory: `IntoMakeService` hands out a clone of the service it wraps for every
 * connection target, is always ready and never fails (its error type is `Infallible`). Services
 * are values here, so a clone is the service itself.
 */
module MakeService {
  import opened Prelude

  datatype IntoMakeService<S> = IntoMakeService(svc: S)
  {
    /** `Service::poll_ready`: always ready. */
    function PollReady(): (r: Poll<Result<(), Infallible>>)
      ensures r.Ready? && r.value.Ok?
    {
      Ready(Ok(()))
    }

    /** `Service::call`: a ready `Ok` holding a clone of the wrapped service, whatever the target. */
    function Call<T>(target: T): (r: Poll<Result<S, Infallible>>)
      ensures r.Ready? && r.value.Ok? && r.value.value == svc
    {
      Ready(Ok(svc))
    }
  }

  /** `IntoMakeService::new`. */
  function New<S>(svc: S): (m: IntoMakeService<S>)
    ensures m.svc == svc
  {
    IntoMakeService(svc)
  }

  /**
   * The handle does not depend on the connection target, and since `call` changes nothing, every
   * call hands out an equal handle, equal to the service the factory was made from.
   */
  lemma CallIsIndependentOfTarget<S, T>(svc: S, t1: T, t2: T)
    ensures New(svc).Call(t1) == New(svc).Call(t2) == Ready(Ok(svc))
  {
  }
}
