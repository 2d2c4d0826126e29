/** The error of a service that can fail either to route a request or, further down, to poll. */
module Service {

  /** `ServiceError`: a routing failure, or a readiness or call failure of the routed service. */
  datatype ServiceError<+R, +P> = Routing(routing: R) | Poll(poll: P)
}
