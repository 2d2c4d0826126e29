/**
 * The Rust and `futures` vocabulary the runtime is written in: `Option`, `Result`, `Poll`,
 * the one-element tuple `(A,)`, and the poll-mapping combinators (`map`, `map_ok`, `map_err`).
 *
 * A future is modelled by what one poll of it yields: `Pending` or `Ready(v)`. A combinator
 * future such as `fut.map(f)` yields, when polled, the poll of `fut` with `f` applied to a
 * ready value, so the combinators below act on `Poll` values.
 */
module Prelude {

  datatype Option<+T> = None | Some(value: T)

  datatype Result<+T, +E> = Ok(value: T) | Err(error: E)

  /** `std::task::Poll`. */
  datatype Poll<+T> = Pending | Ready(value: T)

  /**
   * `std::convert::Infallible`, the error type of operations that cannot fail. Rust's type has no
   * values; a Dafny type needs one, so this one has a single value, and the contract of every
   * function whose error type is `Infallible` says that no error is produced.
   */
  datatype Infallible = Infallible

  /** Rust's one-element tuple `(A,)`, which Dafny has no syntax for. */
  datatype Tuple1<+A> = Tuple1(_0: A)

  /** `FutureExt::map`: a ready value goes through `f`, a pending poll stays pending. */
  function MapPoll<T, U>(p: Poll<T>, f: T -> U): (r: Poll<U>)
    ensures r.Pending? <==> p.Pending?
    ensures p.Ready? ==> r.value == f(p.value)
  {
    match p
    case Pending => Pending
    case Ready(v) => Ready(f(v))
  }

  /** `TryFutureExt::map_ok`: only a ready `Ok` value is transformed. */
  function MapOk<T, U, E>(p: Poll<Result<T, E>>, f: T -> U): (r: Poll<Result<U, E>>)
    ensures r.Pending? <==> p.Pending?
    ensures p.Ready? && p.value.Ok? ==> r == Ready(Ok(f(p.value.value)))
    ensures p.Ready? && p.value.Err? ==> r == Ready(Err(p.value.error))
  {
    match p
    case Pending => Pending
    case Ready(Ok(v)) => Ready(Ok(f(v)))
    case Ready(Err(e)) => Ready(Err(e))
  }

  /** `TryFutureExt::map_err`: only a ready `Err` value is transformed. */
  function MapErr<T, E, F>(p: Poll<Result<T, E>>, f: E -> F): (r: Poll<Result<T, F>>)
    ensures r.Pending? <==> p.Pending?
    ensures p.Ready? && p.value.Ok? ==> r == Ready(Ok(p.value.value))
    ensures p.Ready? && p.value.Err? ==> r == Ready(Err(f(p.value.error)))
  {
    match p
    case Pending => Pending
    case Ready(Ok(v)) => Ready(Ok(v))
    case Ready(Err(e)) => Ready(Err(f(e)))
  }
}
