/**
 * Multi-arity flattening. The upgrade always hands an operation service the canonical pair
 * `(input, exts)`; a service written over `input`, `(input, a)` or `(input, a, b)` is adapted by
 * `unflatten`, which takes the pair apart, and `IntoUnflattened`, which does so on every call.
 * `Flatten0`, `Flatten1` and `Flatten2` are the inverse direction, used to state that no
 * component is lost or reordered.
 */
module Flattened {
  import opened Prelude

  /** `Flattened::unflatten` for `Exts = ()`. */
  function Unflatten0<I>(input: I, exts: ()): (r: I)
    ensures r == input
  {
    input
  }

  /** `Flattened::unflatten` for `Exts = (Arg0,)`. */
  function Unflatten1<I, A>(input: I, exts: Tuple1<A>): (r: (I, A))
    ensures r.0 == input && r.1 == exts._0
  {
    (input, exts._0)
  }

  /** `Flattened::unflatten` for `Exts = (Arg0, Arg1)`. */
  function Unflatten2<I, A, B>(input: I, exts: (A, B)): (r: (I, A, B))
    ensures r.0 == input && r.1 == exts.0 && r.2 == exts.1
  {
    (input, exts.0, exts.1)
  }

  function Flatten0<I>(flat: I): (I, ())
  {
    (flat, ())
  }

  function Flatten1<I, A>(flat: (I, A)): (I, Tuple1<A>)
  {
    (flat.0, Tuple1(flat.1))
  }

  function Flatten2<I, A, B>(flat: (I, A, B)): (I, (A, B))
  {
    (flat.0, (flat.1, flat.2))
  }

  /** For every arity, `unflatten` is a bijection between the canonical and the flat shape. */
  lemma UnflattenIsLossless<I, A, B>(input: I, e1: Tuple1<A>, e2: (A, B), f1: (I, A), f2: (I, A, B))
    ensures Flatten0(Unflatten0(input, ())) == (input, ())
    ensures Unflatten0(Flatten0(input).0, ()) == input
    ensures Flatten1(Unflatten1(input, e1)) == (input, e1)
    ensures Unflatten1(Flatten1(f1).0, Flatten1(f1).1) == f1
    ensures Flatten2(Unflatten2(input, e2)) == (input, e2)
    ensures Unflatten2(Flatten2(f2).0, Flatten2(f2).1) == f2
  {
  }

  /** Two canonical requests are unflattened to the same flat request only if they are equal. */
  lemma UnflattenIsInjective<I, A, B>(i: I, j: I, a: Tuple1<A>, b: Tuple1<A>, c: (A, B), d: (A, B))
    ensures Unflatten0(i, ()) == Unflatten0(j, ()) ==> i == j
    ensures Unflatten1(i, a) == Unflatten1(j, b) ==> i == j && a == b
    ensures Unflatten2(i, c) == Unflatten2(j, d) ==> i == j && c == d
  {
  }

  /** `IntoUnflattened`: the canonical-shape service `FlattenedExt::into_unflatten` wraps around `inner`. */
  datatype IntoUnflattened<S> = IntoUnflattened(inner: S)
  {
    /** `Service::poll_ready`: the inner service's readiness, unchanged. */
    function PollReady<E>(ready: S -> Poll<Result<(), E>>): (r: Poll<Result<(), E>>)
      ensures r == ready(inner)
    {
      ready(inner)
    }

    /**
     * `Service::call` on `(input, exts)`: the inner service's call on `unflatten(input, exts)`,
     * whose future (and so response and error) is returned as it is. `unflatten` is the impl
     * for the arity of `Exts`.
     */
    function Call<I, X, F, Fut>(req: (I, X), unflatten: (I, X) -> F, call: (S, F) -> Fut): (r: Fut)
      ensures r == call(inner, unflatten(req.0, req.1))
    {
      call(inner, unflatten(req.0, req.1))
    }
  }

  /** `FlattenedExt::into_unflatten`. */
  function IntoUnflatten<S>(s: S): (u: IntoUnflattened<S>)
    ensures u.inner == s
  {
    IntoUnflattened(s)
  }

  /**
   * What the inner service sees for each arity: exactly the input followed by the extension
   * values, in order.
   */
  lemma CallPassesComponents<S, I, A, B, Fut>(
    s: S, input: I, a: A, b: B,
    call0: (S, I) -> Fut, call1: (S, (I, A)) -> Fut, call2: (S, (I, A, B)) -> Fut)
    ensures IntoUnflatten(s).Call((input, ()), Unflatten0, call0) == call0(s, input)
    ensures IntoUnflatten(s).Call((input, Tuple1(a)), Unflatten1, call1) == call1(s, (input, a))
    ensures IntoUnflatten(s).Call((input, (a, b)), Unflatten2, call2) == call2(s, (input, a, b))
  {
  }
}
