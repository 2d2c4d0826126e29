/**
 * The operation composite: an inner operation service coupled with a layer. The layer is
 * tower's algebra of `Identity`, `Stack` and the layers a user supplies; `Stack(inner, outer)`
 * applies `inner` first and `outer` around it. `upgrade` stacks `UpgradeLayer` under the stored
 * layer, so the stored layers wrap the upgraded service: they see HTTP requests and responses.
 *
 * A user layer (such as `MapResponseLayer`) is opaque and known by an identifier; applying it to
 * a service gives the service `Layered(id, service)`.
 */
module Operation {
  import Handler
  import Flattened
  import opened Upgrade

  /** The identity of a user-supplied layer. */
  type LayerId = nat

  /** A layer over HTTP-level services: tower's `Identity`, a user layer, or `Stack<Inner, Outer>`. */
  datatype Layer = Identity | Named(id: LayerId) | Stack(inner: Layer, outer: Layer)

  /** An HTTP-level service: an upgraded operation service, possibly wrapped in user layers. */
  datatype HttpService<S> = Upgraded(upgrade: Upgrade<S>) | Layered(id: LayerId, service: HttpService<S>)

  /** `Layer::layer` of tower's `Identity` and `Stack`, and of a user layer. */
  function Apply<S>(l: Layer, s: HttpService<S>): HttpService<S>
  {
    match l
    case Identity => s
    case Named(id) => Layered(id, s)
    case Stack(i, o) => Apply(o, Apply(i, s))
  }

  /** The user layers of `l`, innermost first. */
  function LayerIds(l: Layer): seq<LayerId>
  {
    match l
    case Identity => []
    case Named(id) => [id]
    case Stack(i, o) => LayerIds(i) + LayerIds(o)
  }

  /** Wraps `s` in the user layers `ids`, `ids[0]` innermost. */
  function Wrap<S>(ids: seq<LayerId>, s: HttpService<S>): HttpService<S>
    decreases |ids|
  {
    if ids == [] then s else Wrap(ids[1..], Layered(ids[0], s))
  }

  lemma {:induction false} WrapAppend<S>(a: seq<LayerId>, b: seq<LayerId>, s: HttpService<S>)
    ensures Wrap(a + b, s) == Wrap(b, Wrap(a, s))
    decreases |a|
  {
    if a == [] {
      assert a + b == b;
    } else {
      assert (a + b)[1..] == a[1..] + b;
      WrapAppend(a[1..], b, Layered(a[0], s));
    }
  }

  /** Applying a layer wraps the service in its user layers, innermost first. */
  lemma {:induction false} ApplyIsWrap<S>(l: Layer, s: HttpService<S>)
    ensures Apply(l, s) == Wrap(LayerIds(l), s)
  {
    match l
    case Identity =>
    case Named(id) =>
      assert [id][1..] == [];
    case Stack(i, o) =>
      ApplyIsWrap(i, s);
      ApplyIsWrap(o, Apply(i, s));
      WrapAppend(LayerIds(i), LayerIds(o), s);
  }

  /** Tower's layer composition is associative: how stacks are nested does not matter. */
  lemma StackIsAssociative<S>(a: Layer, b: Layer, c: Layer, s: HttpService<S>)
    ensures Apply(Stack(Stack(a, b), c), s) == Apply(Stack(a, Stack(b, c)), s)
  {
  }

  /** `Operation<S, L>`: the inner operation service and the layer applied after the upgrade. */
  datatype Operation<S> = Operation(inner: S, layer: Layer)
  {
    /** `Operation::layer`: the inner service is kept and `l` becomes the outermost layer. */
    function AddLayer(l: Layer): (op: Operation<S>)
      ensures op.inner == inner && op.layer == Stack(layer, l)
      ensures LayerIds(op.layer) == LayerIds(layer) + LayerIds(l)
    {
      Operation(inner, Stack(layer, l))
    }

    /**
     * `Operation::upgrade`: `Stack::new(UpgradeLayer::new(), layer)` applied to the inner
     * service, that is, the upgrade innermost and the stored user layers around it in the order
     * they were added.
     */
    function Upgrade(): (s: HttpService<S>)
      ensures s == Wrap(LayerIds(layer), Upgraded(UpgradeLayer(inner)))
    {
      ApplyIsWrap(layer, Upgraded(UpgradeLayer(inner)));
      Apply(layer, Upgraded(UpgradeLayer(inner)))
    }
  }

  /** `Operation::from_handler`: the handler turned into `IntoService`, with the `Identity` layer. */
  function FromHandler<H>(h: H): (op: Operation<Handler.IntoService<H>>)
    ensures op.inner == Handler.IntoServiceOf(h) && op.layer == Identity
  {
    Operation(Handler.IntoServiceOf(h), Identity)
  }

  /** `Operation::from_service`: the service turned into `IntoUnflattened`, with the `Identity` layer. */
  function FromService<S>(s: S): (op: Operation<Flattened.IntoUnflattened<S>>)
    ensures op.inner == Flattened.IntoUnflatten(s) && op.layer == Identity
  {
    Operation(Flattened.IntoUnflatten(s), Identity)
  }

  /** With no layer added, upgrading gives exactly the upgraded inner service. */
  lemma UpgradeWithoutLayers<H, S>(h: H, s: S)
    ensures FromHandler(h).Upgrade() == Upgraded(UpgradeLayer(Handler.IntoService(h)))
    ensures FromService(s).Upgrade() == Upgraded(UpgradeLayer(Flattened.IntoUnflattened(s)))
  {
  }

  /** Adding `l1` and then `l2` gives `l2(l1(Upgrade(inner)))`: the later layer is outermost. */
  lemma LaterLayerIsOutermost<S>(op: Operation<S>, l1: LayerId, l2: LayerId)
    requires op.layer == Identity
    ensures op.AddLayer(Named(l1)).AddLayer(Named(l2)).Upgrade()
         == Layered(l2, Layered(l1, Upgraded(UpgradeLayer(op.inner))))
  {
    var base := Upgraded(UpgradeLayer(op.inner));
    var op2 := op.AddLayer(Named(l1)).AddLayer(Named(l2));
    assert op2.layer == Stack(Stack(Identity, Named(l1)), Named(l2));
    assert op2.Upgrade() == Apply(op2.layer, base);
    assert Apply(Stack(Identity, Named(l1)), base) == Layered(l1, base);
  }

  /** `op.layer(ids[0]).layer(ids[1]), ...`, in that order. */
  function AddLayers<S>(op: Operation<S>, ids: seq<LayerId>): Operation<S>
    decreases |ids|
  {
    if ids == [] then op else AddLayers(op.AddLayer(Named(ids[0])), ids[1..])
  }

  /**
   * Adding any sequence of layers keeps the inner service, and upgrading the result wraps the
   * upgraded service in the layers already present and then in the new ones, in the order they
   * were added.
   */
  lemma {:induction false} AddLayersInOrder<S>(op: Operation<S>, ids: seq<LayerId>)
    ensures AddLayers(op, ids).inner == op.inner
    ensures AddLayers(op, ids).Upgrade() == Wrap(LayerIds(op.layer) + ids, Upgraded(UpgradeLayer(op.inner)))
    decreases |ids|
  {
    if ids == [] {
      assert LayerIds(op.layer) + ids == LayerIds(op.layer);
    } else {
      var next := op.AddLayer(Named(ids[0]));
      AddLayersInOrder(next, ids[1..]);
      assert LayerIds(next.layer) + ids[1..] == LayerIds(op.layer) + ids;
    }
  }
}
