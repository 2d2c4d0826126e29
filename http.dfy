/**
 * The wire types. A response is an opaque carrier of bytes that the runtime never looks into.
 * A request exposes the two things the runtime touches: the path of its URI, which the router
 * uses as the routing key, and its extension map, from which `Extension<T>` extraction removes a
 * value in place. The extension map is keyed by the Rust type of the stored value.
 */
module Http {

  /** The `TypeId` under which `http::Extensions` stores a value. */
  type TypeId = string

  /** `http::Response<BoxBody<Bytes, hyper::Error>>`, treated as opaque bytes. */
  datatype Response = Response(bytes: seq<bv8>)

  /** `http::Request<B>`: its path, and its extension map holding values of type `V`. */
  class Request<V> {
    const path: string
    var extensions: map<TypeId, V>

    constructor (path: string, extensions: map<TypeId, V>)
      ensures this.path == path && this.extensions == extensions
    {
      this.path := path;
      this.extensions := extensions;
    }
  }
}
