/**
 * The client side of the transport as the managers in types.py use it:
 * `self._client.call(method, *args)`, plus the Python operations the
 * managers apply to a reply before decoding it.
 */
module Rpc {
  import opened Wrappers
  import opened Values
  import opened Classes

  /** One remote call: the method name and the Python arguments, in order. */
  datatype Request = Request(name: string, args: seq<Value>)

  /**
   * The msgpack-rpc client. The server is not part of this class: the wire
   * value it answers with is supplied by the caller of `Call`, and what the
   * client hands back is that value unpacked.
   */
  class RpcClient {
    var log: seq<Request>

    constructor ()
      ensures log == []
    {
      log := [];
    }

    method Call(name: string, args: seq<Value>, reply: Wire) returns (r: Value)
      modifies this
      ensures log == old(log) + [Request(name, args)]
      ensures r == Lift(reply)
    {
      log := log + [Request(name, args)];
      r := Lift(reply);
    }
  }

  /**
   * `container[key]` for a string key: a dict looks the key up (KeyError when
   * absent); a string or list refuses a string index and every other value
   * is not subscriptable (TypeError).
   */
  function Subscript(container: Value, key: string): (r: Result<Value, Error>)
    ensures r.Success? <==> container.Dict? && key in container.entries
    ensures r.Success? ==> r.value == container.entries[key]
    ensures r.Failure? ==> r.error == (if container.Dict? then KeyError else TypeError)
  {
    match container
    case Dict(entries) => if key in entries then Success(entries[key]) else Failure(KeyError)
    case _ => Failure(TypeError)
  }

  /** Whether a value can be a dict key: lists and dicts are unhashable. */
  predicate Hashable(v: Value)
  {
    !v.List? && !v.Dict?
  }

  /** A Foil as the managers hand it out: a Foil instance carrying its client back-reference. */
  predicate HoldsClient(foil: PyObject)
    reads foil
  {
    foil.cls == ClassName.Foil && "_client" in foil.dict && foil.dict["_client"] == Handle
  }
}
