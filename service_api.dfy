/**
 * The remote-callable service of the current revision (pkg/server/service.go):
 * `Upsert` and `Remove` forward their batch to the registry and turn a
 * registry error into a `ServiceError` carrying its message.
 */
module ServiceApi {
  import opened Wrappers
  import Vo
  import Maps
  import Registry

  /** The reply value for a registry error: none for success, its message otherwise. */
  function Wrap(e: Option<string>): (w: Option<Vo.ServiceError>)
    ensures w.None? <==> e.None?
    ensures w.Some? ==> w.value.err == e.value
  {
    match e
    case None => None
    case Some(msg) => Some(Vo.ServiceError(msg))
  }

  /** The message a client reads from a reply value (`ServiceError.Error()`). */
  function Message(w: Option<Vo.ServiceError>): (e: Option<string>)
    ensures e.None? <==> w.None?
    ensures e.Some? ==> e.value == w.value.err
  {
    match w
    case None => None
    case Some(se) => Some(se.err)
  }

  /** Wrapping loses nothing: the client reads back exactly the registry's error, and every reply value is a wrapped error. */
  lemma WrapRoundTrip(e: Option<string>, w: Option<Vo.ServiceError>)
    ensures Message(Wrap(e)) == e
    ensures Wrap(Message(w)) == w
  {
  }

  /** `Service`: a handle on the registry. */
  class Service {
    const r: Registry.Registry

    constructor (r: Registry.Registry)
      ensures this.r == r
    {
      this.r := r;
    }

    /**
     * `Upsert`: the registry's upsert of the batch, once; the reply is empty
     * exactly when the registry reports no error, and otherwise carries its message.
     */
    method Upsert(services: seq<Vo.Service>) returns (err: Option<Vo.ServiceError>)
      modifies r
      ensures Registry.Updated(r.factory, r.backendURL, old(r.state),
                               Maps.Upserted(old(r.Services()), services, Registry.IdOf), r.state, Message(err))
    {
      var errUpsert := r.Upsert(services);
      err := Wrap(errUpsert);
    }

    /**
     * `Remove`: the registry's removal of the identifiers, once; "service not
     * found" with nothing published when one is missing or repeated, the
     * registry's update otherwise.
     */
    method Remove(serviceIDs: seq<Vo.ServiceID>) returns (err: Option<Vo.ServiceError>)
      modifies r
      ensures Maps.Removed(old(r.Services()), serviceIDs).None? ==>
                err == Some(Vo.ServiceError(Registry.ErrServiceNotFound)) && r.state == old(r.state)
      ensures Maps.Removed(old(r.Services()), serviceIDs).Some? ==>
                Registry.Updated(r.factory, r.backendURL, old(r.state),
                                 Maps.Removed(old(r.Services()), serviceIDs).value, r.state, Message(err))
    {
      var errRemove := r.Remove(serviceIDs);
      err := Wrap(errRemove);
    }
  }
}
