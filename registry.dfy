/**
 * The service registry of the reverse proxy (current revision): a
 * copy-on-write map of services and the middleware compiled from it,
 * published together as one state. Calls are sequential.
 */
module Registry {
  import opened Wrappers
  import opened Net
  import opened Vo
  import Maps

  /** `ServiceMap`: the registered services by identifier. */
  type ServiceMap = map<ServiceID, Service>

  /** A compiled routing policy, opaque to the registry. */
  datatype Middleware = Middleware(handle: nat)

  /**
   * `WebGrappleMiddleWareCreator`, the injected factory: from the services and
   * the backend URL, a middleware (which Go allows to be nil) or an error.
   */
  type MiddlewareFactory = (ServiceMap, Url) -> Result<Option<Middleware>, string>

  /** `registryState`: the published services and the middleware built from them. */
  datatype State = State(services: ServiceMap, middleware: Option<Middleware>)

  const ErrServiceNotFound := "service not found"

  /** The identifier a service is stored under. */
  function IdOf(s: Service): ServiceID
  {
    s.id
  }

  /**
   * What one `update` does: on a factory error the state stays and the error is
   * returned; otherwise exactly these services and the new middleware are published.
   */
  ghost predicate Updated(factory: MiddlewareFactory, backendURL: Url, before: Option<State>,
                          services: ServiceMap, after: Option<State>, err: Option<string>)
  {
    match factory(services, backendURL)
    case Failure(e) => err == Some(e) && after == before
    case Success(mw) => err == None && after == Some(State(services, mw))
  }

  /**
   * `registry`: the backend URL and the factory are fixed at construction
   * (`const`); `state` is the published state, `None` until the first
   * successful update.
   */
  class Registry {
    const backendURL: Url
    const factory: MiddlewareFactory
    var state: Option<State>

    /** `newRegistry`: nothing published yet. */
    constructor (backendURL: Url, factory: MiddlewareFactory)
      ensures this.backendURL == backendURL && this.factory == factory
      ensures state == None
    {
      this.backendURL := backendURL;
      this.factory := factory;
      state := None;
    }

    /** The published services; none before the first update. */
    function Services(): ServiceMap
      reads this
    {
      if state.None? then map[] else state.value.services
    }

    /** `getServicesCopy`: a copy of the published services, empty before the first update. */
    method GetServicesCopy() returns (copy: ServiceMap)
      ensures state.None? ==> copy == map[]
      ensures state.Some? ==> copy == state.value.services
    {
      copy := map[];
      if state.Some? {
        copy := Maps.Copy(state.value.services);
      }
    }

    /** `update`: ask the factory for a middleware and publish it with `services` only if that succeeds. */
    method Update(services: ServiceMap) returns (err: Option<string>)
      modifies this
      ensures Updated(factory, backendURL, old(state), services, state, err)
    {
      var created := factory(services, backendURL);
      if created.Failure? {
        return Some(created.error);
      }
      state := Some(State(services, created.value));
      err := None;
    }

    /** `upsert`: store every batch service under its identifier on a copy, then update with it. */
    method Upsert(batch: seq<Service>) returns (err: Option<string>)
      modifies this
      ensures Updated(factory, backendURL, old(state), Maps.Upserted(old(Services()), batch, IdOf), state, err)
    {
      var copy := GetServicesCopy();
      ghost var start := copy;
      for i := 0 to |batch|
        invariant copy == Maps.Upserted(start, batch[..i], IdOf)
      {
        assert batch[..i + 1][..i] == batch[..i];
        copy := copy[batch[i].id := batch[i]];
      }
      assert batch[..|batch|] == batch;
      err := Update(copy);
    }

    /**
     * `remove`: delete every listed identifier from a copy, failing with
     * "service not found" (and publishing nothing) at the first absent one,
     * then update with the copy.
     */
    method Remove(ids: seq<ServiceID>) returns (err: Option<string>)
      modifies this
      ensures Maps.Removed(old(Services()), ids).None? ==> err == Some(ErrServiceNotFound) && state == old(state)
      ensures Maps.Removed(old(Services()), ids).Some? ==>
                Updated(factory, backendURL, old(state), Maps.Removed(old(Services()), ids).value, state, err)
    {
      var copy := GetServicesCopy();
      ghost var start := copy;
      for i := 0 to |ids|
        invariant Maps.Removed(start, ids[..i]) == Some(copy)
      {
        assert ids[..i + 1][..i] == ids[..i];
        if ids[i] !in copy {
          Maps.RemovedFailureSticks(start, ids, i + 1);
          assert ids[..|ids|] == ids;
          return Some(ErrServiceNotFound);
        }
        copy := copy - {ids[i]};
      }
      assert ids[..|ids|] == ids;
      err := Update(copy);
    }
  }
}
