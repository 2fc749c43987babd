/**
 * The reverse proxy's HTTP server (pkg/server/server.go): it owns the
 * registry, the control-plane handler over the registry's service, and the
 * default proxy to the backend. A request goes through the published
 * middleware when there is one, and is answered 503 otherwise.
 */
module Proxy {
  import opened Wrappers
  import opened Net
  import Registry
  import ServiceApi
  import Rpc

  const DefaultServiceURL := "http://127.0.0.1:8888"
  const DefaultEndPoint := "/___webgrapple-service"
  const StatusServiceUnavailable := 503
  const NotAvailable := "not available - please register at least one service, so that we can bring up your middleware"

  /** Where `ServeHTTP` sends a request. */
  datatype Dispatch =
    | ThroughMiddleware(middleware: Registry.Middleware, fallback: Url)
    | Unavailable(status: int, body: string)

  /**
   * The decision of `ServeHTTP`: the published middleware, wrapped around the
   * default proxy to the backend, exactly when a state with a middleware is
   * published; otherwise 503 with the message `http.Error` writes.
   */
  function Route(state: Option<Registry.State>, backendURL: Url): (d: Dispatch)
    ensures d.ThroughMiddleware? <==> state.Some? && state.value.middleware.Some?
    ensures d.ThroughMiddleware? ==> d.middleware == state.value.middleware.value && d.fallback == backendURL
    ensures d.Unavailable? ==> d == Unavailable(StatusServiceUnavailable, NotAvailable + "\n")
  {
    if state.Some? && state.value.middleware.Some? then ThroughMiddleware(state.value.middleware.value, backendURL)
    else Unavailable(StatusServiceUnavailable, NotAvailable + "\n")
  }

  /** `srvr`: the registry, the control-plane handler and the backend the default proxy forwards to. */
  class Server {
    const r: Registry.Registry
    const serviceHandler: Rpc.ServiceGoTSRPCProxy
    const defaultProxyTarget: Url

    /**
     * `newServer`, which cannot fail: a fresh registry over the backend URL and
     * the factory, with nothing published, and a control-plane handler at the
     * default endpoint, with no allowed origins, calling a service over that registry.
     */
    constructor (backendURL: Url, middlewareFactory: Registry.MiddlewareFactory)
      ensures fresh(r) && r.state == None
      ensures r.backendURL == backendURL && r.factory == middlewareFactory
      ensures serviceHandler.EndPoint == DefaultEndPoint && serviceHandler.allowOrigin == []
      ensures serviceHandler.service.r == r
      ensures defaultProxyTarget == backendURL
    {
      defaultProxyTarget := backendURL;
      var registry := new Registry.Registry(backendURL, middlewareFactory);
      var service := new ServiceApi.Service(registry);
      r := registry;
      serviceHandler := new Rpc.ServiceGoTSRPCProxy.NewDefault(service, []);
    }

    /** `ServeHTTP`: where the request goes, given the published state (see `Route`). */
    function ServeHTTP(): (d: Dispatch)
      reads this, r
      ensures d.ThroughMiddleware? <==> r.state.Some? && r.state.value.middleware.Some?
      ensures d.ThroughMiddleware? ==> d.middleware == r.state.value.middleware.value && d.fallback == defaultProxyTarget
      ensures d.Unavailable? ==> d.status == StatusServiceUnavailable && d.body == NotAvailable + "\n"
    {
      Route(r.state, defaultProxyTarget)
    }
  }

  /**
   * A server answers 503 until the first successful update publishes a
   * middleware, and the failed updates before it change nothing.
   */
  lemma UnavailableUntilPublished(before: Option<Registry.State>, after: Option<Registry.State>,
                                  factory: Registry.MiddlewareFactory, backendURL: Url,
                                  services: Registry.ServiceMap, err: Option<string>)
    requires before == None
    requires Registry.Updated(factory, backendURL, before, services, after, err)
    ensures err.Some? ==> Route(after, backendURL).Unavailable?
    ensures Route(after, backendURL).ThroughMiddleware? <==>
              err.None? && factory(services, backendURL).value.Some?
  {
  }
}
