/**
 * The control-plane endpoint generated by gotsrpc (server/gotsrpc.go): it
 * adds the CORS headers, then classifies the request by method and called
 * function and calls the service's `Remove` or `Upsert` with the decoded
 * arguments. The gotsrpc library calls (`GetCalledFunc`, `LoadArgs`) are
 * oracles in `Codec`; what the library writes for its errors and replies is
 * recorded as an `Answer`.
 */
module Rpc {
  import opened Wrappers
  import Vo
  import Maps
  import Registry
  import ServiceApi

  const DefaultEndPoint := "/___webgrapple-service"
  const MethodPost := "POST"
  const MethodOptions := "OPTIONS"
  const AllowOrigin := "Access-Control-Allow-Origin"
  const AllowCredentials := "Access-Control-Allow-Credentials"
  const StatusNotFound := 404

  /** The parts of an HTTP request the endpoint looks at. */
  datatype Request = Request(httpMethod: string, path: string, body: string)

  /**
   * The gotsrpc helpers: the function name called at an endpoint, and the
   * decoded arguments of `Remove` and `Upsert` (`None` when decoding fails).
   */
  datatype Codec = Codec(
    calledFunc: (Request, string) -> string,
    loadIDs: Request -> Option<seq<Vo.ServiceID>>,
    loadServices: Request -> Option<seq<Vo.Service>>)

  /** Response headers: each name with its values in the order they were added. */
  type Header = map<string, seq<string>>

  /** `Header.Add`: one more value for the name. */
  function Add(h: Header, name: string, value: string): (r: Header)
    ensures name in r && r[name] == (if name in h then h[name] else []) + [value]
    ensures forall k :: k != name ==> (k in r <==> k in h) && (k in h ==> r[k] == h[k])
  {
    h[name := (if name in h then h[name] else []) + [value]]
  }

  /** The headers after adding every allowed origin in turn. */
  function WithOrigins(h: Header, origins: seq<string>): Header
    decreases |origins|
  {
    if origins == [] then h else Add(WithOrigins(h, origins[..|origins| - 1]), AllowOrigin, origins[|origins| - 1])
  }

  /**
   * Adding the origins appends them, in order, to the values of
   * Access-Control-Allow-Origin and leaves every other header alone.
   */
  lemma {:induction false} WithOriginsMeaning(h: Header, origins: seq<string>)
    ensures var r := WithOrigins(h, origins);
      && (origins != [] ==> AllowOrigin in r && r[AllowOrigin] == (if AllowOrigin in h then h[AllowOrigin] else []) + origins)
      && (origins == [] ==> r == h)
      && forall k :: k != AllowOrigin ==> (k in r <==> k in h) && (k in h ==> r[k] == h[k])
    decreases |origins|
  {
    if origins != [] {
      var n := |origins| - 1;
      WithOriginsMeaning(h, origins[..n]);
      assert origins[..n] + [origins[n]] == origins;
    }
  }

  /** The headers the endpoint sends: the origins added, then the credentials flag set to "true". */
  function CorsHeaders(h: Header, origins: seq<string>): (r: Header)
    ensures AllowCredentials in r && r[AllowCredentials] == ["true"]
  {
    WithOrigins(h, origins)[AllowCredentials := ["true"]]
  }

  /** What the request asks for. */
  datatype Call =
    | Preflight
    | MethodNotAllowed
    | CouldNotLoadArgs
    | CallRemove(ids: seq<Vo.ServiceID>)
    | CallUpsert(services: seq<Vo.Service>)
    | NotFound(body: string)

  /**
   * The classification in `ServeHTTP`: an OPTIONS request ends at once, any
   * other method than POST is refused, a POST calls "Remove" or "Upsert" when
   * its arguments decode, and any other function name is not found.
   */
  function Classify(req: Request, endPoint: string, codec: Codec): (c: Call)
    ensures c == Preflight <==> req.httpMethod == MethodOptions
    ensures c == MethodNotAllowed <==> req.httpMethod != MethodPost && req.httpMethod != MethodOptions
    ensures c.CallRemove? <==>
      req.httpMethod == MethodPost && codec.calledFunc(req, endPoint) == "Remove" && codec.loadIDs(req).Some?
    ensures c.CallRemove? ==> c.ids == codec.loadIDs(req).value
    ensures c.CallUpsert? <==>
      req.httpMethod == MethodPost && codec.calledFunc(req, endPoint) == "Upsert" && codec.loadServices(req).Some?
    ensures c.CallUpsert? ==> c.services == codec.loadServices(req).value
    ensures c == CouldNotLoadArgs <==>
      (req.httpMethod == MethodPost &&
       ((codec.calledFunc(req, endPoint) == "Remove" && codec.loadIDs(req).None?) ||
        (codec.calledFunc(req, endPoint) == "Upsert" && codec.loadServices(req).None?)))
    ensures c.NotFound? <==> req.httpMethod == MethodPost && codec.calledFunc(req, endPoint) !in {"Remove", "Upsert"}
    ensures c.NotFound? ==> c.body == "404 - not found " + req.path + "\n"
  {
    if req.httpMethod != MethodPost then
      if req.httpMethod == MethodOptions then Preflight else MethodNotAllowed
    else
      match codec.calledFunc(req, endPoint)
      case "Remove" =>
        (match codec.loadIDs(req)
         case None => CouldNotLoadArgs
         case Some(ids) => CallRemove(ids))
      case "Upsert" =>
        (match codec.loadServices(req)
         case None => CouldNotLoadArgs
         case Some(services) => CallUpsert(services))
      case _ => NotFound("404 - not found " + req.path + "\n")
  }

  /** What was written as the response body. */
  datatype Answer =
    | Silent
    | MethodNotAllowedError
    | CouldNotLoadArgsError
    | Reply(err: Option<Vo.ServiceError>)
    | HttpError(status: int, body: string)

  /** The response being written. */
  class ResponseWriter {
    var header: Header
    var answer: Answer

    constructor ()
      ensures header == map[] && answer == Silent
    {
      header := map[];
      answer := Silent;
    }
  }

  /** `ServiceGoTSRPCProxy`: the endpoint, the allowed origins and the service it calls. */
  class ServiceGoTSRPCProxy {
    const EndPoint: string
    const allowOrigin: seq<string>
    const service: ServiceApi.Service

    /** `NewDefaultServiceGoTSRPCProxy`: the default endpoint path. */
    constructor NewDefault(service: ServiceApi.Service, allowOrigin: seq<string>)
      ensures EndPoint == DefaultEndPoint
      ensures this.allowOrigin == allowOrigin && this.service == service
    {
      EndPoint := DefaultEndPoint;
      this.allowOrigin := allowOrigin;
      this.service := service;
    }

    /** `NewServiceGoTSRPCProxy`: a given endpoint path. */
    constructor (service: ServiceApi.Service, endpoint: string, allowOrigin: seq<string>)
      ensures EndPoint == endpoint
      ensures this.allowOrigin == allowOrigin && this.service == service
    {
      EndPoint := endpoint;
      this.allowOrigin := allowOrigin;
      this.service := service;
    }

    /**
     * `ServeHTTP`: the CORS headers come first, whatever the request; then
     * the service is called at most once, exactly for a decoded Remove or
     * Upsert, and its error is the reply.
     */
    method ServeHTTP(w: ResponseWriter, req: Request, codec: Codec)
      modifies w, service.r
      ensures w.header == CorsHeaders(old(w.header), allowOrigin)
      ensures match Classify(req, EndPoint, codec)
        case Preflight => w.answer == old(w.answer) && service.r.state == old(service.r.state)
        case MethodNotAllowed => w.answer == MethodNotAllowedError && service.r.state == old(service.r.state)
        case CouldNotLoadArgs => w.answer == CouldNotLoadArgsError && service.r.state == old(service.r.state)
        case NotFound(body) => w.answer == HttpError(StatusNotFound, body) && service.r.state == old(service.r.state)
        case CallRemove(ids) =>
          w.answer.Reply? &&
          (Maps.Removed(old(service.r.Services()), ids).None? ==>
             w.answer.err == Some(Vo.ServiceError(Registry.ErrServiceNotFound)) && service.r.state == old(service.r.state)) &&
          (Maps.Removed(old(service.r.Services()), ids).Some? ==>
             Registry.Updated(service.r.factory, service.r.backendURL, old(service.r.state),
                              Maps.Removed(old(service.r.Services()), ids).value, service.r.state,
                              ServiceApi.Message(w.answer.err)))
        case CallUpsert(services) =>
          w.answer.Reply? &&
          Registry.Updated(service.r.factory, service.r.backendURL, old(service.r.state),
                           Maps.Upserted(old(service.r.Services()), services, Registry.IdOf), service.r.state,
                           ServiceApi.Message(w.answer.err))
    {
      for i := 0 to |allowOrigin|
        invariant w.header == WithOrigins(old(w.header), allowOrigin[..i])
        invariant service.r.state == old(service.r.state) && w.answer == old(w.answer)
      {
        assert allowOrigin[..i + 1][..i] == allowOrigin[..i];
        w.header := Add(w.header, AllowOrigin, allowOrigin[i]);
      }
      assert allowOrigin[..|allowOrigin|] == allowOrigin;
      w.header := w.header[AllowCredentials := ["true"]];
      if req.httpMethod != MethodPost {
        if req.httpMethod == MethodOptions {
          return;
        }
        w.answer := MethodNotAllowedError;
        return;
      }
      var funcName := codec.calledFunc(req, EndPoint);
      if funcName == "Remove" {
        var args := codec.loadIDs(req);
        if args.None? {
          w.answer := CouldNotLoadArgsError;
          return;
        }
        var removeErr := service.Remove(args.value);
        w.answer := Reply(removeErr);
      } else if funcName == "Upsert" {
        var args := codec.loadServices(req);
        if args.None? {
          w.answer := CouldNotLoadArgsError;
          return;
        }
        var upsertErr := service.Upsert(args.value);
        w.answer := Reply(upsertErr);
      } else {
        w.answer := HttpError(StatusNotFound, "404 - not found " + req.path + "\n");
      }
    }
  }
}
