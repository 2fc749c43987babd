/**
 * The service registry of the older revision (server/registry.go). Every
 * update builds routing tables from the services: a reverse proxy per
 * service identifier, the list of services routed by path prefix, and the
 * proxies by mime type. Requests go to the first path service whose path
 * prefixes the request path, then to the proxy for the path's mime type, and
 * otherwise to the next handler. Go's map iteration order is a ghost
 * sequence `order` of the keys; every contract holds for every order.
 */
module LegacyRegistry {
  import opened Wrappers
  import opened Net
  import opened LegacyVo
  import Maps

  /** `serviceMap`: the registered services by identifier. */
  type ServiceMap = map<ServiceID, Service>

  /** `httputil.NewSingleHostReverseProxy`, tagged with the identifier of the service it was built for. */
  datatype ReverseProxy = ReverseProxy(owner: ServiceID, target: Url)

  /** `registryState`: the services and the routing tables built from them. */
  datatype State = State(
    pathServices: seq<Service>,
    mimeProxies: map<string, ReverseProxy>,
    services: ServiceMap,
    proxies: map<ServiceID, ReverseProxy>)

  const ErrServiceNotFound := "service not found"
  const MimeTypeForPath := "implement-me"
  const StatusInternalServerError := 500
  const CouldNotResolveMimeType := "could not resolve mime type"

  /** The identifier a service is stored under. */
  function IdOf(s: Service): ServiceID
  {
    s.id
  }

  /** Every service is stored under its own identifier, as `upsert` stores it. */
  predicate WellKeyed(m: ServiceMap)
  {
    forall k :: k in m ==> m[k].id == k
  }

  /** Upserting keeps a map well keyed. */
  lemma {:induction false} UpsertedWellKeyed(m: ServiceMap, batch: seq<Service>)
    requires WellKeyed(m)
    ensures WellKeyed(Maps.Upserted(m, batch, IdOf))
    decreases |batch|
  {
    if batch != [] {
      UpsertedWellKeyed(m, batch[..|batch| - 1]);
    }
  }

  /** Removing keeps a map well keyed. */
  lemma RemovedWellKeyed(m: ServiceMap, ids: seq<ServiceID>)
    requires WellKeyed(m) && Maps.Removed(m, ids).Some?
    ensures WellKeyed(Maps.Removed(m, ids).value)
  {
    Maps.RemovedSpec(m, ids);
  }

  // ---------------------------------------------------------------- the tables `update` builds

  /** `order` lists every key of `services` exactly once: one possible iteration order. */
  predicate IsOrder(order: seq<ServiceID>, services: ServiceMap)
  {
    && Maps.Distinct(order)
    && (forall i :: 0 <= i < |order| ==> order[i] in services)
    && (forall k :: k in services ==> k in order)
  }

  /** Every service visited has a backend address that parses. */
  predicate AllParse(services: ServiceMap, order: seq<ServiceID>, parse: UrlParser)
  {
    forall i :: 0 <= i < |order| ==> order[i] in services && parse(services[order[i]].backendAddress).Success?
  }

  /** The proxy built for one service. */
  function ProxyOf(s: Service, parse: UrlParser): ReverseProxy
    requires parse(s.backendAddress).Success?
  {
    ReverseProxy(s.id, parse(s.backendAddress).value)
  }

  /** The services with a path, in visiting order. */
  function PathServices(services: ServiceMap, order: seq<ServiceID>): seq<Service>
    requires forall i :: 0 <= i < |order| ==> order[i] in services
    decreases |order|
  {
    if order == [] then []
    else
      var s := services[order[|order| - 1]];
      PathServices(services, order[..|order| - 1]) + if s.path != "" then [s] else []
  }

  /** The proxies by identifier, a later service with the same identifier replacing an earlier one. */
  function Proxies(services: ServiceMap, order: seq<ServiceID>, parse: UrlParser): map<ServiceID, ReverseProxy>
    requires AllParse(services, order, parse)
    decreases |order|
  {
    if order == [] then map[]
    else
      var s := services[order[|order| - 1]];
      Proxies(services, order[..|order| - 1], parse)[s.id := ProxyOf(s, parse)]
  }

  /** `m` with every one of `keys` mapped to `v`. */
  function SetAll(m: map<string, ReverseProxy>, keys: seq<string>, v: ReverseProxy): map<string, ReverseProxy>
    decreases |keys|
  {
    if keys == [] then m else SetAll(m, keys[..|keys| - 1], v)[keys[|keys| - 1] := v]
  }

  /** The proxies by mime type, a later service listing a mime type replacing an earlier one. */
  function MimeProxies(services: ServiceMap, order: seq<ServiceID>, parse: UrlParser): map<string, ReverseProxy>
    requires AllParse(services, order, parse)
    decreases |order|
  {
    if order == [] then map[]
    else
      var s := services[order[|order| - 1]];
      SetAll(MimeProxies(services, order[..|order| - 1], parse), s.mimeTypes, ProxyOf(s, parse))
  }

  /** The state `update` publishes when it visits the keys in `order`. */
  function Tables(services: ServiceMap, order: seq<ServiceID>, parse: UrlParser): State
    requires AllParse(services, order, parse)
  {
    State(PathServices(services, order), MimeProxies(services, order, parse), services, Proxies(services, order, parse))
  }

  /**
   * What one `update` does: it fails, publishing nothing, exactly when some
   * backend address does not parse, with the error of one such address;
   * otherwise it publishes the tables built in some iteration order.
   */
  ghost predicate Updated(parse: UrlParser, before: Option<State>, services: ServiceMap,
                          after: Option<State>, err: Option<string>, order: seq<ServiceID>)
  {
    && (err.Some? <==> exists k :: k in services && parse(services[k].backendAddress).Failure?)
    && (err.Some? ==> after == before && exists k :: k in services && parse(services[k].backendAddress) == Failure(err.value))
    && (err.None? ==> IsOrder(order, services) && AllParse(services, order, parse) && after == Some(Tables(services, order, parse)))
  }

  /** `SetAll` maps exactly the listed keys to the value and leaves the rest alone. */
  lemma {:induction false} SetAllMeaning(m: map<string, ReverseProxy>, keys: seq<string>, v: ReverseProxy, k: string)
    ensures k in SetAll(m, keys, v) <==> k in m || k in keys
    ensures k in keys ==> SetAll(m, keys, v)[k] == v
    ensures k !in keys && k in m ==> SetAll(m, keys, v)[k] == m[k]
    decreases |keys|
  {
    if keys != [] {
      var n := |keys| - 1;
      SetAllMeaning(m, keys[..n], v, k);
      assert keys == keys[..n] + [keys[n]];
      assert k in keys <==> k in keys[..n] || k == keys[n];
    }
  }

  /**
   * The path services are exactly the visited services with a non-empty
   * path: each comes from some visited key, and every visited key with a
   * path contributes its service.
   */
  lemma {:induction false} PathServicesMeaning(services: ServiceMap, order: seq<ServiceID>)
    requires forall i :: 0 <= i < |order| ==> order[i] in services
    ensures forall i :: 0 <= i < |PathServices(services, order)| ==>
              PathServices(services, order)[i].path != "" &&
              exists j :: 0 <= j < |order| && services[order[j]] == PathServices(services, order)[i]
    ensures forall j :: 0 <= j < |order| && services[order[j]].path != "" ==> services[order[j]] in PathServices(services, order)
    decreases |order|
  {
    if order != [] {
      var n := |order| - 1;
      PathServicesMeaning(services, order[..n]);
      var ps := PathServices(services, order);
      var init := PathServices(services, order[..n]);
      forall i | 0 <= i < |ps|
        ensures ps[i].path != "" && exists j :: 0 <= j < |order| && services[order[j]] == ps[i]
      {
        if i < |init| {
          assert ps[i] == init[i];
          var j :| 0 <= j < n && services[order[..n][j]] == init[i];
          assert order[..n][j] == order[j];
        } else {
          assert ps[i] == services[order[n]];
        }
      }
      forall j | 0 <= j < |order| && services[order[j]].path != "" ensures services[order[j]] in ps {
        if j < n {
          assert order[..n][j] == order[j];
        }
      }
    }
  }

  /**
   * The proxies have an entry exactly for the identifiers of the visited
   * services, each built for a visited service with that identifier.
   */
  lemma {:induction false} ProxiesMeaning(services: ServiceMap, order: seq<ServiceID>, parse: UrlParser, id: ServiceID)
    requires AllParse(services, order, parse)
    ensures id in Proxies(services, order, parse) <==> exists j :: 0 <= j < |order| && services[order[j]].id == id
    ensures id in Proxies(services, order, parse) ==>
              exists j :: 0 <= j < |order| && services[order[j]].id == id &&
                Proxies(services, order, parse)[id] == ProxyOf(services[order[j]], parse)
    decreases |order|
  {
    if order != [] {
      var n := |order| - 1;
      assert AllParse(services, order[..n], parse) by {
        forall i | 0 <= i < n ensures order[..n][i] == order[i] { }
      }
      ProxiesMeaning(services, order[..n], parse, id);
      if exists j :: 0 <= j < n && services[order[..n][j]].id == id {
        var j :| 0 <= j < n && services[order[..n][j]].id == id;
        assert order[..n][j] == order[j];
      }
      if exists j :: 0 <= j < |order| && services[order[j]].id == id {
        var j :| 0 <= j < |order| && services[order[j]].id == id;
        if j < n {
          assert order[..n][j] == order[j];
        }
      }
      if id in Proxies(services, order, parse) && services[order[n]].id != id {
        var j :| 0 <= j < n && services[order[..n][j]].id == id &&
                 Proxies(services, order[..n], parse)[id] == ProxyOf(services[order[..n][j]], parse);
        assert order[..n][j] == order[j];
      }
    }
  }

  /**
   * The mime table has an entry exactly for the mime types listed by the
   * visited services, each the proxy built for a visited service listing it.
   */
  lemma {:induction false} MimeProxiesMeaning(services: ServiceMap, order: seq<ServiceID>, parse: UrlParser, mt: string)
    requires AllParse(services, order, parse)
    ensures mt in MimeProxies(services, order, parse) <==> exists j :: 0 <= j < |order| && mt in services[order[j]].mimeTypes
    ensures mt in MimeProxies(services, order, parse) ==>
              exists j :: 0 <= j < |order| && mt in services[order[j]].mimeTypes &&
                MimeProxies(services, order, parse)[mt] == ProxyOf(services[order[j]], parse)
    decreases |order|
  {
    if order != [] {
      var n := |order| - 1;
      var s := services[order[n]];
      assert AllParse(services, order[..n], parse) by {
        forall i | 0 <= i < n ensures order[..n][i] == order[i] { }
      }
      MimeProxiesMeaning(services, order[..n], parse, mt);
      SetAllMeaning(MimeProxies(services, order[..n], parse), s.mimeTypes, ProxyOf(s, parse), mt);
      if exists j :: 0 <= j < n && mt in services[order[..n][j]].mimeTypes {
        var j :| 0 <= j < n && mt in services[order[..n][j]].mimeTypes;
        assert order[..n][j] == order[j];
      }
      if exists j :: 0 <= j < |order| && mt in services[order[j]].mimeTypes {
        var j :| 0 <= j < |order| && mt in services[order[j]].mimeTypes;
        if j < n {
          assert order[..n][j] == order[j];
        }
      }
      if mt in MimeProxies(services, order, parse) && mt !in s.mimeTypes {
        var j :| 0 <= j < n && mt in services[order[..n][j]].mimeTypes &&
                 MimeProxies(services, order[..n], parse)[mt] == ProxyOf(services[order[..n][j]], parse);
        assert order[..n][j] == order[j];
      }
    }
  }

  /**
   * The last visited service listing a mime type wins: its proxy is the
   * table's entry, whatever earlier services listed the same type.
   */
  lemma {:induction false} MimeProxiesLast(services: ServiceMap, order: seq<ServiceID>, parse: UrlParser, mt: string, j: int)
    requires AllParse(services, order, parse)
    requires 0 <= j < |order| && mt in services[order[j]].mimeTypes
    requires forall k :: j < k < |order| ==> mt !in services[order[k]].mimeTypes
    ensures mt in MimeProxies(services, order, parse)
    ensures MimeProxies(services, order, parse)[mt] == ProxyOf(services[order[j]], parse)
    decreases |order|
  {
    var n := |order| - 1;
    var s := services[order[n]];
    assert AllParse(services, order[..n], parse) by {
      forall i | 0 <= i < n ensures order[..n][i] == order[i] { }
    }
    SetAllMeaning(MimeProxies(services, order[..n], parse), s.mimeTypes, ProxyOf(s, parse), mt);
    if j < n {
      assert order[..n][j] == order[j];
      forall k | j < k < n ensures mt !in services[order[..n][k]].mimeTypes {
        assert order[..n][k] == order[k];
      }
      MimeProxiesLast(services, order[..n], parse, mt, j);
    }
  }

  /**
   * After a successful update over a well-keyed map: one proxy per service
   * identifier, built from that service's backend address; the path services
   * are exactly the services with a path; every listed mime type maps to the
   * proxy of a service listing it.
   */
  lemma TablesMeaning(services: ServiceMap, order: seq<ServiceID>, parse: UrlParser)
    requires WellKeyed(services) && IsOrder(order, services) && AllParse(services, order, parse)
    ensures var st := Tables(services, order, parse);
      && st.proxies.Keys == services.Keys
      && (forall id :: id in services ==> st.proxies[id] == ProxyOf(services[id], parse))
      && (forall s :: s in st.pathServices <==> s in services.Values && s.path != "")
      && (forall mt :: mt in st.mimeProxies <==> exists id :: id in services && mt in services[id].mimeTypes)
      && (forall mt :: mt in st.mimeProxies ==>
            exists id :: id in services && mt in services[id].mimeTypes && st.mimeProxies[mt] == ProxyOf(services[id], parse))
  {
    var st := Tables(services, order, parse);
    forall id ensures id in st.proxies <==> id in services {
      ProxiesMeaning(services, order, parse, id);
    }
    forall id | id in services ensures st.proxies[id] == ProxyOf(services[id], parse) {
      ProxiesMeaning(services, order, parse, id);
    }
    PathServicesMeaning(services, order);
    forall s ensures s in st.pathServices <==> s in services.Values && s.path != "" {
      if s in st.pathServices {
        var i :| 0 <= i < |st.pathServices| && st.pathServices[i] == s;
        var j :| 0 <= j < |order| && services[order[j]] == s;
      }
      if s in services.Values && s.path != "" {
        var k :| k in services && services[k] == s;
        var j :| 0 <= j < |order| && order[j] == k;
      }
    }
    forall mt ensures mt in st.mimeProxies <==> exists id :: id in services && mt in services[id].mimeTypes {
      MimeProxiesMeaning(services, order, parse, mt);
      if exists id :: id in services && mt in services[id].mimeTypes {
        var id :| id in services && mt in services[id].mimeTypes;
        var j :| 0 <= j < |order| && order[j] == id;
      }
    }
    forall mt | mt in st.mimeProxies
      ensures exists id :: id in services && mt in services[id].mimeTypes && st.mimeProxies[mt] == ProxyOf(services[id], parse)
    {
      MimeProxiesMeaning(services, order, parse, mt);
      var j :| 0 <= j < |order| && mt in services[order[j]].mimeTypes &&
               st.mimeProxies[mt] == ProxyOf(services[order[j]], parse);
      assert order[j] in services;
    }
  }

  // ---------------------------------------------------------------- routing

  /** Where the middleware sends a request. */
  datatype Target = Next | Serve(proxy: ReverseProxy) | Failed(status: int, body: string)

  /** `getMimeTypeForPath`: a placeholder that names the same mime type for every path. */
  function GetMimeTypeForPath(path: string): (r: Result<string, string>)
    ensures r.Success? && r.value == MimeTypeForPath
  {
    Success(MimeTypeForPath)
  }

  /** Every path service has a proxy: what routing by path needs of a published state. */
  predicate Routable(st: State)
  {
    forall i :: 0 <= i < |st.pathServices| ==> st.pathServices[i].id in st.proxies
  }

  /** The position of the first service in `ps` whose path prefixes `path`. */
  function FirstPathMatch(ps: seq<Service>, path: string): (r: Option<nat>)
    ensures r.Some? ==> r.value < |ps| && ps[r.value].path <= path
    ensures r.Some? ==> forall j :: 0 <= j < r.value ==> !(ps[j].path <= path)
    ensures r.None? <==> forall j :: 0 <= j < |ps| ==> !(ps[j].path <= path)
    decreases |ps|
  {
    if ps == [] then None
    else if ps[0].path <= path then Some(0)
    else
      match FirstPathMatch(ps[1..], path)
      case None => None
      case Some(i) => Some(i + 1)
  }

  /**
   * The routing decision of `middleware` for a request path: the next handler
   * without a state; the proxy of the first path service in list order whose
   * path prefixes the request path; otherwise the proxy for the path's mime
   * type; otherwise the next handler.
   */
  function Route(state: Option<State>, path: string, mimeTypeOf: string -> Result<string, string>): (t: Target)
    requires state.Some? ==> Routable(state.value)
    ensures state.None? ==> t == Next
    ensures state.Some? && FirstPathMatch(state.value.pathServices, path).Some? ==>
              var i := FirstPathMatch(state.value.pathServices, path).value;
              t == Serve(state.value.proxies[state.value.pathServices[i].id])
    ensures t.Failed? <==> state.Some? && FirstPathMatch(state.value.pathServices, path).None? && mimeTypeOf(path).Failure?
    ensures t.Failed? ==> t == Failed(StatusInternalServerError, CouldNotResolveMimeType + "\n")
    ensures state.Some? && FirstPathMatch(state.value.pathServices, path).None? && mimeTypeOf(path).Success? ==>
              var mt := mimeTypeOf(path).value;
              t == (if mt in state.value.mimeProxies then Serve(state.value.mimeProxies[mt]) else Next)
  {
    if state.None? then Next
    else
      var st := state.value;
      match FirstPathMatch(st.pathServices, path)
      case Some(i) => Serve(st.proxies[st.pathServices[i].id])
      case None =>
        match mimeTypeOf(path)
        case Failure(_) => Failed(StatusInternalServerError, CouldNotResolveMimeType + "\n")
        case Success(mt) => if mt in st.mimeProxies then Serve(st.mimeProxies[mt]) else Next
  }

  /**
   * With the placeholder mime lookup, mime routing happens only through the
   * "implement-me" entry: a request that matches no path goes to the next
   * handler unless some service lists "implement-me", and the lookup never fails.
   */
  lemma PlaceholderMimeRouting(state: Option<State>, path: string)
    requires state.Some? ==> Routable(state.value)
    requires state.Some? ==> FirstPathMatch(state.value.pathServices, path).None?
    ensures Route(state, path, GetMimeTypeForPath) == Next <==> state.None? || MimeTypeForPath !in state.value.mimeProxies
    ensures !Route(state, path, GetMimeTypeForPath).Failed?
  {
  }

  /** The tables built by `update` are routable. */
  lemma TablesRoutable(services: ServiceMap, order: seq<ServiceID>, parse: UrlParser)
    requires AllParse(services, order, parse)
    ensures Routable(Tables(services, order, parse))
  {
    var st := Tables(services, order, parse);
    PathServicesMeaning(services, order);
    forall i | 0 <= i < |st.pathServices| ensures st.pathServices[i].id in st.proxies {
      var j :| 0 <= j < |order| && services[order[j]] == st.pathServices[i];
      ProxiesMeaning(services, order, parse, st.pathServices[i].id);
    }
  }

  /**
   * `registry`: the published state, `None` until the first successful
   * update. `parse` is `url.Parse` and `mimeTypeOf` the mime lookup the
   * middleware consults.
   */
  class Registry {
    const parse: UrlParser
    const mimeTypeOf: string -> Result<string, string>
    var state: Option<State>

    /** The invariant every published state keeps: routable, and every service stored under its own identifier. */
    ghost predicate Valid()
      reads this
    {
      && (state.Some? ==> Routable(state.value))
      && WellKeyed(Services())
    }

    /** `newRegistry`: nothing published; the mime lookup is `getMimeTypeForPath`. */
    constructor (parse: UrlParser)
      ensures this.parse == parse && mimeTypeOf == GetMimeTypeForPath
      ensures state == None && Valid()
    {
      this.parse := parse;
      mimeTypeOf := GetMimeTypeForPath;
      state := None;
    }

    /** The published services; none before the first update. */
    function Services(): ServiceMap
      reads this
    {
      if state.None? then map[] else state.value.services
    }

    /** `getServicesCopy`: a copy of the published services, empty before the first update. */
    method GetServicesCopy() returns (copy: ServiceMap)
      ensures copy == Services()
    {
      copy := map[];
      if state.Some? {
        copy := Maps.Copy(state.value.services);
      }
    }

    /**
     * `update`: visit the services in map order, building a proxy for each,
     * collecting the path services and mapping each mime type to the proxy;
     * the first address that does not parse ends the call with its error and
     * nothing is published.
     */
    method Update(services: ServiceMap) returns (err: Option<string>, ghost order: seq<ServiceID>)
      requires Valid() && WellKeyed(services)
      modifies this
      ensures Valid()
      ensures Updated(parse, old(state), services, state, err, order)
    {
      var pathServices: seq<Service> := [];
      var proxies: map<ServiceID, ReverseProxy> := map[];
      var mimeProxies: map<string, ReverseProxy> := map[];
      var rest := services.Keys;
      order := [];
      while rest != {}
        invariant rest <= services.Keys
        invariant forall k :: k in services ==> (k in order <==> k !in rest)
        invariant Maps.Distinct(order)
        invariant forall i :: 0 <= i < |order| ==> order[i] in services
        invariant AllParse(services, order, parse)
        invariant pathServices == PathServices(services, order)
        invariant proxies == Proxies(services, order, parse)
        invariant mimeProxies == MimeProxies(services, order, parse)
        decreases rest
      {
        var k :| k in rest;
        var service := services[k];
        var backendURL := parse(service.backendAddress);
        if backendURL.Failure? {
          return Some(backendURL.error), order;
        }
        var proxy := ReverseProxy(service.id, backendURL.value);
        proxies := proxies[service.id := proxy];
        if service.path != "" {
          pathServices := pathServices + [service];
        }
        ghost var before := mimeProxies;
        for j := 0 to |service.mimeTypes|
          invariant mimeProxies == SetAll(before, service.mimeTypes[..j], proxy)
        {
          assert service.mimeTypes[..j + 1][..j] == service.mimeTypes[..j];
          mimeProxies := mimeProxies[service.mimeTypes[j] := proxy];
        }
        assert service.mimeTypes[..|service.mimeTypes|] == service.mimeTypes;
        ghost var next := order + [k];
        assert next[..|order|] == order;
        order := next;
        rest := rest - {k};
      }
      TablesRoutable(services, order, parse);
      state := Some(State(pathServices, mimeProxies, services, proxies));
      err := None;
    }

    /** `upsert`: store every batch service under its identifier on a copy, then update with it. */
    method Upsert(batch: seq<Service>) returns (err: Option<string>, ghost order: seq<ServiceID>)
      requires Valid()
      modifies this
      ensures Valid()
      ensures Updated(parse, old(state), Maps.Upserted(old(Services()), batch, IdOf), state, err, order)
    {
      var copy := GetServicesCopy();
      ghost var start := copy;
      for i := 0 to |batch|
        invariant copy == Maps.Upserted(start, batch[..i], IdOf)
      {
        assert batch[..i + 1][..i] == batch[..i];
        copy := copy[batch[i].id := batch[i]];
      }
      assert batch[..|batch|] == batch;
      UpsertedWellKeyed(start, batch);
      err, order := Update(copy);
    }

    /**
     * `remove`: delete every listed identifier from a copy, failing with
     * "service not found" (and publishing nothing) at the first absent one,
     * then update with the copy.
     */
    method Remove(ids: seq<ServiceID>) returns (err: Option<string>, ghost order: seq<ServiceID>)
      requires Valid()
      modifies this
      ensures Valid()
      ensures Maps.Removed(old(Services()), ids).None? ==> err == Some(ErrServiceNotFound) && state == old(state)
      ensures Maps.Removed(old(Services()), ids).Some? ==>
                Updated(parse, old(state), Maps.Removed(old(Services()), ids).value, state, err, order)
    {
      var copy := GetServicesCopy();
      ghost var start := copy;
      order := [];
      for i := 0 to |ids|
        invariant Maps.Removed(start, ids[..i]) == Some(copy)
      {
        assert ids[..i + 1][..i] == ids[..i];
        if ids[i] !in copy {
          Maps.RemovedFailureSticks(start, ids, i + 1);
          assert ids[..|ids|] == ids;
          return Some(ErrServiceNotFound), order;
        }
        copy := copy - {ids[i]};
      }
      assert ids[..|ids|] == ids;
      RemovedWellKeyed(start, ids);
      err, order := Update(copy);
    }

    /**
     * `middleware` applied to a request path: the path services are scanned
     * in list order and the first whose path prefixes the request path serves
     * it; then the mime lookup; then the next handler.
     */
    method Middleware(path: string) returns (t: Target)
      requires Valid()
      ensures t == Route(state, path, mimeTypeOf)
    {
      if state.None? {
        return Next;
      }
      var st := state.value;
      for i := 0 to |st.pathServices|
        invariant forall j :: 0 <= j < i ==> !(st.pathServices[j].path <= path)
      {
        if st.pathServices[i].path <= path {
          return Serve(st.proxies[st.pathServices[i].id]);
        }
      }
      var mimetype := mimeTypeOf(path);
      if mimetype.Failure? {
        return Failed(StatusInternalServerError, CouldNotResolveMimeType + "\n");
      }
      if mimetype.value in st.mimeProxies {
        return Serve(st.mimeProxies[mimetype.value]);
      }
      t := Next;
    }
  }
}
