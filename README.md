# webgrapple reverse proxy — a Dafny model

webgrapple is a development reverse proxy. A developer points a browser at a set of
target URLs (`https://shop.local`, `http://localhost:8080`, …). The proxy listens on
each of them, and forwards every request either to a *default backend* or to a
*service* that a client has registered at runtime over an RPC endpoint. HTTPS
targets are served with a certificate pair that is supplied or generated on the fly
(self-signed, cached in the temporary directory under a name derived from the host
names).

This project models the server side of two revisions of the repository:

- **Current revision** (`pkg/server`):
  - the copy-on-write service registry that publishes a services map and the
    middleware compiled from it as one state (`Registry`);
  - the service facade `Upsert`/`Remove` (`ServiceApi`);
  - the HTTP server, which answers 503 until a middleware is published (`Proxy`);
  - self-signed certificate generation (`SelfSign`);
  - start-up (`Startup`): target URL validation, host extraction and sorting, host
    resolution, certificate provisioning, and the de-duplicated plan of listeners.
- **Older revision** (`server/`):
  - the registry with its own path/mime routing tables (`LegacyRegistry`);
  - its start-up, which differs in certificate provisioning (`LegacyStartup`);
  - the gotsrpc-generated control-plane endpoint with its CORS headers (`Rpc`).

Shared modules:

- `Wrappers`: `Option`, `Result`.
- `Strings`: `strings.Split`/`strings.Join`, byte-wise ordering, `sort.Strings` on
  distinct strings.
- `Net`: URLs and the host name before the first `:`.
- `Maps`: the map copy, the upsert and the remove loops as functions on values.
- `Vo`, `LegacyVo`: the value objects exchanged with clients.

Everything the Go code gets from its environment is an explicit parameter:
- URL parsing (`url.Parse`);
- `os.Stat`, `os.TempDir` and `net.LookupHost`;
- the middleware factory;
- the gotsrpc decoding of a request;
- the local clock, the random serial number, `net.ParseIP`, and which of the
  certificate's crypto/file steps fail.

Go's map iteration order is unspecified. Where the Go code ranges over a map, the
Dafny code picks keys with `:|` and states its result for every order. The legacy
`Update` returns the order it used as a ghost out-parameter.

## Model

| member | source | states |
|---|---|---|
| Maps.Copy | pkg/server/registry.go:12-18 | the copy has exactly the keys of the map and the same value under each, whatever order the keys are visited in |
| Maps.UpsertedLookup | pkg/server/registry.go:48-55 | after storing a batch by identifier, a key is present iff it was present before or some batch entry has it; its value is the LAST batch entry with that key, or the old value if no entry has it |
| Maps.UpsertedKeys | pkg/server/registry.go:48-55 | the keys after an upsert are the old keys plus the identifiers of the batch |
| Maps.RemovedSpec | pkg/server/registry.go:57-68 | removing a list of identifiers succeeds iff every identifier is present and none is repeated; the result is the old map minus exactly those identifiers |
| Maps.RemovedFailureSticks | pkg/server/registry.go:59-63 | once an identifier is found missing, the whole removal fails, whatever follows (the early return) |
| Registry.Registry.constructor | pkg/server/registry.go:32-38 | a new registry keeps the backend URL and factory and has published nothing |
| Registry.Registry.GetServicesCopy | pkg/server/registry.go:40-46 | empty map before the first publication, otherwise exactly the published services |
| Registry.Registry.Update | pkg/server/registry.go:70-81 | on a factory error the state is unchanged and that error is returned; otherwise exactly the given services and the new middleware are published, with no error |
| Registry.Registry.Upsert | pkg/server/registry.go:48-55 | the update is run on the published services with every batch service stored under its identifier |
| Registry.Registry.Remove | pkg/server/registry.go:57-68 | "service not found" with the state unchanged when an identifier is absent (or repeated); otherwise the update is run on the services minus those identifiers |
| ServiceApi.Wrap | pkg/server/service.go:11-15 | no reply error iff the registry reported none; otherwise the reply carries the registry's message |
| ServiceApi.Message | pkg/vo/vo.go:18-20 | `ServiceError.Error()` gives back the carried message, and none for no error |
| ServiceApi.WrapRoundTrip | pkg/server/service.go:11-15 | wrapping and reading back are inverse: the client reads exactly the registry's error |
| ServiceApi.Service.constructor | pkg/server/server.go:29-31 | the service is a handle on the given registry |
| ServiceApi.Service.Upsert | pkg/server/service.go:9-17 | one registry upsert of the batch; the reply's message is the registry's error |
| ServiceApi.Service.Remove | pkg/server/service.go:19-27 | one registry removal; "service not found" and no change when an identifier is missing, else the registry's update |
| Proxy.Route | pkg/server/server.go:40-47 | a request goes through the middleware, wrapped around the default proxy to the backend, iff a middleware is published; otherwise it is answered 503 with the "not available" message |
| Proxy.Server.constructor | pkg/server/server.go:21-38 | a fresh registry over the backend URL and factory with nothing published, and a control-plane handler at the default endpoint with no allowed origins over a service on that same registry |
| Proxy.Server.ServeHTTP | pkg/server/server.go:40-47 | for the server's own registry: the published middleware, around the proxy to the backend the server was made with, iff a state with a middleware is published; otherwise 503 with the "not available" message |
| Proxy.UnavailableUntilPublished | pkg/server/server.go:40-47 | starting from nothing published, a failed update leaves the server answering 503; a request goes through a middleware afterwards iff the update succeeded and the factory produced one |
| Rpc.Add | server/gotsrpc.go:42 | `Header.Add` appends one value under the name and leaves every other header alone |
| Rpc.WithOriginsMeaning | server/gotsrpc.go:40-43 | after the origin loop, Access-Control-Allow-Origin holds its old values followed by every allowed origin in order, and no other header changes |
| Rpc.CorsHeaders | server/gotsrpc.go:44 | Access-Control-Allow-Credentials is set to exactly "true" |
| Rpc.Classify | server/gotsrpc.go:45-100 | OPTIONS ends the request; a method other than POST or OPTIONS is refused; a POST calls Remove or Upsert iff that function is named and its arguments decode (and with those arguments), fails to load arguments iff they do not decode, and is answered 404 with the path for any other function name |
| Rpc.ServiceGoTSRPCProxy.NewDefault | server/gotsrpc.go:21-27 | the handler listens at the default endpoint with the given service and origins |
| Rpc.ServiceGoTSRPCProxy.constructor | server/gotsrpc.go:29-35 | the handler listens at the given endpoint with the given service and origins |
| Rpc.ServiceGoTSRPCProxy.ServeHTTP | server/gotsrpc.go:38-101 | the CORS headers are written first for every request; the registry changes only for a decoded Remove or Upsert, and then exactly as the service call specifies, with its error as the reply; every other case leaves the registry unchanged and writes the corresponding error |
| SelfSign.Partition | pkg/server/selfsign.go:65-75 | every host goes to exactly one of the IP list and the DNS-name list: a host is a DNS name iff it does not parse as an IP, and the IPs are exactly the parsed hosts |
| SelfSign.PartitionHosts | pkg/server/selfsign.go:65-75 | the loop appends, in host order, the parsed IPs and the other host names |
| SelfSign.TruncateToSecond | pkg/server/selfsign.go:22-42 | formatting the local time without fractions and parsing it back gives the start of the current second |
| SelfSign.FirstFailure | pkg/server/selfsign.go:29-111 | the reported failure is the first failing step in program order, and there is none iff no step fails |
| SelfSign.FirstFailureAt | pkg/server/selfsign.go:29-111 | a step that fails after all earlier steps succeeded is the one reported |
| SelfSign.WriteSteps | pkg/server/selfsign.go:82-111 | the create/write/close sequence of certificate and key reports the error of its first failing step |
| SelfSign.Sign | pkg/server/selfsign.go:20-114 | fails with the first failing step's prefixed message; otherwise writes certificate and key (key mode 0600) with a validity of exactly 365 days from the truncated local time, not a CA, digital-signature usage only, the drawn serial, and the IP and DNS SANs of the hosts |
| Startup.FileExistsAndIsAFile | pkg/server/run.go:26-35 | false for a missing file, true for a regular file, and for a directory the error made of the topic followed by " it exists, but is a directory and not a file" |
| Startup.Base | pkg/server/run.go:77 | `filepath.Base`: "." for the empty path, "/" for a path of slashes only, and otherwise the last element (the text after the last slash once trailing slashes are dropped); never empty, with a slash only when it is "/" |
| Startup.JoinPath | pkg/server/run.go:118-119 | `filepath.Join`: the name itself for an empty directory; otherwise the directory without its trailing slashes, then a slash, then the name, so the temporary pair lies in the temporary directory |
| Startup.FilesExistMeaning | pkg/server/run.go:75-86 | all files exist iff every one is a regular file; an error is the first directory's; false means a file is missing before any directory |
| Startup.FilesExistLoop | pkg/server/run.go:75-86 | the loop with its early returns computes that answer |
| Startup.CheckURL | pkg/server/run.go:43-58 | a target is accepted iff it parses with scheme http or https; a parse error is passed through; an empty scheme and any other scheme get their own errors |
| Startup.CheckURLsMeaning | pkg/server/run.go:43-61 | all targets are accepted iff each is, giving the parsed URLs in order; otherwise the error is the first rejected target's |
| Startup.CheckURLsFailureSticks | pkg/server/run.go:43-58 | a rejected target ends the extraction whatever follows |
| Startup.DistinctHosts | pkg/server/run.go:59-66 | the host list has no duplicates and holds exactly the host names (before any ':') of the targets |
| Startup.SortedHosts | pkg/server/run.go:63-72 | the hosts are strictly sorted and are exactly the targets' host names, so the result does not depend on map order |
| Startup.SortedKeys | pkg/server/run.go:63-71 | listing the host map's keys in any order and sorting them gives a strictly ascending list of exactly those keys |
| Startup.ExtractDataFromURLStrings | pkg/server/run.go:37-73 | fails with the first target's error, or returns all parsed URLs in order together with the sorted distinct host names |
| Startup.ResolvedEntry | pkg/server/run.go:145-161 | every host gets an entry: 127.0.0.1 when the lookup yields no address, otherwise the addresses joined with commas (which split back into the same addresses) |
| Startup.CheckHosts | pkg/server/run.go:145-161 | the lookup loop builds that table |
| Startup.CertDecision | pkg/server/run.go:88-127 | both paths given: they are kept; otherwise the temporary paths named after the common names; a pair is reused only when both files are regular files, and generated only when one of them is not |
| Startup.ExplicitPair | pkg/server/run.go:96-111 | with both paths given: a stat error stops; cert without key and key without cert are refused; both present means reuse; both missing means generate, always at the given paths |
| Startup.TemporaryPair | pkg/server/run.go:108-127 | otherwise the pair lives at the temporary paths derived from the host names; it is reused iff both exist as regular files, generated iff the cert is missing or the cert is a file and the key is missing, and a directory met first is an error naming it |
| Startup.SecondRunReuses | pkg/server/run.go:112-127 | a run that generated the temporary pair, followed by one that finds both files, reuses it rather than regenerating |
| Startup.NameBaseCollides | pkg/server/run.go:113-116 | the temporary name does not determine the host list: ["a-b"] and ["a","b"] share a pair |
| Startup.Carry | pkg/server/run.go:129-142 | the corrected paths are the decision's; a certificate is generated iff generation was decided and signing succeeds; no error iff the pair is reused or was generated; a refused pair reports its message, and a failed signing reports the signing error |
| Startup.CheckExplicitPair | pkg/server/run.go:96-111 | the stat checks of the given paths reach the explicit decision |
| Startup.CheckTemporaryPair | pkg/server/run.go:112-127 | the name loop and the existence check reach the temporary decision |
| Startup.EnsureCertAndKey | pkg/server/run.go:88-143 | returns exactly the provisioning outcome described by Carry over the decision |
| Startup.ListenerShape | pkg/server/run.go:196-220 | a listener binds the target's host plus its explicit port, or :80 / :443 by scheme; its address is the resolved address with the same port; TLS iff https |
| Startup.Wanted | pkg/server/run.go:196-220 | one listener per target URL, in order |
| Startup.DedupFromFirsts | pkg/server/run.go:218-234 | every planned listener is the first target with its resolved address and port |
| Startup.DedupKeysDistinct | pkg/server/run.go:218-234 | no two planned listeners share an address and port |
| Startup.DedupCoversFirsts | pkg/server/run.go:218-234 | every first target with its address and port is planned |
| Startup.PlanMeaning | pkg/server/run.go:196-235 | the plan has distinct addresses and holds exactly the listeners of targets whose address and port were not used by an earlier target |
| Startup.TargetListener | pkg/server/run.go:197-220 | the per-target computation gives that target's listener |
| Startup.StartOnce | pkg/server/run.go:218-234 | counting a listener's address-port and starting it only when the count becomes 1 keeps the counted keys equal to the keys seen so far and the started listeners equal to the de-duplicated ones |
| Startup.PlanListeners | pkg/server/run.go:193-235 | the loop counting used address-ports starts exactly the planned listeners |
| Startup.Run | pkg/server/run.go:163-244 | a bad target stops start-up with its error; otherwise hosts are resolved, a certificate failure stops it, a bad backend URL gives "could not parse backend url: …", and otherwise the planned listeners and the control-plane listener are launched with the provisioned pair |
| LegacyStartup.LegacyExplicitPair | server/run.go:92-107 | with both paths given, the older code decides like the current one except that where the current one reuses, it generates: it never reuses a supplied pair |
| LegacyStartup.LegacyTemporaryPair | server/run.go:108-123 | without both paths, the older code decides exactly like the current one, at the same temporary paths |
| LegacyStartup.SuppliedPairOverwritten | server/run.go:92-134 | when both supplied files exist, the current code reuses them untouched while the older code regenerates (overwrites) them whenever signing succeeds |
| LegacyStartup.EnsureCertAndKey | server/run.go:85-140 | returns exactly the older provisioning outcome, with the flags shadowed inside the explicit branch |
| LegacyStartup.Run | server/run.go:160-231 | the start-up sequence with the older certificate provisioning |
| LegacyRegistry.UpsertedWellKeyed | server/registry.go:59-66 | storing a batch by identifier keeps every service under its own identifier |
| LegacyRegistry.RemovedWellKeyed | server/registry.go:68-79 | so does removal |
| LegacyRegistry.SetAllMeaning | server/registry.go:95-97 | assigning one proxy to every mime type of a service sets exactly those entries and keeps the rest |
| LegacyRegistry.PathServicesMeaning | server/registry.go:92-94 | the path list holds exactly the services that have a path |
| LegacyRegistry.ProxiesMeaning | server/registry.go:85-91 | there is a proxy for an identifier iff a service has it, and it targets that service's parsed backend address |
| LegacyRegistry.MimeProxiesMeaning | server/registry.go:95-97 | a mime type has a proxy iff some visited service declares it, and that proxy is the proxy of a service declaring it |
| LegacyRegistry.MimeProxiesLast | server/registry.go:95-97 | when several services declare a mime type, the entry is the proxy of the LAST of them in iteration order |
| LegacyRegistry.TablesMeaning | server/registry.go:81-106 | for well-keyed services, the published tables have one proxy per service built from it, the path list is exactly the services with a path, and every mime entry is the proxy of a service declaring that type |
| LegacyRegistry.TablesRoutable | server/registry.go:119-124 | every service in the path list has a proxy, so routing never misses one |
| LegacyRegistry.FirstPathMatch | server/registry.go:119-126 | the chosen path service is the first, in list order, whose path is a prefix of the request path; none iff no path is a prefix |
| LegacyRegistry.PlaceholderMimeRouting | server/registry.go:128-148 | with the placeholder mime type "implement-me" the 500 branch is never taken, and a request without a path match falls back to the default iff no service declares that type |
| LegacyRegistry.Registry.constructor | server/registry.go:44-49 | a new registry has published nothing and uses the placeholder mime lookup |
| LegacyRegistry.Registry.GetServicesCopy | server/registry.go:51-57 | exactly the published services (none before the first update) |
| LegacyRegistry.Registry.Update | server/registry.go:81-106 | for some iteration order of the services: the first unparsable backend address is returned with nothing changed; otherwise the services and the tables built from them are published |
| LegacyRegistry.Registry.Upsert | server/registry.go:59-66 | the update is run on the services with the batch stored by identifier |
| LegacyRegistry.Registry.Remove | server/registry.go:68-79 | "service not found" with no change when an identifier is absent or repeated; otherwise the update is run on the remaining services |
| LegacyRegistry.GetMimeTypeForPath | server/registry.go:146-148 | the mime lookup never fails and names "implement-me" |
| LegacyRegistry.Route | server/registry.go:108-144 | nothing published: the next handler; a path match: the first matching path service's proxy; no path match: 500 with "could not resolve mime type" exactly when the mime lookup fails, else the mime type's proxy if one is registered, else the next handler |
| LegacyRegistry.Registry.Middleware | server/registry.go:108-144 | nothing published: the default; else the first path match's proxy; else 500 when the mime lookup fails; else the mime type's proxy; else the default |
| Net.HostName | pkg/server/run.go:49 | the host name is the part of the host before its first ':' (the whole host when there is none), and contains no ':' |
| Strings.JoinSplit | pkg/server/run.go:49 | joining the pieces of a split with the separator gives back the string |
| Strings.SplitJoin | pkg/server/run.go:158 | splitting a join of separator-free pieces gives back the pieces, so the comma-joined addresses are recoverable |
| Strings.SortedUnique | pkg/server/run.go:63-67 | two strictly sorted lists with the same elements are equal, so the sorted host list is independent of map order |
| Strings.Sort | pkg/server/run.go:67 | `sort.Strings` on distinct strings returns them strictly ascending, as a permutation |

## Left out

- Concurrency: the errgroup, the goroutines per listener, the cancellation context, and requests reading the registry state while it is being replaced. Every call is sequential in the model.
- Actually listening and serving: `Startup.Run` and `LegacyStartup.Run` return the list of listeners they would start (address, TLS pair) instead of blocking in `ListenAndServe`.
- Startup.Run: the call to `newServer` (pkg/server/run.go:188-191) is not repeated in `Run`. That `newServer` never returns an error, and the server it builds is modelled by `Proxy.Server.constructor`.
- LegacyStartup.EnsureCertAndKey, LegacyStartup.Run: the older revision's own `fileExistsAndIsAFile`, `filesExist`, `extractDataFromURLStrings` and `checkHosts` (server/run.go:23-84, 142-158) differ from the current ones only in logging, so the model reuses the `Startup` members for them. Its `selfsign` is assumed to be the current one (`SelfSign`); the older selfsign file is not part of this model.
- LegacyStartup.Run: the error branch of the older `newServer` (server/run.go:179-182) is not modelled, because server/server.go is not part of this model.
- The control-plane endpoint (`server/gotsrpc.go`) calls the current `ServiceApi.Service`. The older `server/service.go` is not part of this model; it has the same Upsert/Remove shape.
- Proxy.Server.ServeHTTP: returns the routing decision (`Proxy.Route`) instead of invoking the middleware and the reverse proxy. Forwarding bytes is HTTP library work.
- Cryptography and file output: key generation, `x509.CreateCertificate`, PEM encoding and file writing are steps that either succeed or fail with their error. The bytes written are not modelled.
- SelfSign.TruncateToSecond: the time is an integer count of nanoseconds. The loss of the time zone when the formatted local time is parsed back as UTC is not modelled, and neither is the "Failed to parse creation date" branch, which cannot be reached from a time the code formatted itself.
- Startup.FileExistsAndIsAFile: the only stat errors modelled are "does not exist" and "is a directory". Other stat errors (permissions, I/O) are left out.
- Startup.JoinPath: `filepath.Join` is modelled as trimming trailing slashes and inserting one. The full `Clean` of `.` and `..` segments is left out.
- Rpc.ServiceGoTSRPCProxy.ServeHTTP: the header-name canonicalisation is not modelled. The bytes `http.Error` and `gotsrpc.Reply` write are recorded as an `Answer` value. The headers those two set (`Content-Type`, `X-Content-Type-Options`) are not part of the modelled `header`, which holds only the CORS headers. The call statistics and the request-body draining are not modelled.
- Nil pointers: a nil `*Service` inside a batch and a nil middleware factory function are not modelled; the Go code would dereference or call them. A nil middleware returned by the factory is modelled, as `None`, and routed as "not available".
- Logging is left out.
- The client side (clientconfig, clientnpm), the CLI commands, the configuration loading and the freeport utility are left out, because they are outside the server core.
- The `Custom` payload of a service is an opaque value.
- Startup.ExtractDataFromURLStrings: the code builds a set of certificate common names containing "localhost" and the https hosts, but never uses it. The names passed to certificate generation are the sorted hosts of all targets. The model follows the code, so "localhost" is only in a certificate when it is one of the targets.
- LegacyRegistry.Registry.Update: the path list is not sorted, although the Go type has a `Less` by path length. The code never calls `sort`, and the model keeps the map-iteration order, so `FirstPathMatch` depends on it.
- Startup.NameBaseCollides: the temporary certificate name joins host names with "-". Distinct host lists can therefore share a cached pair. This is recorded as it is written, not corrected.

## Findings

| source | as written | input that shows it | evidently intended | confidence | as-written member | corrected member |
|---|---|---|---|---|---|---|
| server/run.go:93-97 | `certExists, errCertExists := …` and `keyExists, errKeyExists := …` declare new variables inside the explicit-paths branch. The outer `certExists`/`keyExists` stay false, so generation is chosen and the supplied certificate and key are overwritten. | certFile and keyFile both given, and both exist as regular files | reuse the supplied pair, as the current revision does (pkg/server/run.go:97-101 assign with `=`) | high; not executed | LegacyStartup.SuppliedPairOverwritten | Startup.ExplicitPair |
