# OpenApiGateway control plane: verified model

A Dafny model of the gateway's control plane and what it promises. The parts share
their data types, so that results cross them: a bound on the rate limiter holds for the
requests the ext-authz handler lets through, what the key cache verified is what the
response shows, and the strength of the validator is what makes a reload all or nothing.

| file | models |
|---|---|
| `TokenBucket.dfy` | the in-memory token bucket and its runs |
| `RedisScript.dfy` | the Redis script and its agreement with the bucket |
| `Limiter.dfy` | the limiter that switches between the two; bucket keys |
| `Lifetimes.dfy` | how long hashes must live; checks that overlap |
| `Text.dfy`, `Wrappers.dfy` | sorting, numerals, prefixes; `Option` and `Result` |
| `Config.dfy`, `Validation.dfy` | the configuration, endpoint texts, the validator |
| `VirtualHosts.dfy`, `HostAgreement.dfy` | the two algorithms that group routes into virtual hosts |
| `Routing.dfy` | the gateway's own routing against Envoy's reading of the generated hosts |
| `Compiler.dfy` | both back ends, and what validation guarantees about them |
| `PluginChain.dfy`, `PluginRun.dfy`, `PluginPool.dfy` | chains, execution and headers, instances cached per thread |
| `Xds.dfy` | snapshots, versions, broadcasts, streams |
| `Reload.dfy` | the reload of three stores, alone and overlapping |
| `Jwks.dfy` | key sets, token validation, the key cache |
| `Handler.dfy` | the ext-authz check and whole runs of it |
| `Witnesses.dfy` | accepted configurations on which expected properties fail |

Code that updates objects in place is a class whose methods are proved against functions
on values; the theorems over whole runs are about those functions. Concurrent parts
(plugin instances, xDS, key cache, overlapping reloads and limiter checks) are step
systems in which any enabled step may come next.

Times and tokens are real numbers. The limiter's bucket and the script take milliseconds,
the key cache seconds. What the source leaves to libraries or the outside is a parameter:
URL syntax, JSON schema checks, RSA and JWT decoding, SHA-256, the content of the plugin
directory, the fate of each Redis round trip, which plugin calls happen. Header syntax is
a parameter too, with the rules of the HTTP library as one instance.

Where the source does not meet a property it might be expected to, the model states the
exact condition under which it does, and shows an input that fails it:

- Bucket keys of different routes can coincide when a route name holds a colon, which the
  validator allows (`KeysClashIff`, `KeysCanClash`, `ClashIsAccepted`).
- Reloads that lower a route's capacity and raise it again can let more requests through
  than the bucket should: never, if and only if the hashes of all capacities and rates in
  use live long enough to fill the largest bucket (`NeverOverdrawnIff`,
  `ShrinkingOverdraws`). How much more, in any case, is bounded by `OverdraftBound`.
- The generated virtual hosts can share a domain (`DomainsSharedIff`, `OverlapIsAccepted`)
  and can route a path differently from the gateway (`RoutingAgreesIff`, `OrderIsAccepted`).
- The two listeners have different filters when external processing is on
  (`FiltersAgreeIff`, `ProcessingIsAccepted`).
- A service may take the name of the generated authorization cluster
  (`ClusterNamesDistinctIff`, `ClusterNameIsAccepted`).
- A plugin can be served another instance than it is configured to, when it is enabled
  globally and on a route with different settings, or when a route name holds a colon
  (`ServedAsConfiguredIff`, `SharedPluginIsAccepted`, `ColonsAreAccepted`).
- Reserved header prefixes are `x-auth-`, `x-ratelimit-` and `x-envoy-`, while the gateway's
  own headers start with `x-rate-limit-` (`ProtectedIffReserved`, `RateHeaderIsNotProtected`).
- The bucket charged for an authenticated request is not always its subject's
  (`SubjectChargedIff`, `UnreadableSubject`, `IllegalSubject`).
- A request that matches no route, and one for which the plugin engine itself fails, is
  answered 200 without a limiter check (`StatusIsOkIff`, `EngineFailureIsOk`).
- An exit can be blamed on another plugin than the one the chain stopped at, through a
  gateway object that was passed on (`ExitIsOwnIff`, `ExitThroughSharedObject`). Even if
  each plugin calls only its own object, and only in its access phase, an exit asked for by
  a fail-open plugin that then fails stays pending: it ends the chain at the next plugin
  that finishes normally, or is dropped if there is none (`ExitIsOwnIffForgiven` under that
  hypothesis, `PendingIsDroppedIff`, `ExitUnderAnotherName`).
- Plugins may set `x-auth-` headers of the response, which authentication replaces only on
  routes that require it and only with legal values (`AuthHeaderOrigin`,
  `SubjectFromPlugin`).
- Reloads that overlap can leave the stores out of step (`InStepIff`, `OverlapMixes`).
- Applying a configuration that was not validated need not be all or nothing
  (`ApplyIsAtomicIff`, `UnvalidatedIsNotAtomic`). A reload validates first
  (`controlplane/src/config/loader.rs:26`), so the running gateway never meets that input.

To check the whole project, use `dafny verify dfyconfig.toml`.

## Model

Constructors, single checks of the validator, counters and proof steps have no row.

| member | source | states |
|---|---|---|
| `TokenBucket.LocalBucket.TryConsume` | controlplane/src/ratelimit/bucket.rs:28-43 | answer and new state are those of the value specification about which the run theorems below speak |
| `BucketRuns.WindowBound` | controlplane/src/ratelimit/bucket.rs:28-51 | in every window of every run the requests admitted, plus the tokens left, are at most capacity plus rate times the length of the window |
| `BucketRuns.GreedyOptimal` | controlplane/src/ratelimit/bucket.rs:28-51 | after every prefix of every request sequence the bucket has admitted at least as many requests as any choice of admissions that never overdraws a bucket of the same capacity and rate |
| `BucketRuns.RetryIsExact` | controlplane/src/ratelimit/bucket.rs:34-42 | after any run ending in a denial, a request d whole milliseconds later is admitted if and only if d reaches the wait; the answer reports the wait, or the largest 64-bit number when it does not fit |
| `RedisScript.RedisServer.Eval` | controlplane/src/ratelimit/lua.rs:13-32 | one atomic execution of the script on the hash of a key: its reply, and the hashes afterwards, with nothing written on a denial and expired keys possibly gone |
| `EagerLazy.EagerLazyAgree` | controlplane/src/ratelimit/lua.rs:13-32 | on every non-decreasing run the script, which writes nothing on a denial and may lose expired keys, gives the same flag, remaining count and wait as the bucket that writes every time |
| `EagerLazy.MirrorsAlways` | controlplane/src/ratelimit/lua.rs:16-26 | the invariant behind it: the stored hash, brought forward to the last call, is the eager bucket, and an absent hash means a full one |
| `EagerLazy.TtlCoversTwoRefills` | controlplane/src/ratelimit/bucket.rs:55-60 | the time to live is at least twice the refill time if and only if that fits 64 bits |
| `EagerLazy.ExpiryInvisible` | controlplane/src/ratelimit/bucket.rs:55-60 | two runs that differ only in when Redis drops expired keys get the same reply to every call, with the clocks apart by up to the time to fill the bucket |
| `EagerLazy.ScriptRetryIsExact` | controlplane/src/ratelimit/lua.rs:28-31 | the script's waits are exact too: after a denial a call d milliseconds later is allowed if and only if d reaches the reported wait |
| `Limiter.RateLimiter.TryRedis` | controlplane/src/ratelimit/limiter.rs:138-190 | reply or error for every outcome of the round trip; a lost command clears the connection, a reply that does not parse keeps it, and the script may have run either way |
| `Limiter.RateLimiter.EnterDegraded` | controlplane/src/ratelimit/limiter.rs:192-228 | survivability mode first, then fail-open, then the error; only the bucket of the key changes |
| `Limiter.RateLimiter.CheckKey` | controlplane/src/ratelimit/limiter.rs:91-101 | Redis first, the fallback on any error: answer and new state of connection, hashes and buckets |
| `Limiter.RateLimiter.PingRedis` | controlplane/src/ratelimit/limiter.rs:106-136 | a live connection is kept, a dead one replaced if reconnecting works; buckets untouched |
| `LimiterRuns.ScriptSpends` | controlplane/src/ratelimit/lua.rs:13-32 | one execution, with parameters of its own, lowers what Redis holds for a key, measured by the largest capacity and rate in use, by at least what it grants, except that a hash gone before that bucket was full puts back at most one capacity |
| `LimiterRuns.OverdraftBound` | controlplane/src/ratelimit/limiter.rs:91-228 | in every window of every run, with any pattern of refused, lost (executed or not), garbled and answered calls, pings and expiries, and with capacity and rate changing from check to check, the requests allowed on a key are at most what a Redis bucket of the largest capacity and rate and the fallback bucket may hand out, plus one capacity for each time the key expired before that bucket was full |
| `LimiterRuns.TwoBackendBound` | controlplane/src/ratelimit/limiter.rs:91-228 | when even the shortest-lived hash outlives the time to fill the largest bucket, the requests allowed on a key in every such window are at most what the two buckets may hand out |
| `Lifetimes.NeverOverdrawnIff` | controlplane/src/ratelimit/bucket.rs:55-60 | the lifetime condition is exact: for any set of capacities and rates of which one is the largest, every window of every run stays within the two buckets if and only if a hash written under each of them lives long enough, less the drift of the clocks, to fill the largest bucket |
| `Lifetimes.ShrinkingOverdraws` | controlplane/src/ratelimit/lua.rs:13-32 | an instance that fails it: capacity three lowered to one and raised again, at one token a second |
| `LimiterRuns.FixedParametersBound` | controlplane/src/ratelimit/bucket.rs:55-60 | with unchanging parameters the time to live always suffices, with the clocks apart by up to the time to fill the bucket |
| `Halves.OverlappingChecksBound` | controlplane/src/ratelimit/limiter.rs:138-213 | for one rate the bound holds of overlapping checks too: script runs and fallback calls are steps of their own, each on its clock, and scripts that had timed out may run after later ones |
| `LimiterRuns.KeysAreIsolated` | controlplane/src/ratelimit/limiter.rs:200-213 | in every limiter run each check that falls back is answered by a lone bucket that saw only the earlier checks on the same key that fell back |
| `LimiterRuns.FallbackIsBuckets` | controlplane/src/ratelimit/limiter.rs:192-213 | the fallback map after any run is what exactly the checks Redis did not answer made of it |
| `BucketKey.KeysClashIff` | controlplane/src/ratelimit/bucket.rs:63-65 | two (route, dimension) pairs can share a key if and only if one of their key heads is a prefix of the other |
| `BucketKey.KeyIsInjective` | controlplane/src/ratelimit/bucket.rs:63-65 | without colons in route names and dimensions the key determines route, dimension and value |
| `BucketKey.KeysCanClash` | controlplane/src/ratelimit/bucket.rs:63-65 | two routes and two client addresses with one bucket key because a route name has a colon |
| `Endpoints.ParsersAcceptValidated` | controlplane/src/config/envoy_gen.rs:273-290 | the validator accepts a text if and only if the parsers of the two back ends do, and they read the same host and port |
| `Validation.CheckUnique` | controlplane/src/config/validation.rs:40-70 | adds exactly the names that occur more than once |
| `Validation.CheckReferences` | controlplane/src/config/validation.rs:72-98 | adds exactly the references to services and providers that do not exist |
| `Validation.Validate` | controlplane/src/config/validation.rs:15-29 | accepts a configuration if and only if it violates no rule; otherwise the reported set is exactly the set of violations |
| `Durations.DurationRoundTrip` | controlplane/src/config/envoy_gen.rs:295-303 | reading the printed timeout back gives the configured milliseconds, for every number |
| `Durations.DurationExact` | controlplane/src/xds/resources.rs:212-217 | the protobuf duration denotes the same milliseconds and its fields fit their widths |
| `VirtualHosts.BuildStaticHosts` | controlplane/src/config/envoy_gen.rs:126-155 | the growing list of groups yields one virtual host per set of hostnames, in order of first appearance, with its routes in config order |
| `VirtualHosts.BuildXdsHosts` | controlplane/src/xds/resources.rs:143-177 | the two ordered maps yield one virtual host per set of hostnames, in key order, with its routes in config order |
| `HostAgreement.BuildersAgree` | controlplane/src/xds/resources.rs:143-177 | on every route list with distinct names both builders give the same virtual hosts: name, sorted hostnames, entries in order, timeouts that denote the same milliseconds |
| `HostAgreement.EachRouteOnce` | controlplane/src/config/envoy_gen.rs:126-155 | the groups together hold every route exactly once |
| `HostAgreement.DomainsSharedIff` | controlplane/src/config/envoy_gen.rs:126-155 | a domain ends up in two virtual hosts of either back end if and only if two routes overlap in hostnames without having the same ones |
| `Routing.MatchIndex` | controlplane/src/extauthz/helpers.rs:11-21 | the winner is a candidate of maximal prefix length and, among equals, the last in config order; none means no route is a candidate |
| `Routing.RoutingAgreesIff` | controlplane/src/config/envoy_gen.rs:126-155 | for a host, first match over generated virtual hosts and the gateway's longest match agree on every path if and only if, in the selected host, no earlier prefix is a prefix of a later one and every covering route outside it is shadowed by a later one inside |
| `Routing.BackEndsPreserveRouting` | controlplane/src/extauthz/helpers.rs:11-21 | when one hostname group covers the host and its prefixes are ordered, both back ends route every path as `match_route` does |
| `Compiler.CompilesIff` | controlplane/src/config/envoy_gen.rs:18-44 | each back end succeeds if and only if the addresses it has to parse are host:port texts |
| `Compiler.ValidatedCompiles` | controlplane/src/config/envoy_gen.rs:186-226 | every accepted configuration compiles in both back ends, to the same clusters with the same endpoints, health checks and milliseconds, and every route entry of either output names a cluster that output defines |
| `Compiler.SameCluster` | controlplane/src/xds/resources.rs:73-96 | a service becomes the same cluster in both back ends: name, endpoints, health check, and durations that read back as the configured milliseconds |
| `Compiler.ListenersAgree` | controlplane/src/xds/resources.rs:35-63 | both listeners have the same address and an idle timeout of the same milliseconds |
| `Compiler.FiltersAgreeIff` | controlplane/src/xds/resources.rs:109-141 | authorization in both listeners exactly when configured, the router last; the filters correspond if and only if external processing is off |
| `Compiler.ClusterNamesDistinctIff` | controlplane/src/config/envoy_gen.rs:18-44 | for an accepted configuration the cluster names of the static output are distinct if and only if no service takes the name of a generated authorization cluster |
| `PluginChain.PushBindings` | controlplane/src/plugins/registry.rs:142-164 | appends the enabled instances in config order, or reports the first unknown or ill-configured one |
| `PluginChain.BuildRuntime` | controlplane/src/plugins/registry.rs:12-61 | runtime or error for every configuration and every state of the plugin directory |
| `PluginChain.ChainIsStableSort` | controlplane/src/plugins/registry.rs:34-54 | a route's chain is the one arrangement of its enabled global then own instances that is sorted by priority and name and keeps the order of ties |
| `PluginChain.ChainIdsDetermineIff` | controlplane/src/plugins/registry.rs:142-164 | within a chain an id stands for one binding if and only if plugins enabled both globally and on the route are configured alike |
| `PluginIds.RuntimeIdsDetermineIff` | controlplane/src/plugins/registry.rs:34-54 | in a runtime ids stand for one binding each if and only if plugins enabled both globally and on a route are configured alike and no two routes have plugins whose ids coincide |
| `PluginIds.ColonFreeIsApart` | controlplane/src/plugins/registry.rs:153-154 | colon-free route names are enough to keep the ids of different routes apart |
| `PluginSdk.RuntimeState.SetUpstreamHeader` | controlplane/src/plugins/sdk.rs:116-134 | refuses exactly the reserved names, in any case, and changes nothing when it refuses |
| `PluginSdk.StaysClean` | controlplane/src/plugins/sdk.rs:94-132 | for every sequence of calls the collected names are lower case and no upstream name is reserved |
| `PluginExecutor.ChainStaysClean` | controlplane/src/plugins/executor.rs:39-94 | the same for whole chains, through failures and refusals |
| `HeaderMerge.InsertStringHeaders` | controlplane/src/extauthz/helpers.rs:89-98 | every header offered a value ends up with one of those offered, all others stay; with lower-case names the result is the one merge, whatever order the hash map is visited in |
| `HeaderMerge.OrderIsFreeIff` | controlplane/src/extauthz/helpers.rs:89-98 | the merge is independent of the visiting order if and only if no header is offered two values under names that differ in case |
| `HeaderMerge.ProtectedIffReserved` | controlplane/src/plugins/sdk.rs:10 | a header survives the late merge for every plugin behaviour if and only if its name has a reserved prefix, so the gateway's own `x-rate-limit-` headers are not protected |
| `PluginExecutor.ExecuteAccess` | controlplane/src/plugins/executor.rs:15-95 | runs a prefix of the chain, stops at the first late, exiting or unforgiven binding, and continues if and only if all pass; which result for which cause |
| `PluginExecutor.ExitOrigin` | controlplane/src/plugins/executor.rs:143-219 | in a run, an exit was asked for on the turn of the binding the chain stopped at, or on an earlier turn where it was not acted on (no access phase, or a forgiven failure) and after which nothing else was asked for |
| `PluginExecutor.ExitIsOwnIff` | controlplane/src/plugins/sdk.rs:85-112 | whatever plugins do with the gateway objects of this and earlier bindings, which they can pass on in the shared table, an exit at a binding names that binding if and only if all bindings before it have the same name |
| `PluginExecutor.ExitIsOwnIffForgiven` | controlplane/src/plugins/executor.rs:196-218 | under the hypothesis that each plugin calls only its own gateway object and only in its access phase: an exit at a binding names that binding if and only if no fail-open plugin of another name comes before it |
| `PluginExecutor.PendingIsDroppedIff` | controlplane/src/plugins/executor.rs:183-213 | a pending exit is dropped and the chain completes if and only if every later binding is in time and has no access phase or fails open |
| `PluginExecutor.ExecuteLog` | controlplane/src/plugins/executor.rs:97-131 | runs the whole chain in exact reverse whatever each plugin does |
| `PluginPool.ThreadLocalVm.Prepare` | controlplane/src/plugins/pool.rs:34-43 | empties the cache if and only if the generation differs, also when setting the limits then fails |
| `PluginPool.ThreadLocalVm.PluginInstance` | controlplane/src/plugins/executor.rs:221-264 | cached instance if there is one, a new one that is then cached, or an error that caches nothing |
| `PluginPool.PluginEngine.ReloadFromConfig` | controlplane/src/plugins/mod.rs:20-25 | installs the runtime of the new configuration, or burns a generation and changes nothing else |
| `PluginPoolRuns.CacheAgreesWithRebuild` | controlplane/src/plugins/pool.rs:34-51 | in every interleaving of reloads, installed in any order, and requests on old runtimes on any threads, a served instance was built from a binding with that id in the caller's own runtime, and from that very binding when ids are unambiguous |
| `PluginPoolRuns.RebuildsIffIdsDetermine` | controlplane/src/plugins/executor.rs:221-264 | every run serves what a rebuild would give if and only if, in the runtime, an id stands for one binding |
| `PluginIds.ServedAsConfiguredIff` | controlplane/src/plugins/registry.rs:142-164 | for an accepted configuration every run serves every plugin as it is configured if and only if the same two conditions hold of the configuration |
| `XdsSnapshots.PushOrder` | controlplane/src/xds/snapshot.rs:22-52 | a full push lists clusters, endpoints, listeners, routes, each once and of one version; a request for one type gets that type alone, any other the full push |
| `XdsSnapshots.RepliesAre` | controlplane/src/xds/server.rs:140-160 | every reply and every pushed response is the snapshot's own response for its type |
| `XdsServer.XdsRegistry.Broadcast` | controlplane/src/xds/registry.rs:58-77 | drops exactly the peers whose channel did not take everything |
| `XdsServer.XdsControlPlane.New` | controlplane/src/xds/server.rs:34-46 | starts with the version-1 snapshot and no connections, or reports why that snapshot cannot be built |
| `XdsServer.XdsControlPlane.RebuildFromConfig` | controlplane/src/xds/server.rs:54-67 | publishes the snapshot of a fresh version and puts a prefix of its full push on every connected stream, dropping exactly the peers that did not take it all; or burns the version and changes nothing else |
| `XdsRuns.SameVersionSameResponse` | controlplane/src/xds/server.rs:54-67 | over every interleaving of rebuilds, concurrent ones included, broadcasts and stream replies, two responses with the same version and type are identical, resources and nonce included |
| `XdsRuns.PushesAreOrdered` | controlplane/src/xds/registry.rs:58-77 | in every interleaving what one push puts on its stream is a prefix of that version's clusters, endpoints, listeners, routes |
| `Reload.AppState.ApplyConfigReload` | controlplane/src/admin/handlers.rs:111-137 | the three stores after applying, for every point at which it can fail |
| `Reload.AppState.ConfigReload` | controlplane/src/admin/handlers.rs:90-109 | the three stores after a reload attempt with any file content |
| `Reload.ReloadsStayInStep` | controlplane/src/admin/handlers.rs:90-137 | after every sequence of serialised reload attempts the active configuration is accepted, and the xDS snapshot and the plugin chains are built from that very configuration, the chains with the plugins on disk at the last successful attempt |
| `Reload.StartIsInStep` | controlplane/src/startup.rs:45-60 | start up from a validated file leaves the three stores in step |
| `Reload.AttemptOutcome` | controlplane/src/admin/handlers.rs:111-183 | an attempt succeeds if and only if the file parses, the configuration is acceptable and the plugins build; a failed one leaves config, digest, runtime, snapshot and xDS version as they were |
| `Reload.ApplyIsAtomicIff` | controlplane/src/admin/handlers.rs:111-137 | applying a configuration is all or nothing if and only if it is not the case that both stores exist, the plugins build and an address xDS must parse is malformed; reloads validate first and never get there |
| `ReloadRuns.StoresHoldTheLast` | controlplane/src/admin/handlers.rs:111-137 | overlapping reloads, each step of each one atomic access to a store or counter: in every interleaving the chains, the snapshot and the active configuration are each what the last reload to write it brought, all validated |
| `ReloadRuns.InStepIff` | controlplane/src/admin/handlers.rs:111-137 | overlapping reloads leave the stores in step if and only if the configuration committed last gives the chains of the one installed last and the snapshot of the one published last |
| `ReloadRuns.ReloadsCanMix` | controlplane/src/admin/handlers.rs:111-137 | for any two validated configurations there is an interleaving of two reloads that leaves one active with the chains and the snapshot of the other |
| `Jwks.ParseJwksKeys` | controlplane/src/auth/jwks_cache.rs:144-159 | succeeds if and only if every RSA key parses, with the RSA keys in order and all others skipped |
| `Jwks.FoundIsFirst` | controlplane/src/auth/validator.rs:26-30 | the key found is the first with the id |
| `Jwks.LookupByIdIff` | controlplane/src/auth/validator.rs:26-30 | look-up by id depends on the set of keys alone if and only if no id is shared by different keys |
| `Jwks.ValidateToken` | controlplane/src/auth/validator.rs:11-54 | an unknown key id is reported if and only if the header is readable RS256 and names no key of the set |
| `Jwks.AcceptsIff` | controlplane/src/auth/validator.rs:17-53 | a token is accepted as an identity if and only if its header is readable RS256, the first key with its id verifies it now, the claims stand for that identity, and every required scope is among its scopes |
| `Jwks.RefusesIff` | controlplane/src/auth/validator.rs:17-82 | which refusal for which cause, in both directions: algorithm, scopes, subject, and each way verification can fail |
| `Jwks.JwksCache.FetchAndStore` | controlplane/src/auth/jwks_cache.rs:86-110 | replaces keys and time together on success; a failed fetch changes nothing |
| `JwksRuns.CacheIsLastDelivery` | controlplane/src/auth/jwks_cache.rs:86-140 | in every interleaving the cached keys and fetch time are those of the last successful fetch |
| `JwksRuns.AnswersAreExplained` | controlplane/src/auth/mod.rs:32-55 | every finished call was refused because the cache was stale between its beginning and its end, or answered by validation against one key set current in that time; at most one retry, and only after an unknown key id |
| `Handler.ExecuteAccessPlugins` | controlplane/src/extauthz/plugin_step.rs:25-202 | headers to go on with, or the early answer, for every behaviour of the plugins; what goes on upstream holds no reserved name |
| `Handler.ExtAuthz.Approach` | controlplane/src/extauthz/handler.rs:102-192 | the stages before the limiter in their order: the request as it reaches the limiter, or the early answer |
| `Handler.ExtAuthz.Account` | controlplane/src/extauthz/handler.rs:223-307 | one counter moves for each limiter answer; headers of the response |
| `Handler.ExtAuthz.CheckInner` | controlplane/src/extauthz/handler.rs:87-308 | answer, limiter state and counters after one request; the limiter is used exactly when all earlier stages pass |
| `Handler.AcceptedIsRated` | controlplane/src/config/validation.rs:194-199 | the rates the handler relies on are positive in every accepted configuration |
| `HandlerRuns.ReachesLimiterIff` | controlplane/src/extauthz/handler.rs:102-192 | the limiter is asked if and only if a route matches, the verb is allowed, every plugin passes and authentication passes |
| `HandlerRuns.StatusIsOkIff` | controlplane/src/extauthz/handler.rs:102-307 | the answer is 200 if and only if no route matches, or the plugins end an allowed verb that way, or every stage passes and the limiter allows |
| `HandlerRuns.AuthHeadersSurvive` | controlplane/src/extauthz/handler.rs:289 | in an admitting response every `x-auth-` header is as it was after the authentication step |
| `HandlerRuns.IdentityIsForwarded` | controlplane/src/extauthz/auth_step.rs:75-89 | on a route that requires authentication an admitting response shows the validated subject, issuer and scopes, whatever plugins set, wherever they are legal header values |
| `HandlerRuns.AuthHeaderOrigin` | controlplane/src/plugins/sdk.rs:94-99 | where each `x-auth-` header of an admitting response comes from, in all cases: the validated identity if the route requires authentication and the value is legal, otherwise the last plugin call that set it, and nothing else |
| `HandlerRuns.ChargedTo` | controlplane/src/extauthz/handler.rs:194-211 | whose bucket a request is charged to, in all cases: the client address, the validated subject if it can be stored and read back, what plugins put in its place if it cannot be stored, or the anonymous one |
| `HandlerRuns.SubjectChargedIff` | controlplane/src/extauthz/handler.rs:196-204 | on an authenticated route that counts by subject, the validated subject's own bucket is charged if and only if the subject can be read back from a header |
| `HandlerRuns.AdmittedIsVerified` | controlplane/src/auth/mod.rs:32-55 | from the key cache to the response: an admitting response on an authenticated route means that a key of a set current during the check verified the request's own token, with every required scope, and that its subject is what `x-auth-sub` shows |
| `HandlerRuns.CountersAddUp` | controlplane/src/extauthz/handler.rs:213-287 | over every run, with reloads and pings in between, a route's allowed, degraded and denied counters together grow by the number of its limiter checks |
| `HandlerRuns.WorldIsLimiterRun` | controlplane/src/extauthz/handler.rs:214-222 | the limiter's state is that of a limiter run of exactly the logged checks and pings |
| `HandlerRuns.AdmittedAreGranted` | controlplane/src/extauthz/handler.rs:214-307 | the requests finally admitted on a key are exactly the limiter's grants on it, one check each |
| `HandlerRuns.AdmissionsOverdraft` | controlplane/src/extauthz/handler.rs:87-308 | end to end: in every window of every run of requests, pings, Redis failures and reloads, also ones that change capacity and rate, the requests admitted on one bucket key are within the two-bucket budget for the largest capacity and rate, plus one capacity for each time the key expired too soon |
| `HandlerRuns.AdmissionsAreBounded` | controlplane/src/extauthz/handler.rs:87-308 | and within the two-bucket budget when hashes live long enough for the largest capacity and rate |
| `Witnesses.OverlapIsAccepted` | controlplane/src/config/envoy_gen.rs:126-155 | an accepted configuration with a domain in two virtual hosts |
| `Witnesses.OrderIsAccepted` | controlplane/src/config/envoy_gen.rs:126-155 | an accepted configuration that Envoy and the gateway route differently |
| `Witnesses.ClusterNameIsAccepted` | controlplane/src/config/envoy_gen.rs:18-44 | an accepted configuration with two static clusters of one name |
| `Witnesses.ProcessingIsAccepted` | controlplane/src/xds/resources.rs:109-141 | an accepted configuration whose two listeners have different filters |
| `HandlerWitnesses.RateHeaderIsNotProtected` | controlplane/src/extauthz/helpers.rs:66-87 | `x-rate-limit-remaining` can be changed by the late merge |
| `HandlerWitnesses.EngineFailureIsOk` | controlplane/src/extauthz/plugin_step.rs:193-200 | when the plugin engine fails, a request without a token on a guarded route is answered 200 |
| `HandlerWitnesses.UnreadableSubject` | controlplane/src/extauthz/handler.rs:196-204 | a non-ASCII subject is charged to the shared anonymous bucket |
| `HandlerWitnesses.IllegalSubject` | controlplane/src/extauthz/handler.rs:196-204 | a subject that is no legal header value is charged to the subject a plugin named |
| `HandlerWitnesses.ClashIsAccepted` | controlplane/src/ratelimit/bucket.rs:63-65 | an accepted configuration and two requests on different routes that reach the limiter with one bucket key |
| `HandlerWitnesses.SubjectFromPlugin` | controlplane/src/plugins/sdk.rs:94-99 | an accepted configuration on which an admitting response shows as `x-auth-sub` whatever a plugin made up |
| `HandlerWitnesses.ExitUnderAnotherName` | controlplane/src/plugins/executor.rs:196-213 | a chain that ends at one plugin with the exit a fail-open one left behind |
| `HandlerWitnesses.ExitThroughSharedObject` | controlplane/src/plugins/executor.rs:33-57 | a chain of two fail-closed plugins that ends at the second with an exit in the name of the first, whose exit function it was handed |
| `HandlerWitnesses.ColonsAreAccepted` | controlplane/src/plugins/registry.rs:153-154 | an accepted configuration in which two routes' plugins share an id and one is served the other's instance |
| `HandlerWitnesses.SharedPluginIsAccepted` | controlplane/src/plugins/registry.rs:34-54 | an accepted configuration in which a plugin enabled globally and on a route is not served as configured |
| `HandlerWitnesses.OverlapMixes` | controlplane/src/admin/handlers.rs:111-137 | two overlapping reloads after which the active configuration puts a plugin on a route and the chains in use run none |
| `HandlerWitnesses.UnvalidatedIsNotAtomic` | controlplane/src/admin/handlers.rs:111-137 | a configuration, refused by the validator, on which applying would leave new chains under the old configuration |

## Left out

- OverdraftBound: Redis keeps a hash until its expiry; eviction under memory pressure and flushes are not modelled. Checks are atomic steps on clocks that do not go back.
- TwoBackendBound: the same, and asks that every hash lives long enough for the largest bucket in use.
- OverlappingChecksBound: for one capacity and rate; with several, a script that runs late under a smaller one is not covered.
- FixedParametersBound: assumes that twice the refill time in seconds fits 64 bits.
- ExpiryInvisible: same assumption on the time to live; `EXPIRE` limits of Redis beyond 64-bit seconds are not modelled.
- EagerLazyAgree: arithmetic is over the reals; float rounding, NaN and infinite rates, and how Lua prints numbers are not modelled.
- Validate: the set of reported violations is exact; their order, repetition and message texts are not stated, and endpoints and methods are told apart in the error where the source names only the field.
- RoutingAgreesIff: Envoy is read as exact domain, then `*`, then first matching prefix; suffix and prefix wildcards, ports in the host and case folding are not modelled.
- MatchIndex: prefix lengths count characters, the source counts bytes; the two order candidates of one path alike.
- InsertStringHeaders: the length limit of header names is not modelled.
- AcceptsIff: signature, issuer, audience, expiry and not-before checks are one library function of token, key and time.
- AnswersAreExplained: nothing is said about whether the wait after a refresh request sees fresh keys, since trigger and wait share one notifier.
- ReloadsStayInStep: reloads are serialised; for overlapping ones StoresHoldTheLast and InStepIff hold instead.
- StoresHoldTheLast: the last-reload fields, the digest and the push to connected streams of overlapping reloads are not part of that system.
- ExitOrigin: whether an exit that is not caught ends its phase as the exit or as a failure depends on how the Lua binding wraps the error (`controlplane/src/plugins/sdk.rs:28-30` recognises only the unwrapped form); both endings are covered.
- SameVersionSameResponse: neither the order of versions on one stream nor streams that share a node id are covered; bounded-channel blocking is not modelled.
- AdmissionsOverdraft: same conditions as OverdraftBound, in the order in which requests reach the limiter; request cancellation is not modelled.
- AdmissionsAreBounded: same conditions as TwoBackendBound.
- CheckInner: bodies, content types, the access log, tracing and request metrics are left out; the client address is given with the request.
- ReloadFromConfig: generations, versions and counters do not wrap around at 64 bits.
- Writing the Envoy config file after a reload, start-up wiring, HTTP, gRPC, Redis and file I/O.
- YAML, JSON, protobuf and SHA-256 encodings, the Lua sandbox with its memory and instruction limits, JSON schemas.
- The ext_proc processor, admin status pages, metrics registration, error-code tables: presentational or easy.
- The `retry-after` header in whole seconds as a sufficient wait: it is rounded down, only the milliseconds are exact.
