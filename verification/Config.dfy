/** The gateway's configuration. Sizes and durations are the source's unsigned integers. */
module Config {
  import opened Wrappers

  datatype GatewayConfig = GatewayConfig(
    version: nat,
    gateway: GatewayServer,
    providers: seq<AuthProvider>,
    rateLimits: RateLimits,
    routes: seq<Route>,
    services: seq<Service>,
    tracing: Tracing,
    plugins: Plugins,
    xds: Endpoint,
    extProc: Endpoint)

  datatype GatewayServer = GatewayServer(
    listenAddress: string,
    adminAddress: string,
    idleTimeoutMs: nat,
    extauthzAddress: Option<string>)

  datatype AuthProvider = AuthProvider(name: string, jwksUri: string, cacheTtlSeconds: nat)

  datatype RateLimits = RateLimits(redisAddress: string, keyPrefix: string)

  datatype Route = Route(
    name: string,
    hostnames: seq<string>,
    pathPrefix: string,
    methods: seq<string>,
    authRequired: bool,
    authProvider: Option<string>,
    requiredScopes: Option<seq<string>>,
    rateLimit: RouteRateLimit,
    upstream: Upstream,
    plugins: seq<PluginInstance>)

  datatype RouteRateLimit = RouteRateLimit(bucketCapacity: nat, refillRate: real, keyBy: string)

  datatype Upstream = Upstream(service: string, requestTimeoutMs: nat, retries: nat)

  datatype Service = Service(name: string, endpoints: seq<string>, healthCheck: HealthCheck)

  datatype HealthCheck = HealthCheck(path: string, intervalMs: nat, timeoutMs: nat)

  datatype Tracing = Tracing(enabled: bool, otlpEndpoint: string, sampleRate: real)

  datatype Plugins = Plugins(enabled: bool, directory: string, limits: PluginLimits, instances: seq<PluginInstance>)

  datatype PluginLimits = PluginLimits(maxMemoryBytes: nat, maxInstructions: nat, chainTimeoutMs: nat)

  /** `config` is the instance's free-form settings, as text. */
  datatype PluginInstance = PluginInstance(name: string, enabled: bool, failMode: string, config: string)

  datatype Endpoint = Endpoint(enabled: bool, listenAddress: string)
}

/** Endpoint text "host:port": how it is validated and how the two back ends take it apart. */
module Endpoints {
  import opened Wrappers
  import opened Text

  datatype EndpointError = InvalidEndpoint(text: string)

  /** Position of the last `c`. */
  function RFind(s: string, c: char): (r: Option<nat>)
    ensures r.Some? ==> r.value < |s| && s[r.value] == c && c !in s[r.value + 1..]
    ensures r.None? ==> c !in s
  {
    if s == [] then None
    else if s[|s| - 1] == c then Some(|s| - 1)
    else RFind(s[..|s| - 1], c)
  }

  /** `rsplitn(2, c)`: the text after the last `c`, then the text before it if there is one. */
  function RSplitN2(s: string, c: char): seq<string> {
    RSplitFrom(s, "", c)
  }

  function RSplitFrom(s: string, tail: string, c: char): seq<string> {
    if s == [] then [tail]
    else
      var n := |s| - 1;
      if s[n] == c then [tail, s[..n]] else RSplitFrom(s[..n], [s[n]] + tail, c)
  }

  lemma PartsOf(s: string, tail: string, i: nat)
    requires i < |s| - 1
    ensures s[..|s| - 1][i + 1..] + ([s[|s| - 1]] + tail) == s[i + 1..] + tail
    ensures s[..|s| - 1][..i] == s[..i]
  {
  }

  lemma {:induction false} SplitIsFind(s: string, tail: string, c: char)
    ensures RSplitFrom(s, tail, c) ==
            match RFind(s, c)
            case None => [s + tail]
            case Some(i) => [s[i + 1..] + tail, s[..i]]
  {
    if s == [] {
      assert s + tail == tail;
    } else {
      var n := |s| - 1;
      if s[n] == c {
        assert s[n + 1..] + tail == tail;
      } else {
        SplitIsFind(s[..n], [s[n]] + tail, c);
        var found := RFind(s[..n], c);
        assert RFind(s, c) == found;
        if found.None? {
          assert s[..n] + ([s[n]] + tail) == s + tail;
        } else {
          PartsOf(s, tail, found.value);
        }
      }
    }
  }

  /** `str::parse::<u16>`: an optional plus sign, then digits, at most 65535. */
  function ParseU16(s: string): (r: Option<nat>)
    ensures r.Some? ==> r.value < 0x1_0000
  {
    var digits := if |s| > 1 && s[0] == '+' then s[1..] else s;
    match ReadDecimal(digits)
    case None => None
    case Some(n) => if n < 0x1_0000 then Some(n) else None
  }

  predicate IsHostPort(value: string) {
    var parts := RSplitN2(value, ':');
    |parts| == 2 && ParseU16(parts[0]).Some? && parts[1] != ""
  }

  /** As the static back end reads an endpoint: host first. */
  function ParseStatic(endpoint: string): Result<(string, nat), EndpointError> {
    match RFind(endpoint, ':')
    case None => Err(InvalidEndpoint(endpoint))
    case Some(i) =>
      if endpoint[..i] == "" then Err(InvalidEndpoint(endpoint))
      else
        match ParseU16(endpoint[i + 1..])
        case None => Err(InvalidEndpoint(endpoint))
        case Some(port) => Ok((endpoint[..i], port))
  }

  /** As the xDS back end reads it: port first. */
  function ParseXds(endpoint: string): Result<(string, nat), EndpointError> {
    match RFind(endpoint, ':')
    case None => Err(InvalidEndpoint(endpoint))
    case Some(i) =>
      match ParseU16(endpoint[i + 1..])
      case None => Err(InvalidEndpoint(endpoint))
      case Some(port) =>
        if endpoint[..i] == "" then Err(InvalidEndpoint(endpoint)) else Ok((endpoint[..i], port))
  }

  /**
   The validator and the two parsers accept exactly the same texts, both parsers read the
   same host and port, and what they read is all of the text.
   */
  lemma ParsersAcceptValidated(endpoint: string)
    ensures ParseStatic(endpoint) == ParseXds(endpoint)
    ensures IsHostPort(endpoint) <==> ParseStatic(endpoint).Ok?
    ensures ParseStatic(endpoint).Ok? ==>
              exists port: string ::
                && ':' !in port
                && ParseU16(port) == Some(ParseStatic(endpoint).value.1)
                && endpoint == ParseStatic(endpoint).value.0 + ":" + port
  {
    SplitIsFind(endpoint, "", ':');
    match RFind(endpoint, ':')
    case None =>
    case Some(i) =>
      var port := endpoint[i + 1..];
      assert port + "" == port;
      assert endpoint == endpoint[..i] + ":" + port;
  }
}
