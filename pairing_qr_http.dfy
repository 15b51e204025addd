/** The HTTP handler that gives a device-pairing deep link, with the gateway's connection secrets in it,
    only to a request that arrives directly on the local machine or that the gateway's authoriser lets in. */
module PairingQrHttp {
  import opened Wrappers
  import Decimal
  import FormUrlEncoded
  import SearchParams

  const PairingPath := "/api/pairing/qr"
  const DeepLinkPrefix := "openclaw://gateway?"
  const LoopbackHost := "127.0.0.1"
  const HostUnresolvableError := "Cannot determine reachable host address"

  // ---- Data ----

  /** The fields of the resolved gateway auth that the handler reads. */
  datatype AuthConfig = AuthConfig(token: Option<string>, password: Option<string>)

  datatype TlsConfig = TlsConfig(enabled: bool)

  /** The handler's options. */
  datatype Options = Options(
    auth: AuthConfig,
    trustedProxies: Option<seq<string>>,
    bindHost: string,
    port: int,
    gatewayTls: Option<TlsConfig>)

  /** What the handler reads from the request itself: the parsed URL's path and the HTTP method. */
  datatype Request = Request(pathname: string, httpMethod: Option<string>)

  /** The credential offered to the authoriser. */
  datatype ConnectAuth = ConnectAuth(token: string, password: string)

  /** The argument object of authorizeGatewayConnect (the request itself is implicit). */
  datatype AuthorizeArgs = AuthorizeArgs(
    auth: AuthConfig,
    connectAuth: Option<ConnectAuth>,
    trustedProxies: Option<seq<string>>)

  /** The answers of the collaborators whose code is not part of this model, for one request:
      the trust classifier, the bearer-token reader, the authoriser (its `ok`), LAN discovery
      and the QR renderer. */
  datatype Collaborators = Collaborators(
    isLocalDirectRequest: Option<seq<string>> -> bool,
    bearerToken: Option<string>,
    authorize: AuthorizeArgs -> bool,
    primaryLanIPv4: Option<string>,
    renderQrPngBase64: string -> string)

  /** A consultation of a collaborator, as it is recorded in the trace. */
  datatype Call =
    | CheckLocal(trustedProxies: Option<seq<string>>)
    | ReadBearerToken
    | Authorize(args: AuthorizeArgs)
    | PickPrimaryLanIPv4
    | RenderQr(uri: string)

  datatype PairingPayload = PairingPayload(deepLink: string, qrImageBase64: string, host: string, port: int, tls: bool)

  /** How the handler ends: not its route (`false`), or one of the four replies it writes. */
  datatype Outcome =
    | NotHandled
    | MethodNotAllowed(allow: string)
    | Unauthorized
    | ServerError(error: string)
    | Ok(payload: PairingPayload)

  /** The outcome with the collaborators consulted on the way, in order. */
  datatype Run = Run(outcome: Outcome, calls: seq<Call>)

  /** The HTTP status of a reply. */
  function Status(o: Outcome): (s: int)
    requires !o.NotHandled?
    ensures (s == 405) == o.MethodNotAllowed? && (s == 401) == o.Unauthorized?
    ensures (s == 500) == o.ServerError? && (s == 200) == o.Ok?
  {
    match o
    case MethodNotAllowed(_) => 405
    case Unauthorized => 401
    case ServerError(_) => 500
    case Ok(_) => 200
  }

  /** JavaScript truthiness of an optional string: present and not empty. */
  predicate Truthy(s: Option<string>) {
    s.Some? && s.value != ""
  }

  // ---- Reachable host ----

  predicate IsWildcard(host: string) {
    host == "0.0.0.0" || host == "::"
  }

  predicate IsLoopbackAlias(host: string) {
    host == "127.0.0.1" || host == "::1" || host == "localhost"
  }

  /** The address to advertise for a bind address; `lanIPv4` is what LAN discovery answers. */
  function ResolveReachableHost(bindHost: string, lanIPv4: Option<string>): (r: Option<string>)
    ensures r.Some?
    ensures r.value == bindHost || r.value == LoopbackHost || (IsWildcard(bindHost) && lanIPv4 == Some(r.value))
  {
    if IsWildcard(bindHost) then Some(lanIPv4.GetOr(LoopbackHost))
    else if IsLoopbackAlias(bindHost) then Some(LoopbackHost)
    else Some(bindHost)
  }

  // ---- Deep link ----

  /** The credential the handler forwards for a bearer token: the token in both slots, or none. */
  function CredentialFor(bearer: Option<string>): (c: Option<ConnectAuth>)
    ensures c.Some? <==> Truthy(bearer)
    ensures c.Some? ==> c.value.token == bearer.value && c.value.password == bearer.value
  {
    if Truthy(bearer) then Some(ConnectAuth(bearer.value, bearer.value)) else None
  }

  /** `gatewayTls?.enabled ?? false`. */
  function TlsEnabled(gatewayTls: Option<TlsConfig>): (enabled: bool)
    ensures enabled <==> gatewayTls.Some? && gatewayTls.value.enabled
  {
    match gatewayTls
    case Some(t) => t.enabled
    case None => false
  }

  /** The query parameters of the deep link, in insertion order. */
  function LinkParams(host: string, port: int, tls: bool, auth: AuthConfig): (ps: seq<(string, string)>)
    ensures 3 <= |ps| <= 5
    ensures ps[0] == ("host", host) && ps[1].0 == "port" && ps[2].0 == "tls"
    // No name twice, so every set() that builds the list appends.
    ensures forall i, j :: 0 <= i < j < |ps| ==> ps[i].0 != ps[j].0
  {
    FixedParams(host, port, tls) + SecretParams(auth)
  }

  /** host, port (its decimal numeral) and tls ("true" or "false"). */
  function FixedParams(host: string, port: int, tls: bool): (ps: seq<(string, string)>)
    ensures |ps| == 3 && ps[0].0 == "host" && ps[1].0 == "port" && ps[2].0 == "tls"
    ensures ps[0].1 == host && ps[2].1 == (if tls then "true" else "false")
  {
    [("host", host), ("port", Decimal.IntToString(port)), ("tls", Decimal.BoolToString(tls))]
  }

  /** token and password from the configured auth, each only when non-empty. */
  function SecretParams(auth: AuthConfig): (ps: seq<(string, string)>)
    ensures |ps| <= 2
    ensures forall i :: 0 <= i < |ps| ==> (ps[i].0 == "token" || ps[i].0 == "password") && ps[i].1 != ""
    ensures |ps| == 2 ==> ps[0].0 == "token" && ps[1].0 == "password"
    ensures Truthy(auth.token) ==> |ps| > 0 && ps[0] == ("token", auth.token.value)
    ensures Truthy(auth.password) ==> |ps| > 0 && ps[|ps| - 1] == ("password", auth.password.value)
  {
    (if Truthy(auth.token) then [("token", auth.token.value)] else [])
    + (if Truthy(auth.password) then [("password", auth.password.value)] else [])
  }

  function DeepLink(host: string, port: int, tls: bool, auth: AuthConfig): (link: string)
    ensures |link| > |DeepLinkPrefix| && link[..|DeepLinkPrefix|] == DeepLinkPrefix
  {
    DeepLinkPrefix + FormUrlEncoded.Serialize(LinkParams(host, port, tls, auth))
  }

  /** Reads the query of a pairing link back into its parameters. */
  function ParseDeepLink(link: string): Option<seq<(string, string)>> {
    if |link| >= |DeepLinkPrefix| && link[..|DeepLinkPrefix|] == DeepLinkPrefix then
      FormUrlEncoded.Parse(link[|DeepLinkPrefix|..])
    else None
  }

  // ---- The handler ----

  /** What the handler does, step by step, as a value: the early exits in source order, the
      collaborators it consults, and the payload on success. */
  function Handle(req: Request, opts: Options, env: Collaborators): (r: Run)
    // Another route: declined without a reply and without consulting anything.
    ensures r.outcome.NotHandled? <==> req.pathname != PairingPath
    ensures r.outcome.NotHandled? ==> r.calls == []
    // Wrong verb: 405 before trust or auth is looked at.
    ensures req.pathname == PairingPath && req.httpMethod != Some("GET") ==>
              r == Run(MethodNotAllowed("GET"), [])
    ensures r.outcome.MethodNotAllowed? <==> req.pathname == PairingPath && req.httpMethod != Some("GET")
    // An admitted GET always reaches host resolution: it ends in the payload or the 500.
    ensures req.pathname == PairingPath && req.httpMethod == Some("GET") && Admitted(opts, env) ==>
              r.outcome.Ok? || r.outcome.ServerError?
    // Disclosure gate: a payload (and the 500) only after trust or authorisation succeeded.
    ensures (r.outcome.Ok? || r.outcome.ServerError?) ==> Admitted(opts, env)
    ensures r.outcome.Unauthorized? <==>
              req.pathname == PairingPath && req.httpMethod == Some("GET") && !Admitted(opts, env)
    ensures r.outcome.ServerError? ==> r.outcome.error == HostUnresolvableError
    ensures r.outcome.Ok? ==>
              var p := r.outcome.payload;
              && p.port == opts.port
              && p.tls == TlsEnabled(opts.gatewayTls)
              && p.host != ""
              && Some(p.host) == ResolveReachableHost(opts.bindHost, env.primaryLanIPv4)
              && p.deepLink == DeepLink(p.host, p.port, p.tls, opts.auth)
              && p.qrImageBase64 == env.renderQrPngBase64(p.deepLink)
  {
    if req.pathname != PairingPath then Run(NotHandled, [])
    else if req.httpMethod != Some("GET") then Run(MethodNotAllowed("GET"), [])
    else if !Admitted(opts, env) then Run(Unauthorized, GateCalls(opts, env))
    else
      var rest := AdmittedRun(opts, env);
      Run(rest.outcome, GateCalls(opts, env) + rest.calls)
  }

  /** The request is trusted-local, or the authoriser answered `ok`. */
  predicate Admitted(opts: Options, env: Collaborators)
    // A trusted-local request passes without the authoriser; any other passes iff the authoriser says ok.
    ensures env.isLocalDirectRequest(opts.trustedProxies) ==> Admitted(opts, env)
    ensures !env.isLocalDirectRequest(opts.trustedProxies) ==>
              (Admitted(opts, env) <==> env.authorize(AuthArgs(opts, env)))
  {
    env.isLocalDirectRequest(opts.trustedProxies) || env.authorize(AuthArgs(opts, env))
  }

  /** The handler after the gate: host resolution, then the payload and its QR rendering. */
  function AdmittedRun(opts: Options, env: Collaborators): (r: Run)
    ensures r.outcome.Ok? || r.outcome == ServerError(HostUnresolvableError)
    ensures forall c :: c in r.calls ==> c == PickPrimaryLanIPv4 || c.RenderQr?
    ensures r.outcome.Ok? ==>
              var p := r.outcome.payload;
              && p.port == opts.port
              && p.tls == TlsEnabled(opts.gatewayTls)
              && p.host != ""
              && Some(p.host) == ResolveReachableHost(opts.bindHost, env.primaryLanIPv4)
              && p.deepLink == DeepLink(p.host, p.port, p.tls, opts.auth)
              && p.qrImageBase64 == env.renderQrPngBase64(p.deepLink)
              && r.calls == LookupCalls(opts.bindHost) + [RenderQr(p.deepLink)]
    ensures r.outcome.ServerError? ==> r.calls == LookupCalls(opts.bindHost)
  {
    var host := ResolveReachableHost(opts.bindHost, env.primaryLanIPv4);
    if !Truthy(host) then Run(ServerError(HostUnresolvableError), LookupCalls(opts.bindHost))
    else
      var tls := TlsEnabled(opts.gatewayTls);
      var link := DeepLink(host.value, opts.port, tls, opts.auth);
      var payload := PairingPayload(link, env.renderQrPngBase64(link), host.value, opts.port, tls);
      Run(Ok(payload), LookupCalls(opts.bindHost) + [RenderQr(link)])
  }

  /** The argument the handler gives the authoriser. */
  function AuthArgs(opts: Options, env: Collaborators): (a: AuthorizeArgs)
    ensures a.auth == opts.auth && a.trustedProxies == opts.trustedProxies
    ensures a.connectAuth.Some? <==> Truthy(env.bearerToken)
    ensures a.connectAuth.Some? ==>
              a.connectAuth.value == ConnectAuth(env.bearerToken.value, env.bearerToken.value)
  {
    AuthorizeArgs(opts.auth, CredentialFor(env.bearerToken), opts.trustedProxies)
  }

  /** The trust check, and for a request that is not local the token read and the authoriser call. */
  function GateCalls(opts: Options, env: Collaborators): seq<Call> {
    [CheckLocal(opts.trustedProxies)]
    + (if env.isLocalDirectRequest(opts.trustedProxies) then [] else [ReadBearerToken, Authorize(AuthArgs(opts, env))])
  }

  /** LAN discovery is consulted for a wildcard bind only. */
  function LookupCalls(bindHost: string): seq<Call> {
    if IsWildcard(bindHost) then [PickPrimaryLanIPv4] else []
  }

  /** The response object, reduced to the replies written to it. */
  class ServerResponse {
    var replies: seq<Outcome>

    constructor ()
      ensures replies == []
    {
      replies := [];
    }

    method Send(o: Outcome)
      requires !o.NotHandled?
      modifies this
      ensures replies == old(replies) + [o]
    {
      replies := replies + [o];
    }
  }

  /** The URLSearchParams of the deep link, filled by successive set() calls; every name is new, so each
      set() appends. */
  method BuildLinkParams(host: string, port: int, tls: bool, auth: AuthConfig)
    returns (params: SearchParams.URLSearchParams)
    ensures fresh(params)
    ensures params.list == LinkParams(host, port, tls, auth)
  {
    params := new SearchParams.URLSearchParams();
    var portText, tlsText := Decimal.IntToString(port), Decimal.BoolToString(tls);
    params.Set("host", host);
    assert "port"[0] != "host"[0];
    SearchParams.SetEntryAppends(params.list, "port", portText);
    params.Set("port", portText);
    SearchParams.SetEntryAppends(params.list, "tls", tlsText);
    params.Set("tls", tlsText);
    assert params.list == FixedParams(host, port, tls);
    SetIfTruthy(params, "token", auth.token);
    SetIfTruthy(params, "password", auth.password);
  }

  /** `if (value) params.set(name, value)` for a name `params` does not have yet. */
  method SetIfTruthy(params: SearchParams.URLSearchParams, name: string, value: Option<string>)
    requires SearchParams.Fresh(params.list, name)
    modifies params
    ensures params.list == old(params.list) + (if Truthy(value) then [(name, value.value)] else [])
  {
    if Truthy(value) {
      SearchParams.SetEntryAppends(params.list, name, value.value);
      params.Set(name, value.value);
    }
  }

  /** The deep link and its QR rendering, with the host, port and TLS flag they carry. */
  method BuildPairingPayload(host: string, port: int, tls: bool, auth: AuthConfig, render: string -> string)
    returns (payload: PairingPayload)
    ensures payload.deepLink == DeepLink(host, port, tls, auth)
    ensures payload == PairingPayload(payload.deepLink, render(payload.deepLink), host, port, tls)
  {
    var params := BuildLinkParams(host, port, tls, auth);
    var deepLink := DeepLinkPrefix + params.ToString();
    var qrImageBase64 := render(deepLink);
    payload := PairingPayload(deepLink, qrImageBase64, host, port, tls);
  }

  /** The handler as the source runs it: early returns, a URLSearchParams filled by successive set()
      calls, one reply written to `res` on the pairing route and none elsewhere. */
  method HandlePairingQrHttpRequest(req: Request, res: ServerResponse, opts: Options, env: Collaborators)
    returns (handled: bool, calls: seq<Call>)
    modifies res
    ensures handled == !Handle(req, opts, env).outcome.NotHandled?
    ensures calls == Handle(req, opts, env).calls
    ensures res.replies == old(res.replies) + (if handled then [Handle(req, opts, env).outcome] else [])
  {
    ghost var run := Handle(req, opts, env);
    calls := [];
    if req.pathname != PairingPath {
      handled := false;
      return;
    }

    if req.httpMethod != Some("GET") {
      res.Send(MethodNotAllowed("GET"));
      handled := true;
      return;
    }

    calls := calls + [CheckLocal(opts.trustedProxies)];
    if !env.isLocalDirectRequest(opts.trustedProxies) {
      calls := calls + [ReadBearerToken];
      var token := env.bearerToken;
      var args := AuthorizeArgs(opts.auth, if Truthy(token) then Some(ConnectAuth(token.value, token.value)) else None,
                                opts.trustedProxies);
      calls := calls + [Authorize(args)];
      var ok := env.authorize(args);
      if !ok {
        assert calls == run.calls;
        res.Send(Unauthorized);
        handled := true;
        return;
      }
    }

    assert calls == GateCalls(opts, env);
    var rest := RespondAdmitted(res, opts, env);
    calls := calls + rest;
    handled := true;
  }

  /** The handler after the gate: resolves the host, then writes the 500 or the 200 with the payload. */
  method RespondAdmitted(res: ServerResponse, opts: Options, env: Collaborators) returns (calls: seq<Call>)
    modifies res
    ensures calls == AdmittedRun(opts, env).calls
    ensures res.replies == old(res.replies) + [AdmittedRun(opts, env).outcome]
  {
    calls := [];
    if IsWildcard(opts.bindHost) {
      calls := calls + [PickPrimaryLanIPv4];
    }
    var host := ResolveReachableHost(opts.bindHost, env.primaryLanIPv4);
    if !Truthy(host) {
      res.Send(ServerError(HostUnresolvableError));
      return;
    }

    var port := opts.port;
    var tls := if opts.gatewayTls.Some? then opts.gatewayTls.value.enabled else false;

    var payload := BuildPairingPayload(host.value, port, tls, opts.auth, env.renderQrPngBase64);
    calls := calls + [RenderQr(payload.deepLink)];
    res.Send(Ok(payload));
  }

  // ---- Properties ----

  /** The bind-host policy, row by row. */
  lemma ResolveReachableHostPolicy(bindHost: string, lanIPv4: Option<string>)
    ensures IsWildcard(bindHost) && lanIPv4.Some? ==> ResolveReachableHost(bindHost, lanIPv4) == lanIPv4
    ensures IsWildcard(bindHost) && lanIPv4.None? ==> ResolveReachableHost(bindHost, lanIPv4) == Some(LoopbackHost)
    ensures IsLoopbackAlias(bindHost) ==> ResolveReachableHost(bindHost, lanIPv4) == Some(LoopbackHost)
    ensures !IsWildcard(bindHost) && !IsLoopbackAlias(bindHost) ==> ResolveReachableHost(bindHost, lanIPv4) == Some(bindHost)
  {
  }

  /** Resolving an advertised address again changes nothing, provided LAN discovery does not itself
      answer with a loopback alias other than 127.0.0.1. */
  lemma ResolveReachableHostIdempotent(bindHost: string, lanIPv4: Option<string>)
    requires lanIPv4.Some? && IsLoopbackAlias(lanIPv4.value) ==> lanIPv4.value == LoopbackHost
    ensures ResolveReachableHost(ResolveReachableHost(bindHost, lanIPv4).value, lanIPv4) == ResolveReachableHost(bindHost, lanIPv4)
  {
  }

  /** The 500 reply happens exactly when the gate was passed and the resolved address is the empty
      string: an empty bind host, or a wildcard bind for which LAN discovery answered "". */
  lemma ServerErrorExactlyOnEmptyHost(req: Request, opts: Options, env: Collaborators)
    ensures Handle(req, opts, env).outcome.ServerError? <==>
              && req.pathname == PairingPath && req.httpMethod == Some("GET")
              && (env.isLocalDirectRequest(opts.trustedProxies) || env.authorize(AuthArgs(opts, env)))
              && (opts.bindHost == "" || (IsWildcard(opts.bindHost) && env.primaryLanIPv4 == Some("")))
  {
    var host := ResolveReachableHost(opts.bindHost, env.primaryLanIPv4);
    assert host.value == "" <==> (opts.bindHost == "" || (IsWildcard(opts.bindHost) && env.primaryLanIPv4 == Some(""))) by {
      if IsWildcard(opts.bindHost) {
        assert opts.bindHost != "";
      } else if IsLoopbackAlias(opts.bindHost) {
        assert host.value == LoopbackHost && opts.bindHost != "";
      }
    }
  }

  /** A trusted-local request reaches payload construction without the bearer token being read or the
      authoriser being called. */
  lemma TrustedLocalSkipsAuthorisation(req: Request, opts: Options, env: Collaborators)
    requires req.pathname == PairingPath && req.httpMethod == Some("GET")
    requires env.isLocalDirectRequest(opts.trustedProxies)
    ensures Handle(req, opts, env).outcome.Ok? || Handle(req, opts, env).outcome.ServerError?
    ensures ReadBearerToken !in Handle(req, opts, env).calls
    ensures forall c :: c in Handle(req, opts, env).calls ==> !c.Authorize?
  {
    var rest := AdmittedRun(opts, env);
    assert Admitted(opts, env) && GateCalls(opts, env) == [CheckLocal(opts.trustedProxies)];
    assert Handle(req, opts, env) == Run(rest.outcome, [CheckLocal(opts.trustedProxies)] + rest.calls);
    assert forall c :: c in rest.calls ==> c == PickPrimaryLanIPv4 || c.RenderQr?;
  }

  /** A request that is not local is authorised exactly once, with the bearer token in both credential
      slots (none when the token is absent or empty); when that fails the reply is 401, and neither LAN
      discovery nor the QR renderer is consulted. */
  lemma RemoteRequestAuthorisedOnce(req: Request, opts: Options, env: Collaborators)
    requires req.pathname == PairingPath && req.httpMethod == Some("GET")
    requires !env.isLocalDirectRequest(opts.trustedProxies)
    ensures Handle(req, opts, env).calls[..3] ==
              [CheckLocal(opts.trustedProxies), ReadBearerToken,
               Authorize(AuthorizeArgs(opts.auth, CredentialFor(env.bearerToken), opts.trustedProxies))]
    ensures forall i :: 3 <= i < |Handle(req, opts, env).calls| ==> !Handle(req, opts, env).calls[i].Authorize?
    ensures !env.authorize(AuthArgs(opts, env)) ==>
              && Handle(req, opts, env).outcome == Unauthorized && Status(Handle(req, opts, env).outcome) == 401
              && |Handle(req, opts, env).calls| == 3
  {
    var gate := GateCalls(opts, env);
    assert gate == [CheckLocal(opts.trustedProxies), ReadBearerToken, Authorize(AuthArgs(opts, env))];
    var calls := Handle(req, opts, env).calls;
    if Admitted(opts, env) {
      var rest := AdmittedRun(opts, env);
      assert calls == gate + rest.calls;
      assert forall c :: c in rest.calls ==> !c.Authorize?;
      NoAuthorizeAfter(gate, rest.calls);
    } else {
      assert calls == gate;
    }
  }

  /** A trace suffix without authoriser calls adds none after the prefix. */
  lemma NoAuthorizeAfter(prefix: seq<Call>, suffix: seq<Call>)
    requires forall c :: c in suffix ==> !c.Authorize?
    ensures forall i :: |prefix| <= i < |prefix + suffix| ==> !(prefix + suffix)[i].Authorize?
  {
    assert forall i :: |prefix| <= i < |prefix + suffix| ==> (prefix + suffix)[i] == suffix[i - |prefix|];
  }

  /** The QR renderer is called only on success, on the very link returned, as the last call. */
  lemma RenderOnlyForPayload(req: Request, opts: Options, env: Collaborators)
    ensures forall c :: c in Handle(req, opts, env).calls && c.RenderQr? ==>
              Handle(req, opts, env).outcome.Ok? && c.uri == Handle(req, opts, env).outcome.payload.deepLink
    ensures Handle(req, opts, env).outcome.Ok? ==>
              var calls := Handle(req, opts, env).calls;
              |calls| > 0 && calls[|calls| - 1] == RenderQr(Handle(req, opts, env).outcome.payload.deepLink)
  {
    if req.pathname == PairingPath && req.httpMethod == Some("GET") {
      var gate := GateCalls(opts, env);
      assert forall c :: c in gate ==> !c.RenderQr?;
      if Admitted(opts, env) {
        AdmittedRunRenders(opts, env);
      }
    }
  }

  lemma AdmittedRunRenders(opts: Options, env: Collaborators)
    ensures var r := AdmittedRun(opts, env);
      forall c :: c in r.calls && c.RenderQr? ==> r.outcome.Ok? && c.uri == r.outcome.payload.deepLink
  {
    var r := AdmittedRun(opts, env);
    var lookup := LookupCalls(opts.bindHost);
    assert forall c :: c in lookup ==> !c.RenderQr?;
  }

  /** The pairing link reads back as its parameters, in insertion order. */
  lemma DeepLinkRoundTrip(host: string, port: int, tls: bool, auth: AuthConfig)
    ensures ParseDeepLink(DeepLink(host, port, tls, auth)) == Some(LinkParams(host, port, tls, auth))
  {
    var link := DeepLink(host, port, tls, auth);
    var query := FormUrlEncoded.Serialize(LinkParams(host, port, tls, auth));
    assert link[..|DeepLinkPrefix|] == DeepLinkPrefix && link[|DeepLinkPrefix|..] == query;
    FormUrlEncoded.ParseSerialize(LinkParams(host, port, tls, auth));
  }

  /** What a reader of the link finds under each name: the host, the port's numeral, the TLS flag, and
      the configured token and password exactly when they are non-empty. */
  lemma LinkParamsLookup(host: string, port: int, tls: bool, auth: AuthConfig)
    ensures var ps := LinkParams(host, port, tls, auth);
      && ps[..3] == [("host", host), ("port", Decimal.IntToString(port)), ("tls", Decimal.BoolToString(tls))]
      && FormUrlEncoded.Get(ps, "host") == Some(host)
      && FormUrlEncoded.Get(ps, "port") == Some(Decimal.IntToString(port))
      && FormUrlEncoded.Get(ps, "tls") == Some(Decimal.BoolToString(tls))
      && FormUrlEncoded.Get(ps, "token") == (if Truthy(auth.token) then auth.token else None)
      && FormUrlEncoded.Get(ps, "password") == (if Truthy(auth.password) then auth.password else None)
  {
    var fixed, secrets := FixedParams(host, port, tls), SecretParams(auth);
    FixedParamsLookup(host, port, tls);
    SecretParamsLookup(auth);
    FormUrlEncoded.GetAppend(fixed, secrets, "host");
    FormUrlEncoded.GetAppend(fixed, secrets, "port");
    FormUrlEncoded.GetAppend(fixed, secrets, "tls");
    FormUrlEncoded.GetAppend(fixed, secrets, "token");
    FormUrlEncoded.GetAppend(fixed, secrets, "password");
  }

  lemma FixedParamsLookup(host: string, port: int, tls: bool)
    ensures var ps := FixedParams(host, port, tls);
      && FormUrlEncoded.Get(ps, "host") == Some(host)
      && FormUrlEncoded.Get(ps, "port") == Some(Decimal.IntToString(port))
      && FormUrlEncoded.Get(ps, "tls") == Some(Decimal.BoolToString(tls))
      && FormUrlEncoded.Get(ps, "token").None? && FormUrlEncoded.Get(ps, "password").None?
  {
    var ps := FixedParams(host, port, tls);
    assert "port"[0] != "host"[0];
    assert ps[1..][1..] == [("tls", Decimal.BoolToString(tls))];
    assert FormUrlEncoded.Get(ps, "tls") == FormUrlEncoded.Get(ps[1..], "tls");
    assert FormUrlEncoded.Get(ps[1..], "tls") == FormUrlEncoded.Get(ps[1..][1..], "tls");
  }

  lemma SecretParamsLookup(auth: AuthConfig)
    ensures var ps := SecretParams(auth);
      && FormUrlEncoded.Get(ps, "token") == (if Truthy(auth.token) then auth.token else None)
      && FormUrlEncoded.Get(ps, "password") == (if Truthy(auth.password) then auth.password else None)
  {
    var tokenPart := if Truthy(auth.token) then [("token", auth.token.value)] else [];
    var passwordPart := if Truthy(auth.password) then [("password", auth.password.value)] else [];
    FormUrlEncoded.GetAppend(tokenPart, passwordPart, "token");
    FormUrlEncoded.GetAppend(tokenPart, passwordPart, "password");
  }

  /** In a 200 reply the payload's host, port and TLS flag are the values the deep link carries, the
      secrets in the link are the configured ones, and the image is the renderer's output for the link. */
  lemma PayloadAgreesWithLink(req: Request, opts: Options, env: Collaborators)
    requires Handle(req, opts, env).outcome.Ok?
    ensures var p := Handle(req, opts, env).outcome.payload;
      && ParseDeepLink(p.deepLink).Some?
      && var ps := ParseDeepLink(p.deepLink).value;
      && FormUrlEncoded.Get(ps, "host") == Some(p.host)
      && FormUrlEncoded.Get(ps, "port").Some?
      && Decimal.ParseInt(FormUrlEncoded.Get(ps, "port").value) == Some(p.port)
      && FormUrlEncoded.Get(ps, "tls") == Some(if p.tls then "true" else "false")
      && FormUrlEncoded.Get(ps, "token") == (if Truthy(opts.auth.token) then opts.auth.token else None)
      && FormUrlEncoded.Get(ps, "password") == (if Truthy(opts.auth.password) then opts.auth.password else None)
      && p.tls == (opts.gatewayTls.Some? && opts.gatewayTls.value.enabled)
      && p.qrImageBase64 == env.renderQrPngBase64(p.deepLink)
  {
    var p := Handle(req, opts, env).outcome.payload;
    DeepLinkRoundTrip(p.host, p.port, p.tls, opts.auth);
    LinkParamsLookup(p.host, p.port, p.tls, opts.auth);
    Decimal.ParseIntToString(p.port);
  }

  /** The golden link: host 127.0.0.1, port 8443, TLS on, a token "abc" and no password give
      openclaw://gateway?host=127.0.0.1&port=8443&tls=true&token=abc. */
  lemma GoldenDeepLink(host: string, port: int, token: string)
    requires host == "127.0.0.1" && port == 8443 && token == "abc"
    ensures DeepLink(host, port, true, AuthConfig(Some(token), None))
            == DeepLinkPrefix + ("host=127.0.0.1" + "&port=8443" + "&tls=true" + "&token=abc")
  {
    var ps := LinkParams(host, port, true, AuthConfig(Some(token), None));
    GoldenParams(host, port, token);
    GoldenQuery(ps);
  }

  lemma GoldenParams(host: string, port: int, token: string)
    requires host == "127.0.0.1" && port == 8443 && token == "abc"
    ensures LinkParams(host, port, true, AuthConfig(Some(token), None))
            == [("host", "127.0.0.1"), ("port", "8443"), ("tls", "true"), ("token", "abc")]
  {
    assert Decimal.IntToString(port) == "8443" by {
      assert Decimal.DigitChar(8) == '8' && Decimal.DigitChar(4) == '4' && Decimal.DigitChar(3) == '3';
      assert Decimal.NatToString(84) == Decimal.NatToString(8) + ['4'];
      assert Decimal.NatToString(844) == Decimal.NatToString(84) + ['4'];
      assert Decimal.NatToString(8443) == Decimal.NatToString(844) + ['3'];
    }
  }

  lemma GoldenQuery(ps: seq<(string, string)>)
    requires ps == [("host", "127.0.0.1"), ("port", "8443"), ("tls", "true"), ("token", "abc")]
    ensures FormUrlEncoded.Serialize(ps) == "host=127.0.0.1" + "&port=8443" + "&tls=true" + "&token=abc"
  {
    GoldenParamsUnreserved(ps);
    FormUrlEncoded.SerializeUnreserved(ps);
    JoinVerbatimFour(ps[0], ps[1], ps[2], ps[3]);
    assert ps == [ps[0], ps[1], ps[2], ps[3]];
    GoldenText(ps[0].0, ps[0].1, ps[1].0, ps[1].1, ps[2].0, ps[2].1, ps[3].0, ps[3].1);
  }

  lemma GoldenParamsUnreserved(ps: seq<(string, string)>)
    requires ps == [("host", "127.0.0.1"), ("port", "8443"), ("tls", "true"), ("token", "abc")]
    ensures forall i :: 0 <= i < |ps| ==>
              FormUrlEncoded.IsUnreservedString(ps[i].0) && FormUrlEncoded.IsUnreservedString(ps[i].1)
  {
  }

  /** Four `name=value` forms joined by `&`, grouped one form at a time. */
  lemma JoinVerbatimFour(a: (string, string), b: (string, string), c: (string, string), d: (string, string))
    ensures FormUrlEncoded.JoinVerbatim([a, b, c, d])
            == (a.0 + "=" + a.1) + ("&" + b.0 + "=" + b.1) + ("&" + c.0 + "=" + c.1) + ("&" + d.0 + "=" + d.1)
  {
    var ps := [a, b, c, d];
    assert ps[1..] == [b, c, d] && ps[1..][1..] == [c, d];
    var dj := d.0 + "=" + d.1;
    var cj := c.0 + "=" + c.1 + "&" + dj;
    var bj := b.0 + "=" + b.1 + "&" + cj;
    assert FormUrlEncoded.JoinVerbatim([c, d]) == cj;
    assert FormUrlEncoded.JoinVerbatim([b, c, d]) == bj;
    assert FormUrlEncoded.JoinVerbatim(ps) == a.0 + "=" + a.1 + "&" + bj;
  }

  /** The golden query text, one `name=value` piece at a time. */
  lemma GoldenText(a0: string, a1: string, b0: string, b1: string, c0: string, c1: string, d0: string, d1: string)
    requires a0 == "host" && a1 == "127.0.0.1" && b0 == "port" && b1 == "8443"
    requires c0 == "tls" && c1 == "true" && d0 == "token" && d1 == "abc"
    ensures (a0 + "=" + a1) + ("&" + b0 + "=" + b1) + ("&" + c0 + "=" + c1) + ("&" + d0 + "=" + d1)
            == "host=127.0.0.1" + "&port=8443" + "&tls=true" + "&token=abc"
  {
    GoldenPiece("", a0, a1, "host=127.0.0.1");
    GoldenPiece("&", b0, b1, "&port=8443");
    GoldenPiece("&", c0, c1, "&tls=true");
    GoldenPiece("&", d0, d1, "&token=abc");
  }

  /** One `name=value` piece of the golden text. A lemma of its own, so that each literal comparison is
      proved apart from the others and stays cheap for the solver. */
  lemma GoldenPiece(lead: string, name: string, value: string, text: string)
    requires text == lead + name + "=" + value
    ensures lead + name + "=" + value == text
  {
  }

  /** A trusted-local GET on a wildcard bind whose LAN address is 10.0.0.7, port 7777, TLS off and no
      secrets configured: 200 with that host, port and flag, and a link of just host, port and tls. */
  lemma LocalWildcardScenario(env: Collaborators)
    requires env.isLocalDirectRequest(None) && env.primaryLanIPv4 == Some("10.0.0.7")
    ensures var r := Handle(Request(PairingPath, Some("GET")), Options(AuthConfig(None, None), None, "0.0.0.0", 7777, None), env);
      && r.outcome.Ok?
      && r.outcome.payload.host == "10.0.0.7" && r.outcome.payload.port == 7777 && !r.outcome.payload.tls
      && r.outcome.payload.deepLink == DeepLink("10.0.0.7", 7777, false, AuthConfig(None, None))
      && ParseDeepLink(r.outcome.payload.deepLink).Some?
      && FormUrlEncoded.Get(ParseDeepLink(r.outcome.payload.deepLink).value, "token").None?
      && FormUrlEncoded.Get(ParseDeepLink(r.outcome.payload.deepLink).value, "password").None?
  {
    var opts := Options(AuthConfig(None, None), None, "0.0.0.0", 7777, None);
    assert ResolveReachableHost(opts.bindHost, env.primaryLanIPv4) == Some("10.0.0.7");
    NoSecretsInLink("10.0.0.7", 7777, false, AuthConfig(None, None));
  }

  /** Without a configured token or password the link carries neither. */
  lemma NoSecretsInLink(host: string, port: int, tls: bool, auth: AuthConfig)
    requires !Truthy(auth.token) && !Truthy(auth.password)
    ensures ParseDeepLink(DeepLink(host, port, tls, auth)).Some?
    ensures FormUrlEncoded.Get(ParseDeepLink(DeepLink(host, port, tls, auth)).value, "token").None?
    ensures FormUrlEncoded.Get(ParseDeepLink(DeepLink(host, port, tls, auth)).value, "password").None?
  {
    DeepLinkRoundTrip(host, port, tls, auth);
    LinkParamsLookup(host, port, tls, auth);
  }
}
