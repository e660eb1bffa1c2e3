/**
 * The Worker's `fetch` handler: it derives the origin URL from the configured
 * base and the inbound URL, rewrites the inbound headers for the origin, and
 * relays the origin's reply (or a 502 when the dispatch fails) to the caller.
 * The dispatch itself is not modelled: its result is an input of `Relay`.
 */
module Worker {
  import opened Wrappers
  import opened Strings
  import opened Urls
  import opened Fetch

  // Configuration defaults.

  const DefaultBackendBase := "https://us-west.example.com"
  /** `new URL(DefaultBackendBase)`. */
  const DefaultBaseUrl := Url("https", "us-west.example.com", "", "/", "", "")
  const DefaultTimeoutMs := 8000

  /** The Worker's environment bindings; each may be unset. */
  datatype Env = Env(backendBase: Option<string>, originTimeoutMs: Option<string>, originSecret: Option<string>)

  /** `env.BACKEND_BASE || "https://us-west.example.com"`. */
  function BackendBase(configured: Option<string>): (base: string)
    ensures Truthy(configured) ==> base == configured.value
    ensures !Truthy(configured) ==> base == DefaultBackendBase
  {
    if Truthy(configured) then configured.value else DefaultBackendBase
  }

  /**
   * Every integer up to 2^53 is exactly a double; a larger numeral is rounded
   * by `Number`.
   */
  const MaxExactMs := 9007199254740992

  /**
   * The abort deadline: a number of milliseconds, or `Number(text)` for a
   * configured text that is not a plain decimal numeral of at most 2^53.
   */
  datatype Timeout = Millis(ms: nat) | NumberOf(text: string)

  /** `Number(env.ORIGIN_TIMEOUT_MS || 8000)`. */
  function OriginTimeout(configured: Option<string>): (t: Timeout)
    ensures !Truthy(configured) ==> t == Millis(DefaultTimeoutMs)
    ensures Truthy(configured) && AllDigits(configured.value) && DecimalValue(configured.value) <= MaxExactMs
            ==> t == Millis(DecimalValue(configured.value))
    ensures t.Millis? ==> t.ms <= MaxExactMs
    ensures t.NumberOf? ==> Truthy(configured) && t.text == configured.value
  {
    if !Truthy(configured) then Millis(DefaultTimeoutMs)
    else if AllDigits(configured.value) && DecimalValue(configured.value) <= MaxExactMs then
      Millis(DecimalValue(configured.value))
    else NumberOf(configured.value)
  }

  // Header names, in the lower-cased form a `Headers` object stores them in.

  /** The hop-by-hop headers removed in both directions. */
  const HopByHop: set<string> := {"connection", "keep-alive", "proxy-connection", "transfer-encoding", "upgrade"}

  const ConnectingIp := "cf-connecting-ip"
  const ForwardedHost := "x-forwarded-host"
  const ForwardedProto := "x-forwarded-proto"
  const ForwardedUri := "x-forwarded-uri"
  const RealIp := "x-real-ip"
  const ProxySecret := "x-worker-proxy-secret"
  /** Every name the Worker may set on the outbound request. */
  const Forwarded: set<string> := {ForwardedHost, ForwardedProto, ForwardedUri, RealIp, ProxySecret}

  const ProxyOrigin := "x-proxy-origin"
  const ProxyWorker := "x-proxy-worker"
  const WorkerTag := "wildcard-to-usw"
  /** The names the Worker sets on the relayed response. */
  const Diagnostic: set<string> := {ProxyOrigin, ProxyWorker}

  /** The names the Worker sets never collide with the hop-by-hop names it deletes. */
  lemma NameFacts()
    ensures Forwarded !! HopByHop && Diagnostic !! HopByHop
    ensures ConnectingIp !in HopByHop && ConnectingIp !in Forwarded
    ensures forall n :: n in Forwarded ==> IsLower(n)
    ensures forall n :: n in Diagnostic ==> IsLower(n)
  {
  }

  // The names as the source spells them, normalised the way `Headers` stores them.

  lemma HopByHopSpellings()
    ensures Lower("connection") == "connection" && Lower("keep-alive") == "keep-alive"
    ensures Lower("proxy-connection") == "proxy-connection"
    ensures Lower("transfer-encoding") == "transfer-encoding" && Lower("upgrade") == "upgrade"
  {
  }

  lemma ForwardedSpellings()
    ensures Lower("CF-Connecting-IP") == ConnectingIp
    ensures Lower("X-Forwarded-Host") == ForwardedHost && Lower("X-Forwarded-Proto") == ForwardedProto
    ensures Lower("X-Forwarded-Uri") == ForwardedUri && Lower("X-Real-IP") == RealIp
    ensures Lower("X-Worker-Proxy-Secret") == ProxySecret
  {
  }

  lemma DiagnosticSpellings()
    ensures Lower("X-Proxy-Origin") == ProxyOrigin && Lower("X-Proxy-Worker") == ProxyWorker
  {
  }

  // Outbound request.

  /**
   * `name` holds `v` when `v` is truthy; otherwise the inbound entry for
   * `name`, present or absent, passes through untouched.
   */
  predicate SetOrPassed(inbound: map<string, string>, out: map<string, string>, name: string, v: Option<string>)
  {
    if Truthy(v) then name in out && out[name] == v.value
    else (name in out <==> name in inbound) && (name in inbound ==> out[name] == inbound[name])
  }

  /** What the outbound header set must be, given the inbound one. */
  predicate ForwardedHeaders(inbound: map<string, string>, incoming: Url, secret: Option<string>,
                             out: map<string, string>)
    requires LowerKeys(inbound)
  {
    && LowerKeys(out)
    && out.Keys !! HopByHop
    && ForwardedHost in out && out[ForwardedHost] == incoming.hostname
    && ForwardedProto in out && out[ForwardedProto] == RemoveFirst(Protocol(incoming), ':')
    && ForwardedUri in out && out[ForwardedUri] == PathAndQuery(incoming)
    && SetOrPassed(inbound, out, RealIp, Lookup(inbound, ConnectingIp))
    && SetOrPassed(inbound, out, ProxySecret, secret)
    && (forall k :: k in inbound && k !in HopByHop && k !in Forwarded ==> k in out && out[k] == inbound[k])
    && (forall k :: k in out ==> k in inbound || k in Forwarded)
  }

  /** The five `delete` calls both directions make on a copied header set. */
  method DeleteHopByHop(headers: Headers)
    requires headers.Valid()
    modifies headers
    ensures headers.Valid()
    ensures headers.entries == old(headers.entries) - HopByHop
  {
    HopByHopSpellings();
    headers.Delete("connection");
    headers.Delete("keep-alive");
    headers.Delete("proxy-connection");
    headers.Delete("transfer-encoding");
    headers.Delete("upgrade");
  }

  /**
   * Copies the inbound headers, deletes the hop-by-hop ones and sets the
   * forwarding headers, `X-Real-IP` when `CF-Connecting-IP` is truthy and the
   * proxy secret when it is configured.
   */
  method OutboundHeaders(inbound: map<string, string>, incoming: Url, originSecret: Option<string>)
    returns (out: map<string, string>)
    requires LowerKeys(inbound)
    ensures ForwardedHeaders(inbound, incoming, originSecret, out)
    ensures ':' !in incoming.scheme ==> out[ForwardedProto] == incoming.scheme
  {
    ForwardedSpellings();
    var headers := new Headers(inbound);
    DeleteHopByHop(headers);

    headers.Set("X-Forwarded-Host", incoming.hostname);
    headers.Set("X-Forwarded-Proto", RemoveFirst(Protocol(incoming), ':'));
    headers.Set("X-Forwarded-Uri", PathAndQuery(incoming));
    ghost var forwarding := headers.entries;

    var cfConnectingIp := Lookup(inbound, "CF-Connecting-IP");
    if Truthy(cfConnectingIp) {
      headers.Set("X-Real-IP", cfConnectingIp.value);
    }
    ghost var withIp := headers.entries;
    if Truthy(originSecret) {
      headers.Set("X-Worker-Proxy-Secret", originSecret.value);
    }
    out := headers.entries;
    StepsMeetForwardedHeaders(inbound, incoming, originSecret, forwarding, withIp, out);
    if ':' !in incoming.scheme {
      ForwardedProtoIsScheme(incoming);
    }
  }

  /** The delete and set steps of `OutboundHeaders`, taken in order, meet `ForwardedHeaders`. */
  lemma StepsMeetForwardedHeaders(inbound: map<string, string>, incoming: Url, secret: Option<string>,
                                  forwarding: map<string, string>, withIp: map<string, string>,
                                  out: map<string, string>)
    requires LowerKeys(inbound)
    requires forwarding == (inbound - HopByHop)[ForwardedHost := incoming.hostname]
      [ForwardedProto := RemoveFirst(Protocol(incoming), ':')][ForwardedUri := PathAndQuery(incoming)]
    requires var ip := Lookup(inbound, ConnectingIp);
      withIp == if Truthy(ip) then forwarding[RealIp := ip.value] else forwarding
    requires out == if Truthy(secret) then withIp[ProxySecret := secret.value] else withIp
    ensures ForwardedHeaders(inbound, incoming, secret, out)
  {
    NameFacts();
  }

  /** `ForwardedHeaders` pins the outbound header set down completely: nothing else may change. */
  lemma ForwardedHeadersUnique(inbound: map<string, string>, incoming: Url, secret: Option<string>,
                               out1: map<string, string>, out2: map<string, string>)
    requires LowerKeys(inbound)
    requires ForwardedHeaders(inbound, incoming, secret, out1)
    requires ForwardedHeaders(inbound, incoming, secret, out2)
    ensures out1 == out2
  {
  }

  /**
   * A request whose headers already went through the Worker comes out of it
   * again unchanged: the transformation is idempotent.
   */
  lemma ForwardedHeadersIdempotent(inbound: map<string, string>, incoming: Url, secret: Option<string>,
                                   out: map<string, string>)
    requires LowerKeys(inbound)
    requires ForwardedHeaders(inbound, incoming, secret, out)
    ensures ForwardedHeaders(out, incoming, secret, out)
  {
  }

  // Response relay.

  /** What the relayed response's header set must be, given the origin's. */
  predicate RelayedHeaders(origin: map<string, string>, base: Url, out: map<string, string>)
  {
    && LowerKeys(out)
    && out.Keys !! HopByHop
    && ProxyOrigin in out && out[ProxyOrigin] == Host(base)
    && ProxyWorker in out && out[ProxyWorker] == WorkerTag
    && (forall k :: k in origin && k !in HopByHop && k !in Diagnostic ==> k in out && out[k] == origin[k])
    && (forall k :: k in out ==> k in origin || k in Diagnostic)
  }

  /**
   * Copies the origin's headers, deletes the hop-by-hop ones and sets the two
   * diagnostic headers naming the origin host and the Worker.
   */
  method ResponseHeaders(origin: map<string, string>, base: Url) returns (out: map<string, string>)
    requires LowerKeys(origin)
    ensures RelayedHeaders(origin, base, out)
  {
    DiagnosticSpellings();
    var outHeaders := new Headers(origin);
    DeleteHopByHop(outHeaders);
    outHeaders.Set("X-Proxy-Origin", Host(base));
    outHeaders.Set("X-Proxy-Worker", WorkerTag);
    out := outHeaders.entries;
    NameFacts();
  }

  /** `RelayedHeaders` pins the relayed header set down completely. */
  lemma RelayedHeadersUnique(origin: map<string, string>, base: Url,
                             out1: map<string, string>, out2: map<string, string>)
    requires RelayedHeaders(origin, base, out1) && RelayedHeaders(origin, base, out2)
    ensures out1 == out2
  {
  }

  const BadGatewayPrefix := "Bad Gateway: failed to reach origin (US-West). "
  /** The header a `Response` built from a string gets. */
  const ContentType := "content-type"
  const TextPlain := "text/plain;charset=UTF-8"

  /** What the dispatch produced: the origin's reply, or the message of what it threw. */
  datatype Outcome =
    | Ok(status: int, statusText: string, headers: map<string, string>, body: Body)
    | Err(message: string)

  datatype Content = Passthrough(body: Body) | Text(text: string)

  datatype Response = Response(status: int, statusText: string, headers: map<string, string>, content: Content)

  /** The handler either returns a response or throws out of it. */
  datatype Completion = Returned(response: Response) | Threw(error: string)

  /** `new Response(message, { status: 502 })` for a dispatch that threw. */
  function BadGateway(message: string): (r: Response)
    ensures r.status == 502 && r.statusText == ""
    ensures r.content.Text? && BadGatewayPrefix <= r.content.text
    ensures r.content.text[|BadGatewayPrefix|..] == message
    ensures r.headers.Keys == {ContentType}
  {
    Response(502, "", map[ContentType := TextPlain], Text(BadGatewayPrefix + message))
  }

  /** Statuses whose responses may not carry a body. */
  predicate NullBodyStatus(status: int)
  {
    status == 101 || status == 103 || status == 204 || status == 205 || status == 304
  }

  /**
   * `new Response(body, { status, statusText, headers })`: the constructor
   * throws a RangeError for a status outside 200..599 and a TypeError for a
   * body on a null-body status.
   */
  function NewResponse(body: Body, status: int, statusText: string, headers: map<string, string>): (c: Completion)
    ensures c.Returned? <==> 200 <= status <= 599 && (body == NoBody || !NullBodyStatus(status))
    ensures c.Returned? ==> c.response.content == Passthrough(body)
    ensures c.Returned? ==> c.response.status == status && c.response.statusText == statusText
    ensures c.Returned? ==> c.response.headers == headers
  {
    if !(200 <= status <= 599) then Threw("RangeError")
    else if body != NoBody && NullBodyStatus(status) then Threw("TypeError")
    else Returned(Response(status, statusText, headers, Passthrough(body)))
  }

  /**
   * Turns the dispatch's outcome into what the caller receives: a 502 when it
   * threw, otherwise the origin's status, status text and body with sanitised
   * headers. A redirect is relayed like any other status.
   */
  method Relay(outcome: Outcome, base: Url) returns (c: Completion)
    requires outcome.Ok? ==> LowerKeys(outcome.headers)
    ensures outcome.Err? ==> c == Returned(BadGateway(outcome.message))
    ensures outcome.Ok? ==>
      (c.Returned? <==> 200 <= outcome.status <= 599 && (outcome.body == NoBody || !NullBodyStatus(outcome.status)))
    ensures outcome.Ok? && c.Returned? ==>
      && c.response.status == outcome.status
      && c.response.statusText == outcome.statusText
      && c.response.content == Passthrough(outcome.body)
      && RelayedHeaders(outcome.headers, base, c.response.headers)
  {
    match outcome
    case Err(message) =>
      c := Returned(BadGateway(message));
    case Ok(status, statusText, headers, body) =>
      var outHeaders := ResponseHeaders(headers, base);
      c := NewResponse(body, status, statusText, outHeaders);
  }

  // The handler.

  /** The inbound request: its method (`verb`), parsed URL, headers and body. */
  datatype Request = Request(verb: string, url: Url, headers: map<string, string>, body: Body)

  /** The Fetch redirect modes; the Worker uses `Manual`. */
  datatype RedirectMode = Follow | Error | Manual

  /** The request the Worker dispatches to the origin. */
  datatype OutboundRequest = OutboundRequest(url: Url, verb: string, headers: map<string, string>,
                                             body: Body, redirect: RedirectMode, timeout: Timeout)

  /**
   * Builds the origin request from the inbound one: the origin URL, the same
   * method and body, the rewritten headers, manual redirects and the abort
   * deadline. `base` is the parsed `BackendBase(env.backendBase)`.
   */
  method Forward(req: Request, env: Env, base: Url) returns (out: OutboundRequest)
    requires LowerKeys(req.headers)
    ensures out.url.scheme == base.scheme && Host(out.url) == Host(base)
    ensures PathAndQuery(out.url) == PathAndQuery(req.url) && out.url.hash == ""
    ensures out.verb == req.verb && out.body == req.body && out.redirect == Manual
    ensures out.timeout == OriginTimeout(env.originTimeoutMs)
    ensures ForwardedHeaders(req.headers, req.url, env.originSecret, out.headers)
  {
    var backendUrl := BackendUrl(req.url, base);
    var headers := OutboundHeaders(req.headers, req.url, env.originSecret);
    out := OutboundRequest(backendUrl, req.verb, headers, req.body, Manual, OriginTimeout(env.originTimeoutMs));
  }

  /**
   * The origin request exactly as index.js:27 derives its URL: the inbound
   * path and query resolved against the base as a URL reference. `None` is
   * the exception `new URL` throws there; the line lies before the `try`
   * block, so the exception leaves the handler and no header is built.
   * Where the pathname does not start with `//`, this is `Forward`'s request.
   */
  method ForwardAsWritten(req: Request, env: Env, base: Url) returns (out: Option<OutboundRequest>)
    requires LowerKeys(req.headers)
    requires ValidUrl(req.url) && IsHttp(base.scheme)
    ensures out.None? <==> Resolve(PathAndQuery(req.url), base).None?
    ensures out.Some? ==> out.value.url == Resolve(PathAndQuery(req.url), base).value
    ensures out.Some? ==> ForwardedHeaders(req.headers, req.url, env.originSecret, out.value.headers)
    ensures out.Some? ==> out.value.verb == req.verb && out.value.body == req.body && out.value.redirect == Manual
    ensures out.Some? ==> out.value.timeout == OriginTimeout(env.originTimeoutMs)
    ensures (out.Some? && out.value.url == BackendUrl(req.url, base)) <==> !StartsWithDoubleSlash(req.url.pathname)
  {
    ResolveKeepsTargetIff(req.url, base);
    var target := Resolve(PathAndQuery(req.url), base);
    if target.None? {
      return None;
    }
    var headers := OutboundHeaders(req.headers, req.url, env.originSecret);
    out := Some(OutboundRequest(target.value, req.verb, headers, req.body, Manual, OriginTimeout(env.originTimeoutMs)));
  }

  /**
   * As written, an inbound pathname `//h/rest` sends the request to host `h`
   * and, when a secret is configured, sends the origin secret along with it.
   */
  lemma SecretFollowsPathHost(req: Request, env: Env, base: Url, h: string, rest: string, headers: map<string, string>)
    requires LowerKeys(req.headers)
    requires ValidUrl(req.url) && IsHttp(base.scheme)
    requires h != [] && forall i :: 0 <= i < |h| ==> h[i] !in {'/', '?', '@', ':'}
    requires rest == [] || rest[0] == '/'
    requires req.url.pathname == "//" + h + rest
    requires Truthy(env.originSecret)
    requires ForwardedHeaders(req.headers, req.url, env.originSecret, headers)
    ensures Resolve(PathAndQuery(req.url), base).Some?
    ensures Resolve(PathAndQuery(req.url), base).value.hostname == h
    ensures ProxySecret in headers && headers[ProxySecret] == env.originSecret.value
  {
    NetworkPathTakesHost(req.url, base, h, rest);
  }

  /**
   * The `fetch` handler for one request: the origin request it dispatches and
   * what the caller receives, given `reply`, the dispatch's outcome.
   */
  method Handle(req: Request, env: Env, base: Url, reply: Outcome) returns (sent: OutboundRequest, c: Completion)
    requires LowerKeys(req.headers)
    requires !Truthy(env.backendBase) ==> base == DefaultBaseUrl
    requires reply.Ok? ==> LowerKeys(reply.headers)
    ensures ForwardedHeaders(req.headers, req.url, env.originSecret, sent.headers)
    ensures Host(sent.url) == Host(base) && PathAndQuery(sent.url) == PathAndQuery(req.url)
    ensures sent.url.scheme == base.scheme && sent.url.hash == ""
    ensures sent.verb == req.verb && sent.body == req.body && sent.redirect == Manual
    ensures sent.timeout == OriginTimeout(env.originTimeoutMs)
    ensures reply.Err? ==> c == Returned(BadGateway(reply.message))
    ensures reply.Ok? ==>
      (c.Returned? <==> 200 <= reply.status <= 599 && (reply.body == NoBody || !NullBodyStatus(reply.status)))
    ensures reply.Ok? && c.Returned? ==>
      && c.response.status == reply.status
      && c.response.statusText == reply.statusText
      && c.response.content == Passthrough(reply.body)
      && RelayedHeaders(reply.headers, base, c.response.headers)
  {
    sent := Forward(req, env, base);
    c := Relay(reply, base);
  }
}
