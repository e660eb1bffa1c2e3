# Wildcard-to-US-West Worker, modelled in Dafny

A Cloudflare Worker (`index.js`) proxies every request to a wildcard hostname
to one fixed origin. For each inbound request its `fetch` handler does four things:

1. It derives the origin URL from the configured `BACKEND_BASE` and the inbound URL.
2. It copies the inbound headers, deletes the hop-by-hop ones and adds the
   forwarding headers (`X-Forwarded-Host`, `X-Forwarded-Proto`, `X-Forwarded-Uri`,
   `X-Real-IP`, `X-Worker-Proxy-Secret`).
3. It dispatches the request with manual redirects and an abort deadline.
4. It relays the origin's reply with sanitised headers and two diagnostic
   headers, or answers 502 when the dispatch threw.

The model covers steps 1, 2 and 4 and the configuration defaults. Step 3 is
network I/O, so its result is an input (`Worker.Outcome`).

Files and modules:

- `wrappers.dfy` (`Wrappers`): `Option`.
- `strings.dfy` (`Strings`): ASCII lower-casing, character search, and
  `replace` with a one-character pattern.
- `urls.dfy` (`Urls`): URLs as seen through the WHATWG getters. It holds the
  resolution `new URL(pathname + search, base)` as the code writes it
  (`Resolve`) and the origin URL the code means to build (`BackendUrl`).
- `fetch.dfy` (`Fetch`): the `Headers` object, a class whose `entries` map is
  keyed by lower-cased names and updated in place by `Delete` and `Set`.
  It also holds the opaque body tokens.
- `worker.dfy` (`Worker`): configuration defaults, outbound header
  building, response relay, and the handler.

The header steps are imperative: the methods copy a `Headers` object and mutate it.
Each such method is proved against a declarative specification predicate:

- `ForwardedHeaders` for the outbound header set;
- `RelayedHeaders` for the relayed header set.

Lemmas show that each predicate determines the header set uniquely.
Another lemma shows that the outbound transformation is idempotent.

Header names are compared case-insensitively, as `Headers` does, so the model keys
every header map by the ASCII-lower-cased name. For example, `CF-Connecting-IP`
and `cf-connecting-ip` are the same key.

## Model

| member | source | states |
|---|---|---|
| Urls.Resolve | index.js:27 | `new URL(pathname + search, base)` as written: it keeps the base's scheme. When the reference does not start with `//`, it also keeps the base's host and port. For a `//` reference, it takes the host from the reference, or throws (None) when that host is empty or the port is not numeric |
| Urls.ResolveKeepsTarget | index.js:23-27 | When the inbound pathname does not start with `//`, the resolved URL has the base's scheme, host and port and exactly the inbound pathname and search. The base's path and query and the inbound fragment are dropped |
| Urls.DoubleSlashLosesPath | index.js:26-27 | When the inbound pathname starts with `//`, the resolution throws, or the resolved pathname is shorter than the inbound one |
| Urls.ResolveKeepsTargetIff | index.js:26-27 | Resolution yields the intended origin URL if and only if the inbound pathname does not start with `//` |
| Urls.NetworkPathTakesHost | index.js:27 | An inbound pathname `//h/rest` resolves to host `h`, whatever `BACKEND_BASE` says |
| Urls.EvilDotComExample | index.js:27 | `https://a.example.net//evil.com/x` is sent to `https://evil.com/x` |
| Urls.SlashesOnlyThrows | index.js:27 | An inbound pathname made only of slashes (`//`, `///`, ...) leaves no host, so `new URL` throws |
| Urls.BackendUrl | index.js:24-27 | Corrected derivation: scheme, host and port are the base's; pathname and search are the inbound ones; there is no fragment |
| Urls.Host | index.js:99 | The `host` getter begins with the hostname, and equals it exactly when the port is the default (empty) |
| Urls.HostSplitsBack | index.js:99 | For a hostname without a colon, splitting `host` at its first colon gives back the hostname and the port |
| Strings.RemoveFirst | index.js:43 | `replace(":", "")` with a string pattern: unchanged when there is no colon, otherwise the string without its first colon, the one before which no colon occurs |
| Urls.ForwardedProtoIsScheme | index.js:43 | `protocol.replace(":", "")` is the bare scheme (`https:` becomes `https`) |
| Strings.Lower | index.js:31 | Header-name normalisation lower-cases each ASCII letter and keeps the length |
| Strings.LowerIsLower | index.js:31 | Lower-casing is idempotent, so stored names stay normalised |
| Strings.LowerOfLower | index.js:48 | A name that is already lower-case is its own normalised form |
| Fetch.Lookup | index.js:48 | `headers.get(name)`, for a name in any letter case, finds a value exactly when the lower-cased name is present, and returns the value stored under it |
| Fetch.LookupIgnoresCase | index.js:48 | Two names that differ only in letter case (`CF-Connecting-IP`, `cf-connecting-ip`) look up the same value |
| Fetch.Headers.constructor | index.js:31 | `new Headers(init)` holds exactly the entries of `init` |
| Fetch.Headers.Delete | index.js:35-39 | `delete` removes the lower-cased name and leaves every other entry as it was |
| Fetch.Headers.Set | index.js:42-54 | `set` maps the lower-cased name to the value, replacing any earlier value, and leaves every other entry as it was |
| Worker.BackendBase | index.js:18 | `BACKEND_BASE` when it is set and non-empty, else `https://us-west.example.com` |
| Worker.OriginTimeout | index.js:21 | 8000 ms when `ORIGIN_TIMEOUT_MS` is unset or empty. A decimal numeral of at most 2^53 gives its exact value. Any other text, including a larger numeral that a double would round, is left as `Number(text)` |
| Worker.HopByHopSpellings | index.js:35-39 | The five deleted names are already in normalised form |
| Worker.ForwardedSpellings | index.js:42-54 | The names the outbound step reads and sets normalise to the keys `ForwardedHeaders` speaks of |
| Worker.DiagnosticSpellings | index.js:99-100 | `X-Proxy-Origin` and `X-Proxy-Worker` normalise to the keys `RelayedHeaders` speaks of |
| Worker.NameFacts | index.js:35-54 | No name the Worker sets is a hop-by-hop name, so no later step re-adds one |
| Worker.DeleteHopByHop | index.js:35-39 | After the five deletes, the header set is the old one minus `connection`, `keep-alive`, `proxy-connection`, `transfer-encoding` and `upgrade` |
| Worker.OutboundHeaders | index.js:31-55 | The outbound headers meet `ForwardedHeaders`: see the list after this table. `X-Forwarded-Proto` is the bare scheme |
| Worker.StepsMeetForwardedHeaders | index.js:35-55 | The delete and set steps, taken in source order, meet `ForwardedHeaders` |
| Worker.ForwardedHeadersUnique | index.js:31-55 | `ForwardedHeaders` determines the outbound header set completely |
| Worker.ForwardedHeadersIdempotent | index.js:31-55 | Headers that already went through the Worker come through again unchanged |
| Worker.ResponseHeaders | index.js:91-100 | The relayed headers meet `RelayedHeaders`: see the list after this table |
| Worker.RelayedHeadersUnique | index.js:91-100 | `RelayedHeaders` determines the relayed header set completely |
| Worker.BadGateway | index.js:80-84 | A failed dispatch gets status 502 and an empty status text. Its body is `Bad Gateway: failed to reach origin (US-West). ` followed by the error's text. Its only header is the content type a string body gets |
| Worker.NewResponse | index.js:102-106 | The `Response` constructor returns a response only for a status in 200..599 that may carry the given body. That response has the given body, status, status text and headers |
| Worker.Relay | index.js:80-106 | On `Err`, the result is the 502 response. On `Ok`, the origin's status, status text and body are relayed unchanged, including a 3xx, and the headers meet `RelayedHeaders`; this happens exactly when the `Response` constructor accepts the status and body |
| Worker.Forward | index.js:23-71 | The origin request has the base's scheme and host and the inbound path and query. It keeps the inbound method and body (the same reference) and uses manual redirects and the configured deadline. Its headers meet `ForwardedHeaders` |
| Worker.ForwardAsWritten | index.js:27-71 | The origin request with the URL as line 27 resolves it: none when `new URL` throws (before the `try`, so the handler throws), otherwise the resolved URL with `ForwardedHeaders`, the inbound method and body, manual redirects and the deadline. Its URL is `Forward`'s exactly when the pathname does not start with `//` |
| Worker.SecretFollowsPathHost | index.js:27-54 | As written, an inbound pathname `//h/rest` resolves to host `h`, and the configured `ORIGIN_SECRET` is among the headers sent there |
| Worker.Handle | index.js:14-107 | One request with the base that `BACKEND_BASE` or its default names: the origin request has the base's scheme and host, the inbound path and query, `ForwardedHeaders`, the inbound method and body, manual redirects and the configured deadline; the caller gets the 502 `BadGateway` on a failed dispatch, and otherwise the origin's status, status text, body and `RelayedHeaders` exactly when the `Response` constructor accepts them |

`ForwardedHeaders` requires all of the following of the outbound header set:

- No hop-by-hop name is present.
- `X-Forwarded-Host` is the inbound hostname.
- `X-Forwarded-Proto` is the inbound protocol with its colon removed.
- `X-Forwarded-Uri` is the inbound path and query.
- `X-Real-IP` is the `CF-Connecting-IP` value when that value is non-empty.
  Otherwise the inbound `X-Real-IP` passes through, present or absent.
- `X-Worker-Proxy-Secret` is `ORIGIN_SECRET` when that is non-empty.
  Otherwise the inbound entry passes through, present or absent.
- Every other inbound header keeps its value.
- No other name appears.

`RelayedHeaders` requires all of the following of the relayed header set:

- No hop-by-hop name is present.
- `X-Proxy-Origin` is the base URL's `host`, including any port.
- `X-Proxy-Worker` is `wildcard-to-usw`.
- Every other origin header keeps its value.
- No other name appears.

## Findings

| source | as written | input that shows it | evidently intended | confidence | as-written member | corrected member |
|---|---|---|---|---|---|---|
| index.js:26-27 | `new URL(incomingUrl.pathname + incomingUrl.search, backendBaseUrl)` reads a pathname that starts with `//` as a network-path reference, so the host comes from the path | `https://a.example.net//evil.com/x` is dispatched to `https://evil.com/x`, with `X-Worker-Proxy-Secret` among its headers | the comment at line 26: keep the base's origin and the inbound path and query exactly | high (follows from the URL standard's resolution); not executed | Worker.SecretFollowsPathHost | Urls.BackendUrl |

The as-written derivation is `Urls.Resolve`, and `Worker.ForwardAsWritten` builds the
origin request with it. These members describe its behaviour:

- `Urls.NetworkPathTakesHost` and `Urls.EvilDotComExample` exhibit the discrepancy.
- `Worker.SecretFollowsPathHost` shows that the proxy secret goes to the host taken from
  the path.
- `Urls.SlashesOnlyThrows` shows that `//` alone makes line 27 throw, outside the `try`.
- `Urls.ResolveKeepsTargetIff` shows that `Resolve` and `BackendUrl` agree exactly on
  pathnames that do not start with `//`.

`Worker.Forward` uses the corrected `Urls.BackendUrl`, whose contract states the intended
property (the base's scheme, host and port with the inbound path and query). In JavaScript this fix means
copying the base URL and assigning `pathname` and `search`.

## Left out

- The `fetch` call, its `cf` options and the network dispatch (index.js:74-79). These are
  foreign I/O. Their result is the input `Worker.Outcome`, with `Err` carrying `String(err)`.
- `AbortController`, `setTimeout` and `clearTimeout` (index.js:59-60, 86). These are timers
  and cancellation. Only the deadline value (`Worker.OriginTimeout`) is modelled. A timeout
  reaches `Relay` as an `Err` like any other failure.
- Body streaming (index.js:68, 102). The body is never read, so it is the opaque token
  `Fetch.Body`, and only its identity is tracked.
- WHATWG parsing of `request.url` and of `BACKEND_BASE` (index.js:23-24). The parsed URLs are
  inputs. `Worker.Handle` requires `base` to be the parsed default when `BACKEND_BASE` is
  unset or empty; a configured value is not parsed, so `base` is not tied to it.
- Worker.OriginTimeout: `Number(text)` is modelled only for plain decimal numerals of at most
  2^53, which a double holds exactly. A larger numeral, which `Number` rounds or turns into
  `Infinity`, and any other text (whitespace, signs, hexadecimal, exponents) is kept as
  `NumberOf(text)`. How the timer treats a very large delay is left out with the timers.
- Worker.Forward: it derives the URL with the corrected `Urls.BackendUrl`, not as index.js:27
  does. As written, a pathname `//h/rest` sends the request, with the proxy secret, to host `h`
  (`Worker.ForwardAsWritten`, `Worker.SecretFollowsPathHost`). A pathname such as `//`, `//u@`
  or `//h:ab` makes line 27 throw outside the `try`, so the handler itself throws. `Forward`
  and `Handle` model neither.
- Urls.Resolve: userinfo before the last `@` of a network-path authority becomes the URL's
  username and password. `new Request` (index.js:65) then throws a TypeError for a URL with
  credentials, so such a request takes the 502 path; the model drops the credentials and
  does not capture that 502. IPv4 host parsing is left out: `//1/x` gives host `0.0.0.1`, and
  `//a.1/x` fails to parse, but the model keeps `1` and accepts `a.1` as written.
- Urls.Resolve: a host taken from a network-path reference is not canonicalised. Lower-casing,
  IDNA, percent-decoding, IPv6 literals and forbidden code points are left out. The port is
  only checked to be numeric: range checks, leading zeros and default-port elision are left
  out. Dot-segment removal is left out because pathnames from the URL parser have no dot
  segments.
- Fetch.Headers.Set: `Headers.set` trims surrounding whitespace and throws on invalid names or
  values. The model stores values as given. There is one value per name, since the code only
  uses `get`, `set` and `delete`.
- Worker.NewResponse: status-text validation is left out. The origin's status text comes from
  a parsed response line.
- Worker.Handle: it carries `Worker.Relay`'s contract in full. Of `Worker.Forward`'s it carries
  the host, the path and query, the headers, the method, the body, the redirect mode and the
  deadline, not the port and hostname separately. Exceptions thrown outside the `try` block are modelled only for the `Response` constructor (`Completion.Threw`), because
  the corrected URL derivation cannot fail.
- The handler's `ctx` argument is not modelled because the code never uses it.
- The "rewrite-origin" routing policy (forced Host/Referer, redirect-follow, no deadline) is
  not part of `index.js` and is not modelled.
- The code has no 500 path: anything thrown inside its `try` block becomes the 502 response,
  and the model has no other error status either.
