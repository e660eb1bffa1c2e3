/**
 * URLs as the Worker sees them through the WHATWG URL getters, and the
 * resolution `new URL(pathname + search, base)` that derives the origin URL.
 */
module Urls {
  import opened Wrappers
  import opened Strings

  /**
   * A parsed URL by its getters: `scheme` is `protocol` without the colon,
   * `port` is "" for the scheme's default port, `search` is "" or "?" followed
   * by a non-empty query, `hash` is "" or "#" followed by the fragment.
   */
  datatype Url = Url(scheme: string, hostname: string, port: string,
                     pathname: string, search: string, hash: string)

  /** The special schemes the model resolves against: the origin base is taken to be an http or https URL. */
  predicate IsHttp(scheme: string)
  {
    scheme == "http" || scheme == "https"
  }

  /**
   * A pathname produced by the URL parser for an http(s) URL: it starts with a
   * slash and holds no '?', '#' or '\' (the parser percent-encodes or converts
   * them). It also holds no dot segments, which is why resolution below keeps
   * paths verbatim instead of running dot-segment removal on them.
   */
  predicate ValidPath(p: string)
  {
    |p| > 0 && p[0] == '/' && '?' !in p && '#' !in p && '\\' !in p
  }

  predicate ValidSearch(s: string)
  {
    s == "" || (|s| >= 2 && s[0] == '?' && '#' !in s)
  }

  /** The shape of an inbound `request.url` once parsed. */
  predicate ValidUrl(u: Url)
  {
    && IsHttp(u.scheme)
    && u.hostname != ""
    && ValidPath(u.pathname)
    && ValidSearch(u.search)
  }

  /** The `protocol` getter: the scheme followed by a colon. */
  function Protocol(u: Url): string
  {
    u.scheme + ":"
  }

  /** The `host` getter: hostname, and the port after a colon when it is not the default. */
  function Host(u: Url): (h: string)
    ensures |h| >= |u.hostname| && h[..|u.hostname|] == u.hostname
    ensures u.port == "" <==> h == u.hostname
  {
    if u.port == "" then u.hostname else u.hostname + ":" + u.port
  }

  /**
   * The `host` value splits back into hostname and port at its first colon,
   * as the authority of a URL is split, when the hostname has no colon.
   */
  lemma HostSplitsBack(u: Url)
    requires ':' !in u.hostname
    ensures var c := IndexOf(Host(u), {':'});
      Host(u)[..c] == u.hostname && (if c < |Host(u)| then Host(u)[c + 1..] else "") == u.port
  {
    var h := Host(u);
    var n := |u.hostname|;
    assert forall i :: 0 <= i < n ==> h[i] == u.hostname[i];
    IndexOfAt(h, {':'}, n);
  }

  /** The relative reference the Worker builds: `pathname + search`. */
  function PathAndQuery(u: Url): string
  {
    u.pathname + u.search
  }

  predicate StartsWithDoubleSlash(p: string)
  {
    |p| >= 2 && p[0] == '/' && p[1] == '/'
  }

  /** `protocol.replace(":", "")` yields the bare scheme. */
  lemma ForwardedProtoIsScheme(u: Url)
    requires ':' !in u.scheme
    ensures RemoveFirst(Protocol(u), ':') == u.scheme
  {
  }

  /**
   * Splits the path-and-query part of a reference at its first '?', giving the
   * pathname and the `search` getter's value (empty when the query is empty).
   */
  function SplitQuery(t: string): (pq: (string, string))
    ensures '?' !in pq.0
    ensures ValidSearch(pq.1) || '#' in t
    ensures pq.0 + pq.1 == t || (pq.1 == "" && t == pq.0 + "?")
  {
    var i := IndexOf(t, {'?'});
    if i + 1 < |t| then (t[..i], t[i..])
    else (t[..i], "")
  }

  /**
   * `new URL(ref, base)` for a reference that starts with '/' and a base whose
   * scheme is special (http or https), as the WHATWG URL parser resolves it:
   * - `/path?query` (an absolute-path reference, section 5.2.2 of RFC 3986)
   *   keeps the base's scheme, host and port and takes path and query from the
   *   reference; the base's own path, query and fragment are dropped;
   * - `//authority/path?query` (a network-path reference) keeps only the
   *   base's scheme: any further slashes are skipped, and host and port come
   *   from the reference, after the last '@' of its authority. An empty host
   *   or a non-numeric port makes the constructor throw (None here).
   * Userinfo before that '@' becomes the URL's username and password; the
   * `Url` record has no such fields, so the model leaves credentials out, and
   * it takes the host text as written (no IPv4 or IDNA host parsing).
   */
  function Resolve(ref: string, base: Url): (r: Option<Url>)
    requires |ref| > 0 && ref[0] == '/'
    requires IsHttp(base.scheme)
    ensures r.Some? ==> r.value.scheme == base.scheme && r.value.hash == ""
    ensures r.Some? ==> |r.value.pathname| > 0 && r.value.pathname[0] == '/'
    ensures !StartsWithDoubleSlash(ref) ==> r.Some? && Host(r.value) == Host(base)
  {
    if StartsWithDoubleSlash(ref) then ResolveAuthority(DropLeading(ref, '/'), base.scheme)
    else
      var pq := SplitQuery(ref);
      Some(Url(base.scheme, base.hostname, base.port, pq.0, pq.1, ""))
  }

  /**
   * The network-path case of `Resolve`, given the reference after its leading
   * slashes: the authority runs to the first '/' or '?'. The resolved pathname
   * is "/" or lies before the reference's first '?'.
   */
  function ResolveAuthority(rest: string, scheme: string): (r: Option<Url>)
    ensures r.Some? ==> r.value.scheme == scheme && r.value.hash == ""
    ensures r.Some? ==> |r.value.pathname| > 0 && r.value.pathname[0] == '/'
    ensures r.Some? ==> r.value.pathname == "/" || |r.value.pathname| <= IndexOf(rest, {'?'})
  {
    var a := IndexOf(rest, {'/', '?'});
    var authority := rest[..a];
    var hostPort := authority[LastIndexOf(authority, '@') + 1..];
    var c := IndexOf(hostPort, {':'});
    var host := hostPort[..c];
    var port := if c < |hostPort| then hostPort[c + 1..] else "";
    if host == "" || !AllDigits(port) then None
    else
      var pq := SplitQuery(rest[a..]);
      assert |pq.0| <= IndexOf(rest, {'?'}) by { PathBeforeQuery(rest, a); }
      Some(Url(scheme, host, port, if pq.0 == "" then "/" else pq.0, pq.1, ""))
  }

  /** What follows the authority has its path before the reference's first '?'. */
  lemma PathBeforeQuery(rest: string, a: nat)
    requires a == IndexOf(rest, {'/', '?'})
    ensures |SplitQuery(rest[a..]).0| <= IndexOf(rest, {'?'})
  {
  }

  /**
   * The origin URL the Worker means to build: the base's scheme, host and port
   * with exactly the inbound path and query, whatever path, query or fragment
   * either side carried.
   */
  function BackendUrl(incoming: Url, base: Url): (r: Url)
    ensures r.scheme == base.scheme && Host(r) == Host(base)
    ensures PathAndQuery(r) == PathAndQuery(incoming)
    ensures r.hash == ""
  {
    base.(pathname := incoming.pathname, search := incoming.search, hash := "")
  }

  /** Splitting `pathname + search` at the first '?' recovers both parts. */
  lemma SplitQueryOfParts(p: string, s: string)
    requires '?' !in p && ValidSearch(s)
    ensures SplitQuery(p + s) == (p, s)
  {
    var t := p + s;
    var i := IndexOf(t, {'?'});
    assert forall j :: 0 <= j < |p| ==> t[j] == p[j];
    if s == "" {
      assert t == p;
    } else {
      assert t[|p|] == '?';
    }
    assert i == |p|;
    assert t[..i] == p;
    if s != "" {
      assert t[i..] == s;
    }
  }

  /** Off the `//` case, resolution yields exactly the intended origin URL. */
  lemma ResolveKeepsTarget(incoming: Url, base: Url)
    requires ValidUrl(incoming) && IsHttp(base.scheme)
    requires !StartsWithDoubleSlash(incoming.pathname)
    ensures Resolve(PathAndQuery(incoming), base) == Some(BackendUrl(incoming, base))
  {
    var ref := PathAndQuery(incoming);
    assert ref[0] == incoming.pathname[0];
    if |incoming.pathname| == 1 && incoming.search != "" {
      assert ref[1] == '?';
    } else if |incoming.pathname| >= 2 {
      assert ref[1] == incoming.pathname[1];
    }
    assert !StartsWithDoubleSlash(ref);
    SplitQueryOfParts(incoming.pathname, incoming.search);
  }

  /**
   * On a `//` pathname resolution never yields the intended origin URL: the
   * constructor throws, or the resolved pathname is shorter than the inbound one
   * because its leading part was read as an authority.
   */
  lemma DoubleSlashLosesPath(incoming: Url, base: Url)
    requires ValidUrl(incoming) && IsHttp(base.scheme)
    requires StartsWithDoubleSlash(incoming.pathname)
    ensures var r := Resolve(PathAndQuery(incoming), base);
      r.None? || |r.value.pathname| < |incoming.pathname|
  {
    var p, s := incoming.pathname, incoming.search;
    var ref := p + s;
    assert ref[0] == '/' && ref[1] == '/';
    var rest := DropLeading(ref, '/');
    var k := |ref| - |rest|;
    DropLeadingAtLeast(ref, '/', 2);
    assert IndexOf(rest, {'?'}) <= |p| - k by {
      if s != "" {
        assert ref[|p|] == '?';
        assert rest[|p| - k] == '?';
      }
    }
  }

  /**
   * A pathname `//h` followed by a path (or nothing) resolves to host `h`: the
   * host comes from the inbound path and not from the configured base.
   */
  lemma NetworkPathTakesHost(incoming: Url, base: Url, h: string, rest: string)
    requires ValidUrl(incoming) && IsHttp(base.scheme)
    requires h != [] && forall i :: 0 <= i < |h| ==> h[i] !in {'/', '?', '@', ':'}
    requires rest == [] || rest[0] == '/'
    requires incoming.pathname == "//" + h + rest
    ensures Resolve(PathAndQuery(incoming), base)
         == Some(Url(base.scheme, h, "", if rest == [] then "/" else rest, incoming.search, ""))
  {
    var s := incoming.search;
    var tail := rest + s;
    var ref := "//" + (h + tail);
    assert PathAndQuery(incoming) == ref;
    assert '?' !in rest by {
      forall i | 0 <= i < |rest| ensures rest[i] != '?' {
        assert rest[i] == incoming.pathname[2 + |h| + i];
      }
    }
    SplitQueryOfParts(rest, s);
    AuthorityAfterSlashes(h + tail, base);
    AuthorityIsHost(h, tail, base.scheme);
  }

  /** Resolving `//` followed by an authority that does not start with '/' reads that authority. */
  lemma AuthorityAfterSlashes(r: string, base: Url)
    requires IsHttp(base.scheme)
    requires r != [] && r[0] != '/'
    ensures Resolve("//" + r, base) == ResolveAuthority(r, base.scheme)
  {
    var ref := "//" + r;
    assert ref[2] == r[0];
    DropLeadingExactly(ref, '/', 2);
    assert ref[2..] == r;
  }

  /** An authority made of a bare host `h` resolves to that host, default port. */
  lemma AuthorityIsHost(h: string, tail: string, scheme: string)
    requires h != [] && forall i :: 0 <= i < |h| ==> h[i] !in {'/', '?', '@', ':'}
    requires tail == [] || tail[0] in {'/', '?'}
    ensures var pq := SplitQuery(tail);
      ResolveAuthority(h + tail, scheme)
        == Some(Url(scheme, h, "", if pq.0 == "" then "/" else pq.0, pq.1, ""))
  {
    var r := h + tail;
    assert forall i :: 0 <= i < |h| ==> r[i] == h[i];
    if tail != [] {
      assert r[|h|] == tail[0];
    }
    IndexOfAt(r, {'/', '?'}, |h|);
    assert r[..|h|] == h;
    assert r[|h|..] == tail;
    assert LastIndexOf(h, '@') == -1;
    assert h[0..] == h;
    IndexOfAt(h, {':'}, |h|);
    assert h[..|h|] == h;
  }

  /** The derivation keeps the base's origin and the inbound path exactly when the path does not start with `//`. */
  lemma ResolveKeepsTargetIff(incoming: Url, base: Url)
    requires ValidUrl(incoming) && IsHttp(base.scheme)
    ensures Resolve(PathAndQuery(incoming), base) == Some(BackendUrl(incoming, base))
        <==> !StartsWithDoubleSlash(incoming.pathname)
  {
    if StartsWithDoubleSlash(incoming.pathname) {
      DoubleSlashLosesPath(incoming, base);
    } else {
      ResolveKeepsTarget(incoming, base);
    }
  }

  /** `https://a.example.net//evil.com/x` is sent to `https://evil.com/x`. */
  lemma EvilDotComExample()
    ensures Resolve(PathAndQuery(Url("https", "a.example.net", "", "//evil.com/x", "", "")),
                    Url("https", "us-west.example.com", "", "/", "", ""))
         == Some(Url("https", "evil.com", "", "/x", "", ""))
  {
    var incoming := Url("https", "a.example.net", "", "//evil.com/x", "", "");
    assert incoming.pathname == "//" + "evil.com" + "/x";
    NetworkPathTakesHost(incoming, Url("https", "us-west.example.com", "", "/", "", ""), "evil.com", "/x");
  }

  /**
   * A pathname made only of slashes (`//`, `///`, ...) leaves the network-path
   * reference without a host, so `new URL` throws.
   */
  lemma SlashesOnlyThrows(incoming: Url, base: Url)
    requires ValidUrl(incoming) && IsHttp(base.scheme)
    requires |incoming.pathname| >= 2
    requires forall i :: 0 <= i < |incoming.pathname| ==> incoming.pathname[i] == '/'
    ensures Resolve(PathAndQuery(incoming), base) == None
  {
    var ref := PathAndQuery(incoming);
    var n := |incoming.pathname|;
    assert ref[..n] == incoming.pathname;
    assert ref[n..] == incoming.search;
    DropLeadingExactly(ref, '/', n);
    IndexOfAt(incoming.search, {'/', '?'}, 0);
  }
}
