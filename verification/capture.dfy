/**
 * The capture client (`Capture`, `CaptureOptions`, `RequestType`) and its signed-URL
 * builder `build_url` with the per-capture-type wrappers. HTTP clients are opaque values;
 * fetching is not modelled.
 */
module CaptureClient {
  import opened Wrappers
  import opened Json
  import opened Strings
  import opened Primitives
  import opened Query
  import opened Options

  datatype CaptureError =
    | HttpError(message: string)
    | UrlError(message: string)
    | MissingCredentials
    | MissingUrl
    | InvalidUrl

  /** The capture kinds, one per endpoint. */
  datatype RequestType = Image | Pdf | Content | Metadata | Animated

  /** `RequestType::as_str`: the endpoint's path segment, a lower-case word. */
  function PathSegment(t: RequestType): (s: string)
    ensures s != [] && forall i :: 0 <= i < |s| ==> 'a' <= s[i] <= 'z'
    ensures ParseRequestType(s) == Some(t)
  {
    match t
    case Image => "image"
    case Pdf => "pdf"
    case Content => "content"
    case Metadata => "metadata"
    case Animated => "animated"
  }

  /** Reads a path segment back as a capture kind. */
  function ParseRequestType(s: string): Option<RequestType> {
    if s == "image" then Some(Image)
    else if s == "pdf" then Some(Pdf)
    else if s == "content" then Some(Content)
    else if s == "metadata" then Some(Metadata)
    else if s == "animated" then Some(Animated)
    else None
  }

  /** Only the five segments parse, each to the kind whose segment it is. */
  lemma ParseRequestTypeExact(s: string, t: RequestType)
    ensures ParseRequestType(s) == Some(t) <==> PathSegment(t) == s
  {
  }

  /** A `std::time::Duration`, in nanoseconds. */
  type Duration = nat

  /** An opaque `reqwest::Client` handle. */
  datatype Client =
    | Built(timeout: Option<Duration>)  // made by `Client::builder()`, with the timeout if one was set
    | Supplied(id: nat)                 // handed in by the caller

  /** The client `Capture::new` builds: one with no timeout. */
  const DefaultClient := Built(None)

  datatype CaptureOptions = CaptureOptions(useEdge: bool, timeout: Option<Duration>, client: Option<Client>)

  /** `CaptureOptions::new()` / `default()`: default host, no timeout, no custom client. */
  const DefaultCaptureOptions := CaptureOptions(false, None, None)

  /** `CaptureOptions::with_edge`. */
  function OptionsWithEdge(o: CaptureOptions): (r: CaptureOptions)
    ensures r.useEdge && r.timeout == o.timeout && r.client == o.client
  {
    o.(useEdge := true)
  }

  /** `CaptureOptions::with_timeout`. */
  function OptionsWithTimeout(o: CaptureOptions, t: Duration): (r: CaptureOptions)
    ensures r.timeout == Some(t) && r.useEdge == o.useEdge && r.client == o.client
  {
    o.(timeout := Some(t))
  }

  /** `CaptureOptions::with_client`. */
  function OptionsWithClient(o: CaptureOptions, client: Client): (r: CaptureOptions)
    ensures r.client == Some(client) && r.useEdge == o.useEdge && r.timeout == o.timeout
  {
    o.(client := Some(client))
  }

  const ApiUrl := "https://cdn.capture.page"
  const EdgeUrl := "https://edge.capture.page"

  /** The client: credentials, configuration and the HTTP client in use. */
  datatype Capture = Capture(key: string, secret: string, options: CaptureOptions, client: Client)

  /** `Capture::with_edge`: switch to the edge host, nothing else changes. */
  function WithEdge(c: Capture): (r: Capture)
    ensures r.options.useEdge
    ensures r.key == c.key && r.secret == c.secret && r.client == c.client
    ensures r.options.timeout == c.options.timeout && r.options.client == c.options.client
  {
    c.(options := OptionsWithEdge(c.options))
  }

  /**
   * `Capture::with_timeout`: record the timeout and rebuild the HTTP client with it. The
   * rebuilt client replaces the one in use even when the caller supplied their own; the
   * supplied one stays recorded in the options.
   */
  function WithTimeout(c: Capture, t: Duration): (r: Capture)
    ensures r.client == Built(Some(t)) && r.options.timeout == Some(t)
    ensures r.key == c.key && r.secret == c.secret
    ensures r.options.useEdge == c.options.useEdge && r.options.client == c.options.client
  {
    c.(options := OptionsWithTimeout(c.options, t), client := Built(Some(t)))
  }

  /** `Capture::with_client`: use and record a caller-supplied HTTP client. */
  function WithClient(c: Capture, client: Client): (r: Capture)
    ensures r.client == client && r.options.client == Some(client)
    ensures r.key == c.key && r.secret == c.secret
    ensures r.options.useEdge == c.options.useEdge && r.options.timeout == c.options.timeout
  {
    c.(options := OptionsWithClient(c.options, client), client := client)
  }

  /** The HTTP client a configuration asks for: the supplied one, else one built with the timeout. */
  function ClientFor(options: CaptureOptions): (r: Client)
    ensures options.client.Some? ==> r == options.client.value
    ensures options.client.None? ==> r == Built(options.timeout)
  {
    options.client.GetOr(Built(options.timeout))
  }

  /** `Capture::new`: default configuration. */
  function New(key: string, secret: string): (r: Capture)
    ensures r.key == key && r.secret == secret
    ensures !r.options.useEdge && r.options.timeout.None? && r.options.client.None?
    ensures r.client == DefaultClient
  {
    Capture(key, secret, DefaultCaptureOptions, ClientFor(DefaultCaptureOptions))
  }

  /** `Capture::with_options`. */
  function WithOptions(key: string, secret: string, options: CaptureOptions): (r: Capture)
    ensures r.key == key && r.secret == secret && r.options == options
    ensures r.client == ClientFor(options)
  {
    Capture(key, secret, options, ClientFor(options))
  }

  /**
   * The host a configuration sends requests to: the edge host exactly when the flag is set.
   * It has no trailing `/`, so the one the URL format adds is the only separator.
   */
  function BaseUrl(useEdge: bool): (r: string)
    ensures r == EdgeUrl <==> useEdge
    ensures r == ApiUrl <==> !useEdge
    ensures |r| > 0 && r[|r| - 1] != '/'
  {
    if useEdge then EdgeUrl else ApiUrl
  }

  /** Everything after the host: `/key/token/segment?query`. */
  function UrlPath(key: string, token: string, segment: string, query: string): string {
    "/" + key + "/" + token + "/" + segment + "?" + query
  }

  /**
   * `generate_token`: the hex MD5 digest of the secret followed by the query; with a digest
   * function of the library's shape, 32 lower-case hex digits.
   */
  function GenerateToken(d: Deps, secret: string, query: string): (r: string)
    ensures IsHexDigest(d.md5Hex) ==> |r| == DigestLength && forall i :: 0 <= i < |r| ==> IsLowerHex(r[i])
  {
    d.md5Hex(secret + query)
  }

  /** The caller's options, or none, with `"url"` bound to the target, overriding any caller entry. */
  function WithTarget(opts: Option<RequestOptions>, url: string): (r: RequestOptions)
    ensures "url" in r && r["url"] == Str(url)
    ensures forall k :: k != "url" ==> Lookup(r, k) == Lookup(opts.GetOr(map[]), k)
  {
    opts.GetOr(map[])["url" := Str(url)]
  }

  /** The query string a request for `url` with `opts` carries. */
  function FinalQuery(d: Deps, url: string, opts: Option<RequestOptions>, order: seq<string>): string
    requires IsEnumeration(order, WithTarget(opts, url))
  {
    ToQueryString(d, WithTarget(opts, url), order)
  }

  /**
   * `build_url`: missing credentials are reported first, then a missing target; otherwise
   * `base/key/token/segment?query`, the token signing the whole query with the secret.
   * `order` is the iteration order of the option map.
   */
  function BuildUrl(d: Deps, c: Capture, t: RequestType, url: string, opts: Option<RequestOptions>, order: seq<string>): (r: Result<string, CaptureError>)
    requires IsEnumeration(order, WithTarget(opts, url))
    ensures r == Failure(MissingCredentials) <==> c.key == "" || c.secret == ""
    ensures r == Failure(MissingUrl) <==> c.key != "" && c.secret != "" && url == ""
    ensures r.Success? <==> c.key != "" && c.secret != "" && url != ""
    ensures r.Success? ==>
      var q := FinalQuery(d, url, opts, order);
      r.value == BaseUrl(c.options.useEdge) + UrlPath(c.key, d.md5Hex(c.secret + q), PathSegment(t), q)
  {
    if c.key == "" || c.secret == "" then Failure(MissingCredentials)
    else if url == "" then Failure(MissingUrl)
    else
      var query := FinalQuery(d, url, opts, order);
      var token := GenerateToken(d, c.secret, query);
      Success(BaseUrl(c.options.useEdge) + UrlPath(c.key, token, PathSegment(t), query))
  }

  // ---------------------------------------------------------------------------
  // Reading a request URL back, as the service does to check the signature.

  datatype UrlParts = UrlParts(edge: bool, key: string, token: string, requestType: RequestType, query: string)

  /**
   * Splits a request URL into host, key, token, capture kind and query: the query follows
   * the last `?`, the kind is the last path segment, the token is the 32 characters before
   * it, and the key is whatever lies between the host and the token.
   */
  function ParseUrl(u: string): Option<UrlParts> {
    match LastIndex(u, '?')
    case None => None
    case Some(q) =>
      var path := u[..q];
      var query := u[q + 1..];
      match LastIndex(path, '/')
      case None => None
      case Some(s) =>
        var kind := ParseRequestType(path[s + 1..]);
        var head := path[..s];
        if kind.None? || |head| < DigestLength + 1 || head[|head| - DigestLength - 1] != '/' then None
        else
          var token := head[|head| - DigestLength..];
          var host := SplitHost(head[..|head| - DigestLength - 1]);
          if host.None? then None
          else Some(UrlParts(host.value.0, host.value.1, token, kind.value, query))
  }

  /** Splits `host/key` into whether the host is the edge host, and the key. */
  function SplitHost(prefix: string): Option<(bool, string)> {
    if IsPrefix(EdgeUrl + "/", prefix) then Some((true, prefix[|EdgeUrl| + 1..]))
    else if IsPrefix(ApiUrl + "/", prefix) then Some((false, prefix[|ApiUrl| + 1..]))
    else None
  }

  /** The service's check: the URL parses and its token signs its query with the secret. */
  ghost predicate Accepts(d: Deps, secret: string, u: string) {
    var p := ParseUrl(u);
    p.Some? && p.value.token == d.md5Hex(secret + p.value.query)
  }

  /** The host and key part of a URL parse back. */
  lemma ParsePrefix(edge: bool, key: string)
    ensures SplitHost(BaseUrl(edge) + "/" + key) == Some((edge, key))
  {
    var prefix := BaseUrl(edge) + "/" + key;
    if !edge {
      assert prefix[8] == 'c';
      assert (EdgeUrl + "/")[8] == 'e';
      assert prefix[..|ApiUrl + "/"|] == ApiUrl + "/";
    } else {
      assert prefix[..|EdgeUrl + "/"|] == EdgeUrl + "/";
    }
  }

  /** The parts of `a + [c] + b` around the last `c`, when `b` has none. */
  lemma SplitAtLast(a: string, c: char, b: string)
    requires c !in b
    ensures LastIndex(a + [c] + b, c) == Some(|a|)
    ensures (a + [c] + b)[..|a|] == a && (a + [c] + b)[|a| + 1..] == b
  {
    LastIndexOf(a, c, b);
  }

  /** The token is the 32 characters after the last-but-one `/`. */
  lemma SplitToken(prefix: string, token: string)
    requires |token| == DigestLength
    ensures var head := prefix + "/" + token;
      && |head| >= DigestLength + 1
      && head[|head| - DigestLength - 1] == '/'
      && head[|head| - DigestLength..] == token
      && head[..|head| - DigestLength - 1] == prefix
  {
  }

  /** A path of the right shape parses back, whatever the host part is. */
  lemma {:induction false} ParseShape(prefix: string, token: string, t: RequestType, query: string)
    requires |token| == DigestLength
    requires '?' !in query
    ensures var u := prefix + "/" + token + "/" + PathSegment(t) + "?" + query;
      var host := SplitHost(prefix);
      ParseUrl(u) == if host.None? then None else Some(UrlParts(host.value.0, host.value.1, token, t, query))
  {
    var head := prefix + "/" + token;
    var seg := PathSegment(t);
    var path := head + "/" + seg;
    SplitAtLast(path, '?', query);
    assert '/' !in seg;
    SplitAtLast(head, '/', seg);
    SplitToken(prefix, token);
  }

  /** A built URL in the form the parser reads it. */
  lemma BuiltShape(base: string, key: string, token: string, segment: string, query: string)
    ensures base + UrlPath(key, token, segment, query) == (base + "/" + key) + "/" + token + "/" + segment + "?" + query
  {
  }

  /**
   * Round trip: a built URL parses back into the client's host choice, its key verbatim,
   * the token of the secret and the query, the requested kind, and the query itself.
   */
  lemma ParseBuiltUrl(d: Deps, c: Capture, t: RequestType, url: string, opts: Option<RequestOptions>, order: seq<string>)
    requires WellBehaved(d)
    requires IsEnumeration(order, WithTarget(opts, url))
    requires BuildUrl(d, c, t, url, opts, order).Success?
    ensures var q := FinalQuery(d, url, opts, order);
      ParseUrl(BuildUrl(d, c, t, url, opts, order).value)
        == Some(UrlParts(c.options.useEdge, c.key, d.md5Hex(c.secret + q), t, q))
  {
    var q := FinalQuery(d, url, opts, order);
    var token := d.md5Hex(c.secret + q);
    QueryHasNoQuestionMark(d, WithTarget(opts, url), order);
    BuiltShape(BaseUrl(c.options.useEdge), c.key, token, PathSegment(t), q);
    ParseShape(BaseUrl(c.options.useEdge) + "/" + c.key, token, t, q);
    ParsePrefix(c.options.useEdge, c.key);
  }

  /** Every URL the client builds passes the service's signature check with the client's secret. */
  lemma BuiltUrlAccepted(d: Deps, c: Capture, t: RequestType, url: string, opts: Option<RequestOptions>, order: seq<string>)
    requires WellBehaved(d)
    requires IsEnumeration(order, WithTarget(opts, url))
    requires BuildUrl(d, c, t, url, opts, order).Success?
    ensures Accepts(d, c.secret, BuildUrl(d, c, t, url, opts, order).value)
  {
    ParseBuiltUrl(d, c, t, url, opts, order);
  }

  /**
   * The token depends on the secret and the final query only: two clients with the same
   * secret sign the same request identically whatever their keys, hosts and capture kinds.
   */
  lemma TokenIgnoresKeyHostKind(d: Deps, c1: Capture, c2: Capture, t1: RequestType, t2: RequestType,
                                url: string, opts: Option<RequestOptions>, order: seq<string>)
    requires WellBehaved(d)
    requires IsEnumeration(order, WithTarget(opts, url))
    requires c1.secret == c2.secret
    requires BuildUrl(d, c1, t1, url, opts, order).Success? && BuildUrl(d, c2, t2, url, opts, order).Success?
    ensures var p1 := ParseUrl(BuildUrl(d, c1, t1, url, opts, order).value);
      var p2 := ParseUrl(BuildUrl(d, c2, t2, url, opts, order).value);
      p1.Some? && p2.Some? && p1.value.token == p2.value.token
  {
    var q := FinalQuery(d, url, opts, order);
    ParseBuiltUrl(d, c1, t1, url, opts, order);
    var p1 := ParseUrl(BuildUrl(d, c1, t1, url, opts, order).value);
    assert p1.value.token == d.md5Hex(c1.secret + q);
    ParseBuiltUrl(d, c2, t2, url, opts, order);
    var p2 := ParseUrl(BuildUrl(d, c2, t2, url, opts, order).value);
    assert p2.value.token == d.md5Hex(c2.secret + q);
  }

  /** Different keys give different URLs: the key sits verbatim in the path. */
  lemma DistinctKeysDistinctUrls(d: Deps, c1: Capture, c2: Capture, t: RequestType,
                                 url: string, opts: Option<RequestOptions>, order: seq<string>)
    requires WellBehaved(d)
    requires IsEnumeration(order, WithTarget(opts, url))
    requires c1.key != c2.key
    requires BuildUrl(d, c1, t, url, opts, order).Success? && BuildUrl(d, c2, t, url, opts, order).Success?
    ensures BuildUrl(d, c1, t, url, opts, order).value != BuildUrl(d, c2, t, url, opts, order).value
  {
    ParseBuiltUrl(d, c1, t, url, opts, order);
    ParseBuiltUrl(d, c2, t, url, opts, order);
  }

  /**
   * The host is the edge host exactly when the client is configured for it, and the default
   * host otherwise; the two never both appear as the URL's host.
   */
  lemma HostFollowsEdgeFlag(d: Deps, c: Capture, t: RequestType, url: string, opts: Option<RequestOptions>, order: seq<string>)
    requires IsEnumeration(order, WithTarget(opts, url))
    requires BuildUrl(d, c, t, url, opts, order).Success?
    ensures var u := BuildUrl(d, c, t, url, opts, order).value;
      && (IsPrefix(EdgeUrl + "/", u) <==> c.options.useEdge)
      && (IsPrefix(ApiUrl + "/", u) <==> !c.options.useEdge)
  {
    var u := BuildUrl(d, c, t, url, opts, order).value;
    var rest := u[|BaseUrl(c.options.useEdge)|..];
    assert u == BaseUrl(c.options.useEdge) + rest;
    assert u[8] == BaseUrl(c.options.useEdge)[8];
    assert (ApiUrl + "/")[8] == 'c' && (EdgeUrl + "/")[8] == 'e';
    assert u[|BaseUrl(c.options.useEdge)|] == '/';
    if c.options.useEdge {
      assert u[..|EdgeUrl + "/"|] == EdgeUrl + "/";
    } else {
      assert u[..|ApiUrl + "/"|] == ApiUrl + "/";
    }
  }

  /** A URL of the built shape holds its key, its segment and everything its query holds. */
  lemma UrlPathParts(base: string, key: string, token: string, segment: string, query: string)
    ensures var u := base + UrlPath(key, token, segment, query);
      && IsInfix(key, u)
      && IsInfix(segment, u)
      && forall p :: IsInfix(p, query) ==> IsInfix(p, u)
  {
    var u := base + UrlPath(key, token, segment, query);
    var before := base + "/" + key + "/" + token + "/" + segment + "?";
    assert u == before + query;
    forall p | IsInfix(p, query)
      ensures IsInfix(p, u)
    {
      InfixAppend(p, before, query);
    }
    assert u == (base + "/") + key + ("/" + token + "/" + segment + "?" + query);
    InfixAt(base + "/", key, "/" + token + "/" + segment + "?" + query);
    assert u == (base + "/" + key + "/" + token + "/") + segment + ("?" + query);
    InfixAt(base + "/" + key + "/" + token + "/", segment, "?" + query);
  }

  /** A built URL holds the key, the kind's segment and everything its query holds. */
  lemma UrlContains(d: Deps, c: Capture, t: RequestType, url: string, opts: Option<RequestOptions>, order: seq<string>)
    requires IsEnumeration(order, WithTarget(opts, url))
    requires BuildUrl(d, c, t, url, opts, order).Success?
    ensures var u := BuildUrl(d, c, t, url, opts, order).value;
      && IsInfix(c.key, u)
      && IsInfix(PathSegment(t), u)
      && forall p :: IsInfix(p, FinalQuery(d, url, opts, order)) ==> IsInfix(p, u)
  {
    var q := FinalQuery(d, url, opts, order);
    UrlPathParts(BaseUrl(c.options.useEdge), c.key, d.md5Hex(c.secret + q), PathSegment(t), q);
  }

  /** Every piece an option entry yields occurs in the built URL. */
  lemma EntryInUrl(d: Deps, c: Capture, t: RequestType, url: string, opts: Option<RequestOptions>, order: seq<string>, k: string)
    requires IsEnumeration(order, WithTarget(opts, url))
    requires BuildUrl(d, c, t, url, opts, order).Success?
    requires var m := WithTarget(opts, url); k in m && Segment(d, k, m[k]).Some?
    ensures var m := WithTarget(opts, url);
      IsInfix(Segment(d, k, m[k]).value, BuildUrl(d, c, t, url, opts, order).value)
  {
    EntryInQuery(d, WithTarget(opts, url), order, k);
    UrlContains(d, c, t, url, opts, order);
  }

  /**
   * The query always carries the target as its `url` piece, whatever `"url"` entry the
   * caller's options held, and so is never empty.
   */
  lemma QueryCarriesTarget(d: Deps, url: string, opts: Option<RequestOptions>, order: seq<string>)
    requires url != ""
    requires IsEnumeration(order, WithTarget(opts, url))
    ensures IsInfix(d.encode("url") + "=" + d.encode(url), FinalQuery(d, url, opts, order))
    ensures FinalQuery(d, url, opts, order) != ""
  {
    var m := WithTarget(opts, url);
    var piece := d.encode("url") + "=" + d.encode(url);
    assert Segment(d, "url", m["url"]) == Some(piece);
    EntryInQuery(d, m, order, "url");
    var j :| OccursAt(piece, FinalQuery(d, url, opts, order), j);
  }

  // ---------------------------------------------------------------------------
  // The per-kind builders.

  /** The options a structured screenshot request sends, if any. */
  function ScreenshotRequest(o: Option<ScreenshotOptions>): Option<RequestOptions> {
    if o.Some? then Some(ScreenshotToRequestOptions(o.value)) else None
  }

  function PdfRequest(o: Option<PdfOptions>): Option<RequestOptions> {
    if o.Some? then Some(PdfToRequestOptions(o.value)) else None
  }

  function ContentRequest(o: Option<ContentOptions>): Option<RequestOptions> {
    if o.Some? then Some(ContentToRequestOptions(o.value)) else None
  }

  function MetadataRequest(o: Option<MetadataOptions>): Option<RequestOptions> {
    if o.Some? then Some(MetadataToRequestOptions(o.value)) else None
  }

  /** What every per-kind builder promises: the errors of `build_url`, and a URL of its kind. */
  ghost predicate BuildsKind(d: Deps, c: Capture, t: RequestType, url: string, r: Result<string, CaptureError>) {
    && (r.Failure? <==> c.key == "" || c.secret == "" || url == "")
    && (r.Failure? ==> r.error == if c.key == "" || c.secret == "" then MissingCredentials else MissingUrl)
    && (WellBehaved(d) && r.Success? ==>
          ParseUrl(r.value).Some? && ParseUrl(r.value).value.requestType == t
          && ParseUrl(r.value).value.key == c.key && Accepts(d, c.secret, r.value))
  }

  lemma BuildUrlBuildsKind(d: Deps, c: Capture, t: RequestType, url: string, opts: Option<RequestOptions>, order: seq<string>)
    requires IsEnumeration(order, WithTarget(opts, url))
    ensures BuildsKind(d, c, t, url, BuildUrl(d, c, t, url, opts, order))
  {
    if WellBehaved(d) && BuildUrl(d, c, t, url, opts, order).Success? {
      ParseBuiltUrl(d, c, t, url, opts, order);
    }
  }

  /** `build_image_url`. */
  function BuildImageUrl(d: Deps, c: Capture, url: string, opts: Option<RequestOptions>, order: seq<string>): (r: Result<string, CaptureError>)
    requires IsEnumeration(order, WithTarget(opts, url))
    ensures BuildsKind(d, c, Image, url, r)
  {
    BuildUrlBuildsKind(d, c, Image, url, opts, order);
    BuildUrl(d, c, Image, url, opts, order)
  }

  /** `build_pdf_url`. */
  function BuildPdfUrl(d: Deps, c: Capture, url: string, opts: Option<RequestOptions>, order: seq<string>): (r: Result<string, CaptureError>)
    requires IsEnumeration(order, WithTarget(opts, url))
    ensures BuildsKind(d, c, Pdf, url, r)
  {
    BuildUrlBuildsKind(d, c, Pdf, url, opts, order);
    BuildUrl(d, c, Pdf, url, opts, order)
  }

  /** `build_content_url`. */
  function BuildContentUrl(d: Deps, c: Capture, url: string, opts: Option<RequestOptions>, order: seq<string>): (r: Result<string, CaptureError>)
    requires IsEnumeration(order, WithTarget(opts, url))
    ensures BuildsKind(d, c, Content, url, r)
  {
    BuildUrlBuildsKind(d, c, Content, url, opts, order);
    BuildUrl(d, c, Content, url, opts, order)
  }

  /** `build_metadata_url`. */
  function BuildMetadataUrl(d: Deps, c: Capture, url: string, opts: Option<RequestOptions>, order: seq<string>): (r: Result<string, CaptureError>)
    requires IsEnumeration(order, WithTarget(opts, url))
    ensures BuildsKind(d, c, Metadata, url, r)
  {
    BuildUrlBuildsKind(d, c, Metadata, url, opts, order);
    BuildUrl(d, c, Metadata, url, opts, order)
  }

  /** `build_animated_url`. */
  function BuildAnimatedUrl(d: Deps, c: Capture, url: string, opts: Option<RequestOptions>, order: seq<string>): (r: Result<string, CaptureError>)
    requires IsEnumeration(order, WithTarget(opts, url))
    ensures BuildsKind(d, c, Animated, url, r)
  {
    BuildUrlBuildsKind(d, c, Animated, url, opts, order);
    BuildUrl(d, c, Animated, url, opts, order)
  }

  /** `build_screenshot_url`: the structured options converted, then an image request. */
  function BuildScreenshotUrl(d: Deps, c: Capture, url: string, o: Option<ScreenshotOptions>, order: seq<string>): (r: Result<string, CaptureError>)
    requires IsEnumeration(order, WithTarget(ScreenshotRequest(o), url))
    ensures BuildsKind(d, c, Image, url, r)
    ensures r.Success? ==> r == BuildImageUrl(d, c, url, ScreenshotRequest(o), order)
  {
    BuildUrlBuildsKind(d, c, Image, url, ScreenshotRequest(o), order);
    BuildUrl(d, c, Image, url, ScreenshotRequest(o), order)
  }

  /** `build_pdf_url_structured`. */
  function BuildPdfUrlStructured(d: Deps, c: Capture, url: string, o: Option<PdfOptions>, order: seq<string>): (r: Result<string, CaptureError>)
    requires IsEnumeration(order, WithTarget(PdfRequest(o), url))
    ensures BuildsKind(d, c, Pdf, url, r)
    ensures r.Success? ==> r == BuildPdfUrl(d, c, url, PdfRequest(o), order)
  {
    BuildUrlBuildsKind(d, c, Pdf, url, PdfRequest(o), order);
    BuildUrl(d, c, Pdf, url, PdfRequest(o), order)
  }

  /** `build_content_url_structured`. */
  function BuildContentUrlStructured(d: Deps, c: Capture, url: string, o: Option<ContentOptions>, order: seq<string>): (r: Result<string, CaptureError>)
    requires IsEnumeration(order, WithTarget(ContentRequest(o), url))
    ensures BuildsKind(d, c, Content, url, r)
    ensures r.Success? ==> r == BuildContentUrl(d, c, url, ContentRequest(o), order)
  {
    BuildUrlBuildsKind(d, c, Content, url, ContentRequest(o), order);
    BuildUrl(d, c, Content, url, ContentRequest(o), order)
  }

  /** `build_metadata_url_structured`. */
  function BuildMetadataUrlStructured(d: Deps, c: Capture, url: string, o: Option<MetadataOptions>, order: seq<string>): (r: Result<string, CaptureError>)
    requires IsEnumeration(order, WithTarget(MetadataRequest(o), url))
    ensures BuildsKind(d, c, Metadata, url, r)
    ensures r.Success? ==> r == BuildMetadataUrl(d, c, url, MetadataRequest(o), order)
  {
    BuildUrlBuildsKind(d, c, Metadata, url, MetadataRequest(o), order);
    BuildUrl(d, c, Metadata, url, MetadataRequest(o), order)
  }

  // ---------------------------------------------------------------------------
  // How configuration affects built URLs.

  /** Switching to the edge host changes only the host part of a built URL. */
  lemma EdgeChangesOnlyHost(d: Deps, c: Capture, t: RequestType, url: string, opts: Option<RequestOptions>, order: seq<string>)
    requires !c.options.useEdge
    requires IsEnumeration(order, WithTarget(opts, url))
    ensures BuildUrl(d, WithEdge(c), t, url, opts, order).Success? == BuildUrl(d, c, t, url, opts, order).Success?
    ensures BuildUrl(d, c, t, url, opts, order).Success? ==>
      BuildUrl(d, WithEdge(c), t, url, opts, order).value == EdgeUrl + BuildUrl(d, c, t, url, opts, order).value[|ApiUrl|..]
  {
    var r := BuildUrl(d, c, t, url, opts, order);
    if r.Success? {
      var q := FinalQuery(d, url, opts, order);
      var tail := UrlPath(c.key, d.md5Hex(c.secret + q), PathSegment(t), q);
      assert r.value[|ApiUrl|..] == tail;
    }
  }

  /** Timeouts and HTTP clients never change the URL a request is sent to. */
  lemma TransportDoesNotAffectUrls(d: Deps, c: Capture, tm: Duration, client: Client, t: RequestType,
                                   url: string, opts: Option<RequestOptions>, order: seq<string>)
    requires IsEnumeration(order, WithTarget(opts, url))
    ensures BuildUrl(d, WithTimeout(c, tm), t, url, opts, order) == BuildUrl(d, c, t, url, opts, order)
    ensures BuildUrl(d, WithClient(c, client), t, url, opts, order) == BuildUrl(d, c, t, url, opts, order)
  {
  }
}
