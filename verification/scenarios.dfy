/**
 * The behaviours the repository's integration tests describe, stated for the model with
 * concrete keys, options and targets. Percent-encoding is characterised only as far as the
 * tests rely on it (`PercentEncodes`); the option map's iteration order stays a parameter.
 */
module Scenarios {
  import opened Wrappers
  import opened Json
  import opened Strings
  import opened Primitives
  import opened Query
  import opened Options
  import opened CaptureClient

  /** The characters `urlencoding::encode` leaves as they are. */
  predicate Unreserved(c: char) {
    || 'a' <= c <= 'z' || 'A' <= c <= 'Z' || '0' <= c <= '9'
    || c == '-' || c == '_' || c == '.' || c == '~'
  }

  /**
   * What the scenarios need of `urlencoding::encode`: it encodes character by character,
   * keeps unreserved characters and writes a space as `%20`.
   */
  ghost predicate PercentEncodes(encode: string -> string) {
    && encode("") == ""
    && (forall a, b :: encode(a + b) == encode(a) + encode(b))
    && (forall c :: Unreserved(c) ==> encode([c]) == [c])
    && encode(" ") == "%20"
  }

  /** Text made of unreserved characters only. */
  predicate Plain(s: string) {
    forall i :: 0 <= i < |s| ==> Unreserved(s[i])
  }

  /** Text made of unreserved characters is sent as it is. */
  lemma {:induction false} EncodeKeepsUnreserved(encode: string -> string, s: string)
    requires PercentEncodes(encode)
    requires Plain(s)
    ensures encode(s) == s
  {
    if s != [] {
      assert s == [s[0]] + s[1..];
      EncodeKeepsUnreserved(encode, s[1..]);
    }
  }

  /** An option whose name and text are plain is sent as `name=text`. */
  lemma PlainPiece(d: Deps, k: string, v: Value, text: string)
    requires PercentEncodes(d.encode)
    requires Plain(k) && Plain(text) && text != ""
    requires Render(v, d.formatFloat) == Some(text)
    ensures Segment(d, k, v) == Some(k + "=" + text)
  {
    EncodeKeepsUnreserved(d.encode, k);
    EncodeKeepsUnreserved(d.encode, text);
  }

  const TestKey := "test_key"
  const TestSecret := "test_secret"
  const Example := "https://example.com"

  /** `New(TestKey, TestSecret)`, the client most tests use. */
  function TestClient(): Capture {
    New(TestKey, TestSecret)
  }

  /** The URL of `test_build_urls`, given the pieces its two options yield. */
  lemma BuildUrlsUrl(d: Deps, order: seq<string>)
    requires Segment(d, "full", Bool(true)) == Some("full" + "=" + "true")
    requires Segment(d, "delay", Num(3)) == Some("delay" + "=" + "3")
    requires IsEnumeration(order, WithTarget(Some(map["full" := Bool(true), "delay" := Num(3)]), Example))
    ensures var r := BuildUrl(d, TestClient(), Image, Example, Some(map["full" := Bool(true), "delay" := Num(3)]), order);
      && r.Success?
      && IsInfix(TestKey, r.value) && IsInfix("image", r.value)
      && IsInfix("full" + "=" + "true", r.value) && IsInfix("delay" + "=" + "3", r.value)
  {
    var opts := Some(map["full" := Bool(true), "delay" := Num(3)]);
    var m := WithTarget(opts, Example);
    assert m["full"] == Bool(true) && m["delay"] == Num(3);
    EntryInUrl(d, TestClient(), Image, Example, opts, order, "full");
    EntryInUrl(d, TestClient(), Image, Example, opts, order, "delay");
    UrlContains(d, TestClient(), Image, Example, opts, order);
  }

  /**
   * `test_build_urls`: an image URL with `full` and `delay` set holds the key, the kind and
   * both options as `name=value`. (`build_image_url` is `BuildUrl` with `Image`.)
   */
  lemma BuildUrlsScenario(d: Deps, order: seq<string>)
    requires PercentEncodes(d.encode)
    requires IsEnumeration(order, WithTarget(Some(map["full" := Bool(true), "delay" := Num(3)]), Example))
    ensures var r := BuildUrl(d, TestClient(), Image, Example, Some(map["full" := Bool(true), "delay" := Num(3)]), order);
      && r.Success?
      && IsInfix(TestKey, r.value) && IsInfix("image", r.value)
      && IsInfix("full" + "=" + "true", r.value) && IsInfix("delay" + "=" + "3", r.value)
  {
    assert IntToDecimal(3) == "3";
    PlainPiece(d, "full", Bool(true), "true");
    PlainPiece(d, "delay", Num(3), "3");
    BuildUrlsUrl(d, order);
  }

  /** `test_edge_endpoint` and `test_regular_endpoint`: the host follows the edge setting. */
  lemma EndpointScenario(d: Deps, order: seq<string>)
    requires IsEnumeration(order, WithTarget(None, Example))
    ensures var edge := WithOptions(TestKey, TestSecret, OptionsWithEdge(DefaultCaptureOptions));
      var r := BuildUrl(d, edge, Image, Example, None, order);
      r.Success? && IsPrefix(EdgeUrl + "/", r.value) && !IsPrefix(ApiUrl + "/", r.value)
    ensures var r := BuildUrl(d, TestClient(), Image, Example, None, order);
      r.Success? && IsPrefix(ApiUrl + "/", r.value) && !IsPrefix(EdgeUrl + "/", r.value)
  {
    HostFollowsEdgeFlag(d, WithOptions(TestKey, TestSecret, OptionsWithEdge(DefaultCaptureOptions)), Image, Example, None, order);
    HostFollowsEdgeFlag(d, TestClient(), Image, Example, None, order);
  }

  /** The target of `test_url_encoding`, `https://example.com/path with spaces`. */
  const SpacedTarget := "https://example.com/" + ("path" + " " + "with" + " " + "spaces")

  /** What its path should become, `path%20with%20spaces`. */
  const EncodedPath := "path" + "%20" + "with" + "%20" + "spaces"

  /** The target of `test_url_encoding` encodes its spaces as `%20`. */
  lemma SpacesEncoded(e: string -> string)
    requires PercentEncodes(e)
    ensures IsInfix(EncodedPath, e(SpacedTarget))
  {
    EncodeKeepsUnreserved(e, "path");
    EncodeKeepsUnreserved(e, "with");
    EncodeKeepsUnreserved(e, "spaces");
    var tail := "path" + " " + "with" + " " + "spaces";
    assert e(tail) == EncodedPath;
    InfixSelf(e(tail));
    InfixAppend(e(tail), e("https://example.com/"), e(tail));
  }

  /** The URL of `test_url_encoding`, given the piece its option yields and how its target encodes. */
  lemma UrlEncodingUrl(d: Deps, order: seq<string>)
    requires Segment(d, "selector", Str("div.content")) == Some("selector" + "=" + "div.content")
    requires IsInfix(EncodedPath, d.encode(SpacedTarget))
    requires IsEnumeration(order, WithTarget(Some(map["selector" := Str("div.content")]), SpacedTarget))
    ensures var r := BuildUrl(d, TestClient(), Image, SpacedTarget, Some(map["selector" := Str("div.content")]), order);
      && r.Success?
      && IsInfix(EncodedPath, r.value)
      && IsInfix("selector" + "=" + "div.content", r.value)
  {
    var opts := Some(map["selector" := Str("div.content")]);
    var m := WithTarget(opts, SpacedTarget);
    var e := d.encode;
    assert m["selector"] == Str("div.content");
    EntryInUrl(d, TestClient(), Image, SpacedTarget, opts, order, "selector");
    var piece := e("url") + "=" + e(SpacedTarget);
    assert Segment(d, "url", m["url"]) == Some(piece);
    InfixSelf(e(SpacedTarget));
    InfixAppend(e(SpacedTarget), e("url") + "=", e(SpacedTarget));
    InfixTrans(EncodedPath, e(SpacedTarget), piece);
    EntryInUrl(d, TestClient(), Image, SpacedTarget, opts, order, "url");
    InfixTrans(EncodedPath, piece, BuildUrl(d, TestClient(), Image, SpacedTarget, opts, order).value);
  }

  /**
   * `test_url_encoding`: the spaces of the target reach the URL as `%20`, and an option
   * made of unreserved characters reaches it unchanged.
   */
  lemma UrlEncodingScenario(d: Deps, order: seq<string>)
    requires PercentEncodes(d.encode)
    requires IsEnumeration(order, WithTarget(Some(map["selector" := Str("div.content")]), SpacedTarget))
    ensures var r := BuildUrl(d, TestClient(), Image, SpacedTarget, Some(map["selector" := Str("div.content")]), order);
      && r.Success?
      && IsInfix(EncodedPath, r.value)
      && IsInfix("selector" + "=" + "div.content", r.value)
  {
    PlainPiece(d, "selector", Str("div.content"), "div.content");
    SpacesEncoded(d.encode);
    UrlEncodingUrl(d, order);
  }

  /** `test_token_generation`: clients with different keys build different URLs for one request. */
  lemma TokenScenario(d: Deps, order: seq<string>)
    requires WellBehaved(d)
    requires IsEnumeration(order, WithTarget(None, Example))
    ensures var r1 := BuildUrl(d, New("key1", "secret1"), Image, Example, None, order);
      var r2 := BuildUrl(d, New("key2", "secret2"), Image, Example, None, order);
      r1.Success? && r2.Success? && r1.value != r2.value
  {
    DistinctKeysDistinctUrls(d, New("key1", "secret1"), New("key2", "secret2"), Image, Example, None, order);
  }

  /** `test_error_handling`: empty credentials, then an empty target, are refused. */
  lemma ErrorScenario(d: Deps, order: seq<string>, order2: seq<string>)
    requires IsEnumeration(order, WithTarget(None, Example))
    requires IsEnumeration(order2, WithTarget(None, ""))
    ensures BuildUrl(d, New("", ""), Image, Example, None, order) == Failure(MissingCredentials)
    ensures BuildUrl(d, New("key", "secret"), Image, "", None, order2) == Failure(MissingUrl)
  {
  }

  /** The options of `test_request_options_filtering`. */
  const FilteringOptions: RequestOptions := map["format" := Str("png"), "full" := Bool(true), "empty" := Str("")]

  /** Of the four entries sent, the empty string is the one that yields no piece. */
  lemma FilteringEmitted(d: Deps)
    ensures Emitted(d, WithTarget(Some(FilteringOptions), Example)) == {"format", "full", "url"}
  {
    var m := WithTarget(Some(FilteringOptions), Example);
    assert m.Keys == {"format", "full", "empty", "url"};
    assert m["format"] == Str("png") && m["full"] == Bool(true) && m["empty"] == Str("") && m["url"] == Str(Example);
  }

  /** The URL of `test_request_options_filtering`, given the pieces its two plain options yield. */
  lemma FilteringUrl(d: Deps, order: seq<string>)
    requires Segment(d, "format", Str("png")) == Some("format" + "=" + "png")
    requires Segment(d, "full", Bool(true)) == Some("full" + "=" + "true")
    requires IsEnumeration(order, WithTarget(Some(FilteringOptions), Example))
    ensures var r := BuildUrl(d, TestClient(), Image, Example, Some(FilteringOptions), order);
      && r.Success?
      && IsInfix("format" + "=" + "png", r.value)
      && IsInfix("full" + "=" + "true", r.value)
      && |Params(d, WithTarget(Some(FilteringOptions), Example), order)| == 3
    ensures Emitted(d, WithTarget(Some(FilteringOptions), Example)) == {"format", "full", "url"}
  {
    var opts := Some(FilteringOptions);
    var m := WithTarget(opts, Example);
    assert m["format"] == Str("png") && m["full"] == Bool(true);
    EntryInUrl(d, TestClient(), Image, Example, opts, order, "format");
    EntryInUrl(d, TestClient(), Image, Example, opts, order, "full");
    FilteringEmitted(d);
    QueryPieces(d, m, order, "");
  }

  /**
   * `test_request_options_filtering`: an empty string is left out of the query and `full`
   * is kept. `format` is kept too: the query has exactly the `format`, `full` and `url`
   * pieces, although the test expects `format=png` to be filtered out.
   */
  lemma FilteringScenario(d: Deps, order: seq<string>)
    requires PercentEncodes(d.encode)
    requires IsEnumeration(order, WithTarget(Some(FilteringOptions), Example))
    ensures var r := BuildUrl(d, TestClient(), Image, Example, Some(FilteringOptions), order);
      && r.Success?
      && IsInfix("format" + "=" + "png", r.value)
      && IsInfix("full" + "=" + "true", r.value)
      && |Params(d, WithTarget(Some(FilteringOptions), Example), order)| == 3
    ensures Emitted(d, WithTarget(Some(FilteringOptions), Example)) == {"format", "full", "url"}
  {
    PlainPiece(d, "format", Str("png"), "png");
    PlainPiece(d, "full", Bool(true), "true");
    FilteringUrl(d, order);
  }
}
