# Capture URL builder, in Dafny

A model of the signed-URL core of the Rust client for the Capture screenshot service
(`capture-rust`, `src/lib.rs`). The client holds an API key and secret. For a target page it
builds a request URL of the form

    <host>/<key>/<token>/<kind>?<query>

The pieces:

- `<host>` is `https://cdn.capture.page`, or `https://edge.capture.page` when the edge flag is set.
- `<kind>` is one of `image`, `pdf`, `content`, `metadata` or `animated`.
- `<query>` is the percent-encoded `name=value` list of the request options, joined by `&`. The
  target itself is always bound as `url`.
- `<token>` is the lower-case hex MD5 of the secret followed by the query.

The typed option records (`ScreenshotOptions`, `PdfOptions`, `ContentOptions`,
`MetadataOptions`) convert to the generic option map under fixed camel-case wire names. Each
record's `additional_options` is merged over the converted map.

The model is split into modules as follows:

- `Wrappers`: `Option` and `Result`.
- `Strings`: join, split, last index and infix facts.
- `Json`: the JSON values an option can hold, and their text.
- `Primitives`: the library functions the builder calls without the model looking inside them.
- `Query`: `to_query_string`.
- `Options`: the typed option records and their `to_request_options`.
- `CaptureClient`:
  - the client and its configuration;
  - `build_url` and the per-kind builders;
  - a parser for request URLs, used to state the round trip and the signature check.
- `Scenarios`: the behaviours the repository's integration tests describe, proved for the model.

A Rust `HashMap` is a Dafny `map`. Its iteration order is unspecified, so every operation that
iterates one takes the order as a parameter `order`, which must enumerate the map's keys. Every
property is proved for all such orders.

Three library functions are fields of a `Deps` record of function values:

- `urlencoding::encode`;
- the MD5 hex digest;
- serde_json's text for a float.

A property that needs a fact about them says so with a hypothesis:

- `EscapesDelimiters`: the encoder's output never holds `&`, `=` or `?`.
- `IsHexDigest`: the digest is 32 lower-case hex digits.
- `PercentEncodes`, scenarios only: the encoder works character by character, keeps unreserved
  characters and writes a space as `%20`.

Where the code and its description differ, the model follows the code:

- `with_timeout` always rebuilds the HTTP client with the new timeout, even after `with_client`
  supplied one (`src/lib.rs:509-515`). A description that keeps a caller-supplied client does
  not match the code. `CaptureClient.WithTimeout` states what the code does: the rebuilt client
  is used, while the supplied one stays recorded in the options.
- The integration test `test_request_options_filtering` expects `format=png` to be left out of
  the query (`tests/integration_tests.rs:129-130`). Nothing in `build_url` or `to_query_string`
  filters by name. `Scenarios.FilteringScenario` proves that the piece is kept, and that the
  query holds exactly the `format`, `full` and `url` pieces.

## Model

| member | source | states |
|---|---|---|
| CaptureClient.PathSegment | src/lib.rs:32-41 | each capture kind has a non-empty lower-case path segment, and that segment reads back as the same kind |
| CaptureClient.ParseRequestTypeExact | src/lib.rs:32-41 | a segment reads as a kind exactly when it is that kind's segment, so the five segments are distinct |
| Json.FromF64 | src/lib.rs:145-149 | a float becomes a JSON number exactly when it is finite; NaN and the infinities give nothing, so the field is not sent |
| Json.NatToDecimal | src/lib.rs:533 | the text of a number is a non-empty string of decimal digits with no leading zero |
| Json.DecimalRoundTrip | src/lib.rs:533 | reading the decimal text of a natural number gives the number back |
| Json.IntToDecimal | src/lib.rs:533 | an integer's text starts with `-` exactly when it is negative, and the rest is decimal digits; `IntDecimalRoundTrip` reads it back |
| Json.IntDecimalRoundTrip | src/lib.rs:533 | reading the text of an integer, minus sign included, gives the integer back |
| Json.Render | src/lib.rs:530-536 | a value has query text exactly when it is a string, number or boolean; null, arrays and objects are skipped |
| Query.Segment | src/lib.rs:530-545 | an entry yields no piece exactly when its value is not a string, number or boolean, or its text is empty; a string yields its encoded text, an integer its decimal text, a boolean `true` or `false`, a float its serde_json text, each after the encoded name and `=` |
| Query.ToQueryString | src/lib.rs:527-548 | the query is empty exactly when no entry yields a piece; its contents are stated by `QueryPieces`, `QuerySplits` and `EntryInQuery` |
| Query.ParamsCount | src/lib.rs:529-546 | over any duplicate-free list of keys, each piece appears as often as the listed entries that yield it |
| Query.QueryPieces | src/lib.rs:527-548 | whatever the iteration order, each piece appears in the query as often as there are entries yielding it, and the query has one piece per emitting entry |
| Query.ParamsFromEntries | src/lib.rs:529-546 | every piece of the query is the piece of some entry of the map |
| Query.SegmentSplits | src/lib.rs:539-543 | when the encoder escapes the delimiters, a piece splits at `=` into exactly the encoded name and the encoded text |
| Query.QuerySplits | src/lib.rs:527-548 | when the encoder escapes the delimiters and some entry emits, splitting the query at `&` gives back exactly its pieces |
| Query.QueryHasNoQuestionMark | src/lib.rs:527-548 | when the encoder escapes the delimiters, the query holds no `?` |
| Query.EntryInQuery | src/lib.rs:527-548 | every piece an entry yields occurs in the query |
| Strings.SplitJoin | src/lib.rs:547 | joining separator-free pieces and splitting at the separator gives the pieces back |
| Strings.JoinContains | src/lib.rs:547 | every piece occurs in the joined text |
| Options.Put | src/lib.rs:139-141 | inserting a set field binds its name to the value and leaves every other name alone; an unset field changes nothing |
| Options.Merge | src/lib.rs:244-249 | after the merge, a name bound by the additional options has their value, and every other name keeps its converted value |
| Options.InsertAllLookup | src/lib.rs:136-243 | after the field inserts (`InsertAll`, the source's sequence of conditional `insert`s), a name holds the last set field for it, or its earlier binding when no field sets it |
| Options.ScreenshotToRequestOptions | src/lib.rs:135-252 | every name is bound to the additional option when one is given, else to the last set field with that wire name, else not at all |
| Options.NamesDistinctScreenshot | src/lib.rs:139-242 | the 21 screenshot wire names are pairwise different, so no field overwrites another |
| Options.ScreenshotEntriesByName | src/lib.rs:139-242 | each screenshot field is the entry for its own wire name, and names outside the table have no entry |
| Options.ScreenshotWireNameTable | src/lib.rs:135-252 | each screenshot field is sent under its wire name when set (an additional option overriding it), every other name is bound exactly as the additional options bind it, and nothing else is bound |
| Options.PdfToRequestOptions | src/lib.rs:255-355 | every name is bound to the additional option when one is given, else to the last set PDF field with that wire name |
| Options.NamesDistinctPdf | src/lib.rs:259-344 | the 16 PDF wire names are pairwise different |
| Options.PdfEntriesByName | src/lib.rs:259-344 | each PDF field is the entry for its own wire name, and names outside the table have no entry |
| Options.PdfWireNameTable | src/lib.rs:255-355 | each PDF field, `scale` only when finite, is sent under its wire name when set, with additional options overriding and nothing else bound |
| Options.ContentToRequestOptions | src/lib.rs:357-398 | every name is bound to the additional option when one is given, else to the last set content field with that wire name |
| Options.NamesDistinctContent | src/lib.rs:361-387 | the 5 content wire names are pairwise different |
| Options.ContentEntriesByName | src/lib.rs:361-387 | each content field is the entry for its own wire name, and names outside the table have no entry |
| Options.ContentWireNameTable | src/lib.rs:357-398 | each content field is sent under its wire name when set, with additional options overriding and nothing else bound |
| Options.MetadataToRequestOptions | src/lib.rs:400-413 | metadata options send exactly their additional options, or nothing |
| CaptureClient.OptionsWithEdge | src/lib.rs:427-430 | sets the edge flag and keeps the timeout and client |
| CaptureClient.OptionsWithTimeout | src/lib.rs:432-435 | records the timeout and keeps the edge flag and client |
| CaptureClient.OptionsWithClient | src/lib.rs:437-440 | records the client and keeps the edge flag and timeout |
| CaptureClient.ClientFor | src/lib.rs:470-476 | the client in use is the supplied one if any, else one built with the configured timeout |
| CaptureClient.New | src/lib.rs:469-485 | a new client keeps its credentials and has the default host, no timeout, no supplied client and a default HTTP client |
| CaptureClient.WithOptions | src/lib.rs:487-502 | a client made from a configuration keeps it and uses the client that configuration asks for |
| CaptureClient.WithEdge | src/lib.rs:504-507 | switching to the edge host changes nothing else |
| CaptureClient.WithTimeout | src/lib.rs:509-515 | setting a timeout records it and always puts a freshly built client with that timeout in use, while the options keep any supplied client |
| CaptureClient.WithClient | src/lib.rs:517-521 | a supplied client is put in use and recorded in the options; nothing else changes |
| CaptureClient.WithTarget | src/lib.rs:564-568 | the target is bound as `url`, overriding any caller entry, and every other caller entry is kept |
| CaptureClient.BaseUrl | src/lib.rs:573-577 | the host is the edge host exactly when the edge flag is set, and has no trailing `/` |
| CaptureClient.GenerateToken | src/lib.rs:523-525 | given an MD5 of the library's shape, the token is 32 lower-case hex digits; `BuiltUrlAccepted` ties it to the secret and the query |
| CaptureClient.BuildUrl | src/lib.rs:550-587 | missing key or secret is reported first, then a missing target; a URL is built exactly when both credentials and the target are non-empty, as host, key, token of secret plus query, kind segment and query |
| CaptureClient.ParseBuiltUrl | src/lib.rs:570-586 | a built URL parses back into its host choice, its key verbatim, the token, the requested kind and its query |
| CaptureClient.BuiltUrlAccepted | src/lib.rs:571 | the token of every built URL is the digest of the client's secret followed by the URL's own query, so a server holding the secret accepts it |
| CaptureClient.TokenIgnoresKeyHostKind | src/lib.rs:523-525 | the token depends only on the secret and the final query, not on key, host or kind |
| CaptureClient.DistinctKeysDistinctUrls | src/lib.rs:579-586 | clients with different keys build different URLs for the same request |
| CaptureClient.HostFollowsEdgeFlag | src/lib.rs:573-577 | a built URL starts with the edge host exactly when the edge flag is set, and with the default host exactly when it is not |
| CaptureClient.UrlContains | src/lib.rs:579-586 | a built URL holds the key, the kind's segment and everything its query holds |
| CaptureClient.EntryInUrl | src/lib.rs:564-586 | every piece an option entry yields occurs in the built URL |
| CaptureClient.QueryCarriesTarget | src/lib.rs:564-570 | the query always carries the encoded target as its `url` piece and is never empty |
| CaptureClient.BuildUrlBuildsKind | src/lib.rs:550-587 | build_url fails exactly on missing credentials or target, with the right error, and otherwise gives a signed URL of the requested kind and key |
| CaptureClient.BuildImageUrl | src/lib.rs:589-591 | fails exactly on missing credentials or target, and otherwise builds a signed `image` URL |
| CaptureClient.BuildPdfUrl | src/lib.rs:593-595 | the same, for a `pdf` URL |
| CaptureClient.BuildContentUrl | src/lib.rs:597-599 | the same, for a `content` URL |
| CaptureClient.BuildMetadataUrl | src/lib.rs:601-607 | the same, for a `metadata` URL |
| CaptureClient.BuildAnimatedUrl | src/lib.rs:609-611 | the same, for an `animated` URL |
| CaptureClient.BuildScreenshotUrl | src/lib.rs:614-621 | converts the screenshot options and builds the image URL for them, with the image builder's errors |
| CaptureClient.BuildPdfUrlStructured | src/lib.rs:623-630 | converts the PDF options and builds the PDF URL for them |
| CaptureClient.BuildContentUrlStructured | src/lib.rs:632-639 | converts the content options and builds the content URL for them |
| CaptureClient.BuildMetadataUrlStructured | src/lib.rs:641-648 | converts the metadata options and builds the metadata URL for them |
| CaptureClient.EdgeChangesOnlyHost | src/lib.rs:573-577 | switching to the edge host changes only the host part of a built URL |
| CaptureClient.TransportDoesNotAffectUrls | src/lib.rs:509-521 | timeouts and HTTP clients never change a built URL |
| Scenarios.BuildUrlsScenario | tests/integration_tests.rs:4-22 | an image URL for `test_key` with `full` and `delay` set holds the key, `image`, `full=true` and `delay=3` |
| Scenarios.EndpointScenario | tests/integration_tests.rs:42-63 | the edge client's URL starts with the edge host and not the default one, and the plain client's the other way round |
| Scenarios.UrlEncodingScenario | tests/integration_tests.rs:65-80 | the target's spaces reach the URL as `%20`, and `selector=div.content` is in it |
| Scenarios.TokenScenario | tests/integration_tests.rs:82-96 | clients with keys `key1` and `key2` build different URLs |
| Scenarios.ErrorScenario | tests/integration_tests.rs:98-108 | empty credentials give `MissingCredentials` and an empty target gives `MissingUrl` |
| Scenarios.FilteringScenario | tests/integration_tests.rs:110-137 | the entries yielding a piece are exactly `format`, `full` and `url`, so the empty string is the one dropped; `full=true` and `format=png` are in the URL, and the query has exactly three pieces |

## Left out

- Fetching (`fetch_*`, `src/lib.rs:650-744`) and decoding the JSON responses (`ContentResponse`, `MetadataResponse`): network I/O, which the model does not perform.
- The error variants `HttpError`, `UrlError` and `InvalidUrl`: no modelled operation produces them. `HttpError` arises only in fetching, from a failed HTTP request (`src/lib.rs:656-657`, `674-675`); `UrlError` and `InvalidUrl` are declared but never produced.
- Percent-encoding, MD5 and serde_json's float text are function values, not implementations. Their properties enter only as named hypotheses.
- `Client::builder().build()` failing and falling back to `Client::new()` is not modelled. A built client is `Built(timeout)`, and durations are natural numbers of nanoseconds.
- The integer width of option fields is modelled as `U32` (0 to 2^32 - 1). Numbers in caller-supplied maps are unbounded integers, because serde_json's own integer range is not part of this model.
- CaptureClient.ParseUrl is a reader of request URLs written for the round-trip and signature statements. It is not part of the source, and it does not model the service's real parser.
- The collision resistance of MD5, which makes a token unforgeable without the secret, is not modelled. CaptureClient.TokenIgnoresKeyHostKind states only what the token depends on.
- Scenarios.EndpointScenario: states the host as a prefix of the URL rather than "contains / does not contain" over the whole URL. Whether the host text can appear inside the encoded query depends on the encoder, which is left abstract.
- The `examples/` programs are usage demonstrations, not modelled.
