# QuickBooks REST client: request construction and token state

This project is a Dafny model of the core of `quickbooks-ureq`, a Rust client for the
QuickBooks Online accounting API. It covers the part of the client that builds requests
and holds the OAuth2 token:

- the two endpoint URLs the client derives once, when it is constructed from its configuration;
- the three authentication headers (`Accept`, `Content-Type` and a Bearer `Authorization`,
  section 2.1 of RFC 6750);
- the query request, the read-by-id request, the company-info request and their fixed
  instances for items and customers;
- the text of a list query: `SELECT * FROM <key> MAXRESULTS 1000 STARTPOSITION <n>`,
  then an optional ` WHERE …`, then an optional ` ORDERBY …`;
- the token refresh (the refresh-token grant of section 6 of RFC 6749) as a state
  transition of the client object;
- the `AccessToken` and `QueryConfig` defaults and the serde rules of `AccessToken`:
  an empty field is not serialized, and a missing `token_type` is decoded as `"Bearer"`.

A request is a value holding the HTTP method, the URL, the headers in order and the URL
parameters in order. It is what the client has built just before `.call()`.
Serialization is modelled as a record of named string fields, not as JSON text.

Modules:

- `Wrappers` (`wrappers.dfy`): `Option` and `Result`.
- `Numerals` (`numerals.dfy`): `usize::to_string` as `NatToDecimal`. `DecimalValue` parses
  it back, and the two are proved inverse on canonical digit strings.
- `Types` (`types.dfy`, modelling `src/types.rs`): the records, the defaults, `Serialize`,
  `Deserialize` and the round-trip lemmas.
- `Requests` (`requests.dfy`, the pure part of `src/quickbooks.rs`): the path derivation,
  the headers, the request builders and the query text, as functions. Their `&self` is
  passed as the two fields they read, the cached `ApiPaths` and the token.
- `Client` (`client.dfy`, the stateful part of `src/quickbooks.rs`): the class
  `Quickbooks`, with its configuration (holding the token) and its cached paths.
  `Query` builds the query text by reassigning a local string, as the source does.
  `RefreshAccessToken` (the `ureq` path) and `RefreshAccessTokenWithReqwest` replace the
  token in place through one shared step, `ApplyTokenResponse`. They differ only in how a
  reply becomes a response: `ureq` treats every status of 400 or more as an error, while
  `reqwest` decodes the body whatever the status. The source calls the `ureq` path
  non-working and keeps the `reqwest` one as a stop-gap, presuming a `ureq` bug
  (src/quickbooks.rs:130, 136, 152-153). That transport fault is not modelled: both
  methods take the exchange as the abstract parameter `post`.

Four behaviours of the code that a reader may not expect; the model follows the code:

- `QueryConfig.max_results` is never read. The text always says `MAXRESULTS 1000`.
  Nothing is clamped or rejected (`QueryTextIgnoresMaxResults`, `PageSizeReadsBack`).
- The derived `AccessToken::default()` has an empty `token_type`. `"Bearer"` appears only
  when a record without `token_type` is decoded (`DefaultAccessTokenSerialization`).
- `read` always sends `?minorversion=65`, whatever minor version is configured
  (`ReadIgnoresMinorVersion`). Only the query URL uses the configured version.
- A start position of 0 is refused only by a debug assertion. Here it is a precondition
  of `Query`.

## Model

| member | source | states |
|---|---|---|
| `Numerals.NatToDecimal` | src/quickbooks.rs:81-83 | `to_string` of a count gives a canonical decimal: at least one digit, only digits, and a leading `0` exactly when the number is 0 |
| `Numerals.DecimalRoundTrip` | src/quickbooks.rs:83 | parsing the rendering of `n` gives `n` back |
| `Numerals.CanonicalRoundTrip` | src/quickbooks.rs:83 | every canonical digit string is the rendering of the number it denotes, so rendering is a bijection onto canonical strings |
| `Numerals.NatToDecimalInjective` | src/quickbooks.rs:83 | two numbers with the same decimal rendering are equal |
| `Types.Serialize` | src/types.rs:55-65 | a field is emitted exactly when it is non-empty, under its own name and with its own value, and no other key is emitted |
| `Types.Deserialize` | src/types.rs:46-65 | present fields are taken as given; a missing `access_token` or `refresh_token` is empty; a missing `token_type` is `"Bearer"` |
| `Types.DeserializeIgnoresUnknownKeys` | src/types.rs:55 | keys that name no field of `AccessToken` do not change the decoded token |
| `Types.DefaultQueryConfig` | src/types.rs:34-43 | `QueryConfig::default()`: its start position meets the at-least-1 requirement of `query`, and its page size is `MAX_QUERY_LENGTH` (1000) |
| `Types.DefaultAccessToken` | src/types.rs:55-65 | the derived `AccessToken::default()`: all three fields empty, so its token type is not the `"Bearer"` that decoding supplies |
| `Types.DefaultQueryConfigFields` | src/types.rs:34-43 | the default query configuration has no clauses, start position 1 (so it meets the start-position requirement of `query`) and page size 1000 |
| `Types.DefaultAccessTokenSerialization` | src/types.rs:55-65 | the derived default token serializes to a record with no fields; decoding that record gives an empty token of type `"Bearer"`, which is not the default token |
| `Types.RoundTrip` | src/types.rs:57-65 | decoding a serialized token gives it back when its type is non-empty, and otherwise gives it back with type `"Bearer"` |
| `Types.RoundTripStable` | src/types.rs:57-65 | a second serialize-then-decode round trip changes nothing |
| `Types.RecordRoundTrip` | src/types.rs:57-65 | a record of non-empty token fields survives decode-then-serialize unchanged, except that a missing `token_type` is added as `"Bearer"` |
| `Requests.MinorVersion` | src/quickbooks.rs:28-32 | the minor version of the query URL: the configured `minor_version`, or `65` when there is no API configuration |
| `Requests.DerivePaths` | src/quickbooks.rs:28-45 | `base` is the base URL, `/v3/company/` and the company id; `query` is `base`, `/query?minorversion=` and the configured minor version, or `65` without an API configuration |
| `Requests.PathsIgnoreTokenAndCredentials` | src/quickbooks.rs:38-45 | the paths depend on neither the token nor the client credentials |
| `Requests.PathsDetermineCompanyAndVersion` | src/quickbooks.rs:38-45 | the company id and the minor version can be read back from the paths, and the query URL extends the base URL |
| `Requests.SandboxPathsExample` | src/quickbooks.rs:28-45 | for the sandbox base URL and company `123` with no API configuration, the query URL is `https://sandbox-quickbooks.api.intuit.com/v3/company/123/query?minorversion=65` |
| `Requests.SetHeaders` | src/quickbooks.rs:55-63 | appends exactly `Accept: application/json`, `Content-Type: application/json` and `Authorization: <token_type> <access_token>`, in that order, and changes nothing else |
| `Requests.AuthorizationSplits` | src/quickbooks.rs:59-62 | when the token type has no space, splitting the Authorization value at its first space gives back the token type and the access token, empty ones included |
| `Requests.BuildQuery` | src/quickbooks.rs:67-73 | a GET to the cached query URL with the three headers and the single parameter `("query", q)` |
| `Requests.Read` | src/quickbooks.rs:98-108 | a GET to `base/key/id?minorversion=65` with the three headers and no parameters |
| `Requests.ReadIgnoresMinorVersion` | src/quickbooks.rs:98-105 | two clients that differ only in their API configuration build the same read request |
| `Requests.CompanyInfo` | src/quickbooks.rs:110-112 | a query request whose only parameter is `SELECT * FROM CompanyInfo` |
| `Requests.ReadItem` | src/quickbooks.rs:114-116 | the read of key `item`, with URL `base/item/<id>?minorversion=65` |
| `Requests.ReadItemExample` | src/quickbooks.rs:98-116 | reading item `42` of sandbox company `123` targets `https://sandbox-quickbooks.api.intuit.com/v3/company/123/item/42?minorversion=65` |
| `Requests.QueryText` | src/quickbooks.rs:79-92 | the text `query` builds: it begins with the head and the decimal start position, and it is exactly that when neither clause is present (the clauses are stated by `ClausesExtendPlainText`) |
| `Requests.QueryHeadSpelledOut` | src/quickbooks.rs:79-84 | the text before the start position is `SELECT * FROM <key> MAXRESULTS 1000 STARTPOSITION ` |
| `Requests.PlainQueryText` | src/quickbooks.rs:79-84 | with no clauses the query text is exactly `SELECT * FROM <key> MAXRESULTS 1000 STARTPOSITION <n>` |
| `Requests.QueryTextIgnoresMaxResults` | src/quickbooks.rs:79-84 | changing `max_results` does not change the query text |
| `Requests.DefaultQueryText` | src/types.rs:34-43 | the default configuration gives `SELECT * FROM <key> MAXRESULTS 1000 STARTPOSITION 1` |
| `Requests.ClausesExtendPlainText` | src/quickbooks.rs:86-92 | clauses only extend the plain text, which is the whole text exactly when both clauses are absent; with only WHERE present the text is the plain one plus ` WHERE <w>`, with only ORDERBY present it is the plain one plus ` ORDERBY <o>`, and with both it is the plain one plus ` WHERE <w> ORDERBY <o>`, WHERE first |
| `Requests.NumberReadsBack` | src/quickbooks.rs:79-84 | a number written between a prefix and a non-digit reads back as itself |
| `Requests.PageSizeReadsBack` | src/quickbooks.rs:79-84 | the number after `MAXRESULTS ` reads back as 1000, whatever the configuration |
| `Requests.StartPositionReadsBack` | src/quickbooks.rs:79-92 | the number after `STARTPOSITION ` reads back as the configured start position, whatever the clauses hold |
| `Requests.StartPositionDeterminesText` | src/quickbooks.rs:79-92 | two queries over the same resource with the same text ask for the same start position, so distinct start positions give distinct texts |
| `Client.Quickbooks.constructor` | src/quickbooks.rs:24-49 | keeps the configuration and caches the paths derived from it |
| `Client.Quickbooks.Query` | src/quickbooks.rs:75-95 | requires a start position of at least 1; builds the query request for the text `QueryText` describes, using the cached query URL and the current token |
| `Client.Quickbooks.QueryItems` | src/quickbooks.rs:125-128 | the list query over `Item` |
| `Client.Quickbooks.QueryCustomers` | src/quickbooks.rs:118-120 | the list query over `Customer` |
| `Client.StatusCheckedOutcome` | src/quickbooks.rs:137-145 | on the `ureq` path a reply with a status of 400 or more is a `Status` error whatever its body, only a reply below 400 can deliver a token record, and below 400 it agrees with the `reqwest` reading |
| `Client.UncheckedOutcome` | src/quickbooks.rs:170-177 | the `reqwest` reading of a reply: `send()?` fails only when there is no reply, and `json()?` decodes the body whatever the status, so it never reports a status error |
| `Client.OutcomesDifferOnlyOnErrorStatus` | src/quickbooks.rs:137-145 | the `ureq` and `reqwest` readings of a reply differ exactly when the reply has a status of 400 or more |
| `Client.UncheckedAcceptsRejectedGrant` | src/quickbooks.rs:170-177 | on the `reqwest` path a status-400 reply with body `{"error": "invalid_grant"}` is delivered and decodes to an empty Bearer token, while the `ureq` path reports `Status(400)` |
| `Client.Quickbooks.ApplyTokenResponse` | src/quickbooks.rs:145-149 | a delivered record is decoded, replaces the whole token and is returned; an error is returned with the configuration unchanged; the paths never change |
| `Client.Quickbooks.RefreshAccessToken` | src/quickbooks.rs:131-150 | sends the current refresh token and applies the reply as the `ureq` path reads it; the paths and every other configuration field never change |
| `Client.Quickbooks.RefreshAccessTokenWithReqwest` | src/quickbooks.rs:154-182 | sends the current refresh token and applies the reply as the `reqwest` path reads it, decoding the body whatever the status |

## Left out

- Network I/O: building the `ureq` agent (5-second timeout, HTTPS only) and every
  `.call()` and `.send()`. The requests are modelled up to the point where they are sent.
  The responses of `read`, `query` and `company_info` are not modelled.
- The exchange with the token endpoint is the parameter `post` of both refresh methods.
  It maps the refresh token sent to what came back: no reply, or a status and a body.
- The refresh request itself is not built. This covers the Basic credentials header
  (section 2 of RFC 7617, a foreign call) and the token endpoint URL. It also covers the
  two ways the grant travels: as URL parameters with `ureq`, or as a form body with
  `reqwest`. The state effect shared by the two refresh methods is modelled once, in
  `ApplyTokenResponse`.
- Percent-encoding of the `query` parameter is done inside `ureq`, so parameters stay
  raw (name, value) pairs. How `ureq` merges them with the `?minorversion=` already in
  the URL is not modelled either.
- `Request::set` replaces an earlier header of the same name. It is modelled as an append.
  This gives the same result here, because every request starts with no headers and the
  three names differ.
- JSON text. A reply body is modelled by what serde makes of it when it decodes an
  `AccessToken`. The body decodes when it is an object in which each token key appears at
  most once and holds a string, or the array form listing the fields in order. The
  decoded body is then the record of the token fields it supplied. That record may also
  hold other keys, such as the numeric `expires_in` of an ordinary reply, which decoding
  ignores (`DeserializeIgnoresUnknownKeys`). Every other body gives a `Decode` error,
  including one that repeats a token key.
- `start_position` is a `usize`. It is modelled as an unbounded `nat`, and the 64-bit bound
  is not modelled.
- `Client.Quickbooks.Query` requires a start position of at least 1. In the source this
  is only a debug assertion, so a release build would send `STARTPOSITION 0`.
- The payments-API base URLs of `src/constants.rs` are never used by the client.
  `src/constants.rs` is not part of this model beyond the inlined page size and base URLs.

## Findings

| source | as written | input that shows it | evidently intended | confidence | as-written member | corrected member |
|---|---|---|---|---|---|---|
| src/quickbooks.rs:170-179 | `refresh_access_token_with_reqwest` decodes the body of any reply and stores it as the token, whatever the status | a status-400 reply with body `{"error": "invalid_grant"}` decodes to `AccessToken("", "", "Bearer")`, which replaces the token and is returned as `Ok` (`UncheckedAcceptsRejectedGrant`) | a reply with an error status is an error and leaves the token unchanged, as `.call()?` gives on the `ureq` path (`error_for_status()` before decoding); the source calls that path non-working for another reason, a presumed `ureq` bug, which is not modelled | medium, not executed | `Client.Quickbooks.RefreshAccessTokenWithReqwest` | `Client.StatusCheckedOutcome` |
