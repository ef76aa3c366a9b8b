/**
  The request descriptions the client builds: the cached endpoint paths, the
  authentication headers, the query text and the read, query and
  company-info requests. Only the description is modelled; sending it is not.
 */
module Requests {
  import opened Wrappers
  import opened Numerals
  import opened Types

  datatype Method = Get

  /** A header or a URL parameter, as a (name, value) pair. */
  type Pair = (string, string)

  /** An HTTP request as built before `.call()`: method, URL, headers and parameters, in order. */
  datatype Request = Request(verb: Method, url: string, headers: seq<Pair>, params: seq<Pair>)

  /** The two URLs the client computes once, at construction. */
  datatype ApiPaths = ApiPaths(base: string, query: string)

  const DefaultMinorVersion := "65"
  const CompanyPathSegment := "/v3/company/"
  const QueryPathPrefix := "/query?minorversion="
  const JsonMediaType := "application/json"

  /** The minor version sent with queries: the configured one, else "65". */
  function MinorVersion(config: QuickbooksConfig): (v: string)
    ensures config.api == None ==> v == DefaultMinorVersion
    ensures config.api != None ==> v == config.api.value.minorVersion
  {
    match config.api
    case None => DefaultMinorVersion
    case Some(api) => api.minorVersion
  }

  /** `From<QuickbooksConfig>`: the company base URL and the query URL under it. */
  function DerivePaths(config: QuickbooksConfig): (p: ApiPaths)
    ensures p.base == config.baseUrl + CompanyPathSegment + config.companyId
    ensures p.query == p.base + QueryPathPrefix + MinorVersion(config)
  {
    var base := config.baseUrl + CompanyPathSegment + config.companyId;
    ApiPaths(base, base + "/query" + "?minorversion=" + MinorVersion(config))
  }

  /** The paths depend on neither the token nor the credentials. */
  lemma PathsIgnoreTokenAndCredentials(config: QuickbooksConfig, t: AccessToken, id: string, secret: string)
    ensures DerivePaths(config.(token := t, clientId := id, clientSecret := secret)) == DerivePaths(config)
  {
  }

  /** The company id and the minor version can be read back from the derived paths. */
  lemma PathsDetermineCompanyAndVersion(config: QuickbooksConfig)
    ensures var p := DerivePaths(config);
      var k := |config.baseUrl + CompanyPathSegment|;
      k <= |p.base| && p.base[k..] == config.companyId
      && p.base <= p.query
      && p.query[|p.base + QueryPathPrefix|..] == MinorVersion(config)
  {
  }

  /** The spelled-out paths for a sandbox company "123" with no API configuration. */
  lemma SandboxPathsExample(config: QuickbooksConfig)
    requires config.baseUrl == SandboxBaseUrl && config.companyId == "123" && config.api == None
    ensures DerivePaths(config).base == "https://sandbox-quickbooks.api.intuit.com/v3/company/123"
    ensures DerivePaths(config).query
      == "https://sandbox-quickbooks.api.intuit.com/v3/company/123/query?minorversion=65"
  {
  }

  /** `Request::set`: adds a header after those already present. */
  function SetHeader(r: Request, name: string, value: string): Request {
    r.(headers := r.headers + [(name, value)])
  }

  /** The value of the Authorization header: token type, one space, access token. */
  function AuthorizationValue(token: AccessToken): string {
    token.tokenType + " " + token.accessToken
  }

  /** The three headers every API request carries, in order. */
  function AuthHeaders(token: AccessToken): seq<Pair> {
    [("Accept", JsonMediaType), ("Content-Type", JsonMediaType), ("Authorization", AuthorizationValue(token))]
  }

  /** `SetHeaders::set_headers`: appends the three authentication headers and changes nothing else. */
  function SetHeaders(r: Request, token: AccessToken): (r': Request)
    ensures r'.verb == r.verb && r'.url == r.url && r'.params == r.params
    ensures r'.headers == r.headers + AuthHeaders(token)
  {
    SetHeader(SetHeader(SetHeader(r, "Accept", JsonMediaType), "Content-Type", JsonMediaType),
      "Authorization", AuthorizationValue(token))
  }

  /** Splits an Authorization value into scheme and credentials at its first space. */
  function SplitAtSpace(s: string): (parts: (string, string))
    ensures ' ' !in parts.0
  {
    if s == [] then ([], [])
    else if s[0] == ' ' then ([], s[1..])
    else var rest := SplitAtSpace(s[1..]); ([s[0]] + rest.0, rest.1)
  }

  /**
    When the token type has no space (as "Bearer"), a server splitting the
    Authorization value at its first space recovers the token type and the
    access token, whatever they are, empty ones included.
   */
  lemma {:induction false} AuthorizationSplits(token: AccessToken)
    requires ' ' !in token.tokenType
    ensures SplitAtSpace(AuthorizationValue(token)) == (token.tokenType, token.accessToken)
    decreases |token.tokenType|
  {
    var v := AuthorizationValue(token);
    if token.tokenType != [] {
      var rest := token.(tokenType := token.tokenType[1..]);
      assert v[0] == token.tokenType[0] && v[0] != ' ';
      assert v[1..] == AuthorizationValue(rest);
      AuthorizationSplits(rest);
      assert [token.tokenType[0]] + rest.tokenType == token.tokenType;
    } else {
      assert v == [' '] + token.accessToken;
    }
  }

  /** `build_query`: a GET to the cached query URL with the auth headers and one `query` parameter. */
  function BuildQuery(paths: ApiPaths, token: AccessToken, query: string): (r: Request)
    ensures r.verb == Get && r.url == paths.query
    ensures r.headers == AuthHeaders(token)
    ensures r.params == [("query", query)]
  {
    SetHeaders(Request(Get, paths.query, [], []), token).(params := [("query", query)])
  }

  /** `read`: a GET of one entity, always at minor version 65, with the auth headers and no parameters. */
  function Read(paths: ApiPaths, token: AccessToken, key: string, id: string): (r: Request)
    ensures r.verb == Get && r.params == []
    ensures r.url == paths.base + "/" + key + "/" + id + "?minorversion=" + DefaultMinorVersion
    ensures r.headers == AuthHeaders(token)
  {
    SetHeaders(Request(Get, paths.base + "/" + key + "/" + id + "?minorversion=65", [], []), token)
  }

  /** `company_info`: the fixed query for the company record. */
  function CompanyInfo(paths: ApiPaths, token: AccessToken): (r: Request)
    ensures r.verb == Get && r.url == paths.query && r.headers == AuthHeaders(token)
    ensures r.params == [("query", "SELECT * FROM CompanyInfo")]
  {
    BuildQuery(paths, token, "SELECT * FROM CompanyInfo")
  }

  /** `read_item`: reads one item under the lower-case key `item`. */
  function ReadItem(paths: ApiPaths, token: AccessToken, id: string): (r: Request)
    ensures r == Read(paths, token, "item", id)
    ensures r.url == paths.base + "/item/" + id + "?minorversion=65"
  {
    Read(paths, token, "item", id)
  }

  /** Reads ignore the configured minor version: two clients that differ only in it read the same URL. */
  lemma ReadIgnoresMinorVersion(config: QuickbooksConfig, api: Option<ApiConfig>, key: string, id: string)
    ensures Read(DerivePaths(config), config.token, key, id)
      == Read(DerivePaths(config.(api := api)), config.token, key, id)
  {
  }

  /** A read of `item` "42" for a sandbox company "123". */
  lemma ReadItemExample(config: QuickbooksConfig)
    requires config.baseUrl == SandboxBaseUrl && config.companyId == "123"
    ensures ReadItem(DerivePaths(config), config.token, "42").url
      == "https://sandbox-quickbooks.api.intuit.com/v3/company/123/item/42?minorversion=65"
  {
    var base := DerivePaths(config).base;
    assert base == "https://sandbox-quickbooks.api.intuit.com/v3/company/123";
    assert base + "/item/" + "42" + "?minorversion=65"
      == "https://sandbox-quickbooks.api.intuit.com/v3/company/123/item/42?minorversion=65";
  }

  // ---------------------------------------------------------------------------
  // The query text of `query`

  /** The keyword (with its surrounding spaces) and the clause when the option is present, nothing otherwise. */
  function Clause(keyword: string, clause: Option<string>): string {
    match clause
    case None => ""
    case Some(c) => keyword + c
  }

  /** Everything before the start position: the resource and the fixed page size. */
  function QueryHead(key: string): string {
    "SELECT * FROM " + key + " MAXRESULTS " + NatToDecimal(MaxQueryLength) + " STARTPOSITION "
  }

  /**
    The text `query` sends: the head, the start position in decimal, then the
    WHERE clause and then the ORDERBY clause, each only when present.
   */
  function QueryText(key: string, config: QueryConfig): (text: string)
    ensures QueryHead(key) + NatToDecimal(config.startPosition) <= text
    ensures config.whereClause == None && config.orderBy == None ==>
      text == QueryHead(key) + NatToDecimal(config.startPosition)
  {
    QueryHead(key) + NatToDecimal(config.startPosition)
      + Clause(" WHERE ", config.whereClause) + Clause(" ORDERBY ", config.orderBy)
  }

  /** The page size written is always 1000. */
  lemma QueryHeadSpelledOut(key: string)
    ensures QueryHead(key) == "SELECT * FROM " + key + " MAXRESULTS 1000 STARTPOSITION "
  {
  }

  /** With no clauses the text is exactly the head and the start position, whatever `maxResults` is. */
  lemma PlainQueryText(key: string, config: QueryConfig)
    requires config.whereClause == None && config.orderBy == None
    ensures QueryText(key, config)
      == "SELECT * FROM " + key + " MAXRESULTS 1000 STARTPOSITION " + NatToDecimal(config.startPosition)
  {
  }

  /** `maxResults` has no effect on the text. */
  lemma QueryTextIgnoresMaxResults(key: string, config: QueryConfig, m: nat)
    ensures QueryText(key, config.(maxResults := m)) == QueryText(key, config)
  {
  }

  /** The default configuration asks for the first page with no clauses. */
  lemma DefaultQueryText(key: string)
    ensures QueryText(key, DefaultQueryConfig()) == "SELECT * FROM " + key + " MAXRESULTS 1000 STARTPOSITION 1"
  {
  }

  /**
    Clauses only extend the plain text, and the text is the plain one exactly
    when both clauses are absent; each present clause is appended once, and
    when both are present, WHERE comes first.
   */
  lemma ClausesExtendPlainText(key: string, config: QueryConfig)
    ensures var plain := QueryText(key, config.(whereClause := None, orderBy := None));
      var text := QueryText(key, config);
      plain <= text && (text == plain <==> config.whereClause == None && config.orderBy == None)
    ensures config.whereClause.Some? && config.orderBy.Some? ==>
      QueryText(key, config) == QueryText(key, config.(whereClause := None, orderBy := None))
        + " WHERE " + config.whereClause.value + " ORDERBY " + config.orderBy.value
    ensures config.whereClause.Some? && config.orderBy.None? ==>
      QueryText(key, config) == QueryText(key, config.(whereClause := None))
        + " WHERE " + config.whereClause.value
    ensures config.whereClause.None? && config.orderBy.Some? ==>
      QueryText(key, config) == QueryText(key, config.(orderBy := None))
        + " ORDERBY " + config.orderBy.value
  {
  }

  /** A number rendered between a prefix and text that does not start with a digit reads back. */
  lemma NumberReadsBack(prefix: string, n: nat, tail: string)
    requires tail == [] || !IsDigit(tail[0])
    ensures var text := prefix + NatToDecimal(n) + tail;
      |prefix| <= |text| && DecimalValue(LeadingDigits(text[|prefix|..])) == n
  {
    var digits := NatToDecimal(n);
    assert (prefix + digits + tail)[|prefix|..] == digits + tail;
    LeadingDigitsOfDigitsThen(digits, tail);
    DecimalRoundTrip(n);
  }

  /** A server reading the number after "MAXRESULTS " gets 1000, whatever the configuration holds. */
  lemma PageSizeReadsBack(key: string, config: QueryConfig)
    ensures var text := QueryText(key, config);
      var m := |"SELECT * FROM " + key + " MAXRESULTS "|;
      m <= |text| && DecimalValue(LeadingDigits(text[m..])) == MaxQueryLength
  {
    var prefix := "SELECT * FROM " + key + " MAXRESULTS ";
    var rest := " STARTPOSITION " + NatToDecimal(config.startPosition)
      + Clause(" WHERE ", config.whereClause) + Clause(" ORDERBY ", config.orderBy);
    assert QueryText(key, config) == prefix + NatToDecimal(MaxQueryLength) + rest;
    NumberReadsBack(prefix, MaxQueryLength, rest);
  }

  /** A server reading the number after "STARTPOSITION " gets the configured start position, whatever the clauses hold. */
  lemma StartPositionReadsBack(key: string, config: QueryConfig)
    ensures var text := QueryText(key, config);
      var s := |QueryHead(key)|;
      s <= |text| && DecimalValue(LeadingDigits(text[s..])) == config.startPosition
  {
    var tail := Clause(" WHERE ", config.whereClause) + Clause(" ORDERBY ", config.orderBy);
    assert tail == [] || tail[0] == ' ';
    assert QueryText(key, config) == QueryHead(key) + NatToDecimal(config.startPosition) + tail;
    NumberReadsBack(QueryHead(key), config.startPosition, tail);
  }

  /** Two queries over the same resource with the same text ask for the same start position. */
  lemma StartPositionDeterminesText(key: string, c1: QueryConfig, c2: QueryConfig)
    requires QueryText(key, c1) == QueryText(key, c2)
    ensures c1.startPosition == c2.startPosition
  {
    StartPositionReadsBack(key, c1);
    StartPositionReadsBack(key, c2);
  }
}
