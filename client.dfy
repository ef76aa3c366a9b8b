/**
  The client object: its configuration (which holds the token), its cached
  paths, the list queries it builds, and the token refresh that replaces the
  token in place.
 */
module Client {
  import opened Wrappers
  import opened Numerals
  import opened Types
  import opened Requests

  /** Why a call to a remote endpoint failed. */
  datatype ApiError =
    | Transport(reason: string)  // no reply: connection, TLS or timeout
    | Status(code: nat)          // a reply with an error status
    | Decode                     // a reply body that does not decode into a token

  /**
    What came back from posting the refresh token to the token endpoint.
    `body` is `Some(m)` exactly when serde decodes the body into an
    `AccessToken`: an object in which each token key appears at most once and
    holds a string, or the array form listing the fields in order. `m` maps the
    token keys the body supplied to their values; it may also hold other keys,
    which decoding ignores. Every other body, one repeating a token key
    included, is `None`.
   */
  datatype HttpReply = NoReply(reason: string) | Reply(status: nat, body: Option<Record>)

  /** A reply as the refresh code sees it: a record to decode, or an error. */
  datatype TokenResponse = Delivered(body: Record) | Failed(error: ApiError)

  /** Decoding the body into an `AccessToken`, whatever the status (`into_json()?`, `json()?`). */
  function DecodeBody(body: Option<Record>): TokenResponse {
    match body
    case None => Failed(Decode)
    case Some(m) => Delivered(m)
  }

  /**
    The `ureq` path: `.call()?` fails when there is no reply and on every status
    of 400 or more, before the body is looked at.
   */
  function StatusCheckedOutcome(reply: HttpReply): (o: TokenResponse)
    ensures reply.Reply? && reply.status >= 400 ==> o == Failed(Status(reply.status))
    ensures o.Delivered? ==> reply.Reply? && reply.status < 400
    ensures !(reply.Reply? && reply.status >= 400) ==> o == UncheckedOutcome(reply)
  {
    match reply
    case NoReply(reason) => Failed(Transport(reason))
    case Reply(status, body) => if status >= 400 then Failed(Status(status)) else DecodeBody(body)
  }

  /**
    The `reqwest` path: `.send()?` fails only when there is no reply, and
    `.json()?` decodes the body without looking at the status.
   */
  function UncheckedOutcome(reply: HttpReply): (o: TokenResponse)
    ensures o.Failed? ==> !o.error.Status?
    ensures reply.Reply? ==> o == DecodeBody(reply.body)
  {
    match reply
    case NoReply(reason) => Failed(Transport(reason))
    case Reply(_, body) => DecodeBody(body)
  }

  /** The two refresh paths see the same reply differently exactly when its status is an error status. */
  lemma OutcomesDifferOnlyOnErrorStatus(reply: HttpReply)
    ensures StatusCheckedOutcome(reply) != UncheckedOutcome(reply) <==> reply.Reply? && reply.status >= 400
    ensures reply.Reply? && reply.status >= 400 ==> StatusCheckedOutcome(reply) == Failed(Status(reply.status))
  {
  }

  /**
    On the `reqwest` path a rejected grant (status 400, body
    `{"error": "invalid_grant"}`) is delivered as a token record, and it
    decodes to an empty token of type "Bearer".
   */
  lemma UncheckedAcceptsRejectedGrant()
    ensures var reply := Reply(400, Some(map["error" := "invalid_grant"]));
      UncheckedOutcome(reply).Delivered?
      && Deserialize(UncheckedOutcome(reply).body) == AccessToken("", "", DefaultTokenType)
      && StatusCheckedOutcome(reply) == Failed(Status(400))
  {
  }

  /**
    The state effect shared by both refresh paths: a delivered record is
    decoded and replaces the whole token, which is also returned; an error is
    returned and the configuration is left as it was.
   */
  predicate RefreshEffect(before: QuickbooksConfig, response: TokenResponse,
                          r: Result<AccessToken, ApiError>, after: QuickbooksConfig) {
    match response
    case Delivered(body) => r == Ok(Deserialize(body)) && after == before.(token := Deserialize(body))
    case Failed(e) => r == Err(e) && after == before
  }

  class Quickbooks {
    var config: QuickbooksConfig
    var paths: ApiPaths

    /** The cached paths are those derived from the configuration. */
    ghost predicate Valid()
      reads this
    {
      paths == DerivePaths(config)
    }

    /** `From<QuickbooksConfig>`: keeps the configuration and computes the paths once. */
    constructor (config: QuickbooksConfig)
      ensures Valid() && this.config == config
    {
      this.config := config;
      this.paths := DerivePaths(config);
    }

    /**
      `query`: builds the query text step by step and wraps it in a query
      request. A start position of 0 is refused before anything is built.
     */
    method Query(key: string, queryConfig: QueryConfig) returns (r: Request)
      requires queryConfig.startPosition >= 1
      ensures r == BuildQuery(paths, config.token, QueryText(key, queryConfig))
    {
      var query := "SELECT * FROM " + key + " MAXRESULTS " + NatToDecimal(MaxQueryLength)
        + " STARTPOSITION " + NatToDecimal(queryConfig.startPosition);
      assert query == QueryHead(key) + NatToDecimal(queryConfig.startPosition);
      if queryConfig.whereClause.Some? {
        query := query + " WHERE " + queryConfig.whereClause.value;
      }
      assert query == QueryHead(key) + NatToDecimal(queryConfig.startPosition)
        + Clause(" WHERE ", queryConfig.whereClause);
      if queryConfig.orderBy.Some? {
        query := query + " ORDERBY " + queryConfig.orderBy.value;
      }
      assert query == QueryText(key, queryConfig);
      r := BuildQuery(paths, config.token, query);
    }

    /** `query_items`: a list query over `Item`. */
    method QueryItems(queryConfig: QueryConfig) returns (r: Request)
      requires queryConfig.startPosition >= 1
      ensures r == BuildQuery(paths, config.token, QueryText("Item", queryConfig))
    {
      r := Query("Item", queryConfig);
    }

    /** `query_customers`: a list query over `Customer`. */
    method QueryCustomers(queryConfig: QueryConfig) returns (r: Request)
      requires queryConfig.startPosition >= 1
      ensures r == BuildQuery(paths, config.token, QueryText("Customer", queryConfig))
    {
      r := Query("Customer", queryConfig);
    }

    /**
      Applies a token-endpoint response: replaces the token on a delivered
      record, changes nothing on an error. The paths never change.
     */
    method ApplyTokenResponse(response: TokenResponse) returns (r: Result<AccessToken, ApiError>)
      requires Valid()
      modifies this
      ensures Valid() && paths == old(paths)
      ensures RefreshEffect(old(config), response, r, config)
    {
      if response.Failed? {
        return Err(response.error);
      }
      var token := Deserialize(response.body);
      PathsIgnoreTokenAndCredentials(config, token, config.clientId, config.clientSecret);
      config := config.(token := token);
      r := Ok(token);
    }

    /**
      `refresh_access_token`: posts the current refresh token to the token
      endpoint (`post` stands for that exchange) and applies the reply, an
      error status counting as an error.
     */
    method RefreshAccessToken(post: string -> HttpReply) returns (r: Result<AccessToken, ApiError>)
      requires Valid()
      modifies this
      ensures Valid() && paths == old(paths)
      ensures RefreshEffect(old(config), StatusCheckedOutcome(post(old(config.token.refreshToken))), r, config)
    {
      r := ApplyTokenResponse(StatusCheckedOutcome(post(config.token.refreshToken)));
    }

    /**
      `refresh_access_token_with_reqwest`: the same exchange, but the body is
      decoded whatever the status of the reply.
     */
    method RefreshAccessTokenWithReqwest(post: string -> HttpReply) returns (r: Result<AccessToken, ApiError>)
      requires Valid()
      modifies this
      ensures Valid() && paths == old(paths)
      ensures RefreshEffect(old(config), UncheckedOutcome(post(old(config.token.refreshToken))), r, config)
    {
      r := ApplyTokenResponse(UncheckedOutcome(post(config.token.refreshToken)));
    }
  }

  /**
    A refresh that succeeds replaces both tokens; one refused with status 401
    changes nothing; a rejected grant (status 400) changes nothing on the
    `ureq` path but replaces the token by an empty Bearer token on the
    `reqwest` path.
   */
  method RefreshScenario(config: QuickbooksConfig)
    requires config.token == AccessToken("old", "old-r", "Bearer")
  {
    var client := new Quickbooks(config);
    var body := map[AccessTokenKey := "new", RefreshTokenKey := "new-r", TokenTypeKey := "Bearer"];
    var result := client.RefreshAccessToken((sent: string) => Reply(200, Some(body)));
    assert client.config.token == AccessToken("new", "new-r", "Bearer");
    assert result == Ok(client.config.token);
    assert client.config.companyId == config.companyId;

    var before := client.config;
    result := client.RefreshAccessToken((sent: string) => Reply(401, None));
    assert result == Err(Status(401));
    assert client.config == before;

    var rejected := Reply(400, Some(map["error" := "invalid_grant"]));
    result := client.RefreshAccessToken((sent: string) => rejected);
    assert result == Err(Status(400));
    assert client.config == before;

    result := client.RefreshAccessTokenWithReqwest((sent: string) => rejected);
    assert result.Ok? && client.config.token == AccessToken("", "", "Bearer");
  }
}
