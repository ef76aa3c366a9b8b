/**
  The records of the client: API and query configuration, the client
  configuration, and the OAuth2 access token with its serialization rules.
  Serialization is modelled at the level of a record of named string fields
  (which keys are present and what they hold), not JSON text.
 */
module Types {
  import opened Wrappers

  /** The page size the client always asks for (`MAX_QUERY_LENGTH`). */
  const MaxQueryLength: nat := 1000

  const SandboxBaseUrl := "https://sandbox-quickbooks.api.intuit.com"

  datatype ApiConfig = ApiConfig(minorVersion: string)

  /** Options of one list query. `maxResults` is carried but never read by the client. */
  datatype QueryConfig = QueryConfig(
    whereClause: Option<string>,
    orderBy: Option<string>,
    startPosition: nat,
    maxResults: nat)

  /** The OAuth2 token pair held by the client. */
  datatype AccessToken = AccessToken(accessToken: string, refreshToken: string, tokenType: string)

  datatype QuickbooksConfig = QuickbooksConfig(
    clientId: string,
    clientSecret: string,
    baseUrl: string,
    companyId: string,
    token: AccessToken,
    api: Option<ApiConfig>)

  /** `QueryConfig::default()`: no clauses, first page, full page size. */
  function DefaultQueryConfig(): (c: QueryConfig)
    ensures c.startPosition >= 1
    ensures c.maxResults == MaxQueryLength
  {
    QueryConfig(None, None, 1, MaxQueryLength)
  }

  /** The derived `AccessToken::default()`: every field empty. */
  function DefaultAccessToken(): (t: AccessToken)
    ensures t.accessToken == "" && t.refreshToken == "" && t.tokenType == ""
    ensures t.tokenType != DefaultTokenType
  {
    AccessToken("", "", "")
  }

  /** The value `token_type` takes when a decoded record lacks it. */
  const DefaultTokenType := "Bearer"

  /** A serialized token: the fields present, by name. */
  type Record = map<string, string>

  const AccessTokenKey := "access_token"
  const RefreshTokenKey := "refresh_token"
  const TokenTypeKey := "token_type"
  const TokenKeys: set<string> := {AccessTokenKey, RefreshTokenKey, TokenTypeKey}

  /** The field stored under `key`, or `absent` when the record has none. */
  function FieldOr(m: Record, key: string, absent: string): string {
    if key in m then m[key] else absent
  }

  /** Adds `key: value` to `m` unless `value` is empty (`skip_serializing_if = "String::is_empty"`). */
  function PutNonEmpty(m: Record, key: string, value: string): Record {
    if value == "" then m else m[key := value]
  }

  /** Serializes a token: a field is emitted exactly when it is not empty. */
  function Serialize(t: AccessToken): (m: Record)
    ensures m.Keys <= TokenKeys
    ensures AccessTokenKey in m <==> t.accessToken != ""
    ensures RefreshTokenKey in m <==> t.refreshToken != ""
    ensures TokenTypeKey in m <==> t.tokenType != ""
    ensures AccessTokenKey in m ==> m[AccessTokenKey] == t.accessToken
    ensures RefreshTokenKey in m ==> m[RefreshTokenKey] == t.refreshToken
    ensures TokenTypeKey in m ==> m[TokenTypeKey] == t.tokenType
  {
    PutNonEmpty(PutNonEmpty(PutNonEmpty(map[], AccessTokenKey, t.accessToken),
      RefreshTokenKey, t.refreshToken), TokenTypeKey, t.tokenType)
  }

  /**
    Deserializes a token: a present field is taken as given, a missing
    `access_token` or `refresh_token` is empty, a missing `token_type` is
    "Bearer"; keys that name no field are ignored.
   */
  function Deserialize(m: Record): (t: AccessToken)
    ensures AccessTokenKey in m ==> t.accessToken == m[AccessTokenKey]
    ensures RefreshTokenKey in m ==> t.refreshToken == m[RefreshTokenKey]
    ensures TokenTypeKey in m ==> t.tokenType == m[TokenTypeKey]
    ensures AccessTokenKey !in m ==> t.accessToken == ""
    ensures RefreshTokenKey !in m ==> t.refreshToken == ""
    ensures TokenTypeKey !in m ==> t.tokenType == DefaultTokenType
  {
    AccessToken(
      FieldOr(m, AccessTokenKey, ""),
      FieldOr(m, RefreshTokenKey, ""),
      FieldOr(m, TokenTypeKey, DefaultTokenType))
  }

  /** Keys that name no token field do not affect decoding. */
  lemma DeserializeIgnoresUnknownKeys(m: Record, k: string, v: string)
    requires k !in TokenKeys
    ensures Deserialize(m[k := v]) == Deserialize(m)
    ensures Deserialize(m - {k}) == Deserialize(m)
  {
  }

  /** The default query configuration asks for the first page, so it meets `query`'s requirement. */
  lemma DefaultQueryConfigFields()
    ensures var c := DefaultQueryConfig();
      c.whereClause == None && c.orderBy == None && c.startPosition == 1
      && c.maxResults == MaxQueryLength
  {
  }

  /** The derived default token serializes to a record with no fields, and reads back as an empty Bearer token. */
  lemma DefaultAccessTokenSerialization()
    ensures Serialize(DefaultAccessToken()) == map[]
    ensures Deserialize(Serialize(DefaultAccessToken())) == AccessToken("", "", DefaultTokenType)
    ensures Deserialize(Serialize(DefaultAccessToken())) != DefaultAccessToken()
  {
  }

  /** Reading back a serialized token restores it, except that an empty token type comes back as "Bearer". */
  lemma RoundTrip(t: AccessToken)
    ensures t.tokenType != "" ==> Deserialize(Serialize(t)) == t
    ensures t.tokenType == "" ==> Deserialize(Serialize(t)) == t.(tokenType := DefaultTokenType)
  {
  }

  /** A second round trip changes nothing. */
  lemma RoundTripStable(t: AccessToken)
    ensures Deserialize(Serialize(Deserialize(Serialize(t)))) == Deserialize(Serialize(t))
  {
  }

  /** A record that names only token fields, none of them empty */
  predicate IsTokenRecord(m: Record) {
    m.Keys <= TokenKeys && forall k :: k in m ==> m[k] != ""
  }

  /**
    Serializing a decoded token record gives the record back, with the
    defaulted `token_type` added when it was missing.
   */
  lemma RecordRoundTrip(m: Record)
    requires IsTokenRecord(m)
    ensures Serialize(Deserialize(m)) == if TokenTypeKey in m then m else m[TokenTypeKey := DefaultTokenType]
  {
  }
}
