/** The bearer-token credential of the client (`ThousandEyesAuth`): which
    token is used and the header set it produces. Reading the environment
    is not part of the model; the value of `TE_API_TOKEN` is a parameter. */
module Authentication {
  import opened Wrappers
  import PyText

  /** The environment variable consulted when no token is passed. */
  const TokenVariable := "TE_API_TOKEN"

  const ContentTypeHeader := "Content-Type"
  const AuthorizationHeader := "Authorization"
  const HalJson := "application/hal+json"
  const BearerPrefix := "Bearer "

  /** The `ValueError` raised when no token can be found. */
  datatype ConfigError = MissingToken

  /** The message of that `ValueError`; it names both places a token is
      looked for. */
  const MissingTokenMessage :=
    "OAuth2 bearer token must be provided via api_token or " + TokenVariable + " environment variable"

  /** A constructed credential; its token is never empty. */
  datatype Auth = Auth(token: string)

  /** A token Python treats as present: not `None` and not empty. */
  predicate Given(token: Option<string>) {
    token.Some? && token.value != ""
  }

  /** `ThousandEyesAuth(api_token)`, with `env` the value of `TE_API_TOKEN`
      (`None` when the variable is unset): `api_token or os.getenv(...)`,
      then a `ValueError` when the outcome is falsy. */
  function NewAuth(apiToken: Option<string>, env: Option<string>): (r: Result<Auth, ConfigError>)
    ensures r.Success? ==> r.value.token != ""
    ensures Given(apiToken) ==> r == Success(Auth(apiToken.value))
    ensures !Given(apiToken) && Given(env) ==> r == Success(Auth(env.value))
    ensures r.Failure? <==> !Given(apiToken) && !Given(env)
  {
    var chosen := if Given(apiToken) then apiToken else env;
    if Given(chosen) then Success(Auth(chosen.value)) else Failure(MissingToken)
  }

  /** `get_headers()`: the content type and the bearer authorization. */
  function GetHeaders(a: Auth): (h: map<string, string>)
    ensures h.Keys == {ContentTypeHeader, AuthorizationHeader} && |h| == 2
    ensures h[ContentTypeHeader] == HalJson
    ensures PyText.StartsWith(h[AuthorizationHeader], BearerPrefix)
  {
    map[ContentTypeHeader := HalJson, AuthorizationHeader := BearerPrefix + a.token]
  }

  /** The token carried by an `Authorization` header value. */
  function BearerToken(header: string): Option<string> {
    if PyText.StartsWith(header, BearerPrefix) then Some(header[|BearerPrefix|..]) else None
  }

  /** The authorization header carries exactly the credential's token, so two
      credentials produce the same headers only when they hold the same token. */
  lemma HeadersCarryToken(a: Auth, b: Auth)
    ensures BearerToken(GetHeaders(a)[AuthorizationHeader]) == Some(a.token)
    ensures GetHeaders(a) == GetHeaders(b) <==> a == b
  {
    var ha := GetHeaders(a)[AuthorizationHeader];
    assert ha[|BearerPrefix|..] == a.token;
    if GetHeaders(a) == GetHeaders(b) {
      var hb := GetHeaders(b)[AuthorizationHeader];
      assert hb[|BearerPrefix|..] == b.token;
    }
  }

  /** An explicit token wins over the environment whatever the environment
      holds, and the headers built from it carry that token. */
  lemma ExplicitTokenWins(token: string, env: Option<string>)
    requires token != ""
    ensures NewAuth(Some(token), env).Success?
    ensures BearerToken(GetHeaders(NewAuth(Some(token), env).value)[AuthorizationHeader]) == Some(token)
  {
    HeadersCarryToken(Auth(token), Auth(token));
  }
}
