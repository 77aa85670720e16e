/**
 * The auth API client: the endpoint URLs and the requests it sends. The
 * fetches themselves and the reading of the response token are not modelled.
 */
module AuthApi {
  import opened Wrappers
  import Json

  /** `${v}` for a string or undefined (an unset environment variable). */
  function Interpolate(v: Option<string>): string {
    match v
    case Some(s) => s
    case None => "undefined"
  }

  /** AUTH_ENDPOINT: the API URL from the environment followed by "/auth". */
  function AuthEndpoint(apiUrl: Option<string>): string {
    Interpolate(apiUrl) + "/auth"
  }

  /** getCallbackUrl: provider and code are inserted as given, without escaping. */
  function CallbackUrl(apiUrl: Option<string>, provider: string, code: string): string {
    AuthEndpoint(apiUrl) + "/" + provider + "/callback?code=" + code
  }

  function RefreshUrl(apiUrl: Option<string>): string {
    AuthEndpoint(apiUrl) + "/refresh"
  }

  datatype Verb = Get | Post

  datatype Request = Request(url: string, verb: Verb, body: Option<string>, headers: seq<(string, string)>)

  /** The request getAuthToken sends: a plain fetch of the callback URL. */
  function AuthTokenRequest(apiUrl: Option<string>, provider: string, code: string): Request {
    Request(CallbackUrl(apiUrl, provider, code), Get, None, [])
  }

  /** The old auth token handed to refreshAuthToken: a string, null, or undefined. */
  datatype TokenArg = TokenString(token: string) | TokenNull | TokenUndefined

  /** JSON.stringify({ token: oldAuthToken }); an undefined property is dropped. */
  function RefreshBody(oldToken: TokenArg): string {
    match oldToken
    case TokenString(t) => "{\"token\":" + Json.Quote(t) + "}"
    case TokenNull => "{\"token\":null}"
    case TokenUndefined => "{}"
  }

  /** The request refreshAuthToken sends. */
  function RefreshRequest(apiUrl: Option<string>, oldToken: TokenArg): Request {
    Request(RefreshUrl(apiUrl), Post, Some(RefreshBody(oldToken)), [("Content-Type", "application/json")])
  }

  /** Reads the token argument back from a refresh body. */
  function ParseRefreshBody(body: string): Option<TokenArg> {
    var head := "{\"token\":";
    if body == "{}" then Some(TokenUndefined)
    else if body == "{\"token\":null}" then Some(TokenNull)
    else if |body| >= |head| + 1 && body[..|head|] == head && body[|body| - 1] == '}' then
      match Json.Unquote(body[|head|..|body| - 1])
      case Some(t) => Some(TokenString(t))
      case None => None
    else None
  }

  /**
   * The callback URL starts with the auth endpoint and "/", contains the
   * provider right after it, and ends with "/callback?code=" and the code.
   */
  lemma CallbackUrlShape(apiUrl: Option<string>, provider: string, code: string)
    ensures var u := CallbackUrl(apiUrl, provider, code); var e := AuthEndpoint(apiUrl);
      && |u| == |e| + 1 + |provider| + |"/callback?code="| + |code|
      && u[..|e| + 1] == e + "/"
      && u[|e| + 1..|e| + 1 + |provider|] == provider
      && u[|u| - |code| - |"/callback?code="|..] == "/callback?code=" + code
  {
    var u := CallbackUrl(apiUrl, provider, code);
    var e := AuthEndpoint(apiUrl);
    assert u == (e + "/") + provider + ("/callback?code=" + code);
  }

  /** An unset API URL gives the endpoint "undefined/auth". */
  lemma UnsetApiUrl()
    ensures AuthEndpoint(None) == "undefined/auth"
    ensures RefreshUrl(None) == "undefined/auth/refresh"
  {
  }

  /** getAuthToken fetches exactly the callback URL for its arguments, with a GET and no body. */
  lemma AuthTokenRequestShape(apiUrl: Option<string>, provider: string, code: string)
    ensures var r := AuthTokenRequest(apiUrl, provider, code);
      r.url == AuthEndpoint(apiUrl) + "/" + provider + "/callback?code=" + code && r.verb == Get && r.body.None?
  {
  }

  /**
   * The refresh request is a POST to "<endpoint>/refresh" with a JSON
   * content type, and its body carries the old token so that it reads back.
   */
  lemma RefreshRequestShape(apiUrl: Option<string>, oldToken: TokenArg)
    ensures var r := RefreshRequest(apiUrl, oldToken);
      && r.url == AuthEndpoint(apiUrl) + "/refresh"
      && r.verb == Post
      && r.headers == [("Content-Type", "application/json")]
      && r.body.Some? && ParseRefreshBody(r.body.value) == Some(oldToken)
  {
    if oldToken.TokenString? {
      var head := "{\"token\":";
      var q := Json.Quote(oldToken.token);
      var b := RefreshBody(oldToken);
      assert b == head + q + "}";
      assert b[..|head|] == head;
      assert b[|head|..|b| - 1] == q;
      Json.UnquoteQuote(oldToken.token);
      assert b[|head|] == '"';
    }
  }
}
