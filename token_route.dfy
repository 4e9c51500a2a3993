/**
 * The token route `POST /api/linear/token`: it validates the JSON body and
 * forwards an access-token request with the authorization-code grant
 * (section 4.1.3 of RFC 6749) to the tracker's token endpoint.
 */
module LinearTokenRoute {
  import opened Wrappers
  import opened Strings
  import LinearAuth

  /** The incoming request: no body at all, a body that is not JSON, or the two JSON fields (absent when missing). */
  datatype RequestBody =
    | NoBody
    | NotJson
    | Json(refreshToken: Option<string>, redirectURI: Option<string>)

  /** The form parameters of the outbound token request. */
  datatype TokenParams = TokenParams(
    code: string, redirectUri: string, clientId: string, clientSecret: string, grantType: string)

  /** What the token endpoint does with the request: the fetch throws, its body is not JSON, or it answers with a JSON body. */
  datatype Upstream = FetchThrows | BodyNotJson | Answer(json: string)

  datatype ReplyBody = ErrorMessage(error: string) | ThrownError | Passthrough(json: string)

  /**
   * What the handler does: it responds, or it throws before its `try`
   * (`req.json()` on a body that is not JSON), which the framework turns
   * into its own error response.
   */
  datatype Reply = Respond(status: int, body: ReplyBody) | Unhandled

  /** The reply, and the token request sent upstream, if any. */
  datatype RouteResult = RouteResult(reply: Reply, sent: Option<TokenParams>)

  /** The parameters the route sends for an authorization code and redirect URI. */
  function TokenRequest(code: string, redirectUri: string, clientId: string, clientSecret: string): TokenParams {
    TokenParams(code, redirectUri, clientId, clientSecret, "authorization_code")
  }

  /**
   * `POST(req)`. `clientId` and `clientSecret` are the configured
   * `LINEAR.OAUTH_ID` and `LINEAR_OAUTH_SECRET`.
   */
  function Post(body: RequestBody, clientId: string, clientSecret: string, upstream: Upstream): (r: RouteResult)
    ensures body.NoBody? ==> r == RouteResult(Respond(400, ErrorMessage("Request is missing body")), None)
    ensures body.NotJson? ==> r == RouteResult(Unhandled, None)
    ensures body.Json? && !(Truthy(body.refreshToken) && Truthy(body.redirectURI)) ==>
              r == RouteResult(Respond(400, ErrorMessage("Missing token or redirect URI")), None)
    ensures r.sent.Some? <==> body.Json? && Truthy(body.refreshToken) && Truthy(body.redirectURI)
    ensures r.sent.Some? ==>
              r.sent.value == TokenParams(body.refreshToken.value, body.redirectURI.value, clientId, clientSecret, "authorization_code")
    ensures r.sent.Some? && upstream.Answer? ==> r.reply == Respond(200, Passthrough(upstream.json))
    ensures r.sent.Some? && !upstream.Answer? ==> r.reply == Respond(500, ThrownError)
  {
    match body
    case NoBody => RouteResult(Respond(400, ErrorMessage("Request is missing body")), None)
    case NotJson => RouteResult(Unhandled, None)
    case Json(refreshToken, redirectURI) =>
      if !Truthy(refreshToken) || !Truthy(redirectURI) then
        RouteResult(Respond(400, ErrorMessage("Missing token or redirect URI")), None)
      else
        var params := TokenRequest(refreshToken.value, redirectURI.value, clientId, clientSecret);
        match upstream
        case Answer(json) => RouteResult(Respond(200, Passthrough(json)), Some(params))
        case _ => RouteResult(Respond(500, ThrownError), Some(params))
  }

  /** Every reply with status 200 carries the token endpoint's JSON verbatim, whatever status that endpoint used. */
  lemma OkIsPassthrough(body: RequestBody, clientId: string, clientSecret: string, upstream: Upstream)
    requires Post(body, clientId, clientSecret, upstream).reply.Respond?
    requires Post(body, clientId, clientSecret, upstream).reply.status == 200
    ensures upstream.Answer?
    ensures Post(body, clientId, clientSecret, upstream).reply.body == Passthrough(upstream.json)
  {
  }

  /**
   * End to end: the browser's exchange body for code `code`, posted to this
   * route, makes it send `code` as the authorization code and, as
   * `redirect_uri`, exactly the value the authorization URL carried.
   */
  lemma ExchangeUsesAuthorizedRedirect(clientId: string, clientSecret: string, origin: string,
                                       verificationCode: string, code: string, upstream: Upstream)
    requires code != "" && origin != ""
    requires '&' !in clientId && '&' !in origin && '&' !in verificationCode
    ensures var ex := LinearAuth.ExchangeLinearToken(code, origin);
            var r := Post(Json(Some(ex.refreshToken), Some(ex.redirectURI)), clientId, clientSecret, upstream);
            var query := LinearAuth.ParseQuery(SplitFirst(LinearAuth.GetLinearAuthURL(clientId, origin, verificationCode), '?').1);
            && r.sent.Some?
            && r.sent.value.code == code
            && r.sent.value.grantType == "authorization_code"
            && |query| == 6 && query[1] == ("redirect_uri", r.sent.value.redirectUri)
  {
    LinearAuth.AuthURLRoundTrip(clientId, origin, verificationCode);
  }
}
