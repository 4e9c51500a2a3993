/**
 * The OAuth 2.0 authorization request of `src/utils/linear.ts`
 * (section 4.1.1 of RFC 6749) and the body the browser sends to the token
 * route in `exchangeLinearToken`.
 */
module LinearAuth {
  import opened Strings

  /** `LINEAR.OAUTH_URL`. */
  const OAuthUrl := "https://linear.app/oauth/authorize"
  /** `LINEAR.SCOPES`. */
  const Scopes: seq<string> := ["admin", "write"]

  /** A query parameter: its name and its value. */
  type Param = (string, string)

  /**
   * The `params` object of `getLinearAuthURL`, in the order `Object.keys`
   * lists it. `clientId` is `LINEAR.OAUTH_ID` as a template literal renders
   * it, `origin` is `window.location.origin`.
   */
  function AuthParams(clientId: string, origin: string, verificationCode: string): seq<Param> {
    [ ("client_id", clientId),
      ("redirect_uri", origin),
      ("scope", Join(Scopes, ',')),
      ("state", verificationCode),
      ("response_type", "code"),
      ("prompt", "consent") ]
  }

  /** One step of the `reduce`: "?" before the first pair, "&" before every later one; nothing is encoded. */
  function AppendParam(url: string, p: Param, i: nat): string {
    url + (if i == 0 then "?" else "&") + p.0 + "=" + p.1
  }

  /** `Object.keys(params).reduce(...)` from position `i` on. */
  function Reduce(url: string, params: seq<Param>, i: nat): string
    decreases |params|
  {
    if |params| == 0 then url else Reduce(AppendParam(url, params[0], i), params[1..], i + 1)
  }

  /** `getLinearAuthURL(verificationCode)`. */
  function GetLinearAuthURL(clientId: string, origin: string, verificationCode: string): string {
    Reduce(OAuthUrl, AuthParams(clientId, origin, verificationCode), 0)
  }

  /** `key=value`, with no percent-encoding. */
  function PairText(p: Param): string {
    p.0 + "=" + p.1
  }

  function PairTexts(params: seq<Param>): (r: seq<string>)
    ensures |r| == |params|
    ensures forall i | 0 <= i < |params| :: r[i] == PairText(params[i])
  {
    seq(|params|, i requires 0 <= i < |params| => PairText(params[i]))
  }

  /** The query component: the pairs joined with "&". */
  function QueryString(params: seq<Param>): string
    requires |params| >= 1
  {
    Join(PairTexts(params), '&')
  }

  /** After the first pair, every step of the reduce appends "&" and the pair. */
  lemma {:induction false} ReduceAfterFirst(url: string, params: seq<Param>, i: nat)
    requires i > 0 && |params| >= 1
    ensures Reduce(url, params, i) == url + "&" + QueryString(params)
    decreases |params|
  {
    var step := AppendParam(url, params[0], i);
    assert step == url + "&" + PairText(params[0]);
    if |params| == 1 {
      assert Reduce(step, params[1..], i + 1) == step;
      assert QueryString(params) == PairText(params[0]);
    } else {
      ReduceAfterFirst(step, params[1..], i + 1);
      assert PairTexts(params)[1..] == PairTexts(params[1..]);
      assert QueryString(params) == PairText(params[0]) + "&" + QueryString(params[1..]);
    }
  }

  /** The reduce yields the base URL, "?", then the pairs joined with "&", in list order. */
  lemma {:induction false} ReduceShape(url: string, params: seq<Param>)
    requires |params| >= 1
    ensures Reduce(url, params, 0) == url + "?" + QueryString(params)
  {
    var step := AppendParam(url, params[0], 0);
    assert step == url + "?" + PairText(params[0]);
    if |params| == 1 {
      assert Reduce(step, params[1..], 1) == step;
      assert QueryString(params) == PairText(params[0]);
    } else {
      ReduceAfterFirst(step, params[1..], 1);
      assert PairTexts(params)[1..] == PairTexts(params[1..]);
      assert QueryString(params) == PairText(params[0]) + "&" + QueryString(params[1..]);
    }
  }

  /** How an authorization server reads the query: pairs split at "&", each split at its first "=". */
  function ParseQuery(q: string): (params: seq<Param>) {
    var parts := Split(q, '&');
    seq(|parts|, i requires 0 <= i < |parts| => SplitFirst(parts[i], '='))
  }

  /** Reading back a query string gives the pairs, provided no name holds "=" or "&" and no value holds "&". */
  lemma QueryRoundTrip(params: seq<Param>)
    requires |params| >= 1
    requires forall i | 0 <= i < |params| :: '=' !in params[i].0 && '&' !in params[i].0 && '&' !in params[i].1
    ensures ParseQuery(QueryString(params)) == params
  {
    var texts := PairTexts(params);
    forall i | 0 <= i < |texts| ensures '&' !in texts[i] {
      assert texts[i] == params[i].0 + "=" + params[i].1;
    }
    SplitJoin(texts, '&');
    forall i | 0 <= i < |params| ensures SplitFirst(texts[i], '=') == params[i] {
      assert texts[i] == params[i].0 + ['='] + params[i].1;
      SplitFirstAt(params[i].0, params[i].1, '=');
    }
  }

  /** The scope value is "admin,write". */
  lemma ScopeValue()
    ensures Join(Scopes, ',') == "admin,write"
  {
  }

  /**
   * The authorization URL is `OAuthUrl`, "?", and exactly the six pairs
   * `client_id`, `redirect_uri`, `scope`, `state`, `response_type`,
   * `prompt` in that order: a server that splits the URL at "?", "&" and "="
   * reads back the verification code verbatim as `state`, `code` as
   * `response_type` and `consent` as `prompt`. Because nothing is
   * percent-encoded, this holds only while no value contains "&".
   */
  lemma AuthURLRoundTrip(clientId: string, origin: string, verificationCode: string)
    requires '&' !in clientId && '&' !in origin && '&' !in verificationCode
    ensures SplitFirst(GetLinearAuthURL(clientId, origin, verificationCode), '?').0 == OAuthUrl
    ensures ParseQuery(SplitFirst(GetLinearAuthURL(clientId, origin, verificationCode), '?').1)
         == [ ("client_id", clientId), ("redirect_uri", origin), ("scope", "admin,write"),
              ("state", verificationCode), ("response_type", "code"), ("prompt", "consent") ]
  {
    var params := AuthParams(clientId, origin, verificationCode);
    ScopeValue();
    ReduceShape(OAuthUrl, params);
    var q := QueryString(params);
    assert OAuthUrl + "?" + q == OAuthUrl + ['?'] + q;
    SplitFirstAt(OAuthUrl, q, '?');
    QueryRoundTrip(params);
  }

  /** The JSON body `exchangeLinearToken(code)` posts to the token route. */
  datatype ExchangeBody = ExchangeBody(refreshToken: string, redirectURI: string)

  /** `exchangeLinearToken(refreshToken)`: the redirect URI is again `window.location.origin`. */
  function ExchangeLinearToken(code: string, origin: string): ExchangeBody {
    ExchangeBody(code, origin)
  }
}
