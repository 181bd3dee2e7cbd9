/**
 * The OAuth2 session of src/OAuth2.ts: the authorisation URL of the authorization-code
 * grant (section 4.1 of RFC 6749), the choice between the stored token, a refresh
 * (section 6 of RFC 6749) and a new authorisation, the code exchange, and log-in/log-out.
 *
 * The keychain is the shared `Keychain` object; the clock is the `now` parameter; the local
 * redirect listener contributes the port it was given and the `code` it received; the token
 * endpoint's answer is the `response` parameter (`None` when the request failed).
 */
module OAuth2Session {
  import opened Wrappers
  import opened Text
  import opened JsonValues
  import opened Keychain

  /** `Scope: string | string[]`. */
  datatype Scope = Single(text: string) | Many(items: seq<string>)

  /**
   * The constructor's options. `additionalParams` keeps the entries of `AdditionalParams`
   * in their order; `sendAsJson` is `None` when the option is omitted.
   */
  datatype Credentials = Credentials(
    serviceId: string,
    clientId: string,
    clientSecret: string,
    scope: Scope,
    authUrl: string,
    tokenUrl: string,
    additionalParams: Option<seq<(string, string)>>,
    sendAsJson: Option<bool>)

  /** The body encoding of a token request: `.type("json")` or `.type("form")`. */
  datatype Encoding = AsJson | AsForm

  /** One `POST` to the token URL. */
  datatype TokenRequest = TokenRequest(url: string, encoding: Encoding, body: map<string, Json>)

  /** The margin `TokenExpired` applies: ten minutes, in milliseconds. */
  const ExpiryMarginMillis: int := 10 * 60 * 1000

  /**
   * The getter `Scopes`: a string scope passes through; a non-empty list of space-free
   * scopes is joined by single spaces, so that it can be read back from its text.
   */
  function ScopeText(scope: Scope): (r: string)
    ensures scope.Single? ==> r == scope.text
    ensures scope.Many? && |scope.items| >= 1 && (forall k :: 0 <= k < |scope.items| ==> ' ' !in scope.items[k])
      ==> Split(r, " ") == scope.items
  {
    match scope
    case Single(text) => text
    case Many(items) =>
      var r := Join(items, " ");
      if |items| >= 1 && forall k :: 0 <= k < |items| ==> ' ' !in items[k] then
        SplitJoin(items, ' ');
        r
      else r
  }

  /**
   * The getter `RedirectURI`: `http://localhost:`, the port in decimal, then `/auth`. The
   * port can be read back from the digits, and the URI carries no `&` or `?`.
   */
  function RedirectUri(port: nat): (r: string)
    ensures |r| >= 23 && r[..17] == "http://localhost:" && r[|r| - 5..] == "/auth"
    ensures forall k :: 17 <= k < |r| - 5 ==> IsDigit(r[k])
    ensures DecimalValue(r[17..|r| - 5]) == port
    ensures QuerySafe(r)
  {
    var digits := NatToDecimal(port);
    var r := "http://localhost:" + digits + "/auth";
    assert r[17..|r| - 5] == digits;
    DecimalRoundTrip(port);
    assert QuerySafe("http://localhost:") && QuerySafe("/auth");
    assert forall k :: 0 <= k < |digits| ==> IsDigit(digits[k]);
    r
  }

  /** `key=val` for each additional parameter, in entry order. */
  function ParamPairs(params: seq<(string, string)>): (r: seq<string>)
    ensures |r| == |params|
    ensures forall k :: 0 <= k < |params| ==> r[k] == params[k].0 + "=" + params[k].1
  {
    seq(|params|, k requires 0 <= k < |params| => params[k].0 + "=" + params[k].1)
  }

  /**
   * The tail of the URL that `AdditionalParams` contributes: nothing when the option is
   * absent, otherwise `&` and the joined pairs; an empty object is truthy, so it leaves `&`.
   */
  function ExtraQuery(params: Option<seq<(string, string)>>): string
  {
    match params
    case None => ""
    case Some(ps) => "&" + Join(ParamPairs(ps), "&")
  }

  /**
   * The getter `AuthURL`, with the port the redirect listener was given: the base URL, `?`,
   * and the query parameters joined with `&`. No value is percent-encoded.
   */
  function AuthUrl(c: Credentials, port: nat): (r: string)
    ensures r == c.authUrl + "?" + Join(QueryParams(c, port), "&")
  {
    TemplateShape(c.authUrl, c.clientId, ScopeText(c.scope), RedirectUri(port), c.additionalParams);
    c.authUrl + "?" + ("client_id=" + c.clientId) + "&" + ("scope=" + ScopeText(c.scope))
      + "&" + "response_type=code" + "&" + ("redirect_uri=" + RedirectUri(port)) + ExtraQuery(c.additionalParams)
  }

  /** The parameters after the fixed four: none, the pairs, or one empty one for an empty object. */
  function ExtraParams(params: Option<seq<(string, string)>>): seq<string>
  {
    match params
    case None => []
    case Some(ps) => if ps == [] then [""] else ParamPairs(ps)
  }

  /** The four fixed parameters, then the extra ones. */
  function ParamList(id: string, scope: string, redirect: string, params: Option<seq<(string, string)>>): seq<string>
  {
    ["client_id=" + id, "scope=" + scope, "response_type=code", "redirect_uri=" + redirect] + ExtraParams(params)
  }

  /** The query parameters the URL carries, in order. */
  function QueryParams(c: Credentials, port: nat): seq<string>
  {
    ParamList(c.clientId, ScopeText(c.scope), RedirectUri(port), c.additionalParams)
  }

  /** Four parts joined: the separator between each neighbouring pair. */
  lemma Join4(a: string, b: string, c: string, d: string, sep: string)
    ensures Join([a, b, c, d], sep) == a + sep + b + sep + c + sep + d
  {
    assert [a, b, c, d][1..] == [b, c, d];
    assert [b, c, d][1..] == [c, d];
    assert [c, d][1..] == [d];
    assert Join([c, d], sep) == c + sep + d;
    assert Join([b, c, d], sep) == b + sep + (c + sep + d);
    assert Join([a, b, c, d], sep) == a + sep + (b + sep + (c + sep + d));
  }

  /** A prefix followed by four parts and their separators, regrouped around the parts. */
  lemma Regroup(p: string, a: string, b: string, c: string, d: string, sep: string)
    ensures p + a + sep + b + sep + c + sep + d == p + (a + sep + b + sep + c + sep + d)
  {
  }

  /** The fixed part of the template literal is the base, `?` and the four parameters joined with `&`. */
  lemma QueryHead(base: string, id: string, scope: string, redirect: string)
    ensures base + "?" + ("client_id=" + id) + "&" + ("scope=" + scope) + "&" + "response_type=code" + "&" + ("redirect_uri=" + redirect)
      == base + "?" + Join(["client_id=" + id, "scope=" + scope, "response_type=code", "redirect_uri=" + redirect], "&")
  {
    Join4("client_id=" + id, "scope=" + scope, "response_type=code", "redirect_uri=" + redirect, "&");
    Regroup(base + "?", "client_id=" + id, "scope=" + scope, "response_type=code", "redirect_uri=" + redirect, "&");
  }

  /** The template literal of `AuthURL` is the base URL, `?`, and the parameters joined with `&`. */
  lemma TemplateShape(base: string, id: string, scope: string, redirect: string, params: Option<seq<(string, string)>>)
    ensures base + "?" + ("client_id=" + id) + "&" + ("scope=" + scope) + "&" + "response_type=code" + "&"
        + ("redirect_uri=" + redirect) + ExtraQuery(params)
      == base + "?" + Join(ParamList(id, scope, redirect, params), "&")
  {
    var fixed := ["client_id=" + id, "scope=" + scope, "response_type=code", "redirect_uri=" + redirect];
    QueryHead(base, id, scope, redirect);
    match params
    case None =>
      assert ParamList(id, scope, redirect, params) == fixed;
    case Some(ps) =>
      var extra := ExtraParams(params);
      assert ParamList(id, scope, redirect, params) == fixed + extra;
      JoinAppend(fixed, extra, "&");
      assert Join(extra, "&") == Join(ParamPairs(ps), "&");
  }

  /**
   * Extra parameters come after the four fixed ones, each as `&key=val` in entry order;
   * an empty `AdditionalParams` object is still truthy and leaves a lone trailing `&`.
   */
  lemma AdditionalParamsAppended(c: Credentials, port: nat)
    requires c.additionalParams.Some?
    ensures var plain := AuthUrl(c.(additionalParams := None), port);
      c.additionalParams.value == [] ==> AuthUrl(c, port) == plain + "&"
    ensures var plain := AuthUrl(c.(additionalParams := None), port);
      c.additionalParams.value != [] ==>
        AuthUrl(c, port) == plain + "&" + Join(ParamPairs(c.additionalParams.value), "&")
  {
    var ps := c.additionalParams.value;
    assert ExtraQuery(None) == "";
    if ps == [] {
      assert ParamPairs(ps) == [];
    }
  }

  /** Text that neither ends a query-string value nor starts the query. */
  predicate QuerySafe(s: string)
  {
    '&' !in s && '?' !in s
  }

  /** Every query parameter is query-safe when the client id, the scope and the extra pairs are. */
  lemma QueryParamsSafe(c: Credentials, port: nat)
    requires QuerySafe(c.clientId) && QuerySafe(ScopeText(c.scope))
    requires c.additionalParams.Some? ==>
      forall k :: 0 <= k < |c.additionalParams.value| ==>
        QuerySafe(c.additionalParams.value[k].0) && QuerySafe(c.additionalParams.value[k].1)
    ensures forall k :: 0 <= k < |QueryParams(c, port)| ==> QuerySafe(QueryParams(c, port)[k])
  {
    var qs := QueryParams(c, port);
    forall k | 0 <= k < |qs|
      ensures QuerySafe(qs[k])
    {
      if k == 0 {
        assert QuerySafe("client_id=");
      } else if k == 1 {
        assert QuerySafe("scope=");
      } else if k == 2 {
        assert qs[k] == "response_type=code";
      } else if k == 3 {
        assert QuerySafe("redirect_uri=");
      } else {
        var ps := c.additionalParams.value;
        if ps != [] {
          assert QuerySafe("=");
          assert qs[k] == ps[k - 4].0 + "=" + ps[k - 4].1;
        }
      }
    }
  }

  /**
   * When no value contains `&` or `?`, a consumer splitting the URL on `?` and the query
   * on `&` recovers the base URL and exactly the parameters, in order.
   */
  lemma AuthUrlParameters(c: Credentials, port: nat)
    requires '?' !in c.authUrl
    requires QuerySafe(c.clientId) && QuerySafe(ScopeText(c.scope))
    requires c.additionalParams.Some? ==>
      forall k :: 0 <= k < |c.additionalParams.value| ==>
        QuerySafe(c.additionalParams.value[k].0) && QuerySafe(c.additionalParams.value[k].1)
    ensures Split(AuthUrl(c, port), "?") == [c.authUrl, Join(QueryParams(c, port), "&")]
    ensures Split(Join(QueryParams(c, port), "&"), "&") == QueryParams(c, port)
  {
    var qs := QueryParams(c, port);
    QueryParamsSafe(c, port);
    SplitJoin(qs, '&');
    var query := Join(qs, "&");
    JoinQuerySafe(qs);
    assert [c.authUrl, query][1..] == [query];
    assert AuthUrl(c, port) == Join([c.authUrl, query], "?");
    SplitJoin([c.authUrl, query], '?');
  }

  /** Joining query-safe parameters with `&` adds no `?`. */
  lemma {:induction false} JoinQuerySafe(qs: seq<string>)
    requires forall k :: 0 <= k < |qs| ==> QuerySafe(qs[k])
    ensures '?' !in Join(qs, "&")
  {
    if |qs| > 1 {
      JoinQuerySafe(qs[1..]);
    }
  }

  /**
   * The number `<` compares for a stored value: `null` is 0 and booleans are 0 or 1.
   * `None` stands for `NaN`, which compares false; strings, arrays and objects are given `NaN`.
   */
  function NumericValue(v: Json): Option<int>
  {
    match v
    case Null => Some(0)
    case Bool(b) => Some(if b then 1 else 0)
    case Num(n) => Some(n)
    case _ => None
  }

  /**
   * The getter `TokenExpired`: a non-null token whose `expiry` lies MORE than ten minutes
   * before `now`. (The comment beside the code describes the opposite margin.)
   */
  function IsExpired(token: Json, now: int): (r: bool)
    ensures token == Null || Get(token, "expiry").None? ==> !r
    ensures token != Null && Get(token, "expiry").Some? && Get(token, "expiry").value.Num? ==>
      (r <==> Get(token, "expiry").value.n < now - ExpiryMarginMillis)
    ensures token != Null && Get(token, "expiry") == Some(Null) ==> (r <==> ExpiryMarginMillis < now)
  {
    token != Null
    && match Get(token, "expiry")
       case None => false
       case Some(e) => NumericValue(e).Some? && NumericValue(e).value < now - ExpiryMarginMillis
  }

  /**
   * For a numeric expiry the test is `expiry < now - 600000`: at exactly ten minutes past
   * its expiry a token is still fresh, one millisecond later it is expired, and a token that
   * expired less than ten minutes ago counts as fresh.
   */
  lemma ExpiryBoundary(fields: map<string, Json>, e: int, now: int)
    requires "expiry" in fields && fields["expiry"] == Num(e)
    ensures IsExpired(Obj(fields), now) <==> e < now - 600000
    ensures e == now - 600000 ==> !IsExpired(Obj(fields), now)
    ensures e == now - 600001 ==> IsExpired(Obj(fields), now)
    ensures now - 600000 <= e < now ==> !IsExpired(Obj(fields), now)
  {
  }

  /** Once a token is expired it stays expired as the clock advances. */
  lemma ExpiredStaysExpired(token: Json, now: int, later: int)
    requires IsExpired(token, now) && now <= later
    ensures IsExpired(token, later)
  {
  }

  /**
   * The `expiry` written with a token: `now + expires_in * 1000`. A missing `expires_in`
   * gives `NaN`, stored by `JSON.stringify` as `null`.
   */
  function ExpiryFrom(body: map<string, Json>, now: int): (r: Json)
    ensures r.Null? || r.Num?
    ensures "expires_in" in body && body["expires_in"].Num? ==> r == Num(now + body["expires_in"].n * 1000)
    ensures "expires_in" !in body ==> r == Null
    ensures "expires_in" in body && body["expires_in"] == Null ==> r == Num(now)
  {
    var secs := if "expires_in" in body then NumericValue(body["expires_in"]) else None;
    match secs
    case Some(s) => Num(now + s * 1000)
    case None => Null
  }

  /**
   * `{...response.body, expiry: ...}`: the token is the response's fields with `expiry`
   * set; nothing of the previous token survives, so `refresh_token` or `platform` is
   * present only when the response carries it.
   */
  function WithExpiry(body: map<string, Json>, now: int): (t: Json)
    ensures t.Obj?
    ensures t.fields.Keys == body.Keys + {"expiry"}
    ensures forall k :: k in body && k != "expiry" ==> t.fields[k] == body[k]
    ensures "expires_in" in body && body["expires_in"].Num? ==>
      t.fields["expiry"] == Num(now + body["expires_in"].n * 1000)
  {
    Obj(body["expiry" := ExpiryFrom(body, now)])
  }

  /** `SendAsJSON` defaults to true (`{SendAsJSON: true, ...props}`). */
  function EncodingOf(c: Credentials): Encoding
  {
    if c.sendAsJson.Some? && !c.sendAsJson.value then AsForm else AsJson
  }

  /**
   * The code-exchange request, built after the listener received `code` (section 4.1.3 of
   * RFC 6749): the authorization-code grant with the received code and the same
   * `redirect_uri` the authorisation URL carried.
   */
  function ExchangeRequest(c: Credentials, code: string, port: nat): (r: TokenRequest)
    ensures r.url == c.tokenUrl && r.encoding == EncodingOf(c)
    ensures r.body.Keys == {"code", "client_id", "client_secret", "grant_type", "redirect_uri", "scope"}
    ensures r.body["grant_type"] == Str("authorization_code") && r.body["code"] == Str(code)
    ensures r.body["client_id"] == Str(c.clientId) && r.body["client_secret"] == Str(c.clientSecret)
    ensures r.body["redirect_uri"].Str? && "redirect_uri=" + r.body["redirect_uri"].s == QueryParams(c, port)[3]
    ensures r.body["scope"].Str? && "scope=" + r.body["scope"].s == QueryParams(c, port)[1]
  {
    TokenRequest(c.tokenUrl, EncodingOf(c), map[
      "code" := Str(code),
      "client_id" := Str(c.clientId),
      "client_secret" := Str(c.clientSecret),
      "grant_type" := Str("authorization_code"),
      "redirect_uri" := Str(RedirectUri(port)),
      "scope" := Str(ScopeText(c.scope))])
  }

  /**
   * The refresh request (section 6 of RFC 6749): the refresh-token grant carrying the
   * token's own `refresh_token`; an absent one is `undefined`, which the body leaves out.
   */
  function RefreshRequest(c: Credentials, token: Json): (r: TokenRequest)
    ensures r.url == c.tokenUrl && r.encoding == EncodingOf(c)
    ensures r.body.Keys == {"client_id", "client_secret", "grant_type"}
      + (if Get(token, "refresh_token").Some? then {"refresh_token"} else {})
    ensures r.body["grant_type"] == Str("refresh_token")
    ensures r.body["client_id"] == Str(c.clientId) && r.body["client_secret"] == Str(c.clientSecret)
    ensures Get(token, "refresh_token").Some? ==> r.body["refresh_token"] == Get(token, "refresh_token").value
  {
    var base := map[
      "client_id" := Str(c.clientId),
      "client_secret" := Str(c.clientSecret),
      "grant_type" := Str("refresh_token")];
    TokenRequest(c.tokenUrl, EncodingOf(c),
      match Get(token, "refresh_token")
      case Some(v) => base["refresh_token" := v]
      case None => base)
  }

  /** The session's fields (`token`, `port`) and the keychain. */
  datatype SessionState = SessionState(token: Json, port: nat, stored: map<string, Secret>)

  /** What one call returns, the state it leaves, and the token request it sent, if any. */
  datatype Step<+R> = Step(result: R, after: SessionState, sent: Option<TokenRequest>)

  /** The state after a token was received: kept in `token` and written under `ServiceID`. */
  function Persist(c: Credentials, s: SessionState, t: Json): SessionState
  {
    s.(token := t, stored := s.stored[c.serviceId := Stringify(t)])
  }

  /**
   * `GetAuthToken` once the listener on `listenPort` received `code`: the exchange is sent;
   * a successful answer is persisted and returned, a failed one resolves `null` and writes
   * nothing.
   */
  function Exchange(c: Credentials, s: SessionState, listenPort: nat, code: string, now: int,
                    response: Option<map<string, Json>>): (st: Step<Json>)
    ensures st.sent == Some(ExchangeRequest(c, code, listenPort))
    ensures st.sent.value.body["grant_type"] == Str("authorization_code")
    ensures st.after.port == listenPort
    ensures response.None? ==> st.result == Null && st.after == s.(port := listenPort)
    ensures response.Some? ==>
      st.result == WithExpiry(response.value, now) && st.after.token == st.result
      && st.after.stored == s.stored[c.serviceId := Stringify(st.result)]
  {
    var s1 := s.(port := listenPort);
    var request := ExchangeRequest(c, code, listenPort);
    match response
    case None => Step(Null, s1, Some(request))
    case Some(body) =>
      var t := WithExpiry(body, now);
      Step(t, Persist(c, s1, t), Some(request))
  }

  /** The message of the error `RefreshToken` throws without a token. */
  const NoTokenError: string := "Token does not exist; cannot refresh `null`."

  /**
   * `RefreshToken`: without a (truthy) token it throws before sending anything; otherwise
   * a successful answer replaces the token and the record, and a failed one returns `null`
   * and leaves both as they were.
   */
  function Refresh(c: Credentials, s: SessionState, now: int,
                   response: Option<map<string, Json>>): (st: Step<Result<Json>>)
    ensures !Truthy(s.token) <==> st.result.Failure?
    ensures !Truthy(s.token) ==> st.sent == None && st.after == s
    ensures Truthy(s.token) ==> st.sent == Some(RefreshRequest(c, s.token))
    ensures Truthy(s.token) && response.None? ==> st.result == Success(Null) && st.after == s
    ensures Truthy(s.token) && response.Some? ==>
      st.result == Success(WithExpiry(response.value, now))
      && st.after == s.(token := st.result.value, stored := s.stored[c.serviceId := Stringify(st.result.value)])
  {
    if !Truthy(s.token) then Step(Failure(NoTokenError), s, None)
    else
      var request := RefreshRequest(c, s.token);
      match response
      case None => Step(Success(Null), s, Some(request))
      case Some(body) =>
        var t := WithExpiry(body, now);
        Step(Success(t), Persist(c, s, t), Some(request))
  }

  /**
   * `GetAccessToken`: no record starts the authorisation; an unparsable record gives
   * `null`; a parsed record becomes `token` and is returned unless expired, in which case it
   * is refreshed. `response` answers whichever request this call sends.
   */
  function AccessToken(c: Credentials, s: SessionState, now: int, listenPort: nat, code: string,
                       response: Option<map<string, Json>>): (st: Step<Result<Json>>)
    ensures st.result.Success?
    ensures st.sent.None? <==>
      c.serviceId in s.stored && (Parse(s.stored[c.serviceId]).None? || !IsExpired(Parse(s.stored[c.serviceId]).value, now))
    ensures st.after.port == (if c.serviceId in s.stored then s.port else listenPort)
  {
    if c.serviceId !in s.stored then
      var st := Exchange(c, s, listenPort, code, now, response);
      Step(Success(st.result), st.after, st.sent)
    else
      match Parse(s.stored[c.serviceId])
      case None => Step(Success(Null), s, None)
      case Some(history) =>
        var s1 := s.(token := history);
        if !IsExpired(history, now) then Step(Success(history), s1, None)
        else
          assert history.Obj?;
          Refresh(c, s1, now, response)
  }

  /** With no record the authorisation flow runs and its exchange is the only request. */
  lemma NoRecordAuthorizes(c: Credentials, s: SessionState, now: int, listenPort: nat, code: string,
                           response: Option<map<string, Json>>)
    requires c.serviceId !in s.stored
    ensures var st := AccessToken(c, s, now, listenPort, code, response);
      && st.sent == Some(ExchangeRequest(c, code, listenPort))
      && (response.Some? ==>
            st.result == Success(WithExpiry(response.value, now))
            && st.after.stored == s.stored[c.serviceId := Encoded(WithExpiry(response.value, now))])
      && (response.None? ==> st.result == Success(Null) && st.after.stored == s.stored)
  {
  }

  /** A record that `JSON.parse` rejects yields `null`; nothing is sent, stored or assigned. */
  lemma UnparsableRecordYieldsNull(c: Credentials, s: SessionState, now: int, listenPort: nat,
                                   code: string, response: Option<map<string, Json>>)
    requires c.serviceId in s.stored && !s.stored[c.serviceId].Encoded?
    ensures AccessToken(c, s, now, listenPort, code, response) == Step(Success(Null), s, None)
  {
  }

  /** A parsed, unexpired record is returned as it is, with no request and no write. */
  lemma FreshRecordServed(c: Credentials, s: SessionState, now: int, listenPort: nat, code: string,
                          response: Option<map<string, Json>>)
    requires c.serviceId in s.stored && s.stored[c.serviceId].Encoded?
    requires !IsExpired(s.stored[c.serviceId].value, now)
    ensures var st := AccessToken(c, s, now, listenPort, code, response);
      var t := s.stored[c.serviceId].value;
      st.result == Success(t) && st.sent == None && st.after.stored == s.stored && st.after.token == t
  {
  }

  /**
   * An expired record is refreshed with its own `refresh_token`; on success the new token
   * replaces it, on failure `null` is returned and the record stays.
   */
  lemma ExpiredRecordRefreshed(c: Credentials, s: SessionState, now: int, listenPort: nat,
                               code: string, response: Option<map<string, Json>>)
    requires c.serviceId in s.stored && s.stored[c.serviceId].Encoded?
    requires IsExpired(s.stored[c.serviceId].value, now)
    ensures var st := AccessToken(c, s, now, listenPort, code, response);
      var old_ := s.stored[c.serviceId].value;
      && st.sent == Some(RefreshRequest(c, old_))
      && (response.None? ==> st.result == Success(Null) && st.after.stored == s.stored && st.after.token == old_)
      && (response.Some? ==>
            st.result == Success(WithExpiry(response.value, now))
            && st.after.stored == s.stored[c.serviceId := Encoded(WithExpiry(response.value, now))])
  {
    assert Truthy(s.stored[c.serviceId].value);
  }

  /** Only the record under `ServiceID` can change; every other keychain entry stays. */
  lemma AccessTokenTouchesOnlyItsRecord(c: Credentials, s: SessionState, now: int, listenPort: nat,
                                        code: string, response: Option<map<string, Json>>)
    ensures var st := AccessToken(c, s, now, listenPort, code, response);
      st.after.stored.Keys <= s.stored.Keys + {c.serviceId}
      && forall k :: k in s.stored && k != c.serviceId ==> k in st.after.stored && st.after.stored[k] == s.stored[k]
  {
    var st := AccessToken(c, s, now, listenPort, code, response);
    if c.serviceId !in s.stored {
      var ex := Exchange(c, s, listenPort, code, now, response);
      assert st.after == ex.after;
      if response.Some? {
        assert st.after.stored == s.stored[c.serviceId := Stringify(ex.result)];
      }
    } else if Parse(s.stored[c.serviceId]).Some? {
      var history := Parse(s.stored[c.serviceId]).value;
      var s1 := s.(token := history);
      if IsExpired(history, now) {
        var rf := Refresh(c, s1, now, response);
        assert st.after == rf.after;
        if Truthy(history) && response.Some? {
          assert st.after.stored == s.stored[c.serviceId := Stringify(rf.result.value)];
        } else {
          assert st.after.stored == s.stored;
        }
      }
    }
  }

  /**
   * A token obtained by a successful exchange is served from the keychain, without any
   * request, at every later time up to ten minutes after its expiry.
   */
  lemma ExchangedTokenReused(c: Credentials, s: SessionState, now: int, listenPort: nat, code: string,
                             body: map<string, Json>, later: int, port2: nat, code2: string,
                             response2: Option<map<string, Json>>)
    requires c.serviceId !in s.stored
    requires "expires_in" in body && body["expires_in"].Num?
    requires later <= now + body["expires_in"].n * 1000 + ExpiryMarginMillis
    ensures var first := AccessToken(c, s, now, listenPort, code, Some(body));
      var second := AccessToken(c, first.after, later, port2, code2, response2);
      second.result == first.result && second.sent == None && second.after.stored == first.after.stored
  {
    var t := WithExpiry(body, now);
    assert Get(t, "expiry") == Some(Num(now + body["expires_in"].n * 1000));
  }

  /**
   * A token whose response carried no `expires_in` is stored with `expiry: null`, which
   * compares as 0: once the clock is past ten minutes, every later `GetAccessToken` refreshes it.
   */
  lemma TokenWithoutLifetimeRefreshed(c: Credentials, s: SessionState, now: int, listenPort: nat, code: string,
                                      body: map<string, Json>, later: int, port2: nat, code2: string,
                                      response2: Option<map<string, Json>>)
    requires c.serviceId !in s.stored && "expires_in" !in body
    requires later > ExpiryMarginMillis
    ensures var first := AccessToken(c, s, now, listenPort, code, Some(body));
      var second := AccessToken(c, first.after, later, port2, code2, response2);
      first.result == Success(WithExpiry(body, now))
      && second.sent == Some(RefreshRequest(c, WithExpiry(body, now)))
  {
    var t := WithExpiry(body, now);
    assert Get(t, "expiry") == Some(Null);
  }

  /** The state `Logout` leaves: no token, no record under `ServiceID`. */
  function LoggedOut(c: Credentials, s: SessionState): (r: SessionState)
    ensures r.token == Null && r.port == s.port
    ensures c.serviceId !in r.stored
    ensures forall k :: k in s.stored && k != c.serviceId ==> k in r.stored && r.stored[k] == s.stored[k]
    ensures r.stored.Keys == s.stored.Keys - {c.serviceId}
  {
    s.(token := Null, stored := s.stored - {c.serviceId})
  }

  /** After `Logout` the next `GetAccessToken` starts a new authorisation. */
  lemma LogoutForcesAuthorization(c: Credentials, s: SessionState, now: int, listenPort: nat,
                                  code: string, response: Option<map<string, Json>>)
    ensures AccessToken(c, LoggedOut(c, s), now, listenPort, code, response).sent
      == Some(ExchangeRequest(c, code, listenPort))
  {
  }

  /** The `OAuth2` class: its fields `token` and `port`, and the keychain it reads and writes. */
  class OAuth2 {
    const props: Credentials
    const keychain: Keychain
    var token: Json
    var port: nat

    constructor(props: Credentials, keychain: Keychain)
      ensures this.props == props && this.keychain == keychain
      ensures token == Null && port == 0
    {
      this.props := props;
      this.keychain := keychain;
      token := Null;
      port := 0;
    }

    /** The session's fields and the keychain as one value. */
    ghost function State(): SessionState
      reads this, keychain
    {
      SessionState(token, port, keychain.entries)
    }

    /** `GetAccessToken()`. */
    method GetAccessToken(now: int, listenPort: nat, code: string, response: Option<map<string, Json>>)
      returns (r: Result<Json>, sent: Option<TokenRequest>)
      modifies this, keychain
      ensures var st := AccessToken(props, old(State()), now, listenPort, code, response);
        r == st.result && sent == st.sent && State() == st.after
    {
      var store := keychain.GetPassword(props.serviceId);
      if store.Some? {
        var history := Parse(store.value);
        if history.None? {
          // JSON.parse threw: logged, and null is returned.
          return Success(Null), None;
        }
        token := history.value;
        if !IsExpired(token, now) {
          return Success(token), None;
        }
        r, sent := RefreshToken(now, response);
      } else {
        var t;
        t, sent := GetAuthToken(now, listenPort, code, response);
        r := Success(t);
      }
    }

    /** `GetAuthToken()` from the moment the listener is bound on `listenPort` and received `code`. */
    method GetAuthToken(now: int, listenPort: nat, code: string, response: Option<map<string, Json>>)
      returns (r: Json, sent: Option<TokenRequest>)
      modifies this, keychain
      ensures var st := Exchange(props, old(State()), listenPort, code, now, response);
        r == st.result && sent == st.sent && State() == st.after
    {
      port := listenPort;
      sent := Some(ExchangeRequest(props, code, port));
      if response.None? {
        // The request failed: logged, and the promise resolves null.
        return Null, sent;
      }
      token := WithExpiry(response.value, now);
      keychain.SetPassword(props.serviceId, Stringify(token));
      r := token;
    }

    /** `RefreshToken()`; `Failure` is the error thrown when there is no token. */
    method RefreshToken(now: int, response: Option<map<string, Json>>)
      returns (r: Result<Json>, sent: Option<TokenRequest>)
      modifies this, keychain
      ensures var st := Refresh(props, old(State()), now, response);
        r == st.result && sent == st.sent && State() == st.after
    {
      if !Truthy(token) {
        return Failure(NoTokenError), None;
      }
      sent := Some(RefreshRequest(props, token));
      if response.None? {
        return Success(Null), sent;
      }
      token := WithExpiry(response.value, now);
      keychain.SetPassword(props.serviceId, Stringify(token));
      r := Success(token);
    }

    /** `LoggedIn()`: a record exists under `ServiceID`, fresh or not. */
    predicate LoggedIn()
      reads this, keychain
      ensures LoggedIn() <==> props.serviceId in keychain.entries
    {
      keychain.GetPassword(props.serviceId).Some?
    }

    /** `Logout()`: forgets the token and deletes the record under `ServiceID` only. */
    method Logout() returns (deleted: bool)
      modifies this, keychain
      ensures State() == LoggedOut(props, old(State()))
      ensures deleted == (props.serviceId in old(keychain.entries))
    {
      token := Null;
      deleted := keychain.DeletePassword(props.serviceId);
    }
  }
}
