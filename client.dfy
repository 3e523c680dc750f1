/** The client component: its configuration, its session and error state,
    the authorization link, the token exchange and the generic API call with
    the classification of the decoded reply. */
module YiiDirect {
  import opened Php
  import opened Encoding
  import opened QueryString
  import opened Recode

  const AuthorizeUrlBase: Bytes := Lit("https://oauth.yandex.ru/authorize")
  const TokenUrl: Bytes := Lit("https://oauth.yandex.ru/token")
  const JsonApiUrl: Bytes := Lit("https://api.direct.yandex.ru/v4/json/")
  const SandboxJsonApiUrl: Bytes := Lit("https://api-sandbox.direct.yandex.ru/json-api/v4/")

  const ErrorKey := StrKey("error")
  const AccessTokenKey := StrKey("access_token")
  const ErrorCodeKey := StrKey("error_code")
  const ErrorStrKey := StrKey("error_str")
  const ErrorDetailKey := StrKey("error_detail")

  const TokenKeys: seq<Key> :=
    [StrKey("grant_type"), StrKey("code"), StrKey("client_id"), StrKey("client_secret")]

  const EnvelopeKeys: seq<Key> :=
    [StrKey("method"), StrKey("param"), StrKey("locale"), StrKey("login"), StrKey("application_id"), StrKey("token")]

  /* ---------- authorization link ---------- */

  /** What `init` stores as the authorization link:
      AUTHORIZE_URL?response_type=...&client_id=... */
  function AuthorizeLink(responseType: Bytes, id: Bytes): Bytes
  {
    AuthorizeUrlBase + [QuestionMark] + BuildQuery(LinkPairs(responseType, id))
  }

  /** Read back through a query-string parser, the link carries exactly
      response_type and client_id with their configured values. */
  lemma AuthorizeLinkParams(responseType: Bytes, id: Bytes)
    ensures Params(AuthorizeLink(responseType, id)) == LinkPairs(responseType, id)
  {
    AsciiLitLacks("https://oauth.yandex.ru/authorize", '?');
    LinkParamsAlone(AuthorizeUrlBase, responseType, id);
  }

  /** `getAuthorizeUrl($state)`: a truthy state is appended as it is, without
      encoding; "" and "0" are falsy and leave the link alone. */
  function AuthorizeUrl(link: Bytes, state: Bytes): (url: Bytes)
    ensures |url| >= |link| && url[..|link|] == link
    ensures state == [] || state == Lit("0") ==> url == link
    ensures state != [] && state != Lit("0") ==> url == link + Lit("&state=") + state
  {
    if Truthy(Str(state)) then link + Lit("&state=") + state else link
  }

  /** The pairs `init` puts in the authorization link. */
  function LinkPairs(responseType: Bytes, id: Bytes): seq<(Bytes, Bytes)>
  {
    [(Lit("response_type"), responseType), (Lit("client_id"), id)]
  }

  lemma LinkPairsReadBack(responseType: Bytes, id: Bytes)
    ensures var pieces := SplitOn(BuildQuery(LinkPairs(responseType, id)), Ampersand);
      |pieces| == 2 &&
      ParsePair(pieces[0]) == (Lit("response_type"), responseType) &&
      ParsePair(pieces[1]) == (Lit("client_id"), id)
  {
    AsciiLitLacks("response_type", '=');
    AsciiLitLacks("response_type", '&');
    AsciiLitLacks("client_id", '=');
    AsciiLitLacks("client_id", '&');
    BuildQueryReadsBack(LinkPairs(responseType, id));
  }

  /** Read back through a query-string parser, the authorization URL carries
      response_type and client_id, then the state exactly when it is truthy.
      The state is not encoded, so it reads back unchanged only when it holds
      no '&', '+' or '%'. */
  lemma AuthorizeUrlParams(responseType: Bytes, id: Bytes, state: Bytes)
    requires Lacks(state, Ampersand) && Lacks(state, Plus) && Lacks(state, Percent)
    ensures Params(AuthorizeUrl(AuthorizeLink(responseType, id), state)) ==
      LinkPairs(responseType, id) + (if Truthy(Str(state)) then [(Lit("state"), state)] else [])
  {
    AsciiLitLacks("https://oauth.yandex.ru/authorize", '?');
    LinkParams(AuthorizeUrlBase, responseType, id, state);
  }

  /** `AuthorizeUrlParams` for any base URL without a '?'. */
  lemma LinkParams(base: Bytes, responseType: Bytes, id: Bytes, state: Bytes)
    requires Lacks(base, QuestionMark)
    requires Lacks(state, Ampersand) && Lacks(state, Plus) && Lacks(state, Percent)
    ensures Params(AuthorizeUrl(base + [QuestionMark] + BuildQuery(LinkPairs(responseType, id)), state)) ==
      LinkPairs(responseType, id) + (if Truthy(Str(state)) then [(Lit("state"), state)] else [])
  {
    var link := base + [QuestionMark] + BuildQuery(LinkPairs(responseType, id));
    if Truthy(Str(state)) {
      StateSuffix(link, state);
      LinkParamsWithState(base, responseType, id, state);
    } else {
      FalsyStateKeepsLink(link, state);
      LinkParamsAlone(base, responseType, id);
    }
  }

  lemma LinkParamsAlone(base: Bytes, responseType: Bytes, id: Bytes)
    requires Lacks(base, QuestionMark)
    ensures Params(base + [QuestionMark] + BuildQuery(LinkPairs(responseType, id))) == LinkPairs(responseType, id)
  {
    var q := BuildQuery(LinkPairs(responseType, id));
    LinkPairsReadBack(responseType, id);
    QueryOfAfter(base, q);
    var pieces := SplitOn(q, Ampersand);
    assert Params(base + [QuestionMark] + q) == seq(2, i requires 0 <= i < 2 => ParsePair(pieces[i]));
  }

  lemma LinkParamsWithState(base: Bytes, responseType: Bytes, id: Bytes, state: Bytes)
    requires Lacks(base, QuestionMark)
    requires Lacks(state, Ampersand) && Lacks(state, Plus) && Lacks(state, Percent)
    ensures var q := BuildQuery(LinkPairs(responseType, id));
      Params(base + [QuestionMark] + q + [Ampersand] + (Lit("state") + [EqualsSign] + state)) ==
      LinkPairs(responseType, id) + [(Lit("state"), state)]
  {
    var q := BuildQuery(LinkPairs(responseType, id));
    var last := Lit("state") + [EqualsSign] + state;
    StatePieceReadsBack(state);
    ParamsAppend(base, q, last);
    LinkParamsAlone(base, responseType, id);
  }

  lemma FalsyStateKeepsLink(link: Bytes, state: Bytes)
    requires !Truthy(Str(state))
    ensures AuthorizeUrl(link, state) == link
  {
  }

  lemma StateSuffix(link: Bytes, state: Bytes)
    ensures link + Lit("&state=") + state == link + [Ampersand] + (Lit("state") + [EqualsSign] + state)
  {
    assert Lit("&state=") == [Ampersand] + Lit("state") + [EqualsSign];
  }

  lemma StatePieceReadsBack(state: Bytes)
    requires Lacks(state, Ampersand) && Lacks(state, Plus) && Lacks(state, Percent)
    ensures var last := Lit("state") + [EqualsSign] + state;
      SplitOn(last, Ampersand) == [last] && ParsePair(last) == (Lit("state"), state)
  {
    AsciiLitLacks("state", '=');
    AsciiLitLacks("state", '&');
    var last := Lit("state") + [EqualsSign] + state;
    assert Lacks(last, Ampersand);
    SplitOnWhole(last, Ampersand);
    ParseOnePair(Lit("state"), state);
    UrlDecodePlain(state);
  }

  /* ---------- session state ---------- */

  /** Every field of the component, configuration and session alike. */
  datatype ApiState = ApiState(
    id: Bytes, password: Bytes, responseType: Bytes, locale: Bytes, useSandbox: bool,
    authorizeLink: Bytes, apiUrl: Bytes,
    code: Value, token: Value, error: Value, errorStr: Value, errorDetail: Value, login: Value)

  /** The form fields posted to the token endpoint. */
  function TokenRequest(code: Value, id: Bytes, password: Bytes): Value
  {
    Arr([Entry(StrKey("grant_type"), Str(Lit("authorization_code"))),
         Entry(StrKey("code"), code),
         Entry(StrKey("client_id"), Str(id)),
         Entry(StrKey("client_secret"), Str(password))])
  }

  /** The token form carries the authorization-code grant, the code, and the
      application's id and secret. */
  lemma TokenRequestFields(code: Value, id: Bytes, password: Bytes)
    ensures var form := TokenRequest(code, id, password);
      && form.Arr?
      && KeysOf(form.entries) == TokenKeys
      && Index(form, StrKey("grant_type")) == Str(Lit("authorization_code"))
      && Index(form, StrKey("code")) == code
      && Index(form, StrKey("client_id")) == Str(id)
      && Index(form, StrKey("client_secret")) == Str(password)
  {
    var form := TokenRequest(code, id, password);
    assert KeysOf(form.entries) == TokenKeys;
    TokenLookup(form, 0); TokenLookup(form, 1); TokenLookup(form, 2); TokenLookup(form, 3);
  }

  lemma TokenKeysDistinct()
    ensures forall i, j :: 0 <= j < i < |TokenKeys| ==> TokenKeys[j] != TokenKeys[i]
  {
    assert TokenKeys[1] != TokenKeys[0] by { assert "code"[0] != "grant_type"[0]; }
    assert TokenKeys[2] != TokenKeys[0] by { assert "client_id"[0] != "grant_type"[0]; }
    assert TokenKeys[2] != TokenKeys[1] by { assert "client_id"[1] != "code"[1]; }
    assert TokenKeys[3] != TokenKeys[0] by { assert "client_secret"[0] != "grant_type"[0]; }
    assert TokenKeys[3] != TokenKeys[1] by { assert "client_secret"[1] != "code"[1]; }
    assert TokenKeys[3] != TokenKeys[2] by { assert "client_secret"[7] != "client_id"[7]; }
  }

  lemma TokenLookup(v: Value, i: nat)
    requires v.Arr? && KeysOf(v.entries) == TokenKeys && i < 4
    ensures Index(v, TokenKeys[i]) == v.entries[i].val
  {
    assert v.entries[i].key == TokenKeys[i];
    TokenKeysDistinct();
    IndexFirst(v.entries, i);
  }

  /** `getDirectToken` on the decoded reply of the token endpoint. */
  function Exchange(s: ApiState, code: Value, decoded: Value): (t: ApiState)
    ensures t.code == code && t.errorStr == Null && t.errorDetail == Null
    ensures Empty(Index(decoded, ErrorKey)) ==>
      t.token == Index(decoded, AccessTokenKey) && t.error == Null
    ensures !Empty(Index(decoded, ErrorKey)) ==>
      t.token == s.token && t.error == Index(decoded, ErrorKey)
    ensures t.(code := s.code, token := s.token, error := s.error, errorStr := s.errorStr,
               errorDetail := s.errorDetail) == s
  {
    var cleared := s.(error := Null, errorStr := Null, errorDetail := Null, code := code);
    var err := Index(decoded, ErrorKey);
    if Empty(err) then cleared.(token := Index(decoded, AccessTokenKey))
    else cleared.(error := err)
  }

  /** A reply that reports an error leaves any earlier token in place and
      returns it, so the result of a failed exchange is not null once a token
      was held. */
  lemma ExchangeFailureKeepsToken(s: ApiState, code: Value, decoded: Value)
    requires Truthy(Index(decoded, ErrorKey))
    ensures Exchange(s, code, decoded).token == s.token
    ensures Exchange(s, code, decoded).error != Null
  {
  }

  /** A reply with neither an error nor an access token wipes the token. */
  lemma ExchangeWithoutTokenClearsIt(s: ApiState, code: Value, decoded: Value)
    requires !IsSet(decoded, ErrorKey) && !IsSet(decoded, AccessTokenKey)
    ensures Exchange(s, code, decoded).token == Null
    ensures Exchange(s, code, decoded).error == Null
  {
  }

  /* ---------- API call ---------- */

  /** What the transport gives back: a cURL failure, or a body that has been
      decoded (a body that does not decode reads as null). */
  datatype Transport = CurlError(message: Bytes) | Response(decoded: Value)

  /** What the call does for its caller: returns a value or throws. */
  datatype Outcome = Returned(value: Value) | Raised(message: Bytes)

  /** The request envelope before re-encoding. */
  function Envelope(name: Value, params: Value, locale: Bytes, login: Value, appId: Bytes, token: Value): Value
  {
    Arr([Entry(StrKey("method"), name),
         Entry(StrKey("param"), params),
         Entry(StrKey("locale"), Str(locale)),
         Entry(StrKey("login"), login),
         Entry(StrKey("application_id"), Str(appId)),
         Entry(StrKey("token"), token)])
  }

  lemma EnvelopeKeysDistinct()
    ensures forall i, j :: 0 <= j < i < |EnvelopeKeys| ==> EnvelopeKeys[j] != EnvelopeKeys[i]
  {
    assert EnvelopeKeys[0] != EnvelopeKeys[2] by { assert "method"[0] != "locale"[0]; }
  }

  /** Looking up each of the six distinct keys of an array laid out like the
      envelope finds the entry at its position. */
  lemma EnvelopeLookups(v: Value)
    requires v.Arr? && KeysOf(v.entries) == EnvelopeKeys
    ensures Index(v, StrKey("method")) == v.entries[0].val
    ensures Index(v, StrKey("param")) == v.entries[1].val
    ensures Index(v, StrKey("locale")) == v.entries[2].val
    ensures Index(v, StrKey("login")) == v.entries[3].val
    ensures Index(v, StrKey("application_id")) == v.entries[4].val
    ensures Index(v, StrKey("token")) == v.entries[5].val
  {
    EnvelopeLookup(v, 0); EnvelopeLookup(v, 1); EnvelopeLookup(v, 2);
    EnvelopeLookup(v, 3); EnvelopeLookup(v, 4); EnvelopeLookup(v, 5);
  }

  lemma EnvelopeLookup(v: Value, i: nat)
    requires v.Arr? && KeysOf(v.entries) == EnvelopeKeys && i < 6
    ensures Index(v, EnvelopeKeys[i]) == v.entries[i].val
  {
    assert v.entries[i].key == EnvelopeKeys[i];
    EnvelopeKeysDistinct();
    IndexFirst(v.entries, i);
  }

  /** The envelope holds exactly the keys method, param, locale, login,
      application_id and token, filled from the call's arguments and the
      component's state. */
  lemma EnvelopeFields(name: Value, params: Value, locale: Bytes, login: Value, appId: Bytes, token: Value)
    ensures var env := Envelope(name, params, locale, login, appId, token);
      && env.Arr? && KeysOf(env.entries) == EnvelopeKeys
      && Index(env, StrKey("method")) == name
      && Index(env, StrKey("param")) == params
      && Index(env, StrKey("locale")) == Str(locale)
      && Index(env, StrKey("login")) == login
      && Index(env, StrKey("application_id")) == Str(appId)
      && Index(env, StrKey("token")) == token
  {
    EnvelopeLookups(Envelope(name, params, locale, login, appId, token));
  }

  /** The request actually posted has the same six keys, in order, each
      holding its field after re-encoding. */
  lemma SentRequest(name: Value, params: Value, locale: Bytes, login: Value, appId: Bytes, token: Value)
    ensures var req := Utf8(Envelope(name, params, locale, login, appId, token));
      && req.Arr? && KeysOf(req.entries) == EnvelopeKeys
      && Index(req, StrKey("method")) == RecodeElement(name)
      && Index(req, StrKey("param")) == RecodeElement(params)
      && Index(req, StrKey("locale")) == Str(Utf8Encode(locale))
      && Index(req, StrKey("login")) == RecodeElement(login)
      && Index(req, StrKey("application_id")) == Str(Utf8Encode(appId))
      && Index(req, StrKey("token")) == RecodeElement(token)
  {
    var env := Envelope(name, params, locale, login, appId, token);
    EnvelopeFields(name, params, locale, login, appId, token);
    Utf8Index(env, StrKey("method"));
    Utf8Index(env, StrKey("param"));
    Utf8Index(env, StrKey("locale"));
    Utf8Index(env, StrKey("login"));
    Utf8Index(env, StrKey("application_id"));
    Utf8Index(env, StrKey("token"));
  }

  /** A reply that carries both `error_code` and `error_str`. */
  predicate IsAppError(decoded: Value)
  {
    IsSet(decoded, ErrorCodeKey) && IsSet(decoded, ErrorStrKey)
  }

  /** The value `apiQuery` returns and the error fields it leaves. */
  datatype Classification = Classification(result: Value, error: Value, errorStr: Value, errorDetail: Value)

  /** The classification at the end of `apiQuery`. The detail is looked up in
      `$result` after `$result` has been replaced by false on an error, so an
      error reply never has its detail stored. */
  function Classify(decoded: Value): (c: Classification)
    ensures Empty(decoded) ==> c == Classification(decoded, Null, Null, Null)
    ensures IsAppError(decoded) ==>
      c == Classification(Bool(false), Index(decoded, ErrorCodeKey), Index(decoded, ErrorStrKey), Null)
    ensures !Empty(decoded) && !IsAppError(decoded) ==>
      c.result == decoded && c.error == Null && c.errorStr == Null &&
      (c.errorDetail != Null <==> Truthy(Index(decoded, ErrorDetailKey))) &&
      (c.errorDetail != Null ==> c.errorDetail == Index(decoded, ErrorDetailKey))
    ensures c.error != Null <==> IsAppError(decoded)
  {
    if Empty(decoded) then Classification(decoded, Null, Null, Null)
    else
      var result := if IsAppError(decoded) then Bool(false) else decoded;
      var error := if IsAppError(decoded) then Index(decoded, ErrorCodeKey) else Null;
      var errorStr := if IsAppError(decoded) then Index(decoded, ErrorStrKey) else Null;
      var detail := Index(result, ErrorDetailKey);
      Classification(result, error, errorStr, if Empty(detail) then Null else detail)
  }

  /** The state, request and outcome of one `apiQuery`. */
  datatype QueryStep = QueryStep(state: ApiState, request: Value, outcome: Outcome)

  function Query(s: ApiState, name: Value, params: Value, t: Transport): (q: QueryStep)
    ensures t.CurlError? ==>
      q.outcome == Raised(t.message) && q.state.error == Null && q.state.errorStr == Null && q.state.errorDetail == Null
    ensures t.Response? && IsAppError(t.decoded) ==>
      q.outcome == Returned(Bool(false)) && q.state.errorDetail == Null &&
      q.state.error == Index(t.decoded, ErrorCodeKey) && q.state.errorStr == Index(t.decoded, ErrorStrKey)
    ensures t.Response? && !IsAppError(t.decoded) ==>
      q.outcome == Returned(t.decoded) && q.state.error == Null && q.state.errorStr == Null &&
      (q.state.errorDetail != Null <==> Truthy(t.decoded) && Truthy(Index(t.decoded, ErrorDetailKey))) &&
      (q.state.errorDetail != Null ==> q.state.errorDetail == Index(t.decoded, ErrorDetailKey))
    ensures q.state.(error := s.error, errorStr := s.errorStr, errorDetail := s.errorDetail) == s
  {
    var cleared := s.(error := Null, errorStr := Null, errorDetail := Null);
    var request := Utf8(Envelope(name, params, s.locale, s.login, s.id, s.token));
    match t
    case CurlError(message) => QueryStep(cleared, request, Raised(message))
    case Response(decoded) =>
      var c := Classify(decoded);
      QueryStep(cleared.(error := c.error, errorStr := c.errorStr, errorDetail := c.errorDetail),
                request, Returned(c.result))
  }

  /** A call changes no field but the three error fields, and what it leaves
      in them does not depend on what they held before: nothing from an
      earlier call survives. */
  lemma QueryTouchesOnlyErrors(s: ApiState, s': ApiState, name: Value, params: Value, t: Transport)
    requires s'.(error := s.error, errorStr := s.errorStr, errorDetail := s.errorDetail) == s
    ensures var q := Query(s, name, params, t);
      q.state.(error := s.error, errorStr := s.errorStr, errorDetail := s.errorDetail) == s
    ensures Query(s, name, params, t) == Query(s', name, params, t)
  {
  }

  /** The parameters `__call` forwards: its first argument, or an empty array. */
  function CallParams(args: seq<Value>): Value
  {
    if args == [] then Arr([]) else args[0]
  }

  /** The request `__call` sends names the method with its first letter
      upper-cased and carries the first argument, or an empty array, as its
      parameters, both re-encoded. */
  lemma CallRequest(s: ApiState, name: Bytes, args: seq<Value>, t: Transport)
    ensures var req := Query(s, Str(Ucfirst(name)), CallParams(args), t).request;
      && Index(req, StrKey("method")) == Str(Utf8Encode(Ucfirst(name)))
      && Index(req, StrKey("param")) == (if args == [] then Arr([]) else RecodeElement(args[0]))
  {
    SentRequest(Str(Ucfirst(name)), CallParams(args), s.locale, s.login, s.id, s.token);
    if args == [] {
      assert RecodeElement(Arr([])) == Arr([]);
    }
  }

  /* ---------- the component ---------- */

  class YiiDirectApi {
    var id: Bytes
    var password: Bytes
    var responseType: Bytes
    var locale: Bytes
    var useSandbox: bool
    var authorizeLink: Bytes
    var apiUrl: Bytes
    var code: Value
    var token: Value
    var error: Value
    var errorStr: Value
    var errorDetail: Value
    var login: Value

    function State(): ApiState
      reads this
    {
      ApiState(id, password, responseType, locale, useSandbox, authorizeLink, apiUrl,
               code, token, error, errorStr, errorDetail, login)
    }

    /** The component as the framework sets it up: the public properties
        receive their configured values, then `init` runs. A property left
        unconfigured keeps its declared default: response type `code`, locale
        `ru`, no sandbox. `appLanguage` stands for the application's language
        setting. */
    constructor (id: Bytes, password: Bytes, responseType: Bytes := Lit("code"), locale: Bytes := Lit("ru"),
                 useSandbox: bool := false, appLanguage: Bytes)
      ensures this.id == id && this.password == password && this.responseType == responseType
      ensures this.useSandbox == useSandbox
      ensures apiUrl == (if useSandbox then SandboxJsonApiUrl else JsonApiUrl)
      ensures authorizeLink == AuthorizeLink(responseType, id)
      ensures this.locale == (if Truthy(Str(locale)) then locale else appLanguage)
      ensures code == Null && token == Null && login == Null
      ensures error == Null && errorStr == Null && errorDetail == Null
    {
      this.id := id;
      this.password := password;
      this.responseType := responseType;
      this.locale := locale;
      this.useSandbox := useSandbox;
      code, token, login := Null, Null, Null;
      error, errorStr, errorDetail := Null, Null, Null;
      new;
      apiUrl := if this.useSandbox then SandboxJsonApiUrl else JsonApiUrl;
      authorizeLink := AuthorizeLink(this.responseType, this.id);
      if !Truthy(Str(this.locale)) {
        this.locale := appLanguage;
      }
    }

    method GetAuthorizeUrl(state: Bytes := []) returns (url: Bytes)
      ensures url == AuthorizeUrl(authorizeLink, state)
    {
      url := AuthorizeUrl(authorizeLink, state);
    }

    /** `getDirectToken($code)`; `decoded` is the decoded reply of the token
        endpoint, `form` the fields posted to it at `endpoint`. */
    method GetDirectToken(code: Value, decoded: Value) returns (endpoint: Bytes, form: Value, t: Value)
      modifies this
      ensures endpoint == TokenUrl
      ensures State() == Exchange(old(State()), code, decoded)
      ensures t == token
      ensures form == TokenRequest(code, id, password)
    {
      var self := ClearErrors();
      this.code := code;
      endpoint, form := TokenUrl, TokenRequest(this.code, id, password);
      var result := decoded;
      if Empty(Index(result, ErrorKey)) {
        token := Index(result, AccessTokenKey);
      } else {
        error := Index(result, ErrorKey);
      }
      t := token;
    }

    method SetToken(token: Value) returns (self: YiiDirectApi)
      modifies this
      ensures self == this && State() == old(State()).(token := token)
    {
      this.token := token;
      self := this;
    }

    method GetError() returns (e: Value)
      ensures e == error
    {
      e := error;
    }

    method SetError(error: Value) returns (self: YiiDirectApi)
      modifies this
      ensures self == this && State() == old(State()).(error := error)
    {
      this.error := error;
      self := this;
    }

    method GetLogin() returns (l: Value)
      ensures l == login
    {
      l := login;
    }

    method SetLogin(login: Value) returns (self: YiiDirectApi)
      modifies this
      ensures self == this && State() == old(State()).(login := login)
    {
      this.login := login;
      self := this;
    }

    method SetErrorDetail(errorDetail: Value) returns (self: YiiDirectApi)
      modifies this
      ensures self == this && State() == old(State()).(errorDetail := errorDetail)
    {
      this.errorDetail := errorDetail;
      self := this;
    }

    method GetErrorDetail() returns (d: Value)
      ensures d == errorDetail
    {
      d := errorDetail;
    }

    method SetErrorStr(errorStr: Value) returns (self: YiiDirectApi)
      modifies this
      ensures self == this && State() == old(State()).(errorStr := errorStr)
    {
      this.errorStr := errorStr;
      self := this;
    }

    method GetErrorStr() returns (s: Value)
      ensures s == errorStr
    {
      s := errorStr;
    }

    method ClearErrors() returns (self: YiiDirectApi)
      modifies this
      ensures self == this
      ensures State() == old(State()).(error := Null, errorStr := Null, errorDetail := Null)
    {
      error := Null;
      errorStr := Null;
      errorDetail := Null;
      self := this;
    }

    /** `apiQuery($method, $params)`: `request` is the re-encoded envelope
        handed to the transport, `endpoint` the URL `init` gave the cURL
        handle, `transport` what came back. */
    method ApiQuery(name: Value, params: Value := Arr([]), transport: Transport) returns (endpoint: Bytes, request: Value, outcome: Outcome)
      modifies this
      ensures endpoint == old(apiUrl)
      ensures QueryStep(State(), request, outcome) == Query(old(State()), name, params, transport)
    {
      var self := ClearErrors();
      endpoint := apiUrl;
      var envelope := Envelope(name, params, locale, login, id, token);
      request := Utf8(envelope);
      match transport
      case CurlError(message) =>
        outcome := Raised(message);
      case Response(decoded) =>
        var result := decoded;
        if !Empty(result) {
          if IsSet(result, ErrorCodeKey) && IsSet(result, ErrorStrKey) {
            self := SetError(Index(result, ErrorCodeKey));
            self := self.SetErrorStr(Index(result, ErrorStrKey));
            result := Bool(false);
          }
          if !Empty(Index(result, ErrorDetailKey)) {
            self := SetErrorDetail(Index(result, ErrorDetailKey));
          }
        }
        outcome := Returned(result);
    }

    /** `__call($method, $args)`: any other method name is sent as the
        remote method, first letter upper-cased, with the first argument as
        its parameters. */
    method Call(name: Bytes, args: seq<Value>, transport: Transport) returns (endpoint: Bytes, request: Value, outcome: Outcome)
      modifies this
      ensures endpoint == old(apiUrl)
      ensures QueryStep(State(), request, outcome) ==
        Query(old(State()), Str(Ucfirst(name)), CallParams(args), transport)
    {
      endpoint, request, outcome := ApiQuery(Str(Ucfirst(name)), CallParams(args), transport);
    }
  }
}
