/** The Facebook login library: acquiring an access token for the current browser
    session, exchanging it for a long-lived one, and turning SDK failures into values. */
module Libraries {
  import opened Php
  import opened Sessions

  /** The session key under which the token's string value is kept. */
  const TOKEN_KEY := "fb_access_token"

  /** One `log_message('error', ...)` line: the SDK exception's code and message. */
  datatype LogEntry = LogEntry(code: int, message: string)

  /** What the redirect helper's `getAccessToken()` does with the incoming request. */
  datatype Extraction =
    | Extracted(token: AccessToken)
    | NoToken
    | Thrown(code: int, message: string)

  /** What the OAuth2 client's `getLongLivedAccessToken()` does. */
  datatype Exchange =
    | Exchanged(token: AccessToken)
    | ExchangeFailed(code: int, message: string)

  /** The redirect helper's `getError()`, `getErrorCode()`, `getErrorReason()` and
      `getErrorDescription()` (null when the callback carries none). */
  datatype CallbackErrors = CallbackErrors(error: Value, code: Value, reason: Value, description: Value)

  /** What a Graph call does: a decoded body, or one of the SDK's two exception types. */
  datatype Graph =
    | Decoded(body: map<string, Value>)
    | ResponseFailed(code: int, message: string)
    | SdkFailed(code: int, message: string)

  /** Everything the SDK reports while one request is served. */
  datatype Provider = Provider(
    extraction: Extraction,
    exchange: Exchange,
    errors: CallbackErrors,
    graph: Graph,
    loginUrl: string)

  /** How a PHP call ends: with a value, or with an uncaught error that ends the request. */
  datatype Completion = Return(value: Value) | Abort

  /** One `authenticate()` call: how it ends, the session afterwards, the token string of
      what it hands to `setDefaultAccessToken` (if it does) and what it logs. */
  datatype Authenticated = Authenticated(
    completion: Completion,
    session: map<string, Value>,
    active: Option<string>,
    logged: seq<LogEntry>)

  /** `logError`: the payload returned in place of an SDK exception. */
  function ErrorPayload(code: int, message: string): (r: map<string, Value>)
    ensures r.Keys == {"error", "message"}
    ensures r["error"] == Int(code) && r["message"] == Str(message)
  {
    map["error" := Int(code), "message" := Str(message)]
  }

  /** `request`: the decoded body, or the logged error payload on either exception type. */
  function RequestResult(g: Graph): (r: map<string, Value>)
    ensures g.Decoded? ==> r == g.body
    ensures g.ResponseFailed? || g.SdkFailed? ==> r.Keys == {"error", "message"}
    ensures !g.Decoded? ==> r["error"] == Int(g.code) && r["message"] == Str(g.message)
  {
    match g
    case Decoded(body) => body
    case ResponseFailed(code, message) => ErrorPayload(code, message)
    case SdkFailed(code, message) => ErrorPayload(code, message)
  }

  /** What `request` writes to the log. */
  function RequestLog(g: Graph): seq<LogEntry> {
    if g.Decoded? then [] else [LogEntry(g.code, g.message)]
  }

  /** `long_lived_token`: a long-lived token is kept as it is; a short-lived one is
      exchanged, and a failed exchange yields null. */
  function LongLived(t: AccessToken, ex: Exchange): (r: Option<AccessToken>)
    ensures t.longLived ==> r == Some(t)
    ensures !t.longLived ==> (r.None? <==> ex.ExchangeFailed?)
    ensures !t.longLived && ex.Exchanged? ==> r == Some(ex.token)
  {
    if t.longLived then Some(t)
    else match ex
      case Exchanged(u) => Some(u)
      case ExchangeFailed(_, _) => None
  }

  /** What `long_lived_token` writes to the log. */
  function LongLivedLog(t: AccessToken, ex: Exchange): seq<LogEntry> {
    if !t.longLived && ex.ExchangeFailed? then [LogEntry(ex.code, ex.message)] else []
  }

  /** The error array `authenticate` builds from the callback's error fields. */
  function ErrorMap(e: CallbackErrors): (r: map<string, Value>)
    ensures r.Keys == {"error", "error_code", "error_reason", "error_description"}
    ensures r["error"] == e.error && r["error_code"] == e.code
    ensures r["error_reason"] == e.reason && r["error_description"] == e.description
  {
    map["error" := e.error, "error_code" := e.code,
        "error_reason" := e.reason, "error_description" := e.description]
  }

  /** What `setDefaultAccessToken` accepts: a token string or an `AccessToken` object. */
  predicate Activatable(v: Value) {
    v.Str? || v.Obj?
  }

  /** The token string of a value `setDefaultAccessToken` accepts. */
  function TokenString(v: Value): string
    requires Activatable(v)
  {
    if v.Str? then v.s else v.token.value
  }

  /** `authenticate`, given the session it starts from and what the SDK reports. */
  function Authentication(session: map<string, Value>, p: Provider): (o: Authenticated)
    // a truthy stored token is reused and nothing is written
    ensures Truthy(Lookup(session, TOKEN_KEY)) ==>
      && o.session == session && o.logged == []
      && (Activatable(Lookup(session, TOKEN_KEY)) ==>
            && o.completion == Return(Lookup(session, TOKEN_KEY))
            && o.active == Some(TokenString(Lookup(session, TOKEN_KEY))))
      && (!Activatable(Lookup(session, TOKEN_KEY)) ==> o.completion == Abort)
    // a failing extraction is logged and yields null
    ensures !Truthy(Lookup(session, TOKEN_KEY)) && p.extraction.Thrown? ==>
      && o.completion == Return(Null) && o.session == session && o.active == None
      && o.logged == [LogEntry(p.extraction.code, p.extraction.message)]
    // an extracted token is stored, activated and returned in its long-lived form
    ensures !Truthy(Lookup(session, TOKEN_KEY)) && p.extraction.Extracted? ==>
      var long := LongLived(p.extraction.token, p.exchange);
      && o.logged == LongLivedLog(p.extraction.token, p.exchange)
      && (long.Some? ==>
            && o.completion == Return(Obj(long.value))
            && o.session == session[TOKEN_KEY := Str(long.value.value)]
            && o.active == Some(long.value.value))
      && (long.None? ==> o.completion == Abort && o.session == session)
    // with no token at all the callback's error, if any, is reported
    ensures !Truthy(Lookup(session, TOKEN_KEY)) && p.extraction.NoToken? ==>
      && o.session == session && o.active == None && o.logged == []
      && o.completion == Return(if Truthy(p.errors.error) then Arr(ErrorMap(p.errors)) else Null)
    // only the token slot is ever written
    ensures o.session.Keys <= session.Keys + {TOKEN_KEY}
    ensures forall k :: k in session && k != TOKEN_KEY ==> k in o.session && o.session[k] == session[k]
    // the result is a token, an error array or null, never `false`
    ensures o.completion.Return? ==> o.completion.value.Str? || o.completion.value.Obj?
                                     || o.completion.value.Arr? || o.completion.value.Null?
  {
    var stored := Lookup(session, TOKEN_KEY);
    if Truthy(stored) then
      if Activatable(stored) then Authenticated(Return(stored), session, Some(TokenString(stored)), [])
      else Authenticated(Abort, session, None, [])
    else match p.extraction
      case Thrown(code, message) =>
        Authenticated(Return(Null), session, None, [LogEntry(code, message)])
      case Extracted(t) =>
        var long := LongLived(t, p.exchange);
        var logged := LongLivedLog(t, p.exchange);
        if long.None? then Authenticated(Abort, session, None, logged)
        else Authenticated(Return(Obj(long.value)), session[TOKEN_KEY := Str(long.value.value)],
                           Some(long.value.value), logged)
      case NoToken =>
        var e := p.errors;
        Authenticated(Return(if Truthy(e.error) then Arr(ErrorMap(e)) else Null), session, None, [])
  }

  /** `is_authenticated` on the value `authenticate` returned. */
  function TokenOrFalse(v: Value): (r: Value)
    ensures v == Null ==> r == Bool(false)
    ensures v != Null ==> r == v
  {
    if v != Null then v else Bool(false)
  }

  /** `is_authenticated()` answers `false` exactly when `authenticate()` yields null, and
      is truthy otherwise. */
  lemma IsAuthenticatedFalseIffNull(session: map<string, Value>, p: Provider)
    requires Authentication(session, p).completion.Return?
    ensures var v := Authentication(session, p).completion.value;
      && (TokenOrFalse(v) == Bool(false) <==> v == Null)
      && (Truthy(TokenOrFalse(v)) <==> v != Null)
  {
    var o := Authentication(session, p);
    var stored := Lookup(session, TOKEN_KEY);
    if !Truthy(stored) && p.extraction.NoToken? && Truthy(p.errors.error) {
      assert "error" in ErrorMap(p.errors);
    }
  }

  /** Running `authenticate()` again on the session it left behind changes nothing more:
      the second call stores the same token and agrees on whether there is one. */
  lemma {:induction false} AuthenticationSettles(session: map<string, Value>, p: Provider)
    requires Authentication(session, p).completion.Return?
    ensures var first := Authentication(session, p);
      var second := Authentication(first.session, p);
      && second.completion.Return?
      && second.session == first.session
      && (second.completion.value == Null <==> first.completion.value == Null)
  {
    var first := Authentication(session, p);
    var stored := Lookup(session, TOKEN_KEY);
    if !Truthy(stored) && p.extraction.Extracted? {
      var long := LongLived(p.extraction.token, p.exchange);
      assert long.Some?;
      assert Lookup(first.session, TOKEN_KEY) == Str(long.value.value);
    }
  }

  /** As written, a short-lived token whose exchange fails ends the request: the null
      from `long_lived_token` reaches the typed `set_access_token`. */
  lemma FailedExchangeAborts(session: map<string, Value>, p: Provider, t: AccessToken, code: int, message: string)
    requires !Truthy(Lookup(session, TOKEN_KEY))
    requires p.extraction == Extracted(t) && !t.longLived
    requires p.exchange == ExchangeFailed(code, message)
    ensures Authentication(session, p).completion == Abort
    ensures Authentication(session, p).logged == [LogEntry(code, message)]
  {
  }

  /** `authenticate` as its logging and its `AccessToken|null` return type intend: a failed
      exchange is logged and treated as no token, instead of ending the request. */
  function IntendedAuthentication(session: map<string, Value>, p: Provider): (o: Authenticated)
    ensures o.completion.Abort? ==> Truthy(Lookup(session, TOKEN_KEY)) && !Activatable(Lookup(session, TOKEN_KEY))
    ensures !Truthy(Lookup(session, TOKEN_KEY)) && p.extraction.Extracted?
            && LongLived(p.extraction.token, p.exchange).None? ==>
      && o.completion == Return(Null) && o.session == session && o.active == None
      && o.logged == LongLivedLog(p.extraction.token, p.exchange)
    ensures Authentication(session, p).completion.Return? ==> o == Authentication(session, p)
  {
    var o := Authentication(session, p);
    if o.completion.Abort? && !Truthy(Lookup(session, TOKEN_KEY)) then
      Authenticated(Return(Null), session, None, o.logged)
    else o
  }

  /** The session after `destroy_session`: the token slot is gone, every other key kept. */
  function WithoutToken(session: map<string, Value>): (r: map<string, Value>)
    ensures TOKEN_KEY !in r
    ensures r.Keys == session.Keys - {TOKEN_KEY}
    ensures forall k :: k in session && k != TOKEN_KEY ==> r[k] == session[k]
  {
    session - {TOKEN_KEY}
  }

  /** `destroy_session` twice leaves the session as once. */
  lemma DestroySessionIdempotent(session: map<string, Value>)
    ensures WithoutToken(WithoutToken(session)) == WithoutToken(session)
  {
  }

  /** The library object of one request: it shares the session service with the
      controller and keeps the SDK's default token and the error log. */
  class Facebookauth {
    const session: Session
    const provider: Provider
    /** The string of the SDK's default access token, set by `setDefaultAccessToken`. */
    var active: Option<string>
    var log: seq<LogEntry>
    /** Whether the `authenticate()` call made while constructing ended in an uncaught error. */
    var aborted: bool

    /** The constructor, which tries to authenticate right away. */
    constructor (session: Session, provider: Provider)
      modifies session
      ensures this.session == session && this.provider == provider
      ensures var o := Authentication(old(session.data), provider);
        && session.data == o.session && log == o.logged && active == o.active
        && aborted == o.completion.Abort?
      ensures session.live == old(session.live)
    {
      this.session := session;
      this.provider := provider;
      active := None;
      log := [];
      aborted := false;
      new;
      var c := Authenticate();
      aborted := c.Abort?;
    }

    /** `get_access_token`: the session's token slot. */
    function GetAccessToken(): (v: Value)
      reads this, session
      ensures TOKEN_KEY in session.data ==> v == session.data[TOKEN_KEY]
      ensures TOKEN_KEY !in session.data ==> v == Null
    {
      session.Get(TOKEN_KEY)
    }

    /** `set_access_token`: stores the token's string value. */
    method SetAccessToken(t: AccessToken)
      modifies session
      ensures session.data == old(session.data)[TOKEN_KEY := Str(t.value)]
      ensures session.live == old(session.live)
    {
      session.Set(TOKEN_KEY, Str(t.value));
    }

    /** `destroy_session`: removes the token slot and nothing else. */
    method DestroySession()
      modifies session
      ensures session.data == WithoutToken(old(session.data))
      ensures session.live == old(session.live)
    {
      session.Remove(TOKEN_KEY);
    }

    /** `logError`: logs the code and message and returns them as an array. */
    method LogError(code: int, message: string) returns (r: map<string, Value>)
      modifies this`log
      ensures r == ErrorPayload(code, message)
      ensures log == old(log) + [LogEntry(code, message)]
    {
      log := log + [LogEntry(code, message)];
      r := map["error" := Int(code), "message" := Str(message)];
    }

    /** `request`: the Graph call's decoded body, or the error payload of either exception. */
    method Request(g: Graph) returns (r: map<string, Value>)
      modifies this`log
      ensures r == RequestResult(g)
      ensures log == old(log) + RequestLog(g)
    {
      match g {
        case Decoded(body) =>
          r := body;
        case ResponseFailed(code, message) =>
          r := LogError(code, message);
        case SdkFailed(code, message) =>
          r := LogError(code, message);
      }
    }

    /** `get_user_info`: the profile request, answered by the provider's Graph outcome. */
    method GetUserInfo() returns (r: map<string, Value>)
      modifies this`log
      ensures r == RequestResult(provider.graph)
      ensures log == old(log) + RequestLog(provider.graph)
    {
      r := Request(provider.graph);
    }

    /** `long_lived_token`. */
    method LongLivedToken(t: AccessToken) returns (r: Option<AccessToken>)
      modifies this`log
      ensures r == LongLived(t, provider.exchange)
      ensures log == old(log) + LongLivedLog(t, provider.exchange)
    {
      if !t.longLived {
        match provider.exchange {
          case Exchanged(u) =>
            return Some(u);
          case ExchangeFailed(code, message) =>
            var _ := LogError(code, message);
            return None;
        }
      }
      r := Some(t);
    }

    /** `authenticate`. */
    method Authenticate() returns (c: Completion)
      modifies this`active, this`log, session
      ensures var o := Authentication(old(session.data), provider);
        && c == o.completion && session.data == o.session
        && log == old(log) + o.logged
        && active == (if o.active.Some? then o.active else old(active))
      ensures session.live == old(session.live)
    {
      var token := GetAccessToken();
      if Truthy(token) {
        // setDefaultAccessToken accepts only a string or an AccessToken
        if !Activatable(token) {
          return Abort;
        }
        active := Some(TokenString(token));
        return Return(token);
      }
      match provider.extraction {
        case Thrown(code, message) =>
          var _ := LogError(code, message);
          return Return(Null);
        case Extracted(t) =>
          var long := LongLivedToken(t);
          // set_access_token(null) is a TypeError
          if long.None? {
            return Abort;
          }
          SetAccessToken(long.value);
          active := Some(long.value.value);
          return Return(Obj(long.value));
        case NoToken =>
      }
      if Truthy(provider.errors.error) {
        c := Return(Arr(ErrorMap(provider.errors)));
      } else {
        c := Return(Null);
      }
    }

    /** `is_authenticated`. */
    method IsAuthenticated() returns (c: Completion)
      modifies this`active, this`log, session
      ensures var o := Authentication(old(session.data), provider);
        && session.data == o.session
        && log == old(log) + o.logged
        && active == (if o.active.Some? then o.active else old(active))
        && c == (if o.completion.Abort? then Abort else Return(TokenOrFalse(o.completion.value)))
      ensures session.live == old(session.live)
    {
      var token := Authenticate();
      if token.Abort? {
        return Abort;
      }
      if token.value != Null {
        c := token;
      } else {
        c := Return(Bool(false));
      }
    }
  }
}
