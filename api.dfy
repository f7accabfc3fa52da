/**
 * The authenticated API client: the two stored credentials, the request interceptor that
 * attaches the access token, the refresh call, and the response interceptor that recovers
 * once from an expired access token.
 */
module Api {
  import opened Results

  const AuthorizationHeader := "Authorization"
  const Unauthorized := 401
  const Conflict := 409
  const NoRefreshTokenMessage := "No refresh token found"
  const EmailExistsMessage := "Email already exists"

  /** JavaScript truthiness of a string read back from localStorage: absent and empty are both false. */
  predicate Present(s: Option<string>)
  {
    s.Some? && s.value != ""
  }

  /** The two localStorage entries, under the keys `token` and `refreshToken`. */
  datatype Tokens = Tokens(access: Option<string>, refresh: Option<string>)

  /** `isAuthenticated()`: a (truthy) access token is stored; the refresh token plays no part. */
  predicate IsAuthenticated(t: Tokens)
    ensures IsAuthenticated(t) ==> t.access.Some?
    ensures t.access == Some("") ==> !IsAuthenticated(t)
    ensures t.access.Some? && t.access.value != "" ==> IsAuthenticated(t)
  {
    Present(t.access)
  }

  type Headers = map<string, string>

  /** A request descriptor: its headers and the `_retry` mark the response interceptor sets on it. */
  datatype Config = Config(headers: Headers, retry: bool)

  function Bearer(token: string): string
  {
    "Bearer " + token
  }

  /** The headers a request leaves with once the request interceptor has run over them. */
  function WithCredential(h: Headers, t: Tokens): (r: Headers)
    ensures AuthorizationHeader !in h ==> (AuthorizationHeader in r <==> IsAuthenticated(t))
    ensures IsAuthenticated(t) ==> AuthorizationHeader in r && r[AuthorizationHeader] == Bearer(t.access.value)
    ensures !IsAuthenticated(t) ==> r == h
    ensures forall k :: k in h && k != AuthorizationHeader ==> k in r && r[k] == h[k]
    ensures r.Keys <= h.Keys + {AuthorizationHeader}
  {
    if IsAuthenticated(t) then h[AuthorizationHeader := Bearer(t.access.value)] else h
  }

  /** The request as it is put on the wire: the descriptor after the request interceptor. */
  function Prepared(c: Config, t: Tokens): Config
  {
    c.(headers := WithCredential(c.headers, t))
  }

  /** The network calls the client makes. */
  datatype Call = Send(config: Config) | RefreshCall(refreshToken: string)

  /** Outcome of `refreshToken()`: what it returns or throws, the storage after it, the calls it made. */
  datatype Refresh = Refresh(result: Result<string>, tokens: Tokens, calls: seq<Call>)

  /** `refreshToken()`; `refresher` is the backend's answer to `POST /refresh-token`. */
  function RefreshOutcome(t: Tokens, refresher: string -> Result<string>): (x: Refresh)
    // no stored refresh token: fail at once, no call, storage untouched
    ensures !Present(t.refresh) ==> x == Refresh(Err(Message(NoRefreshTokenMessage)), t, [])
    // otherwise exactly one call, with the stored refresh token, whose answer is returned or rethrown
    ensures Present(t.refresh) ==> x.calls == [RefreshCall(t.refresh.value)] && x.result == refresher(t.refresh.value)
    // on success the returned token is the one now stored; the refresh token is kept
    ensures x.result.Ok? ==> x.tokens == Tokens(Some(x.result.value), t.refresh)
    // a refresh call that failed leaves neither token behind
    ensures x.result.Err? && x.calls != [] ==> x.tokens == Tokens(None, None)
    ensures |x.calls| <= 1
  {
    if !Present(t.refresh) then
      Refresh(Err(Message(NoRefreshTokenMessage)), t, [])
    else
      var answer := refresher(t.refresh.value);
      var calls := [RefreshCall(t.refresh.value)];
      match answer
      case Ok(token) => Refresh(answer, Tokens(Some(token), t.refresh), calls)
      case Err(_) => Refresh(answer, Tokens(None, None), calls)
  }

  predicate IsUnauthorized(e: Error)
  {
    e.Status? && e.code == Unauthorized
  }

  /** The one case the response interceptor recovers from: a 401 on a request not yet retried. */
  predicate Recoverable<T>(reply: Result<T>, c: Config)
  {
    reply.Err? && IsUnauthorized(reply.error) && !c.retry
  }

  /**
   * Outcome of one call through the client (`api(config)`): the promise's outcome, the request
   * descriptor as left behind, the storage afterwards, the network calls made, and whether the
   * browser was sent to `/login`.
   */
  datatype Exchange<T> = Exchange(result: Result<T>, config: Config, tokens: Tokens, calls: seq<Call>, redirected: bool)

  /**
   * `api(config)` through both interceptors. `server` is the backend's answer to a request as
   * sent; `refresher` its answer to the refresh call.
   */
  function Dispatch<T>(c: Config, t: Tokens, server: Config -> Result<T>, refresher: string -> Result<string>): (x: Exchange<T>)
    decreases if c.retry then 0 else 1
    // whatever happens, the first call is the request with the stored credential attached
    ensures |x.calls| >= 1 && x.calls[0] == Send(Prepared(c, t))
    // a success, any status but 401, a failure without response, or a 401 on a request already
    // retried: passed through unchanged, with one send, no refresh, storage untouched
    ensures !Recoverable(server(Prepared(c, t)), c) ==>
      x == Exchange(server(Prepared(c, t)), Prepared(c, t), t, [Send(Prepared(c, t))], false)
    // a recoverable 401: the request is marked retried and exactly one refresh is attempted
    ensures Recoverable(server(Prepared(c, t)), c) ==>
      && x.config.retry
      && x.tokens == RefreshOutcome(t, refresher).tokens
      && |x.calls| > |RefreshOutcome(t, refresher).calls|
      && x.calls[..1 + |RefreshOutcome(t, refresher).calls|] == [Send(Prepared(c, t))] + RefreshOutcome(t, refresher).calls
    // the refresh succeeded: one replay, carrying the new token, whose outcome is the call's
    ensures Recoverable(server(Prepared(c, t)), c) && RefreshOutcome(t, refresher).result.Ok? ==>
      && !x.redirected
      && x.calls == [Send(Prepared(c, t)), RefreshCall(t.refresh.value), Send(x.config)]
      // the replay is the original request itself, marked retried, with only its bearer replaced
      && x.config == Prepared(c, t).(retry := true, headers := Prepared(c, t).headers[AuthorizationHeader := Bearer(RefreshOutcome(t, refresher).result.value)])
      && AuthorizationHeader in x.config.headers
      && x.config.headers[AuthorizationHeader] == Bearer(RefreshOutcome(t, refresher).result.value)
      && x.result == server(x.config)
    // the refresh failed: redirect to the login page and reject with the refresh error
    ensures Recoverable(server(Prepared(c, t)), c) && RefreshOutcome(t, refresher).result.Err? ==>
      && x.redirected
      // the descriptor left behind is the request as sent, marked retried
      && x.config == Prepared(c, t).(retry := true)
      && x.result == Err(RefreshOutcome(t, refresher).result.error)
      && x.calls == [Send(Prepared(c, t))] + RefreshOutcome(t, refresher).calls
    ensures x.redirected ==> x.result.Err?
  {
    var sent := Prepared(c, t);
    var reply := server(sent);
    if Recoverable(reply, c) then
      var marked := sent.(retry := true);
      var refreshed := RefreshOutcome(t, refresher);
      match refreshed.result
      case Ok(token) =>
        var replay := Dispatch(marked.(headers := marked.headers[AuthorizationHeader := Bearer(token)]), refreshed.tokens, server, refresher);
        replay.(calls := [Send(sent)] + refreshed.calls + replay.calls)
      case Err(e) =>
        Exchange(Err(e), marked, refreshed.tokens, [Send(sent)] + refreshed.calls, true)
    else
      Exchange(reply, sent, t, [Send(sent)], false)
  }

  function Refreshes(calls: seq<Call>): nat
  {
    if calls == [] then 0 else (if calls[0].RefreshCall? then 1 else 0) + Refreshes(calls[1..])
  }

  function Sends(calls: seq<Call>): nat
  {
    if calls == [] then 0 else (if calls[0].Send? then 1 else 0) + Sends(calls[1..])
  }

  /** No retry loop: one call through the client refreshes at most once and sends at most twice. */
  lemma AtMostOneRefresh<T>(c: Config, t: Tokens, server: Config -> Result<T>, refresher: string -> Result<string>)
    ensures Refreshes(Dispatch(c, t, server, refresher).calls) <= 1
    ensures Sends(Dispatch(c, t, server, refresher).calls) <= 2
    ensures c.retry ==> Dispatch(c, t, server, refresher).calls == [Send(Prepared(c, t))]
  {
    var s := Dispatch(c, t, server, refresher).calls;
    var p := Prepared(c, t);
    if !Recoverable(server(p), c) || !Present(t.refresh) {
      assert s == [Send(p)] && s[1..] == [];
    } else if RefreshOutcome(t, refresher).result.Err? {
      var r := RefreshCall(t.refresh.value);
      assert s == [Send(p), r];
      assert s[1..] == [r] && s[1..][1..] == [];
      assert Refreshes(s[1..]) == 1 && Sends(s[1..]) == 0;
    } else {
      var r := RefreshCall(t.refresh.value);
      var last := Send(Dispatch(c, t, server, refresher).config);
      assert s == [Send(p), r, last];
      assert s[1..] == [r, last] && s[1..][1..] == [last] && s[1..][1..][1..] == [];
      assert Refreshes(s[1..][1..]) == 0 && Sends(s[1..][1..]) == 1;
      assert Refreshes(s[1..]) == 1 && Sends(s[1..]) == 1;
    }
  }

  /**
   * A 401 when no refresh token is stored: the browser goes to `/login` and the call is rejected,
   * yet the stale access token stays in storage.
   */
  lemma UnauthorizedWithoutRefreshTokenKeepsAccessToken<T>(c: Config, t: Tokens, server: Config -> Result<T>, refresher: string -> Result<string>)
    requires Recoverable(server(Prepared(c, t)), c) && !Present(t.refresh)
    ensures var x := Dispatch(c, t, server, refresher);
      x.redirected && x.tokens == t && x.result == Err(Message(NoRefreshTokenMessage)) && x.calls == [Send(Prepared(c, t))]
  {
  }

  /** `register`: a 409 answer becomes "Email already exists"; anything else passes through. */
  function Register<T>(reply: Result<T>): (r: Result<T>)
    ensures r.Ok? <==> reply.Ok?
    ensures reply.Ok? ==> r == reply
    ensures reply.Err? && reply.error.Status? && reply.error.code == Conflict ==> r == Err(Message(EmailExistsMessage))
    ensures reply.Err? && !(reply.error.Status? && reply.error.code == Conflict) ==> r == reply
  {
    match reply
    case Err(Status(code, _)) => if code == Conflict then Err(Message(EmailExistsMessage)) else reply
    case _ => reply
  }

  /** The browser's localStorage, as far as the client uses it. */
  class TokenStore {
    var token: Option<string>
    var refreshToken: Option<string>

    function Value(): Tokens
      reads this
    {
      Tokens(token, refreshToken)
    }

    constructor (initial: Tokens)
      ensures Value() == initial
    {
      token := initial.access;
      refreshToken := initial.refresh;
    }

    /** `setToken`, also `localStorage.setItem('token', ...)`. */
    method SetToken(t: string)
      modifies this
      ensures Value() == old(Value()).(access := Some(t))
    {
      token := Some(t);
    }

    /** `localStorage.setItem('refreshToken', ...)`. */
    method SetRefreshToken(t: string)
      modifies this
      ensures Value() == old(Value()).(refresh := Some(t))
    {
      refreshToken := Some(t);
    }

    /** `removeToken`. */
    method RemoveToken()
      modifies this
      ensures Value() == old(Value()).(access := None)
    {
      token := None;
    }

    /** `removeRefreshToken`. */
    method RemoveRefreshToken()
      modifies this
      ensures Value() == old(Value()).(refresh := None)
    {
      refreshToken := None;
    }

    /** `logout()`: both credentials go, whatever was stored. */
    method Logout()
      modifies this
      ensures Value() == Tokens(None, None)
      ensures !IsAuthenticated(Value())
    {
      RemoveToken();
      RemoveRefreshToken();
    }
  }

  /** The request descriptor axios hands to both interceptors and, on a retry, back to itself. */
  class RequestConfig {
    var headers: Headers
    var retry: bool

    function Value(): Config
      reads this
    {
      Config(headers, retry)
    }

    constructor (c: Config)
      ensures Value() == c
    {
      headers := c.headers;
      retry := c.retry;
    }
  }

  /** The request interceptor: writes the bearer header into the descriptor in place. */
  method RequestInterceptor(config: RequestConfig, store: TokenStore)
    modifies config
    ensures config.Value() == Prepared(old(config.Value()), store.Value())
  {
    var token := store.token;
    if Present(token) {
      config.headers := config.headers[AuthorizationHeader := Bearer(token.value)];
    }
  }

  /** `refreshToken()` against the stored credentials. */
  method RefreshToken(store: TokenStore, refresher: string -> Result<string>) returns (r: Result<string>, ghost calls: seq<Call>)
    modifies store
    ensures Refresh(r, store.Value(), calls) == RefreshOutcome(old(store.Value()), refresher)
  {
    var stored := store.refreshToken;
    if !Present(stored) {
      r, calls := Err(Message(NoRefreshTokenMessage)), [];
      return;
    }
    calls := [RefreshCall(stored.value)];
    r := refresher(stored.value);
    if r.Ok? {
      store.SetToken(r.value);
    } else {
      store.RemoveToken();
      store.RemoveRefreshToken();
    }
  }

  /**
   * `api(config)`: the request interceptor, the network, then the response interceptor, which
   * marks the shared descriptor, refreshes, and replays it through `api` once.
   */
  method Request<T>(config: RequestConfig, store: TokenStore, server: Config -> Result<T>, refresher: string -> Result<string>)
    returns (r: Result<T>, redirected: bool, ghost calls: seq<Call>)
    modifies config, store
    decreases if config.retry then 0 else 1
    ensures Exchange(r, config.Value(), store.Value(), calls, redirected) == Dispatch(old(config.Value()), old(store.Value()), server, refresher)
  {
    RequestInterceptor(config, store);
    var sent := config.Value();
    calls := [Send(sent)];
    r := server(sent);
    redirected := false;
    if r.Err? && IsUnauthorized(r.error) && !config.retry {
      config.retry := true;
      var refreshed: Result<string>;
      ghost var refreshCalls: seq<Call>;
      refreshed, refreshCalls := RefreshToken(store, refresher);
      calls := calls + refreshCalls;
      if refreshed.Ok? {
        config.headers := config.headers[AuthorizationHeader := Bearer(refreshed.value)];
        ghost var replayCalls: seq<Call>;
        r, redirected, replayCalls := Request(config, store, server, refresher);
        calls := calls + replayCalls;
      } else {
        redirected := true;  // window.location.href = '/login'
        r := Err(refreshed.error);
      }
    }
  }
}
