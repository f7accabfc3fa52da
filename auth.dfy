/**
 * The session mirror: whether the user is signed in, their profile, and whether the initial
 * check is still running, kept in step with the credentials in localStorage.
 */
module AuthContext {
  import opened Results
  import opened Api

  const NoTokenMessage := "No token received from server"

  /**
   * The profile body `GET /users/profile` returns, kept as the server sent it. A successful
   * answer is a `Result<Option<Profile>>`: `None` is a body of JSON `null`, which the code
   * stores as the user all the same.
   */
  datatype Profile = Profile(body: string)

  /** The body of a `POST /auth/login` answer; a missing or empty field is falsy. */
  datatype LoginReply = LoginReply(token: Option<string>, refreshToken: Option<string>)

  /** The backend calls the session mirror makes. */
  datatype AuthCall =
    | ProfileRequest
    | LoginRequest(email: string, password: string)
    | RegisterRequest(email: string, password: string)

  /** The `AuthProvider` state: `isAuthenticated`, `user` and `loading`. */
  datatype SessionState = SessionState(isAuthenticated: bool, user: Option<Profile>, loading: bool)

  /** The state after an operation, the credentials after it, what it resolves or rejects with, its calls. */
  datatype AuthStep = AuthStep(state: SessionState, tokens: Tokens, outcome: Result<()>, calls: seq<AuthCall>)

  /**
   * A stored profile means signed in, and the flag never claims a session the storage has no
   * access token for. The converse of the first half fails: a `null` profile signs in without
   * a user.
   */
  predicate Coherent(s: SessionState, t: Tokens)
  {
    (s.user.Some? ==> s.isAuthenticated) && (s.isAuthenticated ==> IsAuthenticated(t))
  }

  /** `checkAuthStatus()`, with the answer to the profile request. It never rejects. */
  function CheckOutcome(tokens: Tokens, profile: Result<Option<Profile>>): (s: AuthStep)
    ensures !s.state.loading && s.outcome == Ok(())
    ensures Coherent(s.state, s.tokens)
    // signed in exactly when a token was stored and the profile request answered
    ensures s.state.isAuthenticated <==> IsAuthenticated(tokens) && profile.Ok?
    // no access token: signed out at once, no profile request
    ensures !IsAuthenticated(tokens) ==> s == AuthStep(SessionState(false, None, false), tokens, Ok(()), [])
    ensures IsAuthenticated(tokens) ==> s.calls == [ProfileRequest]
    // the profile arrived: signed in with it (even a `null` one), storage untouched
    ensures IsAuthenticated(tokens) && profile.Ok? ==>
      s.state == SessionState(true, profile.value, false) && s.tokens == tokens
    // the profile request failed: signed out, and only the access token is removed here (a 401
    // whose refresh fails has already had both tokens cleared by the retry interceptor)
    ensures IsAuthenticated(tokens) && profile.Err? ==>
      s.state == SessionState(false, None, false) && s.tokens == Tokens(None, tokens.refresh)
  {
    if !IsAuthenticated(tokens) then
      AuthStep(SessionState(false, None, false), tokens, Ok(()), [])
    else
      match profile
      case Ok(p) => AuthStep(SessionState(true, p, false), tokens, Ok(()), [ProfileRequest])
      case Err(_) => AuthStep(SessionState(false, None, false), tokens.(access := None), Ok(()), [ProfileRequest])
  }

  /** `login(email, password)`, with the answers to the login and profile requests. */
  function LoginOutcome(before: SessionState, tokens: Tokens, email: string, password: string,
                        reply: Result<LoginReply>, profile: Result<Option<Profile>>): (s: AuthStep)
    ensures s.state.loading == before.loading
    ensures Coherent(s.state, s.tokens)
    ensures |s.calls| > 0 && s.calls[0] == LoginRequest(email, password)
    // resolves exactly when a token came back and the profile followed
    ensures s.outcome.Ok? <==> reply.Ok? && Present(reply.value.token) && profile.Ok?
    ensures s.outcome.Ok? ==> s.state == before.(isAuthenticated := true, user := profile.value)
    ensures s.outcome.Err? ==> s.state == before.(isAuthenticated := false, user := None)
    // a token came back: stored, the refresh token only if one came too, then the profile is asked
    ensures reply.Ok? && Present(reply.value.token) ==>
      && s.tokens.access == reply.value.token
      && s.tokens.refresh == (if Present(reply.value.refreshToken) then reply.value.refreshToken else tokens.refresh)
      && s.calls == [LoginRequest(email, password), ProfileRequest]
    // no token: rejected with its own message, storage untouched, no profile request
    ensures reply.Ok? && !Present(reply.value.token) ==>
      s == AuthStep(before.(isAuthenticated := false, user := None), tokens, Err(Message(NoTokenMessage)), [LoginRequest(email, password)])
    ensures reply.Err? ==>
      s == AuthStep(before.(isAuthenticated := false, user := None), tokens, Err(reply.error), [LoginRequest(email, password)])
    ensures reply.Ok? && Present(reply.value.token) && profile.Err? ==> s.outcome == Err(profile.error)
  {
    var calls := [LoginRequest(email, password)];
    var signedOut := before.(isAuthenticated := false, user := None);
    match reply
    case Err(e) => AuthStep(signedOut, tokens, Err(e), calls)
    case Ok(data) =>
      if !Present(data.token) then
        AuthStep(signedOut, tokens, Err(Message(NoTokenMessage)), calls)
      else
        var stored := Tokens(data.token, if Present(data.refreshToken) then data.refreshToken else tokens.refresh);
        match profile
        case Ok(p) => AuthStep(before.(isAuthenticated := true, user := p), stored, Ok(()), calls + [ProfileRequest])
        case Err(e) => AuthStep(signedOut, stored, Err(e), calls + [ProfileRequest])
  }

  /**
   * A login whose profile request fails is rejected and signed out, yet the new credentials stay
   * stored. (When that failure is a 401 whose refresh also fails, the retry interceptor has
   * already cleared both tokens; the profile answer here is the outcome after the interceptor.)
   */
  lemma LoginKeepsTokensWhenProfileFails(before: SessionState, tokens: Tokens, email: string, password: string,
                                        reply: Result<LoginReply>, profile: Result<Option<Profile>>)
    requires reply.Ok? && Present(reply.value.token) && profile.Err?
    ensures var s := LoginOutcome(before, tokens, email, password, reply, profile);
      && !s.state.isAuthenticated && s.state.user == None && s.outcome.Err?
      && s.tokens.access == reply.value.token && IsAuthenticated(s.tokens)
  {
  }

  /** `register(userData)`, with the answer to the registration request, then those of `login`. */
  function RegisterOutcome(before: SessionState, tokens: Tokens, email: string, password: string,
                           registered: Result<()>, reply: Result<LoginReply>, profile: Result<Option<Profile>>): (s: AuthStep)
    ensures |s.calls| > 0 && s.calls[0] == RegisterRequest(email, password)
    // login runs, with the same email and password, only once registration succeeded
    ensures LoginRequest(email, password) in s.calls <==> registered.Ok?
    ensures registered.Ok? ==>
      var l := LoginOutcome(before, tokens, email, password, reply, profile);
      s == l.(calls := [RegisterRequest(email, password)] + l.calls)
    // a failed registration changes nothing, makes no further call and is rejected with the
    // registration's own error, except that a conflict reads "Email already exists"
    ensures registered.Err? ==> s.state == before && s.tokens == tokens && s.outcome.Err?
    ensures registered.Err? ==>
      s == AuthStep(before, tokens, Api.Register(registered), [RegisterRequest(email, password)])
    ensures registered.Err? && !(registered.error.Status? && registered.error.code == Conflict) ==>
      s.outcome == Err(registered.error)
    ensures registered.Err? && registered.error.Status? && registered.error.code == Conflict ==>
      s.outcome == Err(Message(EmailExistsMessage))
  {
    match Api.Register(registered)
    case Err(e) => AuthStep(before, tokens, Err(e), [RegisterRequest(email, password)])
    case Ok(_) =>
      var l := LoginOutcome(before, tokens, email, password, reply, profile);
      l.(calls := [RegisterRequest(email, password)] + l.calls)
  }

  /** The `AuthProvider` state, over the localStorage it shares with the API client. */
  class Session {
    var isAuthenticated: bool
    var user: Option<Profile>
    var loading: bool
    const storage: TokenStore

    function State(): SessionState
      reads this
    {
      SessionState(isAuthenticated, user, loading)
    }

    /** Signed out, no user, and loading until the first status check settles. */
    constructor (storage: TokenStore)
      ensures this.storage == storage
      ensures State() == SessionState(false, None, true)
    {
      this.storage := storage;
      isAuthenticated, user, loading := false, None, true;
    }

    method CheckAuthStatus(profile: Result<Option<Profile>>) returns (ghost calls: seq<AuthCall>)
      modifies this, storage
      ensures AuthStep(State(), storage.Value(), Ok(()), calls) == CheckOutcome(old(storage.Value()), profile)
    {
      loading := true;
      var token := storage.token;
      if !Present(token) {
        isAuthenticated := false;
        user := None;
        loading := false;
        calls := [];
        return;
      }
      calls := [ProfileRequest];
      if profile.Ok? {
        user := profile.value;
        isAuthenticated := true;
      } else {
        isAuthenticated := false;
        user := None;
        storage.RemoveToken();
      }
      loading := false;
    }

    method Login(email: string, password: string, reply: Result<LoginReply>, profile: Result<Option<Profile>>)
      returns (r: Result<()>, ghost calls: seq<AuthCall>)
      modifies this, storage
      ensures AuthStep(State(), storage.Value(), r, calls) == LoginOutcome(old(State()), old(storage.Value()), email, password, reply, profile)
    {
      calls := [LoginRequest(email, password)];
      if reply.Err? {
        isAuthenticated, user := false, None;
        r := Err(reply.error);
        return;
      }
      var data := reply.value;
      if !Present(data.token) {
        isAuthenticated, user := false, None;
        r := Err(Message(NoTokenMessage));
        return;
      }
      storage.SetToken(data.token.value);
      if Present(data.refreshToken) {
        storage.SetRefreshToken(data.refreshToken.value);
      }
      isAuthenticated := true;
      calls := calls + [ProfileRequest];
      if profile.Err? {
        isAuthenticated, user := false, None;
        r := Err(profile.error);
        return;
      }
      user := profile.value;
      r := Ok(());
    }

    method Register(email: string, password: string, registered: Result<()>, reply: Result<LoginReply>, profile: Result<Option<Profile>>)
      returns (r: Result<()>, ghost calls: seq<AuthCall>)
      modifies this, storage
      ensures AuthStep(State(), storage.Value(), r, calls) ==
              RegisterOutcome(old(State()), old(storage.Value()), email, password, registered, reply, profile)
    {
      var answer := Api.Register(registered);
      if answer.Err? {
        r, calls := Err(answer.error), [RegisterRequest(email, password)];
        return;
      }
      ghost var loginCalls: seq<AuthCall>;
      r, loginCalls := Login(email, password, reply, profile);
      calls := [RegisterRequest(email, password)] + loginCalls;
    }

    /** `logout`: whatever the state, both credentials go and the session is signed out. */
    method HandleLogout()
      modifies this, storage
      ensures State() == old(State()).(isAuthenticated := false, user := None)
      ensures storage.Value() == Tokens(None, None)
      ensures Coherent(State(), storage.Value())
    {
      storage.Logout();
      storage.RemoveToken();
      storage.RemoveRefreshToken();
      user := None;
      isAuthenticated := false;
    }
  }
}
