/** The HTTP response interceptor that refreshes the session on a 401
    (src/api/Interceptors.ts): the default-header setters, the forced logout
    and the error handler, with the network's answers as inputs. */
module Interceptors {
  import opened Values
  import opened Urls
  import opened ContextReducer
  import opened Runtime

  /** The last URL segment that marks the token-refresh endpoint. */
  const RefreshSegment := "refreshtoken"

  /** The value of the `Authorization` header that carries `token`. */
  function Bearer(token: string): string
  {
    "Bearer " + token
  }

  datatype TokenPair = TokenPair(accessToken: string, refreshToken: string)

  /** How a request settled: with a response, or with an error. */
  datatype Settled = Fulfilled(response: Response) | Rejected(error: HttpError)

  /** What the refresh call returned: a response with a status in the success
      range (the HTTP library resolves only those; the handlers require it)
      and the new tokens, or a failure, which the HTTP library raises, with
      the response if there was one. */
  datatype RefreshReply = Answered(status: int, tokens: TokenPair) | Failed(response: Option<Response>)

  /** What the interceptor hands back to the caller of the original request:
      a response, a rejection with an error, or the settled result of
      re-issuing the original request. */
  datatype Outcome = Resolve(response: Response) | Reject(error: HttpError) | Retry(request: Request, result: Settled)

  /** Which way the error handler goes. */
  datatype Branch = PassOn | Logout | Refresh

  /** The router message that sends the user to the sign-in page with the
      message 'SigninAgain'. */
  const SigninAgain: Action := Other("Signin", Obj(map["params" := Obj(map["msg" := Str("SigninAgain")])]))

  /** The messages a forced logout dispatches, in order. */
  const LogoutMessages: seq<Action> := [SwitchAuthenticated(LoggedOut), SigninAgain]

  predicate IsUnauthorized(error: HttpError)
  {
    error.response.Some? && error.response.value.status == 401
  }

  /** The stored refresh token when it is truthy (present and not empty). */
  function StoredRefreshToken(storage: map<string, string>): Option<string>
  {
    if RefreshTokenKey in storage && storage[RefreshTokenKey] != "" then Some(storage[RefreshTokenKey]) else None
  }

  /** The decision of the error handler: anything but a 401 is passed on; a
      401 from the refresh endpoint, or with no refresh token stored, logs out;
      any other 401 attempts a refresh. */
  function Classify(error: HttpError, storage: map<string, string>): (branch: Branch)
    ensures branch == PassOn <==> !IsUnauthorized(error)
    ensures branch == Refresh <==>
      && IsUnauthorized(error) && StoredRefreshToken(storage).Some?
      && error.config.url != RefreshSegment && !EndsWith(error.config.url, "/" + RefreshSegment)
  {
    LastSegmentIs(error.config.url, RefreshSegment);
    if !IsUnauthorized(error) then PassOn
    else if LastSegment(error.config.url) == RefreshSegment then Logout
    else if StoredRefreshToken(storage).None? then Logout
    else Refresh
  }

  /** The refresh call: the refresh token as bearer, the old access token in
      the body. */
  function RefreshCall(refreshUrl: string, refreshToken: string, accessToken: Value): Request
  {
    Request(refreshUrl, map["Authorization" := Bearer(refreshToken)], Obj(map["oldToken" := accessToken]))
  }

  /** The original request with its own `Authorization` header replaced. */
  function Reauthorized(config: Request, accessToken: string): Request
  {
    config.(headers := config.headers["Authorization" := Bearer(accessToken)])
  }

  /** `setToken`: every later request carries `token` as bearer. */
  method SetToken(b: Browser, token: string)
    modifies b
    ensures b.authorization == Bearer(token)
    ensures b.storage == old(b.storage) && b.session == old(b.session)
    ensures b.state == old(b.state) && b.dispatched == old(b.dispatched) && b.requests == old(b.requests)
  {
    b.authorization := Bearer(token);
  }

  /** `clearToken`: later requests carry an empty `Authorization` header. */
  method ClearToken(b: Browser)
    modifies b
    ensures b.authorization == ""
    ensures b.storage == old(b.storage) && b.session == old(b.session)
    ensures b.state == old(b.state) && b.dispatched == old(b.dispatched) && b.requests == old(b.requests)
  {
    b.authorization := "";
  }

  /** The effects of a forced logout, measured from the state before it. */
  twostate predicate LoggedOutBy(b: Browser)
    reads b
  {
    && b.storage == old(b.storage) - {AccessTokenKey, RefreshTokenKey}
    && b.session == map[]
    && b.authorization == ""
    && b.dispatched == old(b.dispatched) + LogoutMessages
    && b.state == Run(old(b.state), LogoutMessages)
    && b.requests == old(b.requests)
  }

  /** `handleError`: drop both tokens and the session cache, clear the
      header, then dispatch the logout and the redirect to sign-in. */
  method HandleError(b: Browser)
    modifies b
    ensures LoggedOutBy(b)
  {
    b.storage := b.storage - {AccessTokenKey};
    b.storage := b.storage - {RefreshTokenKey};
    b.session := map[];
    ClearToken(b);
    b.Dispatch(SwitchAuthenticated(LoggedOut));
    b.Dispatch(SigninAgain);
    RunTwo(old(b.state), SwitchAuthenticated(LoggedOut), SigninAgain);
  }

  /** The error handler. `reply` is what the refresh call returns if one is
      made, `retried` how the re-issued original request settles if it is
      re-issued. The refresh call goes through this same handler; since its
      URL ends in the refresh segment, that nested run never refreshes. */
  method OnRejected(b: Browser, error: HttpError, refreshUrl: string, reply: RefreshReply, retried: Settled)
    returns (outcome: Outcome)
    requires LastSegment(refreshUrl) == RefreshSegment
    requires reply.Answered? ==> 200 <= reply.status < 300
    modifies b
    decreases if LastSegment(error.config.url) == RefreshSegment then 0 else 1
    // Not a 401: rejected as it came, nothing touched.
    ensures Classify(error, old(b.storage)) == PassOn ==> outcome == Reject(error) && unchanged(b)
    // A 401 from the refresh endpoint, or no refresh token: logout, then the original error.
    ensures Classify(error, old(b.storage)) == Logout ==> outcome == Reject(error) && LoggedOutBy(b)
    // A refresh answered with 200: new tokens stored and in both headers, the original re-issued once.
    ensures Classify(error, old(b.storage)) == Refresh && reply.Answered? && reply.status == 200 ==>
      var call := RefreshCall(refreshUrl, old(b.storage)[RefreshTokenKey], Stored(old(b.storage), AccessTokenKey));
      var again := Reauthorized(error.config, reply.tokens.accessToken);
      && outcome == Retry(again, retried)
      && b.storage == old(b.storage)[AccessTokenKey := reply.tokens.accessToken][RefreshTokenKey := reply.tokens.refreshToken]
      && b.authorization == Bearer(reply.tokens.accessToken)
      && b.requests == old(b.requests) + [call, again]
      && b.session == old(b.session) && b.state == old(b.state) && b.dispatched == old(b.dispatched)
    // A refresh answered with another status: no token written, the original error rejected.
    ensures Classify(error, old(b.storage)) == Refresh && reply.Answered? && reply.status != 200 ==>
      var call := RefreshCall(refreshUrl, old(b.storage)[RefreshTokenKey], Stored(old(b.storage), AccessTokenKey));
      && outcome == Reject(error)
      && b.authorization == Bearer(old(b.storage)[RefreshTokenKey])
      && b.requests == old(b.requests) + [call]
      && b.storage == old(b.storage) && b.session == old(b.session)
      && b.state == old(b.state) && b.dispatched == old(b.dispatched)
    // A refresh that failed: the failure is rejected in place of the original
    // error, after the nested run has logged out if the failure was a 401.
    ensures Classify(error, old(b.storage)) == Refresh && reply.Failed? ==>
      var call := RefreshCall(refreshUrl, old(b.storage)[RefreshTokenKey], Stored(old(b.storage), AccessTokenKey));
      && outcome == Reject(HttpError(call, reply.response))
      && b.requests == old(b.requests) + [call]
      && (IsUnauthorized(HttpError(call, reply.response)) ==>
            && b.storage == old(b.storage) - {AccessTokenKey, RefreshTokenKey}
            && b.session == map[] && b.authorization == ""
            && b.dispatched == old(b.dispatched) + LogoutMessages
            && b.state == Run(old(b.state), LogoutMessages))
      && (!IsUnauthorized(HttpError(call, reply.response)) ==>
            && b.storage == old(b.storage) && b.session == old(b.session)
            && b.authorization == Bearer(old(b.storage)[RefreshTokenKey])
            && b.state == old(b.state) && b.dispatched == old(b.dispatched))
  {
    var branch := Classify(error, b.storage);
    if branch == PassOn {
      outcome := Reject(error);
    } else if branch == Logout {
      HandleError(b);
      outcome := Reject(error);
    } else {
      var refreshToken := b.storage[RefreshTokenKey];
      b.authorization := Bearer(refreshToken);
      var call := RefreshCall(refreshUrl, refreshToken, Stored(b.storage, AccessTokenKey));
      b.requests := b.requests + [call];
      match reply {
        case Answered(status, tokens) =>
          if status == 200 {
            b.storage := b.storage[AccessTokenKey := tokens.accessToken];
            b.storage := b.storage[RefreshTokenKey := tokens.refreshToken];
            SetToken(b, tokens.accessToken);
            var again := Reauthorized(error.config, tokens.accessToken);
            b.requests := b.requests + [again];
            outcome := Retry(again, retried);
          } else {
            outcome := Reject(error);
          }
        case Failed(response) =>
          // The awaited refresh call throws whatever its own interception rejected with.
          outcome := OnRejected(b, HttpError(call, response), refreshUrl, reply, retried);
      }
    }
  }

  /** The interceptor pair: a response passes through untouched, an error
      goes to the error handler. */
  method Intercept(b: Browser, settled: Settled, refreshUrl: string, reply: RefreshReply, retried: Settled)
    returns (outcome: Outcome)
    requires LastSegment(refreshUrl) == RefreshSegment
    requires reply.Answered? ==> 200 <= reply.status < 300
    modifies b
    ensures settled.Fulfilled? ==> outcome == Resolve(settled.response) && unchanged(b)
    ensures settled.Rejected? && !IsUnauthorized(settled.error) ==> outcome == Reject(settled.error) && unchanged(b)
  {
    match settled {
      case Fulfilled(response) =>
        outcome := Resolve(response);
      case Rejected(error) =>
        outcome := OnRejected(b, error, refreshUrl, reply, retried);
    }
  }

  // ---------------------------------------------------------------------
  // Properties
  // ---------------------------------------------------------------------

  /** The header set by `setToken` names the token it was given and is never
      the cleared header. */
  lemma BearerIdentifiesToken(t1: string, t2: string)
    ensures Bearer(t1) != ""
    ensures Bearer(t1) == Bearer(t2) ==> t1 == t2
  {
    assert Bearer(t1)[7..] == t1;
    assert Bearer(t2)[7..] == t2;
  }

  /** A URL is treated as the refresh endpoint exactly when it is
      `refreshtoken` or ends in `/refreshtoken`. */
  lemma RefreshEndpointTest(url: string)
    ensures LastSegment(url) == RefreshSegment <==> url == RefreshSegment || EndsWith(url, "/" + RefreshSegment)
  {
    LastSegmentIs(url, RefreshSegment);
  }

  /** Only the final segment counts. */
  lemma RefreshEndpointExamples()
    ensures LastSegment("a/b/refreshtoken") == RefreshSegment
    ensures LastSegment("refreshtoken/x") != RefreshSegment
    ensures LastSegment("refreshtoken2") != RefreshSegment
  {
    RefreshEndpointTest("a/b/refreshtoken");
    assert "a/b/refreshtoken"[3..] == "/" + RefreshSegment;
    // The other two end in a character that `refreshtoken` does not end in.
    RefreshEndpointTest("refreshtoken/x");
    LastOfSuffix("refreshtoken/x", "/" + RefreshSegment);
    RefreshEndpointTest("refreshtoken2");
    LastOfSuffix("refreshtoken2", "/" + RefreshSegment);
  }

  /** A failure of the refresh call itself never leads to another refresh:
      the guard against a refresh loop. */
  lemma RefreshCallNeverRefreshes(refreshUrl: string, refreshToken: string, accessToken: Value,
                                  response: Option<Response>, storage: map<string, string>)
    requires LastSegment(refreshUrl) == RefreshSegment
    ensures Classify(HttpError(RefreshCall(refreshUrl, refreshToken, accessToken), response), storage) != Refresh
  {
  }

  /** After a forced logout the store says: not authenticated, no languages,
      no permissions; the redirect leaves the context state alone. */
  lemma LogoutState(s: State)
    ensures Get(Run(s, LogoutMessages), "isAuthenticated") == Bool(false)
    ensures Get(Run(s, LogoutMessages), "languages") == EmptyList
    ensures Get(Run(s, LogoutMessages), "permissions") == EmptyList
    ensures forall name :: name !in {"isAuthenticated", "languages", "permissions"} ==>
      Get(Run(s, LogoutMessages), name) == Get(s, name)
  {
    RunTwo(s, SwitchAuthenticated(LoggedOut), SigninAgain);
    var s1 := Reducer(Some(s), SwitchAuthenticated(LoggedOut));
    SwitchAuthenticatedEffect(s, LoggedOut);
    NoOpMessages(s1, SigninAgain);
  }
}
