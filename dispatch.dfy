/** The authenticated dispatcher of src/lib/api.ts (`fetchWithAuth`): it
 *  attaches the bearer token, and on a 401 or 403 refreshes the session once
 *  through a module-level mutex and re-issues the request. The network is a
 *  pair of function parameters: `send` answers a request (url and headers),
 *  `refresh` answers a refresh request for a refresh token. */
module Dispatch {
  import opened Common
  import opened Types
  import opened Api
  import opened AuthTokenService

  const AUTHORIZATION := "Authorization"
  const SESSION_EXPIRED := "Session expired. Please login again."

  /** A status that triggers a token refresh. */
  predicate IsAuthFailure(status: int) {
    status == 401 || status == 403
  }

  /** The headers after attaching the held access token: an `Authorization`
      header is added (or replaced) exactly when the token is non-empty, and
      every other header is kept. */
  function WithBearer(headers: map<string, string>, token: Option<string>): (h: map<string, string>)
    ensures Truthy(token) ==> AUTHORIZATION in h && h[AUTHORIZATION] == "Bearer " + token.value
    ensures !Truthy(token) ==> h == headers
    ensures forall k :: k != AUTHORIZATION ==> Lookup(h, k) == Lookup(headers, k)
    ensures h.Keys == headers.Keys + (if Truthy(token) then {AUTHORIZATION} else {})
  {
    if Truthy(token) then headers[AUTHORIZATION := "Bearer " + token.value] else headers
  }

  /** The options object a caller passes in; `fetchWithAuth` writes its headers in place. */
  class RequestOptions {
    var headers: map<string, string>

    constructor (headers: map<string, string>)
      ensures this.headers == headers
    {
      this.headers := headers;
    }
  }

  /** The module-level pair `isRefreshing` / `refreshPromise`. A pending
      promise is represented by the value it settles to. */
  class RefreshMutex {
    var isRefreshing: bool
    var refreshPromise: Option<Result<AuthResponse, ApiError>>

    ghost predicate Valid()
      reads this
    {
      isRefreshing <==> refreshPromise.Some?
    }

    constructor ()
      ensures Valid() && !isRefreshing && refreshPromise == None
    {
      isRefreshing := false;
      refreshPromise := None;
    }

    /** Joins the pending refresh, or starts one for `refreshToken` when none
        is pending; returns what the refresh settles to and the refresh
        tokens of the requests started. */
    method Acquire(refreshToken: string, refresh: string -> Outcome<AuthResponse>)
      returns (settled: Result<AuthResponse, ApiError>, started: seq<string>)
      requires Valid()
      modifies this
      ensures Valid() && isRefreshing && refreshPromise == Some(settled)
      ensures settled == Joined(old(isRefreshing), old(refreshPromise), refreshToken, refresh)
      ensures started == if old(isRefreshing) then [] else [refreshToken]
    {
      if !isRefreshing {
        isRefreshing := true;
        refreshPromise := Some(Refresh(refresh(refreshToken)));
        started := [refreshToken];
      } else {
        started := [];
      }
      settled := refreshPromise.value;
    }

    /** Clears the pair once the refresh has settled. */
    method Release()
      modifies this
      ensures Valid() && !isRefreshing && refreshPromise == None
    {
      isRefreshing := false;
      refreshPromise := None;
    }
  }

  /** What the awaited `refreshPromise` settles to: the pending refresh if
      there is one, a new refresh of `refreshToken` otherwise. */
  function Joined(isRefreshing: bool, pending: Option<Result<AuthResponse, ApiError>>, refreshToken: string,
                  refresh: string -> Outcome<AuthResponse>): (settled: Result<AuthResponse, ApiError>)
    ensures isRefreshing && pending.Some? ==> settled == pending.value
    ensures !isRefreshing ==> settled == Refresh(refresh(refreshToken))
  {
    if isRefreshing && pending.Some? then pending.value else Refresh(refresh(refreshToken))
  }

  /** Whether a response sends the dispatcher into the refresh path. */
  predicate Refreshes<B>(first: Outcome<B>, retryOnAuthFailure: bool, refreshToken: Option<string>) {
    first.Responded? && IsAuthFailure(first.reply.status) && retryOnAuthFailure && Truthy(refreshToken)
  }

  /** `fetchWithAuth(url, options, timeout, retryOnAuthFailure)` at time `now`.
      Besides the settled result it returns the headers of every request sent,
      the refresh tokens of every refresh request started, and whether the
      `auth:token-expired` event was dispatched. */
  method FetchWithAuth<B>(store: TokenStore, mutex: RefreshMutex, options: RequestOptions, url: string,
                          retryOnAuthFailure: bool, now: int,
                          send: (string, map<string, string>) -> Outcome<B>,
                          refresh: string -> Outcome<AuthResponse>)
    returns (r: Result<Reply<B>, Exception>, sent: seq<map<string, string>>,
             refreshes: seq<string>, tokenExpired: bool)
    requires mutex.Valid()
    modifies store, mutex, options
    decreases if retryOnAuthFailure then 1 else 0, 0
    ensures mutex.Valid()
    // the first request carries the held token
    ensures |sent| >= 1 && sent[0] == WithBearer(old(options.headers), old(store.AccessToken()))
    ensures var first := send(url, sent[0]);
            // no refresh: the response is returned unchanged and nothing else changes
            && (!Refreshes(first, retryOnAuthFailure, old(store.RefreshToken())) ==>
                  && r == Settle(first) && sent == [sent[0]] && refreshes == [] && !tokenExpired
                  && options.headers == sent[0]
                  && unchanged(store) && unchanged(mutex))
            && (Refreshes(first, retryOnAuthFailure, old(store.RefreshToken())) ==>
                  // a refresh request starts only when none is pending
                  && refreshes == (if old(mutex.isRefreshing) then [] else [old(store.RefreshToken()).value])
                  && !mutex.isRefreshing
                  && var settled := Joined(old(mutex.isRefreshing), old(mutex.refreshPromise),
                                           old(store.RefreshToken()).value, refresh);
                     // refresh succeeded: new tokens stored, request re-issued once, its response returned as is
                     && (settled.Ok? ==>
                           var auth := settled.value;
                           && store.Holds(auth.accessToken, auth.refreshToken, auth.expiresIn, auth.userId, now,
                                          old(store.storage))
                           && sent == [sent[0], WithBearer(sent[0], Some(auth.accessToken))]
                           && options.headers == sent[1]
                           && r == Settle(send(url, sent[1]))
                           && !tokenExpired)
                     // refresh failed: session cleared, event dispatched, 401 thrown
                     && (settled.Err? ==>
                           && store.Cleared(old(store.storage))
                           && sent == [sent[0]] && options.headers == sent[0]
                           && tokenExpired
                           && r == Err(Thrown(ApiError(SESSION_EXPIRED, Some(401), None)))))
  {
    var token := store.AccessToken();
    if Truthy(token) {
      options.headers := options.headers[AUTHORIZATION := "Bearer " + token.value];
    }
    var response := send(url, options.headers);
    sent := [options.headers];
    refreshes := [];
    tokenExpired := false;

    if response.Responded? && IsAuthFailure(response.reply.status) && retryOnAuthFailure {
      var refreshToken := store.RefreshToken();
      if Truthy(refreshToken) {
        var sentAgain;
        r, sentAgain, refreshes, tokenExpired := RefreshAndRetry(store, mutex, options, url, refreshToken.value,
                                                                 now, send, refresh);
        sent := sent + sentAgain;
        return;
      }
    }
    r := Settle(response);
  }

  /** The `try`/`catch` of `fetchWithAuth` after a 401 or 403: await the
      (possibly shared) refresh of `refreshToken`; on success store the new
      tokens and re-issue the request once without further retries, on
      failure clear the session, dispatch `auth:token-expired` and throw. */
  method RefreshAndRetry<B>(store: TokenStore, mutex: RefreshMutex, options: RequestOptions, url: string,
                            refreshToken: string, now: int,
                            send: (string, map<string, string>) -> Outcome<B>,
                            refresh: string -> Outcome<AuthResponse>)
    returns (r: Result<Reply<B>, Exception>, sent: seq<map<string, string>>,
             refreshes: seq<string>, tokenExpired: bool)
    requires mutex.Valid()
    modifies store, mutex, options
    decreases 0, 1
    ensures mutex.Valid() && !mutex.isRefreshing
    ensures refreshes == if old(mutex.isRefreshing) then [] else [refreshToken]
    ensures var settled := Joined(old(mutex.isRefreshing), old(mutex.refreshPromise), refreshToken, refresh);
            && (settled.Ok? ==>
                  var auth := settled.value;
                  && store.Holds(auth.accessToken, auth.refreshToken, auth.expiresIn, auth.userId, now,
                                 old(store.storage))
                  && sent == [WithBearer(old(options.headers), Some(auth.accessToken))]
                  && options.headers == sent[0]
                  && r == Settle(send(url, sent[0]))
                  && !tokenExpired)
            && (settled.Err? ==>
                  && store.Cleared(old(store.storage))
                  && sent == [] && options.headers == old(options.headers)
                  && tokenExpired
                  && r == Err(Thrown(ApiError(SESSION_EXPIRED, Some(401), None))))
  {
    var settled;
    settled, refreshes := mutex.Acquire(refreshToken, refresh);
    match settled {
      case Ok(auth) =>
        store.SetTokens(auth.accessToken, auth.refreshToken, auth.expiresIn, auth.userId, now);
        mutex.Release();
        // the retry's own failure is not caught here: it reaches the caller as is
        var retried, sentAgain, _, _ := FetchWithAuth(store, mutex, options, url, false, now, send, refresh);
        r, sent, tokenExpired := retried, sentAgain, false;
      case Err(_) =>
        mutex.Release();
        store.ClearTokens();
        tokenExpired := true;
        sent := [];
        r := Err(Thrown(ApiError(SESSION_EXPIRED, Some(401), None)));
    }
  }

  /** A response that is still a 401 or 403 after a successful refresh is
      returned to the caller, not retried again. */
  method SecondAuthFailureIsReturned<B>(store: TokenStore, mutex: RefreshMutex, options: RequestOptions, url: string,
                                        now: int, send: (string, map<string, string>) -> Outcome<B>,
                                        refresh: string -> Outcome<AuthResponse>)
    returns (r: Result<Reply<B>, Exception>)
    requires mutex.Valid() && !mutex.isRefreshing
    requires Truthy(store.RefreshToken())
    requires forall h :: send(url, h).Responded? && send(url, h).reply.status == 401
    requires Refresh(refresh(store.RefreshToken().value)).Ok?
    modifies store, mutex, options
    ensures r.Ok? && r.value.status == 401
  {
    var sent, refreshes, expired;
    r, sent, refreshes, expired := FetchWithAuth(store, mutex, options, url, true, now, send, refresh);
    assert |sent| == 2;
  }
}
