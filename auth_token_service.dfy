/** The session's token store (src/lib/authTokenService.ts): the access token,
 *  its expiry and the user id live in memory; the refresh token and the user
 *  id are also written to durable storage (`localStorage`, a string map here).
 *  The clock `Date.now()` is the parameter `now`, in milliseconds. */
module AuthTokenService {
  import opened Common

  const REFRESH_TOKEN_KEY := "aware_india_refresh_token"
  const USER_ID_KEY := "aware_india_user_id"

  /** Safety margin subtracted from the server's lifetime, in milliseconds. */
  const EXPIRY_BUFFER_MS := 60 * 1000

  /** `getTokenData()`: every absent or falsy field is `undefined`. */
  datatype TokenData = TokenData(accessToken: Option<string>, refreshToken: Option<string>,
                                 expiresAt: Option<int>, userId: Option<string>)

  /** The expiry timestamp `setTokens` records for a lifetime of `expiresIn` seconds at time `now`. */
  function ExpiryAt(now: int, expiresIn: int): (t: int)
    ensures t + EXPIRY_BUFFER_MS == now + expiresIn * 1000
    ensures expiresIn >= 60 ==> t >= now
  {
    now + expiresIn * 1000 - EXPIRY_BUFFER_MS
  }

  class TokenStore {
    var accessToken: Option<string>
    var expiresAt: Option<int>
    var userId: Option<string>
    /** The durable key-value storage the store shares with the rest of the page. */
    var storage: map<string, string>

    /** A new instance (a page load): nothing in memory, storage as it was left. */
    constructor (storage: map<string, string>)
      ensures this.storage == storage
      ensures AccessToken() == None && expiresAt == None && userId == None
      ensures RefreshToken() == Lookup(storage, REFRESH_TOKEN_KEY)
      ensures UserId() == Lookup(storage, USER_ID_KEY)
      ensures forall now :: IsAccessTokenExpired(now)
    {
      accessToken := None;
      expiresAt := None;
      userId := None;
      this.storage := storage;
    }

    /** `getAccessToken()`: memory only, never storage. */
    function AccessToken(): (t: Option<string>)
      reads this
      ensures t == accessToken
      ensures Truthy(t) <==> GetTokenData().accessToken.Some?
    {
      accessToken
    }

    /** `getRefreshToken()`: storage only. */
    function RefreshToken(): (t: Option<string>)
      reads this
      ensures t.Some? <==> REFRESH_TOKEN_KEY in storage
      ensures t.Some? ==> t.value == storage[REFRESH_TOKEN_KEY]
    {
      Lookup(storage, REFRESH_TOKEN_KEY)
    }

    /** `getUserId()`: the in-memory id when it is non-empty, otherwise the stored one. */
    function UserId(): (r: Option<string>)
      reads this
      ensures Truthy(userId) ==> r == userId
      ensures !Truthy(userId) ==> r == Lookup(storage, USER_ID_KEY)
      ensures Truthy(r) ==> Truthy(userId) || (USER_ID_KEY in storage && r.value == storage[USER_ID_KEY])
    {
      if Truthy(userId) then userId else Lookup(storage, USER_ID_KEY)
    }

    /** `isAccessTokenExpired()`: a missing or empty token and a missing or zero
        expiry both count as expired; otherwise the expiry is compared with `now`. */
    predicate IsAccessTokenExpired(now: int)
      reads this
      ensures !IsAccessTokenExpired(now) <==>
                Truthy(accessToken) && NumberTruthy(expiresAt) && now < expiresAt.value
    {
      if !Truthy(accessToken) || !NumberTruthy(expiresAt) then true
      else now >= expiresAt.value
    }

    /** `hasRefreshToken()`. */
    predicate HasRefreshToken()
      reads this
      ensures HasRefreshToken() <==> REFRESH_TOKEN_KEY in storage && storage[REFRESH_TOKEN_KEY] != ""
    {
      Truthy(RefreshToken())
    }

    /** `getTokenData()`. */
    function GetTokenData(): (d: TokenData)
      reads this
      ensures d.accessToken.Some? <==> Truthy(accessToken)
      ensures d.accessToken.Some? ==> d.accessToken == accessToken
      ensures d.refreshToken.Some? <==> HasRefreshToken()
      ensures d.refreshToken.Some? ==> d.refreshToken == RefreshToken()
      ensures d.expiresAt.Some? <==> NumberTruthy(expiresAt)
      ensures d.expiresAt.Some? ==> d.expiresAt == expiresAt
      ensures d.userId.Some? <==> Truthy(UserId())
      ensures d.userId.Some? ==> d.userId == UserId()
    {
      TokenData(
        if Truthy(accessToken) then accessToken else None,
        if Truthy(RefreshToken()) then RefreshToken() else None,
        if NumberTruthy(expiresAt) then expiresAt else None,
        if Truthy(UserId()) then UserId() else None)
    }

    /** The state `setTokens(a, r, e, u)` at time `now` leaves behind, over the storage `before`. */
    ghost predicate Holds(a: string, r: string, e: int, u: string, now: int, before: map<string, string>)
      reads this
    {
      accessToken == Some(a) && userId == Some(u) && expiresAt == Some(ExpiryAt(now, e)) &&
      storage == before[REFRESH_TOKEN_KEY := r][USER_ID_KEY := u]
    }

    /** The state `clearTokens()` leaves behind, over the storage `before`. */
    ghost predicate Cleared(before: map<string, string>)
      reads this
    {
      accessToken == None && expiresAt == None && userId == None &&
      storage == before - {REFRESH_TOKEN_KEY, USER_ID_KEY}
    }

    /** `setTokens`: overwrites every field of the previous session. */
    method SetTokens(a: string, r: string, e: int, u: string, now: int)
      modifies this
      ensures Holds(a, r, e, u, now, old(storage))
      ensures AccessToken() == Some(a) && RefreshToken() == Some(r) && UserId() == Some(u)
      ensures forall t :: IsAccessTokenExpired(t) <==> a == "" || ExpiryAt(now, e) == 0 || t >= ExpiryAt(now, e)
      ensures forall k :: k != REFRESH_TOKEN_KEY && k != USER_ID_KEY ==> Lookup(storage, k) == Lookup(old(storage), k)
    {
      accessToken := Some(a);
      userId := Some(u);
      expiresAt := Some(now + (e * 1000) - EXPIRY_BUFFER_MS);
      storage := storage[REFRESH_TOKEN_KEY := r];
      storage := storage[USER_ID_KEY := u];
    }

    /** `clearTokens()`: wipes memory and both storage keys, and nothing else. */
    method ClearTokens()
      modifies this
      ensures Cleared(old(storage))
      ensures AccessToken() == None && RefreshToken() == None && UserId() == None
      ensures !HasRefreshToken() && forall t :: IsAccessTokenExpired(t)
      ensures GetTokenData() == TokenData(None, None, None, None)
      ensures forall k :: k != REFRESH_TOKEN_KEY && k != USER_ID_KEY ==> Lookup(storage, k) == Lookup(old(storage), k)
    {
      accessToken := None;
      expiresAt := None;
      userId := None;
      storage := storage - {REFRESH_TOKEN_KEY};
      storage := storage - {USER_ID_KEY};
    }
  }

  /** Two `setTokens` calls with the same arguments leave the same session,
      whatever the sessions were before: no earlier value survives. */
  method SetTokensForgetsPriorSession(s1: TokenStore, s2: TokenStore, a: string, r: string, e: int, u: string, now: int)
    requires s1 != s2
    requires s1.storage == s2.storage
    modifies s1, s2
    ensures s1.accessToken == s2.accessToken && s1.expiresAt == s2.expiresAt
    ensures s1.userId == s2.userId && s1.storage == s2.storage
  {
    s1.SetTokens(a, r, e, u, now);
    s2.SetTokens(a, r, e, u, now);
  }

  /** `clearTokens()` twice has the same effect as once. */
  method ClearTokensTwice(s: TokenStore)
    modifies s
    ensures s.Cleared(old(s.storage))
  {
    s.ClearTokens();
    ghost var once := s.storage;
    s.ClearTokens();
    assert s.storage == once - {REFRESH_TOKEN_KEY, USER_ID_KEY};
  }

  /** Storage only: a reload after `setTokens` keeps the refresh token and the
      user id but no access token, so the session counts as expired. */
  method ReloadAfterSetTokens(a: string, r: string, e: int, u: string, now: int, storage: map<string, string>)
    returns (reloaded: TokenStore)
    ensures reloaded.AccessToken() == None
    ensures reloaded.RefreshToken() == Some(r) && reloaded.HasRefreshToken() == (r != "")
    ensures reloaded.UserId() == Some(u)
    ensures forall t :: reloaded.IsAccessTokenExpired(t)
  {
    var s := new TokenStore(storage);
    s.SetTokens(a, r, e, u, now);
    reloaded := new TokenStore(s.storage);
  }
}
