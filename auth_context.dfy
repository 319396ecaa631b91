/** The session manager of src/contexts/AuthContext.tsx: the error-message
 *  classifier, the user record derived from the access token's claims, and
 *  the provider whose handlers move the token store and the
 *  `{user, isAuthenticated, isLoading}` record together. Decoding the JWT is
 *  a function parameter `decode` that yields the claims, or `None` when
 *  decoding throws. */
module AuthContext {
  import opened Common
  import opened Types
  import opened Api
  import opened AuthTokenService

  // ---------------------------------------------------------------------------
  // mapAuthError

  /** The auth-failure rules in the order they are tried: a rule fires when the
      lower-cased message contains one of its phrases. */
  const AUTH_RULES: seq<(seq<string>, string)> := [
    (["invalid credentials", "user not found"], "Invalid email or password"),
    (["email not confirmed"], "Please verify your email before logging in"),
    (["user already registered"], "This email is already registered"),
    (["account disabled"], "Your account has been disabled")
  ]

  /** The message of the first rule that fires on `detail`, if any. */
  function FirstRule(detail: string, rules: seq<(seq<string>, string)>): Option<string> {
    if rules == [] then None
    else if exists j :: 0 <= j < |rules[0].0| && Includes(detail, rules[0].0[j]) then Some(rules[0].1)
    else FirstRule(detail, rules[1..])
  }

  /** `FirstRule` answers the message of some rule, and answers nothing
      exactly when no phrase of any rule occurs in `detail`. */
  lemma {:induction false} FirstRuleSound(detail: string, rules: seq<(seq<string>, string)>)
    ensures FirstRule(detail, rules).Some? ==> exists i :: 0 <= i < |rules| && FirstRule(detail, rules).value == rules[i].1
    ensures FirstRule(detail, rules).None? <==>
              forall i, j :: 0 <= i < |rules| && 0 <= j < |rules[i].0| ==> !Includes(detail, rules[i].0[j])
  {
    if rules != [] && !exists j :: 0 <= j < |rules[0].0| && Includes(detail, rules[0].0[j]) {
      FirstRuleSound(detail, rules[1..]);
      assert forall i :: 1 <= i < |rules| ==> rules[i] == rules[1..][i - 1];
      if FirstRule(detail, rules).Some? {
        var i :| 0 <= i < |rules[1..]| && FirstRule(detail, rules).value == rules[1..][i].1;
        assert FirstRule(detail, rules).value == rules[i + 1].1;
      }
    }
  }

  /** `mapAuthError(code, message, status)`. */
  function MapAuthError(code: Option<ErrorCode>, message: string, status: Option<int>): (r: string)
    ensures r != ""
    ensures code == Some(NetworkError) ==> r == CONNECT_MESSAGE
    ensures code != Some(NetworkError) && code != Some(AuthFailed) && status != Some(401) ==>
              r == Or(message, "Operation failed")
  {
    if code == Some(NetworkError) then CONNECT_MESSAGE
    else if code == Some(AuthFailed) || status == Some(401) then
      var detail := Lower(message);
      if Includes(detail, "invalid credentials") || Includes(detail, "user not found") then "Invalid email or password"
      else if Includes(detail, "email not confirmed") then "Please verify your email before logging in"
      else if Includes(detail, "user already registered") then "This email is already registered"
      else if Includes(detail, "account disabled") then "Your account has been disabled"
      else Or(message, "Invalid credentials")
    else Or(message, "Operation failed")
  }

  /** One rule: it fires, or the remaining rules decide. */
  lemma FirstRuleStep(detail: string, phrases: seq<string>, m: string, rest: seq<(seq<string>, string)>)
    ensures FirstRule(detail, [(phrases, m)] + rest) ==
              if exists j :: 0 <= j < |phrases| && Includes(detail, phrases[j]) then Some(m) else FirstRule(detail, rest)
  {
    assert ([(phrases, m)] + rest)[1..] == rest;
  }

  /** On an auth failure the message of the first rule that fires on the
      lower-cased message is returned; with none, the message itself or
      "Invalid credentials". */
  lemma MapAuthErrorFollowsRules(code: Option<ErrorCode>, message: string, status: Option<int>)
    requires code != Some(NetworkError) && (code == Some(AuthFailed) || status == Some(401))
    ensures MapAuthError(code, message, status) ==
              match FirstRule(Lower(message), AUTH_RULES)
              case Some(m) => m
              case None => Or(message, "Invalid credentials")
  {
    var detail := Lower(message);
    var r3 := [(["account disabled"], "Your account has been disabled")];
    var r2 := [(["user already registered"], "This email is already registered")] + r3;
    var r1 := [(["email not confirmed"], "Please verify your email before logging in")] + r2;
    assert AUTH_RULES == [(["invalid credentials", "user not found"], "Invalid email or password")] + r1;
    FirstRuleStep(detail, ["account disabled"], "Your account has been disabled", []);
    FirstRuleStep(detail, ["user already registered"], "This email is already registered", r3);
    FirstRuleStep(detail, ["email not confirmed"], "Please verify your email before logging in", r2);
    FirstRuleStep(detail, ["invalid credentials", "user not found"], "Invalid email or password", r1);
    assert FirstRule(detail, r3) == if Includes(detail, "account disabled") then Some("Your account has been disabled") else None by {
      assert ["account disabled"][0] == "account disabled";
    }
    assert FirstRule(detail, r2) == if Includes(detail, "user already registered")
                                    then Some("This email is already registered") else FirstRule(detail, r3) by {
      assert ["user already registered"][0] == "user already registered";
    }
    assert FirstRule(detail, r1) == if Includes(detail, "email not confirmed")
                                    then Some("Please verify your email before logging in") else FirstRule(detail, r2) by {
      assert ["email not confirmed"][0] == "email not confirmed";
    }
    var p0 := ["invalid credentials", "user not found"];
    assert p0[0] == "invalid credentials" && p0[1] == "user not found";
  }

  /** The message shown for a failed `login` or `signup` call. */
  function ErrorText(e: ApiError): (r: string)
    ensures r == MapAuthError(e.code, e.message, e.status) && r != ""
  {
    MapAuthError(e.code, e.message, e.status)
  }

  /** A 401 whose detail is "Invalid credentials" reaches the user as
      "Invalid email or password". */
  lemma WrongPasswordIsReported(o: Outcome<AuthResponse>)
    requires o.Responded? && o.reply.status == 401 && o.reply.detail == Some("Invalid credentials")
    ensures Login(o).Err? && ErrorText(Login(o).error) == "Invalid email or password"
  {
    assert Lower("Invalid credentials") == "invalid credentials";
  }

  /** A failed connection is reported with the connectivity message whatever
      the call. */
  lemma UnreachableIsReported(o: Outcome<AuthResponse>)
    requires !o.Responded?
    ensures ErrorText(Login(o).error) == CONNECT_MESSAGE
    ensures ErrorText(Signup(o).error) == CONNECT_MESSAGE
  {
  }

  // ---------------------------------------------------------------------------
  // getUserFromToken

  /** The decoded claims the client reads: `email` and the `user_metadata`
      fields `username` and `name`. */
  datatype Claims = Claims(email: Option<string>, username: Option<string>, name: Option<string>)

  /** `s.split('@')[0]`: the text before the first '@', or all of `s`. */
  function BeforeAt(s: string): (r: string)
    ensures r <= s
    ensures '@' !in r
    ensures |r| < |s| ==> s[|r|] == '@'
  {
    if s == [] || s[0] == '@' then [] else [s[0]] + BeforeAt(s[1..])
  }

  /** The username: the claim when non-empty, else the e-mail's local part
      when non-empty, else "User". */
  function Username(c: Claims): (r: string)
    ensures r != ""
    ensures Truthy(c.username) ==> r == c.username.value
    ensures !Truthy(c.username) && BeforeAt(OrElse(c.email, "")) != "" ==> r == BeforeAt(OrElse(c.email, ""))
    ensures !Truthy(c.username) && BeforeAt(OrElse(c.email, "")) == "" ==> r == "User"
  {
    if Truthy(c.username) then c.username.value else Or(BeforeAt(OrElse(c.email, "")), "User")
  }

  /** `getUserFromToken` at time `now`: `None` when the token does not decode;
      `createdAt` is the decoding time. */
  function UserFromToken(claims: Option<Claims>, userId: string, now: int): (u: Option<User>)
    ensures u.Some? <==> claims.Some?
    ensures u.Some? ==> && u.value.id == userId
                        && u.value.email == OrElse(claims.value.email, "")
                        && u.value.username == Username(claims.value)
                        && u.value.name == OrElse(claims.value.name, "User")
                        && u.value.username != "" && u.value.name != ""
                        && u.value.createdAt == now
  {
    match claims
    case None => None
    case Some(c) => Some(User(userId, OrElse(c.email, ""), Username(c), OrElse(c.name, "User"), now))
  }

  /** An e-mail with an '@' and no username claim names the user by the
      e-mail's local part. */
  lemma {:induction false} LocalPartUsername(local: string, domain: string, c: Claims)
    requires local != "" && '@' !in local
    requires c.email == Some(local + "@" + domain) && !Truthy(c.username)
    ensures Username(c) == local
  {
    BeforeAtLocal(local, domain);
  }

  lemma {:induction false} BeforeAtLocal(local: string, domain: string)
    requires '@' !in local
    ensures BeforeAt(local + "@" + domain) == local
    decreases |local|
  {
    if local != [] {
      assert (local + "@" + domain)[1..] == local[1..] + "@" + domain;
      BeforeAtLocal(local[1..], domain);
    }
  }

  // ---------------------------------------------------------------------------
  // AuthProvider

  const SIGNED_OUT := AuthState(None, false, false)

  class AuthProvider {
    var state: AuthState
    const tokens: TokenStore

    /** Every state the provider reaches claims a session only while an
        access token is held. */
    ghost predicate Consistent()
      reads this, tokens
    {
      state.isAuthenticated ==> tokens.AccessToken().Some?
    }

    /** The provider mounts loading, with nobody signed in. */
    constructor (tokens: TokenStore)
      ensures this.tokens == tokens
      ensures state == AuthState(None, false, true) && Consistent()
    {
      this.tokens := tokens;
      state := AuthState(None, false, true);
    }

    /** `initAuth`: with a refresh token and a user id in the store, refresh
        the session and decode the new access token. Returns the refresh
        tokens sent. */
    method InitAuth(now: int, refresh: string -> Outcome<AuthResponse>, decode: string -> Option<Claims>)
      returns (refreshes: seq<string>)
      modifies this, tokens
      ensures Consistent() && !state.isLoading
      ensures var rt, uid := old(tokens.RefreshToken()), old(tokens.UserId());
              && (!(Truthy(rt) && Truthy(uid)) ==>
                    refreshes == [] && unchanged(tokens) && state == SIGNED_OUT)
              && (Truthy(rt) && Truthy(uid) ==>
                    && refreshes == [rt.value]
                    && var res := Refresh(refresh(rt.value));
                       && (res.Err? ==> tokens.Cleared(old(tokens.storage)) && state == SIGNED_OUT)
                       && (res.Ok? ==>
                             var a := res.value;
                             && tokens.Holds(a.accessToken, a.refreshToken, a.expiresIn, a.userId, now, old(tokens.storage))
                             && var u := UserFromToken(decode(a.accessToken), a.userId, now);
                                && (u.Some? ==> state == AuthState(u, true, false))
                                // a token that does not decode stays stored, but nobody is signed in
                                && (u.None? ==> state == SIGNED_OUT)))
    {
      var refreshToken := tokens.RefreshToken();
      var userId := tokens.UserId();
      refreshes := [];
      if Truthy(refreshToken) && Truthy(userId) {
        refreshes := [refreshToken.value];
        match Refresh(refresh(refreshToken.value)) {
          case Ok(response) =>
            tokens.SetTokens(response.accessToken, response.refreshToken, response.expiresIn, response.userId, now);
            var user := UserFromToken(decode(response.accessToken), response.userId, now);
            if user.Some? {
              state := AuthState(user, true, false);
              return;
            }
          case Err(_) =>
            tokens.ClearTokens();
        }
      }
      state := SIGNED_OUT;
    }

    /** The `auth:token-expired` listener: signs the user out; the store was
        already cleared by the dispatcher. */
    method HandleTokenExpiry()
      modifies this
      ensures state == SIGNED_OUT && Consistent()
    {
      state := SIGNED_OUT;
    }

    /** `login`: on success the tokens are stored and the state becomes
        authenticated, even when the token does not decode to a user; on
        failure the mapped message is returned and nothing changes. */
    method Login(o: Outcome<AuthResponse>, now: int, decode: string -> Option<Claims>)
      returns (error: Option<string>)
      modifies this, tokens
      ensures error.None? <==> Api.Login(o).Ok?
      ensures Api.Login(o).Ok? ==>
                var a := Api.Login(o).value;
                && tokens.Holds(a.accessToken, a.refreshToken, a.expiresIn, a.userId, now, old(tokens.storage))
                && state == AuthState(UserFromToken(decode(a.accessToken), a.userId, now), true, false)
                && Consistent()
      ensures Api.Login(o).Err? ==>
                error == Some(ErrorText(Api.Login(o).error)) && unchanged(tokens) && state == old(state)
    {
      match Api.Login(o) {
        case Ok(response) =>
          tokens.SetTokens(response.accessToken, response.refreshToken, response.expiresIn, response.userId, now);
          var user := UserFromToken(decode(response.accessToken), response.userId, now);
          state := AuthState(user, true, false);
          error := None;
        case Err(e) =>
          error := Some(ErrorText(e));
      }
    }

    /** `signup`: only reports; e-mail verification comes before any session. */
    method Signup(o: Outcome<AuthResponse>) returns (error: Option<string>)
      ensures error.None? <==> Api.Signup(o).Ok?
      ensures Api.Signup(o).Err? ==> error == Some(ErrorText(Api.Signup(o).error))
      ensures error.Some? ==> error.value != ""
    {
      match Api.Signup(o) {
        case Ok(_) => error := None;
        case Err(e) => error := Some(ErrorText(e));
      }
    }

    /** `logout`: tells the backend only when an access token is held (its
        answer does not matter), then always clears the store and signs out.
        Returns the tokens sent to the backend. */
    method Logout() returns (sent: seq<string>)
      modifies this, tokens
      ensures sent == (if Truthy(old(tokens.AccessToken())) then [old(tokens.AccessToken()).value] else [])
      ensures tokens.Cleared(old(tokens.storage)) && state == SIGNED_OUT && Consistent()
    {
      var token := tokens.AccessToken();
      sent := [];
      if Truthy(token) {
        sent := [token.value];
      }
      tokens.ClearTokens();
      state := SIGNED_OUT;
    }

    /** `deleteAccount`: always refused. */
    method DeleteAccount() returns (error: string)
      ensures error == "Account deletion not supported yet."
    {
      error := "Account deletion not supported yet.";
    }
  }
}
