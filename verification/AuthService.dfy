/** Refresh rotation and logout over the denylist (app/auth/service.py, app/common/security.py). */
module Auth {
  import opened Options
  import opened Tokens

  datatype Role = Owner | Employee | Admin

  datatype User = User(biz: int, email: string, password: string, role: Role, active: bool)

  datatype TokenKind = Access | Refreshing

  /** The claims of a signed token; `exp` is in whole seconds of the wall clock. */
  datatype Claims = Claims(user: int, biz: int, role: Role, kind: TokenKind, exp: int, jti: string)

  /** `skew` is how far the wall clock is ahead of the monotonic one; the two advance together. */
  datatype Settings = Settings(accessTtl: int, refreshTtl: int, skew: real)

  /** `issued` stands for the signing key: a token verifies when it was signed here. */
  datatype AuthState = AuthState(users: map<int, User>, denied: map<string, real>, issued: set<Claims>, clock: real)

  datatype AuthAnswer = Pair(access: Claims, refresh: Claims) | Done | AuthenticationError

  datatype AuthOutcome = AuthOutcome(state: AuthState, answer: AuthAnswer)

  // ----- what each operation does -----

  function Sign(settings: Settings, id: int, user: User, kind: TokenKind, jti: string, now: real): Claims {
    var ttl := if kind == Access then settings.accessTtl else settings.refreshTtl;
    Claims(id, user.biz, user.role, kind, (now + settings.skew + ttl as real).Floor, jti)
  }

  predicate NotExpired(settings: Settings, token: Claims, now: real) {
    now + settings.skew < token.exp as real
  }

  /** `decode_token` with `expected_type="refresh"`. */
  predicate Decodes(settings: Settings, issued: set<Claims>, token: Claims, now: real) {
    token in issued && NotExpired(settings, token, now) && token.kind == Refreshing
  }

  /** `get_in_business`, and the account is active. */
  predicate ActiveUser(users: map<int, User>, token: Claims) {
    token.user in users && users[token.user].biz == token.biz && users[token.user].active
  }

  function IssueTokens(settings: Settings, s: AuthState, id: int, access: string, refresh: string,
                       now: real): AuthOutcome
    requires id in s.users
  {
    var a := Sign(settings, id, s.users[id], Access, access, now);
    var r := Sign(settings, id, s.users[id], Refreshing, refresh, now);
    AuthOutcome(s.(issued := s.issued + {a, r}), Pair(a, r))
  }

  predicate Matches(user: User, email: string, password: string) {
    user.email == email && user.password == password && user.active
  }

  function RefreshSpec(settings: Settings, s: AuthState, token: Claims, access: string, refresh: string,
                       now: real): AuthOutcome
  {
    if !Decodes(settings, s.issued, token, now) then AuthOutcome(s, AuthenticationError)
    else
      var looked := s.(denied := AfterLookup(s.denied, token.jti, now));
      if Denied(s.denied, token.jti, now) || !ActiveUser(s.users, token)
      then AuthOutcome(looked, AuthenticationError)
      else IssueTokens(settings,
                       looked.(denied := AfterRevoke(looked.denied, token.jti, settings.refreshTtl, now)),
                       token.user, access, refresh, now)
  }

  function LogoutSpec(settings: Settings, s: AuthState, token: Claims, now: real): AuthOutcome {
    if !Decodes(settings, s.issued, token, now) then AuthOutcome(s, AuthenticationError)
    else AuthOutcome(s.(denied := AfterRevoke(s.denied, token.jti, settings.refreshTtl, now)), Done)
  }

  // ----- the service -----

  class AuthService {
    const settings: Settings
    const store: InMemoryRefreshTokenStore
    var users: map<int, User>
    var issued: set<Claims>

    /** All revocations of this service last equally long. */
    ghost predicate Valid()
      reads this, store
    {
      store.Valid() && OneLifetime(store.history, settings.refreshTtl, store.clock)
    }

    constructor (settings: Settings, store: InMemoryRefreshTokenStore, users: map<int, User>)
      requires store.Valid() && store.history == []
      ensures this.settings == settings && this.store == store && this.users == users && issued == {}
      ensures Valid()
    {
      this.settings, this.store, this.users, issued := settings, store, users, {};
    }

    function State(now: real): AuthState
      reads this, store
    {
      AuthState(users, store.revoked, issued, now)
    }

    method IssuePair(id: int, access: string, refresh: string, now: real) returns (answer: AuthAnswer)
      requires id in users
      modifies this`issued
      ensures answer == IssueTokens(settings, old(State(now)), id, access, refresh, now).answer
      ensures State(now) == IssueTokens(settings, old(State(now)), id, access, refresh, now).state
    {
      var a := Sign(settings, id, users[id], Access, access, now);
      var r := Sign(settings, id, users[id], Refreshing, refresh, now);
      issued := issued + {a, r};
      answer := Pair(a, r);
    }

    method Refresh(token: Claims, access: string, refresh: string, now: real) returns (answer: AuthAnswer)
      requires Valid() && store.clock <= now
      modifies this`issued, store
      ensures Valid() && store.clock <= now
      ensures var spec := RefreshSpec(settings, old(State(now)), token, access, refresh, now);
              State(now) == spec.state && answer == spec.answer
      ensures answer.Pair? ==> forall r | r in old(store.history) && r.jti == token.jti :: r.expiry <= now
    {
      RevokingKeepsOneLifetime(store.history, settings.refreshTtl, store.clock, token.jti, now);
      AnyLiveRevocationCounts(store.history, token.jti, now);
      if !Decodes(settings, issued, token, now) {
        return AuthenticationError;
      }
      var revoked := store.IsRevoked(token.jti, now);
      if revoked {
        return AuthenticationError;
      }
      if !ActiveUser(users, token) {
        return AuthenticationError;
      }
      store.Revoke(token.jti, settings.refreshTtl, now);
      answer := IssuePair(token.user, access, refresh, now);
    }

    method Logout(token: Claims, now: real) returns (answer: AuthAnswer)
      requires Valid() && store.clock <= now
      modifies store
      ensures Valid() && store.clock <= now
      ensures var spec := LogoutSpec(settings, old(State(now)), token, now);
              State(now) == spec.state && answer == spec.answer
      ensures answer == Done ==>
                store.history == old(store.history) + [Revocation(token.jti, ExpiryOf(settings.refreshTtl, now))]
    {
      RevokingKeepsOneLifetime(store.history, settings.refreshTtl, store.clock, token.jti, now);
      if !Decodes(settings, issued, token, now) {
        return AuthenticationError;
      }
      store.Revoke(token.jti, settings.refreshTtl, now);
      answer := Done;
    }
  }

  // ----- runs -----

  datatype AuthCall =
    | Login(email: string, password: string, access: string, refresh: string, now: real)
    | Refresh(token: Claims, access: string, refresh: string, now: real)
    | Logout(token: Claims, now: real)
    | SaveUser(id: int, user: User, now: real)

  function StartState(start: real): AuthState {
    AuthState(map[], map[], {}, start)
  }

  ghost function StepAuth(settings: Settings, s: AuthState, call: AuthCall): AuthOutcome {
    var t := s.(clock := call.now);
    match call
    case Login(email, password, access, refresh, now) =>
      if id :| id in s.users && Matches(s.users[id], email, password)
      then IssueTokens(settings, t, id, access, refresh, now)
      else AuthOutcome(t, AuthenticationError)
    case Refresh(token, access, refresh, now) => RefreshSpec(settings, t, token, access, refresh, now)
    case Logout(token, now) => LogoutSpec(settings, t, token, now)
    case SaveUser(id, user, now) => AuthOutcome(t.(users := t.users[id := user]), Done)
  }
}
