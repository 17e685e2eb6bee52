/** Refresh tokens over whole runs: each is good for one rotation or one logout, and for nothing after. */
module Rotation {
  import opened Options
  import opened Tokens
  import opened Auth

  ghost function RunAuth(settings: Settings, start: real, calls: seq<AuthCall>): AuthState {
    if calls == [] then StartState(start)
    else StepAuth(settings, RunAuth(settings, start, calls[..|calls| - 1]), calls[|calls| - 1]).state
  }

  predicate UsesFreshId(s: AuthState, jti: string) {
    forall t | t in s.issued :: t.jti != jti
  }

  /** Time does not run backwards, and token ids are never drawn twice (uuid4). */
  ghost predicate Plausible(settings: Settings, start: real, calls: seq<AuthCall>) {
    calls == []
    || (var earlier, last := calls[..|calls| - 1], calls[|calls| - 1];
        var s := RunAuth(settings, start, earlier);
        && Plausible(settings, start, earlier)
        && s.clock <= last.now
        && (last.Login? || last.Refresh? ==>
              UsesFreshId(s, last.access) && UsesFreshId(s, last.refresh) && last.access != last.refresh))
  }

  /** The call rotates a token or logs it out. */
  ghost predicate Spends(settings: Settings, s: AuthState, call: AuthCall) {
    || (call.Refresh? && StepAuth(settings, s, call).answer.Pair?)
    || (call.Logout? && StepAuth(settings, s, call).answer.Done?)
  }

  /** The token ids rotated or logged out in a run. */
  ghost function Spent(settings: Settings, start: real, calls: seq<AuthCall>): set<string> {
    if calls == [] then {}
    else
      var earlier, last := calls[..|calls| - 1], calls[|calls| - 1];
      Spent(settings, start, earlier)
        + (if Spends(settings, RunAuth(settings, start, earlier), last) then {last.token.jti} else {})
  }

  ghost predicate StillDenied(settings: Settings, s: AuthState, t: Claims) {
    t.jti in s.denied && t.exp as real <= s.denied[t.jti] + settings.skew
  }

  /** A spent token is denied for as long as it could still be presented. */
  ghost predicate DenylistSound(settings: Settings, s: AuthState, spent: set<string>) {
    && (forall t | t in s.issued && t.kind == Refreshing ::
          t.exp as real <= ExpiryOf(settings.refreshTtl, s.clock) + settings.skew)
    && (forall t | t in s.issued && t.kind == Refreshing && t.jti in spent && NotExpired(settings, t, s.clock) ::
          StillDenied(settings, s, t))
    && (forall jti | jti in s.denied :: jti in spent)
    && (forall jti | jti in spent :: !UsesFreshId(s, jti))
  }

  lemma LaterStillSound(settings: Settings, s: AuthState, now: real, spent: set<string>)
    requires DenylistSound(settings, s, spent) && s.clock <= now
    ensures DenylistSound(settings, s.(clock := now), spent)
  {
    forall t | t in s.issued && t.kind == Refreshing && t.jti in spent && NotExpired(settings, t, now)
      ensures StillDenied(settings, s.(clock := now), t)
    {
      assert NotExpired(settings, t, s.clock);
      assert StillDenied(settings, s, t);
    }
  }

  lemma ForgettingKeepsSound(settings: Settings, s: AuthState, kept: map<string, real>, spent: set<string>)
    requires DenylistSound(settings, s, spent)
    requires forall jti | jti in s.denied && s.denied[jti] > s.clock :: jti in kept
    requires forall jti | jti in kept :: jti in s.denied && kept[jti] == s.denied[jti]
    ensures DenylistSound(settings, s.(denied := kept), spent)
  {
    forall t | t in s.issued && t.kind == Refreshing && t.jti in spent && NotExpired(settings, t, s.clock)
      ensures StillDenied(settings, s.(denied := kept), t)
    {
      assert StillDenied(settings, s, t);
    }
  }

  lemma DenyingKeepsSound(settings: Settings, s: AuthState, token: Claims, spent: set<string>)
    requires DenylistSound(settings, s, spent) && token in s.issued && token.kind == Refreshing
    ensures DenylistSound(settings, s.(denied := AfterRevoke(s.denied, token.jti, settings.refreshTtl, s.clock)),
                          spent + {token.jti})
  {
    ForgettingKeepsSound(settings, s, Tokens.Unexpired(s.denied, s.clock), spent);
    var purged := s.(denied := Tokens.Unexpired(s.denied, s.clock));
    var next := s.(denied := AfterRevoke(s.denied, token.jti, settings.refreshTtl, s.clock));
    forall t | t in s.issued && t.kind == Refreshing && t.jti in spent + {token.jti} && NotExpired(settings, t, s.clock)
      ensures StillDenied(settings, next, t)
    {
      assert t.jti != token.jti ==> StillDenied(settings, purged, t);
    }
  }

  lemma IssuingKeepsSound(settings: Settings, s: AuthState, id: int, access: string, refresh: string,
                          spent: set<string>)
    requires DenylistSound(settings, s, spent) && id in s.users
    requires UsesFreshId(s, access) && UsesFreshId(s, refresh)
    ensures DenylistSound(settings, IssueTokens(settings, s, id, access, refresh, s.clock).state, spent)
  {
    var next := IssueTokens(settings, s, id, access, refresh, s.clock).state;
    forall t | t in next.issued && t.kind == Refreshing && t.jti in spent && NotExpired(settings, t, s.clock)
      ensures StillDenied(settings, next, t)
    {
      assert t in s.issued;
      assert StillDenied(settings, s, t);
    }
    forall jti | jti in spent ensures !UsesFreshId(next, jti) {
      assert !UsesFreshId(s, jti);
    }
  }

  lemma RefreshKeepsSound(settings: Settings, s: AuthState, token: Claims, access: string, refresh: string,
                          spent: set<string>)
    requires DenylistSound(settings, s, spent)
    requires UsesFreshId(s, access) && UsesFreshId(s, refresh)
    ensures var o := RefreshSpec(settings, s, token, access, refresh, s.clock);
            DenylistSound(settings, o.state, spent + (if o.answer.Pair? then {token.jti} else {}))
  {
    if Decodes(settings, s.issued, token, s.clock) {
      ForgettingKeepsSound(settings, s, AfterLookup(s.denied, token.jti, s.clock), spent);
      var looked := s.(denied := AfterLookup(s.denied, token.jti, s.clock));
      if RefreshSpec(settings, s, token, access, refresh, s.clock).answer.Pair? {
        DenyingKeepsSound(settings, looked, token, spent);
        var denied := looked.(denied := AfterRevoke(looked.denied, token.jti, settings.refreshTtl, s.clock));
        IssuingKeepsSound(settings, denied, token.user, access, refresh, spent + {token.jti});
      } else {
        assert spent + {} == spent;
      }
    } else {
      assert spent + {} == spent;
    }
  }

  lemma StepKeepsSound(settings: Settings, s: AuthState, call: AuthCall, spent: set<string>)
    requires DenylistSound(settings, s, spent) && s.clock <= call.now
    requires call.Login? || call.Refresh? ==> UsesFreshId(s, call.access) && UsesFreshId(s, call.refresh)
    ensures DenylistSound(settings, StepAuth(settings, s, call).state,
                          spent + (if Spends(settings, s, call) then {call.token.jti} else {}))
  {
    LaterStillSound(settings, s, call.now, spent);
    var t := s.(clock := call.now);
    hide DenylistSound;
    match call
    case Login(email, password, access, refresh, now) =>
      assert spent + {} == spent;
      if exists id :: id in s.users && Matches(s.users[id], email, password) {
        forall id | id in s.users
          ensures DenylistSound(settings, IssueTokens(settings, t, id, access, refresh, now).state, spent)
        {
          IssuingKeepsSound(settings, t, id, access, refresh, spent);
        }
      }
    case Refresh(token, access, refresh, now) =>
      RefreshKeepsSound(settings, t, token, access, refresh, spent);
    case Logout(token, now) =>
      if Decodes(settings, s.issued, token, now) {
        DenyingKeepsSound(settings, t, token, spent);
      } else {
        assert spent + {} == spent;
      }
    case SaveUser(id, user, now) =>
      UsersDoNotMatter(settings, t, t.users[id := user], spent);
      assert spent + {} == spent;
  }

  lemma UsersDoNotMatter(settings: Settings, s: AuthState, users: map<int, User>, spent: set<string>)
    requires DenylistSound(settings, s, spent)
    ensures DenylistSound(settings, s.(users := users), spent)
  {
    var next := s.(users := users);
    forall t | t in next.issued && t.kind == Refreshing && t.jti in spent && NotExpired(settings, t, next.clock)
      ensures StillDenied(settings, next, t)
    {
      assert StillDenied(settings, s, t);
    }
    forall jti | jti in spent ensures !UsesFreshId(next, jti) {
      assert !UsesFreshId(s, jti);
    }
  }

  /** Every reachable denylist holds each spent token until that token has expired by itself. */
  lemma {:induction false} RunKeepsSound(settings: Settings, start: real, calls: seq<AuthCall>)
    requires Plausible(settings, start, calls)
    ensures DenylistSound(settings, RunAuth(settings, start, calls), Spent(settings, start, calls))
  {
    if calls != [] {
      hide DenylistSound, StepAuth, Spends;
      var earlier, last := calls[..|calls| - 1], calls[|calls| - 1];
      RunKeepsSound(settings, start, earlier);
      StepKeepsSound(settings, RunAuth(settings, start, earlier), last, Spent(settings, start, earlier));
    }
  }

  /** In every reachable state a refresh is accepted exactly when the token was signed here as a
      refresh token, has not expired, was never rotated or logged out, and its user is active in
      the business the token names. */
  lemma AcceptedExactlyWhenUnspent(settings: Settings, start: real, calls: seq<AuthCall>, token: Claims,
                                   access: string, refresh: string, now: real)
    requires Plausible(settings, start, calls)
    requires RunAuth(settings, start, calls).clock <= now
    ensures var s := RunAuth(settings, start, calls);
            (StepAuth(settings, s, Refresh(token, access, refresh, now)).answer.Pair?)
            <==> (&& token in s.issued && token.kind == Refreshing && now + settings.skew < token.exp as real
                  && token.user in s.users && s.users[token.user].biz == token.biz && s.users[token.user].active
                  && token.jti !in Spent(settings, start, calls))
  {
    var s, spent := RunAuth(settings, start, calls), Spent(settings, start, calls);
    RunKeepsSound(settings, start, calls);
    LaterStillSound(settings, s, now, spent);
    if Decodes(settings, s.issued, token, now) && token.jti in spent {
      assert StillDenied(settings, s.(clock := now), token);
    }
  }

  lemma {:induction false} SpentStays(settings: Settings, start: real, calls: seq<AuthCall>, n: nat)
    requires Plausible(settings, start, calls) && n <= |calls|
    ensures Plausible(settings, start, calls[..n])
    ensures Spent(settings, start, calls[..n]) <= Spent(settings, start, calls)
    decreases |calls|
  {
    if n < |calls| {
      var earlier := calls[..|calls| - 1];
      assert earlier[..n] == calls[..n];
      SpentStays(settings, start, earlier, n);
    } else {
      assert calls[..n] == calls;
    }
  }

  /** A token rotated or logged out is never accepted again, at any later time. */
  lemma NeverAcceptedAgain(settings: Settings, start: real, calls: seq<AuthCall>, i: nat, j: nat)
    requires Plausible(settings, start, calls) && i < j < |calls|
    requires Spends(settings, RunAuth(settings, start, calls[..i]), calls[i])
    requires calls[j].Refresh? && calls[j].token.jti == calls[i].token.jti
    ensures StepAuth(settings, RunAuth(settings, start, calls[..j]), calls[j]).answer == AuthenticationError
  {
    hide StepAuth;
    var before := calls[..j];
    SpentStays(settings, start, calls, j);
    SpentStays(settings, start, before, i + 1);
    assert before[..i + 1] == calls[..i + 1] && calls[..i + 1][..i] == calls[..i];
    SpentStays(settings, start, calls, j + 1);
    assert calls[..j + 1][..j] == before;
    var c := calls[j];
    AcceptedExactlyWhenUnspent(settings, start, before, c.token, c.access, c.refresh, c.now);
    RefreshAnswers(settings, RunAuth(settings, start, before), c);
  }

  lemma RefreshAnswers(settings: Settings, s: AuthState, call: AuthCall)
    requires call.Refresh?
    ensures var a := StepAuth(settings, s, call).answer; a.Pair? || a == AuthenticationError
  {}

  /** A logout is accepted exactly from a refresh token signed here and not yet expired, spent or not. */
  lemma LogoutAcceptedExactly(settings: Settings, s: AuthState, token: Claims, now: real)
    ensures var o := StepAuth(settings, s, Logout(token, now));
            if token in s.issued && token.kind == Refreshing && now + settings.skew < token.exp as real
            then o.answer == Done && o.state.issued == s.issued && o.state.users == s.users
                 && DeniedNow(settings, s, o.state, token.jti, now)
            else o == AuthOutcome(s.(clock := now), AuthenticationError)
  {}

  /** The entry of one id lasts a refresh token's lifetime from now; of the others the unexpired ones stay. */
  ghost predicate DeniedNow(settings: Settings, s: AuthState, next: AuthState, jti: string, now: real) {
    && (forall k :: k in next.denied <==> k == jti || (k in s.denied && s.denied[k] > now))
    && (forall k | k in next.denied ::
          next.denied[k] == if k != jti then s.denied[k]
                            else now + if settings.refreshTtl < 0 then 0.0 else settings.refreshTtl as real)
  }

  /** Both tokens name the user, the business and the role the user has at that moment, and the ids drawn
      for them; each expires its own lifetime from now on the wall clock. */
  ghost predicate SignedFor(settings: Settings, o: AuthOutcome, id: int, user: User, access: string, refresh: string,
                            now: real)
  {
    o.answer
    == Pair(Claims(id, user.biz, user.role, Access, (now + settings.skew + settings.accessTtl as real).Floor, access),
            Claims(id, user.biz, user.role, Refreshing, (now + settings.skew + settings.refreshTtl as real).Floor,
                   refresh))
  }

  /** A login is accepted exactly for an active account of that address and password, and signs for it. */
  lemma LoginSignsExactly(settings: Settings, s: AuthState, email: string, password: string, access: string,
                          refresh: string, now: real)
    ensures var o := StepAuth(settings, s, Login(email, password, access, refresh, now));
            && ((forall id | id in s.users && s.users[id].email == email && s.users[id].password == password ::
                   !s.users[id].active) ==>
                  o == AuthOutcome(s.(clock := now), AuthenticationError))
            && ((exists id | id in s.users :: Matches(s.users[id], email, password)) ==>
                  && (exists id | id in s.users && s.users[id].email == email ::
                        && s.users[id].password == password && s.users[id].active
                        && SignedFor(settings, o, id, s.users[id], access, refresh, now))
                  && o.state == s.(clock := now, issued := s.issued + {o.answer.access, o.answer.refresh}))
  {
    var o := StepAuth(settings, s, Login(email, password, access, refresh, now));
    if exists id | id in s.users :: Matches(s.users[id], email, password) {
      var id :| id in s.users && Matches(s.users[id], email, password)
                && o == IssueTokens(settings, s.(clock := now), id, access, refresh, now);
      IssueSigns(settings, s.(clock := now), id, access, refresh, now);
      assert SignedFor(settings, o, id, s.users[id], access, refresh, now);
    }
  }

  /** An accepted rotation signs for the user as it is now, whatever the old token said of it, and denies the
      old token. */
  lemma RefreshSignsExactly(settings: Settings, s: AuthState, token: Claims, access: string, refresh: string, now: real)
    ensures var o := StepAuth(settings, s, Refresh(token, access, refresh, now));
            && o.state.users == s.users
            && if o.answer.Pair? then
                 && token.user in s.users
                 && SignedFor(settings, o, token.user, s.users[token.user], access, refresh, now)
                 && o.state.issued == s.issued + {o.answer.access, o.answer.refresh}
                 && DeniedNow(settings, s, o.state, token.jti, now)
               else
                 && o.answer == AuthenticationError && o.state.issued == s.issued
                 && StillListed(s.denied, o.state.denied, now)
  {
    if token.user in s.users {
      IssueSigns(settings, s.(clock := now), token.user, access, refresh, now);
    }
  }

  /** Looking an id up forgets no entry that still lasts, and adds none. */
  predicate StillListed(before: map<string, real>, after: map<string, real>, now: real) {
    && (forall k | k in before && before[k] > now :: k in after && after[k] == before[k])
    && forall k | k in after :: k in before && after[k] == before[k]
  }

  lemma IssueSigns(settings: Settings, s: AuthState, id: int, access: string, refresh: string, now: real)
    requires id in s.users
    ensures var o := IssueTokens(settings, s, id, access, refresh, now);
            SignedFor(settings, o, id, s.users[id], access, refresh, now)
  {}

  /** What a login or a rotation hands out works: until it expires, the new refresh token is accepted
      once its user is active, and the new access token never is in its place. */
  lemma NewPairUsable(settings: Settings, start: real, calls: seq<AuthCall>, call: AuthCall, access: string,
                      refresh: string, now: real)
    requires Plausible(settings, start, calls + [call]) && call.now <= now
    requires StepAuth(settings, RunAuth(settings, start, calls), call).answer.Pair?
    ensures var pair := StepAuth(settings, RunAuth(settings, start, calls), call).answer;
            var s := RunAuth(settings, start, calls + [call]);
            && (NotExpired(settings, pair.refresh, now) && ActiveUser(s.users, pair.refresh) ==>
                  StepAuth(settings, s, Refresh(pair.refresh, access, refresh, now)).answer.Pair?)
            && StepAuth(settings, s, Refresh(pair.access, access, refresh, now)).answer == AuthenticationError
            && pair.refresh.exp == (call.now + settings.skew + settings.refreshTtl as real).Floor
  {
    assert (calls + [call])[..|calls|] == calls;
    var s, pair := RunAuth(settings, start, calls), StepAuth(settings, RunAuth(settings, start, calls), call).answer;
    RunKeepsSound(settings, start, calls);
    NewPairUnspent(settings, s, call, Spent(settings, start, calls));
    AcceptedExactlyWhenUnspent(settings, start, calls + [call], pair.refresh, access, refresh, now);
    AcceptedExactlyWhenUnspent(settings, start, calls + [call], pair.access, access, refresh, now);
    RefreshAnswers(settings, RunAuth(settings, start, calls + [call]), Refresh(pair.access, access, refresh, now));
  }

  lemma NewPairUnspent(settings: Settings, s: AuthState, call: AuthCall, spent: set<string>)
    requires DenylistSound(settings, s, spent)
    requires call.Login? || call.Refresh? ==> UsesFreshId(s, call.access) && UsesFreshId(s, call.refresh)
    requires StepAuth(settings, s, call).answer.Pair?
    ensures var pair := StepAuth(settings, s, call).answer;
            var next := StepAuth(settings, s, call).state;
            && pair.refresh in next.issued && pair.refresh.kind == Refreshing && pair.access.kind == Access
            && pair.refresh.jti !in spent && (call.Refresh? ==> pair.refresh.jti != call.token.jti)
            && pair.refresh.exp == (call.now + settings.skew + settings.refreshTtl as real).Floor
  {
    assert call.Login? || call.Refresh?;
    assert UsesFreshId(s, call.refresh);
  }
}
