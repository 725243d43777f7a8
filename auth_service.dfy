/**
 * The authentication service: login with lockout, refresh-token rotation,
 * logout, and the register-outbox hand-off.
 *
 * Three copies are modelled. `Service` (account/internal/service/auth.go)
 * prefixes its errors with "service<Auth.X>: "; `Internal`
 * (account/internal/auth.service.go) returns them unwrapped; `App`
 * (app/internal/account/auth.service.go) has no token cache, returns an
 * empty result on every error path, and its `Refresh` is a stub.
 *
 * The attempt cache and the token cache are the two maps of `Sessions`;
 * the password hasher, the token codecs and the caches' own failures are
 * collaborators whose outcomes are parameters.
 */
module AuthService {
  import opened Wrappers
  import opened Oops
  import opened Lockout
  import opened Outbox
  import opened AccountStore

  datatype AuthCopy = Service | Internal | App

  /** The error a copy returns for `cause` inside operation `op`. */
  function Raised(copy: AuthCopy, op: string, cause: Fault): (f: Fault)
    ensures copy == Service ==> f == Wrap("service<Auth." + op + ">: ", cause)
    ensures copy != Service ==> f == cause
    ensures HttpStatusCode(Some(f)) == HttpStatusCode(Some(cause))
  {
    WrapKeepsStatus("service<Auth." + op + ">: ", cause);
    if copy == Service then Wrap("service<Auth." + op + ">: ", cause) else cause
  }

  /** What the two caches hold: attempts per user (newest first) and the active refresh token per user. */
  datatype Sessions = Sessions(attempts: map<nat, seq<Attempt>>, tokens: map<nat, string>)

  function History(s: Sessions, user: nat): seq<Attempt>
  {
    if user in s.attempts then s.attempts[user] else []
  }

  /** `authAttemptCache.Add`: the attempt becomes the newest of the user's history. */
  function Recorded(s: Sessions, user: nat, a: Attempt): (t: Sessions)
    ensures History(t, user) == [a] + History(s, user)
    ensures forall v :: v != user ==> History(t, v) == History(s, v)
    ensures t.tokens == s.tokens
  {
    s.(attempts := s.attempts[user := [a] + History(s, user)])
  }

  datatype Tokens = Tokens(access: string, refresh: string)

  const NoTokens: Tokens := Tokens("", "")

  /** The Unauthorized a jailed login gets; the "Try again in %.2fs" suffix is not modelled. */
  const Jailed: Fault := Typed(Unauthorized, JailedMessage, None)

  /** What the collaborators report during one login. */
  datatype LoginWorld = LoginWorld(
    user: Result<User>,        // GetByUsername
    fetch: Option<Fault>,      // failure of reading the attempts
    compare: Option<Fault>,    // the hasher's verdict: None when the password matches the digest
    add: Option<Fault>,        // failure of recording the attempt
    access: Result<string>,    // encoding the access token
    refresh: Result<string>,   // encoding the refresh token
    grant: Option<Fault>,      // failure of storing the refresh token
    now: int)

  /** Every collaborator of a login succeeds, apart from the password check itself. */
  predicate Reachable(w: LoginWorld)
  {
    w.user.Ok? && w.fetch.None? && w.add.None?
  }

  /**
   * `Login`: look the user up, refuse a jailed user before looking at the
   * password, record the outcome of the password check as an attempt, and
   * only then issue tokens and grant the refresh token.
   */
  function LoginStep(copy: AuthCopy, c: Config, s: Sessions, w: LoginWorld): (r: (Sessions, Tokens, Option<Fault>))
    requires c.WindowDefined()
    ensures r.2.Some? ==> r.1 == NoTokens
    ensures r.2.None? <==>
      && Reachable(w) && JailTime(c, History(s, w.user.value.id), w.now) <= 0
      && w.compare.None? && w.access.Ok? && w.refresh.Ok? && (copy == App || w.grant.None?)
    ensures r.2.None? ==> r.1 == Tokens(w.access.value, w.refresh.value)
    ensures w.user.Ok? && w.fetch.None? && JailTime(c, History(s, w.user.value.id), w.now) > 0 ==>
      r == (s, NoTokens, Some(Raised(copy, "Login", Jailed)))
    ensures r.0 == s || (Reachable(w) && r.0.attempts == Recorded(s, w.user.value.id, Attempt(w.compare.None?, w.now)).attempts)
    ensures Reachable(w) && JailTime(c, History(s, w.user.value.id), w.now) <= 0 ==>
      History(r.0, w.user.value.id) == [Attempt(w.compare.None?, w.now)] + History(s, w.user.value.id)
    ensures Reachable(w) && JailTime(c, History(s, w.user.value.id), w.now) <= 0 && w.compare.Some? ==>
      r.2 == Some(Raised(copy, "Login", w.compare.value)) && r.0.tokens == s.tokens
    ensures r.0.tokens != s.tokens ==> copy != App && r.2.None?
    ensures r.2.None? && copy != App ==> r.0.tokens == s.tokens[w.user.value.id := w.refresh.value]
    ensures copy == App ==> r.0.tokens == s.tokens
  {
    if w.user.Err? then (s, NoTokens, Some(Raised(copy, "Login", w.user.fault)))
    else
      var id := w.user.value.id;
      if w.fetch.Some? then (s, NoTokens, Some(Raised(copy, "Login", w.fetch.value)))
      else if JailTime(c, History(s, id), w.now) > 0 then (s, NoTokens, Some(Raised(copy, "Login", Jailed)))
      else if w.add.Some? then (s, NoTokens, Some(Raised(copy, "Login", w.add.value)))
      else if w.compare.Some? then (Recorded(s, id, Attempt(false, w.now)), NoTokens, Some(Raised(copy, "Login", w.compare.value)))
      else
        var t := Recorded(s, id, Attempt(true, w.now));
        if w.access.Err? then (t, NoTokens, Some(Raised(copy, "Login", w.access.fault)))
        else if w.refresh.Err? then (t, NoTokens, Some(Raised(copy, "Login", w.refresh.fault)))
        else if copy == App then (t, Tokens(w.access.value, w.refresh.value), None)
        else if w.grant.Some? then (t, NoTokens, Some(Raised(copy, "Login", w.grant.value)))
        else (t.(tokens := t.tokens[id := w.refresh.value]), Tokens(w.access.value, w.refresh.value), None)
  }

  /** A jailed user can retry as often as they like: nothing is recorded, so the jail is not extended. */
  lemma JailedLoginIsInert(copy: AuthCopy, c: Config, s: Sessions, w: LoginWorld)
    requires c.WindowDefined() && w.user.Ok? && w.fetch.None?
    requires JailTime(c, History(s, w.user.value.id), w.now) > 0
    ensures LoginStep(copy, c, s, w).0 == s
    ensures HttpStatusCode(LoginStep(copy, c, s, w).2) == 401
  {
    StatusOfOopsValue(Unauthorized, JailedMessage, None);
  }

  /** After a successful login the user is not jailed at that moment. */
  lemma LoginClearsJail(copy: AuthCopy, c: Config, s: Sessions, w: LoginWorld)
    requires c.WindowDefined()
    requires LoginStep(copy, c, s, w).2.None?
    ensures JailTime(c, History(LoginStep(copy, c, s, w).0, w.user.value.id), w.now) == 0
  {
    var h := History(LoginStep(copy, c, s, w).0, w.user.value.id);
    OkNewestNoJail(c, h, w.now);
  }

  /** What the collaborators report during one refresh. */
  datatype RefreshWorld = RefreshWorld(
    owner: Result<nat>,        // the user id decoded from the presented refresh token
    find: Option<Fault>,       // failure of reading the cached token
    access: Result<string>,
    refresh: Result<string>,
    grant: Option<Fault>)

  /** The cache client's error for a missing key. */
  const NilReply: Fault := Plain("valkey nil message")

  const NoActiveToken: Fault :=
    Typed(Unauthorized, "Active refresh token not found", Some(Plain("Active refresh token not found")))
  const StaleToken: Fault :=
    Typed(Unauthorized, "Given token does not match with the active one",
          Some(Plain("Given token does not match with the active one")))

  /**
   * `Refresh`: the presented token must be the user's active, non-empty
   * one; then both tokens are re-issued and the new refresh token replaces
   * it. A cache read error is returned unwrapped in both real copies. The
   * `App` copy is a stub that returns empty tokens and no error.
   */
  function RefreshStep(copy: AuthCopy, s: Sessions, token: string, w: RefreshWorld): (r: (Sessions, Tokens, Option<Fault>))
    ensures r.0.attempts == s.attempts
    ensures r.2.Some? ==> r.0 == s && r.1 == NoTokens
    ensures copy == App ==> r == (s, NoTokens, None)
    ensures copy != App ==>
      (r.2.None? <==>
        && w.owner.Ok? && w.find.None? && w.owner.value in s.tokens
        && s.tokens[w.owner.value] == token && token != ""
        && w.access.Ok? && w.refresh.Ok? && w.grant.None?)
    ensures copy != App && r.2.None? ==>
      r.0.tokens == s.tokens[w.owner.value := w.refresh.value] && r.1 == Tokens(w.access.value, w.refresh.value)
    ensures copy != App && w.owner.Ok? && w.find.None? && w.owner.value in s.tokens ==>
      && (s.tokens[w.owner.value] == "" ==> r.2 == Some(Raised(copy, "Refresh", NoActiveToken)))
      && (s.tokens[w.owner.value] != "" && s.tokens[w.owner.value] != token ==> r.2 == Some(Raised(copy, "Refresh", StaleToken)))
    ensures copy != App && w.owner.Ok? && w.find.None? && w.owner.value !in s.tokens ==> r.2 == Some(NilReply)
  {
    if copy == App then (s, NoTokens, None)
    else if w.owner.Err? then (s, NoTokens, Some(Raised(copy, "Refresh", w.owner.fault)))
    else
      var id := w.owner.value;
      if w.find.Some? then (s, NoTokens, Some(w.find.value))
      else if id !in s.tokens then (s, NoTokens, Some(NilReply))
      else if s.tokens[id] == "" then (s, NoTokens, Some(Raised(copy, "Refresh", NoActiveToken)))
      else if s.tokens[id] != token then (s, NoTokens, Some(Raised(copy, "Refresh", StaleToken)))
      else if w.access.Err? then (s, NoTokens, Some(Raised(copy, "Refresh", w.access.fault)))
      else if w.refresh.Err? then (s, NoTokens, Some(Raised(copy, "Refresh", w.refresh.fault)))
      else if w.grant.Some? then (s, NoTokens, Some(Raised(copy, "Refresh", w.grant.value)))
      else (s.(tokens := s.tokens[id := w.refresh.value]), Tokens(w.access.value, w.refresh.value), None)
  }

  /**
   * Refresh tokens rotate: once a refresh succeeded with a new token, the
   * token it consumed is refused for the same user with Unauthorized.
   */
  lemma RefreshTokenSingleUse(copy: AuthCopy, s: Sessions, token: string, w: RefreshWorld, w2: RefreshWorld)
    requires copy != App
    requires RefreshStep(copy, s, token, w).2.None? && w.refresh.value != token
    requires w2.owner == w.owner && w2.find.None?
    ensures var s2 := RefreshStep(copy, s, token, w).0;
      var r := RefreshStep(copy, s2, token, w2);
      r.2.Some? && Has(r.2.value, Unauthorized) && r.0 == s2
  {
  }

  /** A successful login followed by a refresh with the granted token succeeds when the collaborators do. */
  lemma LoginThenRefresh(copy: AuthCopy, c: Config, s: Sessions, w: LoginWorld, w2: RefreshWorld)
    requires c.WindowDefined() && copy != App
    requires LoginStep(copy, c, s, w).2.None? && w.refresh.value != ""
    requires w2.owner == Ok(w.user.value.id) && w2.find.None? && w2.access.Ok? && w2.refresh.Ok? && w2.grant.None?
    ensures RefreshStep(copy, LoginStep(copy, c, s, w).0, w.refresh.value, w2).2.None?
  {
  }

  /** `Logout`: revoke the refresh token of the user named by the access token. */
  function LogoutStep(copy: AuthCopy, s: Sessions, owner: Result<nat>, revoke: Option<Fault>): (r: (Sessions, Option<Fault>))
    requires copy != App
    ensures r.0.attempts == s.attempts
    ensures r.1.None? <==> owner.Ok? && revoke.None?
    ensures r.1.Some? ==> r.0 == s
    ensures r.1.None? ==> r.0.tokens == s.tokens - {owner.value}
  {
    if owner.Err? then (s, Some(Raised(copy, "Logout", owner.fault)))
    else if revoke.Some? then (s, Some(Raised(copy, "Logout", revoke.value)))
    else (s.(tokens := s.tokens - {owner.value}), None)
  }

  /** After a logout no refresh token of that user is accepted. */
  lemma LogoutEndsRefresh(copy: AuthCopy, s: Sessions, owner: nat, revoke: Option<Fault>, token: string, w: RefreshWorld)
    requires copy != App
    requires LogoutStep(copy, s, Ok(owner), revoke).1.None?
    requires w.owner == Ok(owner)
    ensures RefreshStep(copy, LogoutStep(copy, s, Ok(owner), revoke).0, token, w).2.Some?
  {
  }

  /** `Infer`: the user id carried by a valid access token. */
  function Infer(copy: AuthCopy, owner: Result<nat>): (r: Result<nat>)
    requires copy != App
    ensures r.Ok? <==> owner.Ok?
    ensures r.Ok? ==> r.value == owner.value
    ensures r.Err? ==> r.fault == Raised(copy, "Infer", owner.fault)
  {
    if owner.Err? then Err(Raised(copy, "Infer", owner.fault)) else Ok(owner.value)
  }

  /** The collaborators' outcomes during one hand-off of new users. */
  datatype Handoff = Handoff(
    scan: seq<nat>,
    fetch: Option<Fault>,
    handle: seq<RegisterValue> -> Result<seq<nat>>,   // sends the batch, answers the ids to resolve
    resolve: Option<Fault>)

  /**
   * `HandleNewUsers`: fetch pending rows; when there are any, give them to
   * the handler and resolve exactly the ids it answers. An empty answer
   * reaches `sqlx.In` and fails.
   */
  function HandleNewUsersStep(copy: AuthCopy, storeCopy: Copy, s: StoreState, maxCount: nat, h: Handoff): (r: (StoreState, Option<Fault>))
    requires copy != App && Valid(s)
    ensures Valid(r.0)
    ensures var batch := PendingBatch(s.outbox, h.scan, maxCount);
      && (h.fetch.Some? ==> r == (s, Some(Raised(copy, "HandleNewUsers", Failed(storeCopy, "GetRegisterOutbox", h.fetch.value)))))
      && (h.fetch.None? && batch == [] ==> r == (s, None))
      && (h.fetch.None? && batch != [] && h.handle(batch).Err? ==>
            r == (s, Some(Raised(copy, "HandleNewUsers", h.handle(batch).fault))))
      && (h.fetch.None? && batch != [] && h.handle(batch).Ok? ==>
            var (t, e) := ResolveStep(storeCopy, s, h.handle(batch).value, h.resolve);
            r == (t, if e.Some? then Some(Raised(copy, "HandleNewUsers", e.value)) else None))
  {
    if h.fetch.Some? then (s, Some(Raised(copy, "HandleNewUsers", Failed(storeCopy, "GetRegisterOutbox", h.fetch.value))))
    else
      var batch := PendingBatch(s.outbox, h.scan, maxCount);
      if batch == [] then (s, None)
      else
        var sent := h.handle(batch);
        if sent.Err? then (s, Some(Raised(copy, "HandleNewUsers", sent.fault)))
        else
          var (t, e) := ResolveStep(storeCopy, s, sent.value, h.resolve);
          (t, if e.Some? then Some(Raised(copy, "HandleNewUsers", e.value)) else None)
  }

  /** The service over its two caches; the user store is passed to the operations that use it. */
  class Auth {
    const copy: AuthCopy
    const policy: Config
    var attempts: map<nat, seq<Attempt>>
    var tokens: map<nat, string>

    function Value(): Sessions
      reads this
    {
      Sessions(attempts, tokens)
    }

    constructor (copy: AuthCopy, policy: Config)
      requires policy.WindowDefined()
      ensures this.copy == copy && this.policy == policy
      ensures Value() == Sessions(map[], map[])
    {
      this.copy := copy;
      this.policy := policy;
      attempts := map[];
      tokens := map[];
    }

    /** `Register`: a hashing failure never reaches the store; otherwise the digest is stored, not the password. */
    method Register(store: UserStore, username: string, email: string, digest: Result<string>, fail: Option<Fault>)
      returns (err: Option<Fault>)
      requires Valid(store.State())
      modifies store
      ensures digest.Err? ==> err == Some(Raised(copy, "Register", digest.fault)) && store.State() == old(store.State())
      ensures digest.Ok? ==>
        var (t, e) := CreateStep(store.copy, old(store.State()), User(0, username, digest.value, email), fail);
        store.State() == t && err == (if e.Some? then Some(Raised(copy, "Register", e.value)) else None)
    {
      if digest.Err? {
        return Some(Raised(copy, "Register", digest.fault));
      }
      var e := store.Create(User(0, username, digest.value, email), fail);
      err := if e.Some? then Some(Raised(copy, "Register", e.value)) else None;
    }

    method Login(w: LoginWorld) returns (result: Tokens, err: Option<Fault>)
      requires policy.WindowDefined()
      modifies this
      ensures (Value(), result, err) == LoginStep(copy, policy, old(Value()), w)
    {
      if w.user.Err? {
        return NoTokens, Some(Raised(copy, "Login", w.user.fault));
      }
      var id := w.user.value.id;
      if w.fetch.Some? {
        return NoTokens, Some(Raised(copy, "Login", w.fetch.value));
      }
      var history := if id in attempts then attempts[id] else [];
      var jail := CalculateJailTime(policy, history, w.now);
      if jail > 0 {
        return NoTokens, Some(Raised(copy, "Login", Jailed));
      }
      if w.compare.Some? {
        if w.add.Some? {
          return NoTokens, Some(Raised(copy, "Login", w.add.value));
        }
        attempts := attempts[id := [Attempt(false, w.now)] + history];
        return NoTokens, Some(Raised(copy, "Login", w.compare.value));
      }
      if w.add.Some? {
        return NoTokens, Some(Raised(copy, "Login", w.add.value));
      }
      attempts := attempts[id := [Attempt(true, w.now)] + history];
      if w.access.Err? {
        return NoTokens, Some(Raised(copy, "Login", w.access.fault));
      }
      if w.refresh.Err? {
        return NoTokens, Some(Raised(copy, "Login", w.refresh.fault));
      }
      if copy != App {
        if w.grant.Some? {
          return NoTokens, Some(Raised(copy, "Login", w.grant.value));
        }
        tokens := tokens[id := w.refresh.value];
      }
      result, err := Tokens(w.access.value, w.refresh.value), None;
    }

    method Refresh(token: string, w: RefreshWorld) returns (result: Tokens, err: Option<Fault>)
      modifies this
      ensures (Value(), result, err) == RefreshStep(copy, old(Value()), token, w)
    {
      if copy == App {
        return NoTokens, None;
      }
      if w.owner.Err? {
        return NoTokens, Some(Raised(copy, "Refresh", w.owner.fault));
      }
      var id := w.owner.value;
      if w.find.Some? {
        return NoTokens, Some(w.find.value);
      }
      if id !in tokens {
        return NoTokens, Some(NilReply);
      }
      var active := tokens[id];
      if active == "" {
        return NoTokens, Some(Raised(copy, "Refresh", NoActiveToken));
      } else if active != token {
        return NoTokens, Some(Raised(copy, "Refresh", StaleToken));
      }
      if w.access.Err? {
        return NoTokens, Some(Raised(copy, "Refresh", w.access.fault));
      }
      if w.refresh.Err? {
        return NoTokens, Some(Raised(copy, "Refresh", w.refresh.fault));
      }
      if w.grant.Some? {
        return NoTokens, Some(Raised(copy, "Refresh", w.grant.value));
      }
      tokens := tokens[id := w.refresh.value];
      result, err := Tokens(w.access.value, w.refresh.value), None;
    }

    method Logout(owner: Result<nat>, revoke: Option<Fault>) returns (err: Option<Fault>)
      requires copy != App
      modifies this
      ensures (Value(), err) == LogoutStep(copy, old(Value()), owner, revoke)
    {
      if owner.Err? {
        return Some(Raised(copy, "Logout", owner.fault));
      }
      if revoke.Some? {
        return Some(Raised(copy, "Logout", revoke.value));
      }
      tokens := tokens - {owner.value};
      err := None;
    }

    method HandleNewUsers(store: UserStore, maxCount: nat, h: Handoff) returns (err: Option<Fault>)
      requires copy != App && Valid(store.State())
      modifies store
      ensures (store.State(), err) == HandleNewUsersStep(copy, store.copy, old(store.State()), maxCount, h)
    {
      var outbox := store.GetRegisterOutbox(maxCount, h.scan, h.fetch);
      if outbox.Err? {
        return Some(Raised(copy, "HandleNewUsers", outbox.fault));
      }
      if |outbox.value| == 0 {
        return None;
      }
      var sent := h.handle(outbox.value);
      if sent.Err? {
        return Some(Raised(copy, "HandleNewUsers", sent.fault));
      }
      var e := store.ResolveRegisterOutbox(sent.value, h.resolve);
      err := if e.Some? then Some(Raised(copy, "HandleNewUsers", e.value)) else None;
    }
  }
}
