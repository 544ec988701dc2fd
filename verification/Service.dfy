/**
  The authentication service over its stores (auth/service/service.go): each method changes the
  stores call by call, and is proved to leave and to answer what the machine's step does.
  */
module Service {
  import opened Text
  import opened Auth
  import opened Tables
  import opened Machine
  import opened Backends
  import Mobile
  import Repository
  import Invariants
  import PI = PendingIndex
  import R = RedisStores

  class AuthService {
    const cfg: Config
    const repo: Repository.CachedUserRepository
    const pending: PendingStore
    const logins: StateStore
    const sessions: SessionStore
    ghost var messages: seq<Message>
    ghost var minted: seq<Mint>
    ghost var roots: map<string, string>

    constructor (cfg: Config, repo: Repository.CachedUserRepository, pending: PendingStore, logins: StateStore,
      sessions: SessionStore)
      ensures this.cfg == cfg && this.repo == repo && this.pending == pending && this.logins == logins
        && this.sessions == sessions
      ensures messages == [] && minted == [] && roots == map[]
    {
      this.cfg, this.repo, this.pending, this.logins, this.sessions := cfg, repo, pending, logins, sessions;
      messages, minted, roots := [], [], map[];
    }

    ghost function Parts(): set<object> {
      repo.Parts() + {pending.Obj(), logins.Obj(), sessions.Obj()}
    }

    /** The stores are different objects. */
    ghost predicate Apart() {
      var p, l, s := pending.Obj(), logins.Obj(), sessions.Obj();
      && p != l && p != s && l != s && {this, p, l, s} !! repo.Parts()
      && this != p && this != l && this != s
    }

    ghost predicate Valid(now: Time)
      reads this, Parts()
    {
      && Apart() && repo.Fits(cfg) && (cfg.cacheTTL.Some? ==> cfg.cacheTTL.value > 0)
      && pending.Valid(now) && logins.Valid() && sessions.Valid()
    }

    /** The machine's state as the stores show it at a given time, next to the limiter's windows. */
    ghost function View(now: Time, windows: map<string, RateLimitWindow>): World
      reads this, Parts()
    {
      World(now, repo.store.Contents(), repo.Cached(now), pending.Live(now), logins.Live(now), sessions.Live(now),
        windows,
            messages, minted, roots)
    }

    /** As time passes the view ticks. */
    lemma Later(now: Time, later: Time, windows: map<string, RateLimitWindow>)
      requires Valid(now) && now <= later
      ensures Valid(later) && View(later, LiveWindows(windows, later)) == Tick(View(now, windows), later)
    {
      hide PI.Exact, R.Represents, Invariants.Distinct, PendingStore.Valid, PendingStore.Live, StateStore.Live,
        SessionStore.Live;
      pending.Later(now, later);
      logins.Later(now, later);
      sessions.Later(now, later);
    }

    lemma ViewNow(now: Time, windows: map<string, RateLimitWindow>)
      requires Valid(now)
      ensures View(now, windows).clock == now && View(now, windows).tables == repo.store.Contents()
    {
    }

    // ---- Single store calls, seen in the machine's state ----

    method NormalizeMobile(now: Time, input: string, ghost windows: map<string, RateLimitWindow>)
      returns (r: Result<string>)
      requires Valid(now)
      ensures Valid(now) && View(now, windows) == old(View(now, windows))
        && r == Mobile.Normalize(input, cfg.wideDigits)
    {
      hide PI.Exact, R.Represents, Invariants.Distinct, LivePending, LiveLogins, LiveSessions, LiveCache, Find;
      hide Mobile.Normalize;
      r := Mobile.NormalizeIndianMobile(input, cfg.wideDigits);
    }

    method GetUser(now: Time, col: Column, key: string, ghost windows: map<string, RateLimitWindow>)
      returns (r: Option<User>)
      requires Valid(now)
      modifies this, Parts()
      ensures Valid(now) && (View(now, windows), r) == Lookup(cfg, old(View(now, windows)), col, key)
      ensures r == Find(View(now, windows).tables.users, col, key)
      ensures View(now, windows) == old(View(now, windows)).(cache := View(now, windows).cache)
    {
      hide PI.Exact, R.Represents, Invariants.Distinct, LivePending, LiveLogins, LiveSessions, LiveCache, Find;
      r := repo.GetUserBy(now, cfg, col, key);
    }

    method GetUserByUsername(now: Time, username: string, ghost windows: map<string, RateLimitWindow>)
      returns (r: Option<User>)
      requires Valid(now)
      modifies this, Parts()
      ensures Valid(now) && (View(now, windows), r) == LookupUsername(cfg, old(View(now, windows)), username)
      ensures View(now, windows) == old(View(now, windows)).(cache := View(now, windows).cache)
    {
      hide PI.Exact, R.Represents, Invariants.Distinct, LivePending, LiveLogins, LiveSessions, LiveCache, Find;
      r := repo.GetUserDetailsByUsername(now, cfg, username);
    }

    method GetUserByID(now: Time, id: nat, ghost windows: map<string, RateLimitWindow>) returns (r: Option<User>)
      requires Valid(now)
      ensures Valid(now) && View(now, windows) == old(View(now, windows))
        && r == ByID(View(now, windows).tables.users, id)
    {
      hide PI.Exact, R.Represents, Invariants.Distinct, LivePending, LiveLogins, LiveSessions, LiveCache, Find;
      r := repo.store.GetUserByID(id);
    }

    method HasPassword(now: Time, id: nat, ghost windows: map<string, RateLimitWindow>) returns (known: bool)
      requires Valid(now)
      ensures Valid(now) && View(now, windows) == old(View(now, windows))
        && known == (id in View(now, windows).tables.passwords)
    {
      hide PI.Exact, R.Represents, Invariants.Distinct, LivePending, LiveLogins, LiveSessions, LiveCache, Find;
      known := id in repo.store.passwords;
    }

    method GetLinkedUser(now: Time, provider: string, identity: string, ghost windows: map<string, RateLimitWindow>)
      returns (r: Option<User>)
      requires Valid(now)
      ensures Valid(now) && View(now, windows) == old(View(now, windows))
        && r == FindSSO(View(now, windows).tables, provider, identity)
    {
      hide PI.Exact, R.Represents, Invariants.Distinct, LivePending, LiveLogins, LiveSessions, LiveCache, Find;
      hide FindSSO;
      r := repo.store.GetSSOAccount(provider, identity);
    }

    method CreateUser(now: Time, user: User, hash: string, ghost windows: map<string, RateLimitWindow>)
      returns (r: Result<User>)
      requires Valid(now)
      modifies this, Parts()
      ensures Valid(now)
      ensures
        var w := old(View(now, windows));
        match Register(w.tables, user, hash)
        case Err(e) => r == Err(e) && View(now, windows) == w
        case Ok((t, row)) => r == Ok(row) && View(now, windows) == Remember(cfg, w.(tables := t), row)
    {
      hide PI.Exact, R.Represents, Invariants.Distinct, LivePending, LiveLogins, LiveSessions, LiveCache, Find;
      hide Register;
      r := repo.RegisterUser(now, cfg, user, hash);
    }

    method CreateLinkedUser(now: Time, user: User, provider: string, identity: string,
        ghost windows: map<string, RateLimitWindow>)
      returns (r: Result<User>)
      requires Valid(now)
      modifies this, Parts()
      ensures Valid(now)
      ensures
        var w := old(View(now, windows));
        match CreateSSOUser(w.tables, user, provider, identity)
        case Err(e) => r == Err(e) && View(now, windows) == w
        case Ok((t, row)) => r == Ok(row) && View(now, windows) == Remember(cfg, w.(tables := t), row)
    {
      hide PI.Exact, R.Represents, Invariants.Distinct, LivePending, LiveLogins, LiveSessions, LiveCache, Find;
      hide CreateSSOUser;
      r := repo.CreateSSOUser(now, cfg, user, provider, identity);
    }

    method LinkIdentity(now: Time, userID: nat, provider: string, identity: string,
        ghost windows: map<string, RateLimitWindow>)
      requires Valid(now)
      modifies this, Parts()
      ensures Valid(now)
      ensures View(now, windows) ==
        old(View(now, windows)).(tables := Link(old(View(now, windows)).tables, userID, provider, identity))
    {
      hide PI.Exact, R.Represents, Invariants.Distinct, LivePending, LiveLogins, LiveSessions, LiveCache, Find;
      repo.store.LinkSSOAccount(userID, provider, identity);
    }

    method UpdateUser(now: Time, user: User, ghost windows: map<string, RateLimitWindow>) returns (err: Option<Error>)
      requires Valid(now)
      modifies this, Parts()
      ensures Valid(now)
      ensures
        var w := old(View(now, windows));
        match Update(w.tables, user)
        case None => err == Some(DuplicateKey) && View(now, windows) == w
        case Some(t) => err == None && View(now, windows) == w.(tables := t, cache := w.cache - {user.username})
    {
      hide PI.Exact, R.Represents, Invariants.Distinct, LivePending, LiveLogins, LiveSessions, LiveCache, Find;
      hide Update;
      err := repo.UpdateUser(now, user);
    }

    method GetPending(now: Time, mobile: string, ghost windows: map<string, RateLimitWindow>)
      returns (r: Option<PendingSignup>)
      requires Valid(now)
      modifies this, Parts()
      ensures Valid(now) && View(now, windows) == old(View(now, windows))
      ensures r == if mobile in View(now, windows).pending then Some(View(now, windows).pending[mobile]) else None
      ensures r.Some? ==> r.value.mobile == mobile && mobile != "" && now <= r.value.expiresAt
    {
      hide PI.Exact, R.Represents, Invariants.Distinct, LivePending, LiveLogins, LiveSessions, LiveCache, Find;
      r := pending.GetByMobile(now, mobile);
    }

    method DeletePending(now: Time, mobile: string, ghost windows: map<string, RateLimitWindow>)
      requires Valid(now)
      modifies this, Parts()
      ensures Valid(now) && View(now, windows) ==
        old(View(now, windows)).(pending := old(View(now, windows)).pending - {mobile})
    {
      hide PI.Exact, R.Represents, Invariants.Distinct, LivePending, LiveLogins, LiveSessions, LiveCache, Find;
      pending.DeleteByMobile(now, mobile);
    }

    /** Saves a signup whose values were found free, or a record again. */
    method StorePending(now: Time, p: PendingSignup, ghost windows: map<string, RateLimitWindow>) returns (reply: Reply)
      requires Valid(now) && p.mobile != ""
      requires AllFree(now, SignupForm(p.username, p.email, p.mobile)) || Again(View(now, windows).pending, p)
      modifies this, Parts()
      ensures Valid(now) && (View(now, windows), reply) == SavePending(old(View(now, windows)), p)
    {
      hide PI.Exact, R.Represents, Invariants.Distinct, LivePending, LiveLogins, LiveSessions, LiveCache, Find;
      var err := pending.Save(now, p);
      return if err.Some? then Failed(err.value) else Accepted;
    }

    ghost predicate Again(live: map<string, PendingSignup>, p: PendingSignup) {
      p.mobile in live && live[p.mobile].username == p.username && live[p.mobile].email == p.email
    }

    ghost predicate AllFree(now: Time, form: SignupForm)
      reads pending.Obj()
    {
      && pending.Free(now, ByUsername, form.username) && pending.Free(now, ByEmail, form.email)
      && pending.Free(now, ByMobile, form.mobile)
    }

    /** Looks a pending signup up by one of its values. */
    method FindPendingMobile(now: Time, col: Column, key: string, ghost windows: map<string, RateLimitWindow>)
      returns (r: Option<string>)
      requires Valid(now)
      modifies this, Parts()
      ensures Valid(now) && View(now, windows) == old(View(now, windows))
      ensures
        var live := View(now, windows).pending;
        if r.Some? then r.value in live && FindPending(live, col, key) == Some(live[r.value])
        else FindPending(live, col, key).None? && pending.Free(now, col, key)
      ensures forall c, k :: old(pending.Free(now, c, k)) ==> pending.Free(now, c, k)
    {
      hide PI.Exact, R.Represents, LivePending, LiveLogins, LiveSessions, LiveCache, Find;
      r := pending.GetMobile(now, col, key);
      OnlyOne(pending.Live(now), col, key, r);
    }

    /** Among live pending signups a value belongs to one record at most. */
    static lemma OnlyOne(live: map<string, PendingSignup>, col: Column, key: string, r: Option<string>)
      requires Invariants.Distinct(live)
      requires r.Some? ==> r.value in live && PendingHolds(live[r.value], col, key)
      requires r.None? ==> forall m :: m in live ==> !PendingHolds(live[m], col, key)
      ensures FindPending(live, col, key) == if r.Some? then Some(live[r.value]) else None
    {
      var found := FindPending(live, col, key);
      if found.Some? {
        var n :| n in live && live[n] == found.value;
      }
    }

    method GetLoginState(now: Time, key: string, ghost windows: map<string, RateLimitWindow>)
      returns (r: Option<OTPRequestState>)
      requires Valid(now)
      modifies this, Parts()
      ensures Valid(now) && View(now, windows) == old(View(now, windows))
      ensures r == if key in View(now, windows).logins then Some(View(now, windows).logins[key]) else None
    {
      hide PI.Exact, R.Represents, Invariants.Distinct, LivePending, LiveLogins, LiveSessions, LiveCache, Find;
      r := logins.Get(now, key);
    }

    method SaveLoginState(now: Time, key: string, state: OTPRequestState, ghost windows: map<string, RateLimitWindow>)
      returns (err: Option<Error>)
      requires Valid(now)
      modifies this, Parts()
      ensures Valid(now)
      ensures err == if state.expiresAt - now <= 0 then Some(TokenExpired) else None
      ensures
        var w := old(View(now, windows));
        View(now, windows) == if err.Some? then w else w.(logins := w.logins[key := state])
    {
      hide PI.Exact, R.Represents, Invariants.Distinct, LivePending, LiveLogins, LiveSessions, LiveCache, Find;
      err := logins.Save(now, key, state);
    }

    method DeleteLoginState(now: Time, key: string, ghost windows: map<string, RateLimitWindow>)
      requires Valid(now)
      modifies this, Parts()
      ensures Valid(now) && View(now, windows) ==
        old(View(now, windows)).(logins := old(View(now, windows)).logins - {key})
    {
      hide PI.Exact, R.Represents, Invariants.Distinct, LivePending, LiveLogins, LiveSessions, LiveCache, Find;
      logins.Delete(now, key);
    }

    method GetSession(now: Time, token: string, ghost windows: map<string, RateLimitWindow>)
      returns (r: Option<RefreshSession>)
      requires Valid(now)
      modifies this, Parts()
      ensures Valid(now) && View(now, windows) == old(View(now, windows))
      ensures r == if token in View(now, windows).sessions then Some(View(now, windows).sessions[token]) else None
    {
      hide PI.Exact, R.Represents, Invariants.Distinct, LivePending, LiveLogins, LiveSessions, LiveCache, Find;
      r := sessions.Get(now, token);
    }

    method DeleteSession(now: Time, token: string, ghost windows: map<string, RateLimitWindow>)
      requires Valid(now)
      modifies this, Parts()
      ensures Valid(now) && View(now, windows) ==
        old(View(now, windows)).(sessions := old(View(now, windows)).sessions - {token})
    {
      hide PI.Exact, R.Represents, Invariants.Distinct, LivePending, LiveLogins, LiveSessions, LiveCache, Find;
      sessions.Delete(now, token);
    }

    /** A message of the provider goes on record. */
    ghost method Record(now: Time, msg: Message, windows: map<string, RateLimitWindow>)
      requires Valid(now)
      modifies this, Parts()
      ensures Valid(now) && View(now, windows) ==
        old(View(now, windows)).(messages := old(View(now, windows)).messages + [msg])
      ensures forall form :: old(AllFree(now, form)) ==> AllFree(now, form)
    {
      hide PI.Exact, R.Represents, Invariants.Distinct, LivePending, LiveLogins, LiveSessions, LiveCache, Find;
      messages := messages + [msg];
    }

    method SaveSession(now: Time, token: string, session: RefreshSession, ghost windows: map<string, RateLimitWindow>)
      returns (err: Option<Error>)
      requires Valid(now)
      modifies this, Parts()
      ensures Valid(now)
      ensures err == if session.expiresAt - now <= 0 then Some(TokenExpired) else None
      ensures
        var w := old(View(now, windows));
        View(now, windows) == if err.Some? then w else w.(sessions := w.sessions[token := session])
    {
      hide PI.Exact, R.Represents, Invariants.Distinct, LivePending, LiveLogins, LiveSessions, LiveCache, Find;
      err := sessions.Save(now, token, session);
    }

    /** A token pair that was handed out goes on record, and the login it descends from. */
    ghost method RecordMint(now: Time, mint: Mint, parent: Option<string>, windows: map<string, RateLimitWindow>)
      requires Valid(now)
      modifies this, Parts()
      ensures Valid(now)
      ensures
        var w, token := old(View(now, windows)), mint.tokens.refreshToken;
        var root := if parent.Some? && parent.value in w.roots then w.roots[parent.value] else token;
        View(now, windows) == w.(minted := w.minted + [mint], roots := w.roots[token := root])
    {
      hide PI.Exact, R.Represents, Invariants.Distinct, LivePending, LiveLogins, LiveSessions, LiveCache, Find;
      var token := mint.tokens.refreshToken;
      roots := roots[token := if parent.Some? && parent.value in roots then roots[parent.value] else token];
      minted := minted + [mint];
    }

    method IssueTokenPair(now: Time, user: User, e: Entropy, ghost source: Source, ghost parent: Option<string>,
                          ghost windows: map<string, RateLimitWindow>) returns (reply: Reply)
      requires Valid(now)
      modifies this, Parts()
      ensures Valid(now) && (View(now, windows), reply) == Issue(cfg, old(View(now, windows)), user, e, source, parent)
    {
      hide AuthService.Valid, AuthService.View, AuthService.Parts, GenerateTokenPair;
      ViewNow(now, windows);
      var (pair, session) := GenerateTokenPair(cfg, now, user, e);
      var err := SaveSession(now, pair.refreshToken, session, windows);
      if err.Some? {
        return Failed(err.value);
      }
      RecordMint(now, Mint(user, pair, source), parent, windows);
      return Issued(user, pair);
    }

    // ---- Signup ----

    method EnsureSignupAvailability(now: Time, form: SignupForm, ghost windows: map<string, RateLimitWindow>)
      returns (err: Option<Error>)
      requires Valid(now)
      modifies this, Parts()
      ensures Valid(now) && (View(now, windows), err) == Availability(cfg, old(View(now, windows)), form)
      ensures View(now, windows) == old(View(now, windows)).(cache := View(now, windows).cache)
      ensures err.None? ==> AllFree(now, form)
    {
      hide AuthService.Valid, AuthService.View, AuthService.Parts, AuthService.AllFree, Lookup, LookupUsername,
        PendingAvailability;
      var byName := GetUserByUsername(now, form.username, windows);
      if byName.Some? && byName.value.id != 0 {
        return Some(UsernameAlreadyExists);
      }
      var byEmail := GetUser(now, ByEmail, form.email, windows);
      if byEmail.Some? && byEmail.value.id != 0 {
        return Some(EmailAlreadyExists);
      }
      var byMobile := GetUser(now, ByMobile, form.mobile, windows);
      if byMobile.Some? && byMobile.value.id != 0 {
        return Some(MobileAlreadyExists);
      }
      err := EnsureNotPending(now, form, windows);
    }

    /** The second half: pending signups by username, email and mobile. */
    method EnsureNotPending(now: Time, form: SignupForm, ghost windows: map<string, RateLimitWindow>)
      returns (err: Option<Error>)
      requires Valid(now)
      modifies this, Parts()
      ensures Valid(now) && View(now, windows) == old(View(now, windows))
      ensures err == PendingAvailability(View(now, windows).pending, form)
      ensures err.None? ==> AllFree(now, form)
    {
      hide AuthService.Valid, AuthService.View, AuthService.Parts, FindPending, PendingConflict;
      var m := FindPendingMobile(now, ByUsername, form.username, windows);
      if m.Some? {
        var e := ConflictWithPending(now, m.value, form, windows);
        return Some(e);
      }
      m := FindPendingMobile(now, ByEmail, form.email, windows);
      if m.Some? {
        var e := ConflictWithPending(now, m.value, form, windows);
        return Some(e);
      }
      m := FindPendingMobile(now, ByMobile, form.mobile, windows);
      if m.Some? {
        var e := ConflictWithPending(now, m.value, form, windows);
        return Some(e);
      }
      return None;
    }

    /** pendingConflict. The record was found an instant ago, so its branch for a miss cannot be taken. */
    method ConflictWithPending(now: Time, mobile: string, form: SignupForm,
        ghost windows: map<string, RateLimitWindow>)
      returns (e: Error)
      requires Valid(now) && mobile in View(now, windows).pending
      modifies this, Parts()
      ensures Valid(now) && View(now, windows) == old(View(now, windows))
      ensures e == PendingConflict(View(now, windows).pending[mobile], form)
    {
      hide AuthService.Valid, AuthService.View, AuthService.Parts;
      var found := GetPending(now, mobile, windows);
      if found.None? {
        assert false;
      }
      return PendingConflict(found.value, form);
    }

    method RequestSignupOTP(now: Time, r: Request, ghost windows: map<string, RateLimitWindow>) returns (reply: Reply)
      requires Valid(now) && r.RequestSignup?
      modifies this, Parts()
      ensures Valid(now) && (View(now, windows), reply) == DoRequestSignup(cfg, old(View(now, windows)), r)
    {
      hide AuthService.Valid, AuthService.View, AuthService.AllFree, Lookup, LookupUsername, Issue, TrimSpace,
        Mobile.Normalize;
      hide AuthService.Parts, Update, Register, CreateSSOUser, FindSSO, ResendError, StatusOf;
      ViewNow(now, windows);
      var form := NormalizeSignup(cfg, r.username, r.password, r.email, r.mobile);
      if form.Err? {
        return Failed(form.error);
      }
      var conflict := EnsureSignupAvailability(now, form.value, windows);
      if conflict.Some? {
        return Failed(conflict.value);
      }
      reply := SendSignupCode(now, form.value, r.hash, r.sent, windows);
    }

    method SendSignupCode(now: Time, form: SignupForm, hash: Option<string>, sent: bool,
        ghost windows: map<string, RateLimitWindow>)
      returns (reply: Reply)
      requires Valid(now) && AllFree(now, form) && form.mobile != ""
      modifies this, Parts()
      ensures Valid(now) && (View(now, windows), reply) == SendSignup(cfg, old(View(now, windows)), form, hash, sent)
    {
      hide AuthService.Valid, AuthService.View, AuthService.AllFree, AuthService.Parts, Update, Register, ResendError,
        Issue, SavePending;
      ViewNow(now, windows);
      if hash.None? {
        return Failed(HashFailed);
      }
      if !sent {
        return Failed(ProviderFailed);
      }
      reply := StoreSent(now, PendingSignup(form.username, hash.value, form.email, form.mobile,
                                            0, now, now + cfg.pendingSignupTTL), true, windows);
    }

    /** The code is out: the record is saved as of now. */
    method StoreSent(now: Time, p: PendingSignup, ghost first: bool, ghost windows: map<string, RateLimitWindow>)
      returns (reply: Reply)
      requires Valid(now) && p.mobile != ""
      requires AllFree(now, SignupForm(p.username, p.email, p.mobile)) || Again(View(now, windows).pending, p)
      modifies this, Parts()
      ensures Valid(now)
      ensures
        var w := old(View(now, windows));
        (View(now, windows), reply) == SavePending(w.(messages := w.messages + [SignupSent(p.mobile, now, first)]), p)
    {
      hide AuthService.Valid, AuthService.View, AuthService.AllFree, AuthService.Parts, SavePending;
      Record(now, SignupSent(p.mobile, now, first), windows);
      reply := StorePending(now, p, windows);
    }

    method VerifySignupOTP(now: Time, r: Request, e: Entropy, ghost windows: map<string, RateLimitWindow>)
      returns (reply: Reply)
      requires Valid(now) && r.VerifySignup?
      modifies this, Parts()
      ensures Valid(now) && (View(now, windows), reply) == DoVerifySignup(cfg, old(View(now, windows)), r, e)
    {
      hide AuthService.Valid, AuthService.View, AuthService.AllFree, Lookup, LookupUsername, Issue, TrimSpace,
        Mobile.Normalize;
      hide AuthService.Parts, Update, Register, CreateSSOUser, FindSSO, ResendError, StatusOf;
      ViewNow(now, windows);
      var mobile := NormalizeMobile(now, r.mobile, windows);
      if mobile.Err? {
        return Failed(mobile.error);
      }
      if TrimSpace(r.code) == "" {
        return Failed(InvalidOTPCode);
      }
      var found := GetPending(now, mobile.value, windows);
      if found.None? {
        return Failed(PendingSignupExpired);
      }
      // With one clock reading a record that was returned has not expired.
      assert now <= found.value.expiresAt;
      if r.verdict.Unreachable? {
        return Failed(ProviderFailed);
      }
      if r.verdict.Rejected? {
        return Failed(InvalidOTPCode);
      }
      reply := RegisterPending(now, mobile.value, found.value, e, windows);
    }

    method RegisterPending(now: Time, mobile: string, p: PendingSignup, e: Entropy,
        ghost windows: map<string, RateLimitWindow>)
      returns (reply: Reply)
      requires Valid(now)
      modifies this, Parts()
      ensures Valid(now) && (View(now, windows), reply) == FinishSignup(cfg, old(View(now, windows)), mobile, p, e)
    {
      hide AuthService.Valid, AuthService.View, AuthService.AllFree, AuthService.Parts, Register, Issue, Remember;
      ViewNow(now, windows);
      Record(now, SignupApproved(mobile, now), windows);
      var made := CreateRecordedUser(now, NewUser(p), p.passwordHash, windows);
      if made.Err? {
        return Failed(made.error);
      }
      DeletePending(now, mobile, windows);
      reply := IssueTokenPair(now, made.value, e, BySignup, None, windows);
    }

    method CreateRecordedUser(now: Time, user: User, hash: string, ghost windows: map<string, RateLimitWindow>)
      returns (r: Result<User>)
      requires Valid(now)
      modifies this, Parts()
      ensures Valid(now)
      ensures
        var w := old(View(now, windows));
        match Register(w.tables, user, hash)
        case Err(e) => r == Err(e) && View(now, windows) == w
        case Ok((t, row)) =>
          && r == Ok(row)
          && View(now, windows) == Remember(cfg, w.(tables := t, messages := w.messages + [Registered(row, now)]), row)
    {
      hide AuthService.Valid, AuthService.View, AuthService.AllFree, AuthService.Parts, Register;
      r := CreateUser(now, user, hash, windows);
      if r.Ok? {
        Record(now, Registered(r.value, now), windows);
      }
    }

    method ResendSignupOTP(now: Time, r: Request, ghost windows: map<string, RateLimitWindow>) returns (reply: Reply)
      requires Valid(now) && r.ResendSignup?
      modifies this, Parts()
      ensures Valid(now) && (View(now, windows), reply) == DoResendSignup(cfg, old(View(now, windows)), r)
    {
      hide AuthService.Valid, AuthService.View, AuthService.AllFree, Lookup, LookupUsername, Issue, TrimSpace,
        Mobile.Normalize;
      hide AuthService.Parts, Update, Register, CreateSSOUser, FindSSO, ResendError, StatusOf;
      ViewNow(now, windows);
      var mobile := NormalizeMobile(now, r.mobile, windows);
      if mobile.Err? {
        return Failed(mobile.error);
      }
      var found := GetPending(now, mobile.value, windows);
      if found.None? {
        return Failed(PendingSignupExpired);
      }
      reply := ResendCode(now, mobile.value, found.value, r.sent, windows);
    }

    method ResendCode(now: Time, mobile: string, p: PendingSignup, sent: bool,
        ghost windows: map<string, RateLimitWindow>)
      returns (reply: Reply)
      requires Valid(now) && p.mobile == mobile && mobile != "" && Again(View(now, windows).pending, p)
      modifies this, Parts()
      ensures Valid(now) && (View(now, windows), reply) == ResendPending(cfg, old(View(now, windows)), mobile, p, sent)
    {
      hide AuthService.Valid, AuthService.View, AuthService.AllFree, AuthService.Parts, ResendError, SavePending;
      ViewNow(now, windows);
      var refused := ResendError(cfg, now, p.lastSentAt, p.resendCount);
      if refused.Some? || !sent {
        return Failed(if refused.Some? then refused.value else ProviderFailed);
      }
      reply := StoreSent(now, p.(resendCount := p.resendCount + 1, lastSentAt := now), false, windows);
    }

    method SignupStatus(now: Time, r: Request, ghost windows: map<string, RateLimitWindow>) returns (reply: Reply)
      requires Valid(now) && r.SignupStatus?
      modifies this, Parts()
      ensures Valid(now) && (View(now, windows), reply) == DoSignupStatus(cfg, old(View(now, windows)), r)
    {
      hide AuthService.Valid, AuthService.View, AuthService.AllFree, Lookup, LookupUsername, Issue, TrimSpace,
        Mobile.Normalize;
      hide AuthService.Parts, Update, Register, CreateSSOUser, FindSSO, ResendError;
      ViewNow(now, windows);
      var mobile := NormalizeMobile(now, r.mobile, windows);
      if mobile.Err? {
        return Failed(mobile.error);
      }
      TextsDiffer();
      var found := GetPending(now, mobile.value, windows);
      if found.Some? && now < found.value.expiresAt {
        return Status("pending");
      }
      var user := GetUser(now, ByMobile, mobile.value, windows);
      if user.Some? && user.value.mobileVerified {
        return Status("completed");
      }
      return Status("expired");
    }

    static lemma TextsDiffer()
      ensures "completed" != "pending" && "expired" != "pending"
    {
      assert "completed"[0] != "pending"[0] && "expired"[0] != "pending"[0];
    }

    // ---- Logins and sessions ----

    method RequestLoginOTP(now: Time, r: Request, ghost windows: map<string, RateLimitWindow>) returns (reply: Reply)
      requires Valid(now) && r.RequestLogin?
      modifies this, Parts()
      ensures Valid(now) && (View(now, windows), reply) == DoRequestLogin(cfg, old(View(now, windows)), r)
    {
      hide AuthService.Valid, AuthService.View, AuthService.AllFree, Lookup, LookupUsername, Issue, TrimSpace,
        Mobile.Normalize;
      hide AuthService.Parts, Update, Register, CreateSSOUser, FindSSO, ResendError, StatusOf;
      ViewNow(now, windows);
      var mobile := NormalizeMobile(now, r.mobile, windows);
      if mobile.Err? {
        return Accepted;
      }
      var user := GetUser(now, ByMobile, mobile.value, windows);
      if user.None? || !user.value.mobileVerified {
        return Accepted;
      }
      reply := SendLoginCode(now, mobile.value, r.sent, windows);
    }

    method SendLoginCode(now: Time, mobile: string, sent: bool, ghost windows: map<string, RateLimitWindow>)
      returns (reply: Reply)
      requires Valid(now)
      modifies this, Parts()
      ensures Valid(now) && (View(now, windows), reply) == SendLogin(cfg, old(View(now, windows)), mobile, sent)
    {
      hide AuthService.Valid, AuthService.View, AuthService.AllFree, AuthService.Parts, Update, Register, ResendError,
        Issue;
      ViewNow(now, windows);
      var key := LoginKey(mobile);
      var state := GetLoginState(now, key, windows);
      var resendCount := 0;
      if state.Some? {
        var refused := ResendError(cfg, now, state.value.lastSentAt, state.value.resendCount);
        if refused.Some? {
          return Accepted;
        }
        resendCount := state.value.resendCount + 1;
      }
      if !sent {
        return Failed(ProviderFailed);
      }
      Record(now, LoginSent(mobile, now), windows);
      var err := SaveLoginState(now, key, OTPRequestState(mobile, resendCount, now, now + cfg.pendingSignupTTL),
        windows);
      return if err.Some? then Failed(err.value) else Accepted;
    }

    method VerifyLoginOTP(now: Time, r: Request, e: Entropy, ghost windows: map<string, RateLimitWindow>)
      returns (reply: Reply)
      requires Valid(now) && r.VerifyLogin?
      modifies this, Parts()
      ensures Valid(now) && (View(now, windows), reply) == DoVerifyLogin(cfg, old(View(now, windows)), r, e)
    {
      hide AuthService.Valid, AuthService.View, AuthService.AllFree, Lookup, LookupUsername, Issue, TrimSpace,
        Mobile.Normalize;
      hide AuthService.Parts, Update, Register, CreateSSOUser, FindSSO, ResendError, StatusOf;
      ViewNow(now, windows);
      var mobile := NormalizeMobile(now, r.mobile, windows);
      if mobile.Err? {
        return Failed(InvalidCredentials);
      }
      if TrimSpace(r.code) == "" {
        return Failed(InvalidOTPCode);
      }
      var user := GetUser(now, ByMobile, mobile.value, windows);
      if user.None? {
        return Failed(InvalidCredentials);
      }
      if !user.value.mobileVerified {
        return Failed(MobileNotVerified);
      }
      if r.verdict.Unreachable? {
        return Failed(ProviderFailed);
      }
      if r.verdict.Rejected? {
        return Failed(InvalidOTPCode);
      }
      Record(now, LoginApproved(mobile.value, now), windows);
      DeleteLoginState(now, LoginKey(mobile.value), windows);
      reply := IssueTokenPair(now, user.value, e, ByOTP, None, windows);
    }

    method PasswordLogin(now: Time, r: Request, e: Entropy, ghost windows: map<string, RateLimitWindow>)
      returns (reply: Reply)
      requires Valid(now) && r.PasswordLogin?
      modifies this, Parts()
      ensures Valid(now) && (View(now, windows), reply) == DoPasswordLogin(cfg, old(View(now, windows)), r, e)
    {
      hide AuthService.Valid, AuthService.View, AuthService.AllFree, Lookup, LookupUsername, Issue, TrimSpace,
        Mobile.Normalize;
      hide AuthService.Parts, Update, Register, CreateSSOUser, FindSSO, ResendError, StatusOf;
      ViewNow(now, windows);
      var username := TrimSpace(r.username);
      if username == "" {
        return Failed(InvalidUsername);
      }
      if r.password == "" {
        return Failed(InvalidPassword);
      }
      var user := GetUserByUsername(now, username, windows);
      if user.None? {
        return Failed(InvalidCredentials);
      }
      var known := HasPassword(now, user.value.id, windows);
      if !known || !r.matches {
        return Failed(InvalidCredentials);
      }
      reply := IssueTokenPair(now, user.value, e, ByPassword, None, windows);
    }

    method RefreshTokens(now: Time, r: Request, e: Entropy, ghost windows: map<string, RateLimitWindow>)
      returns (reply: Reply)
      requires Valid(now) && r.Refresh?
      modifies this, Parts()
      ensures Valid(now) && (View(now, windows), reply) == DoRefresh(cfg, old(View(now, windows)), r, e)
    {
      hide AuthService.Valid, AuthService.View, AuthService.AllFree, Lookup, LookupUsername, Issue, TrimSpace,
        Mobile.Normalize;
      hide AuthService.Parts, Update, Register, CreateSSOUser, FindSSO, ResendError, StatusOf;
      ViewNow(now, windows);
      var token := TrimSpace(r.token);
      if token == "" {
        return Failed(InvalidRefreshToken);
      }
      var session := GetSession(now, token, windows);
      if session.None? {
        return Failed(InvalidRefreshToken);
      }
      var user := GetUserByUsername(now, session.value.username, windows);
      if user.None? {
        return Failed(UserNotFound);
      }
      DeleteSession(now, token, windows);
      reply := IssueTokenPair(now, user.value, e, ByRefresh, Some(token), windows);
    }

    method Logout(now: Time, r: Request, ghost windows: map<string, RateLimitWindow>) returns (reply: Reply)
      requires Valid(now) && r.Logout?
      modifies this, Parts()
      ensures Valid(now) && (View(now, windows), reply) == DoLogout(old(View(now, windows)), r)
    {
      hide AuthService.Valid, AuthService.View, AuthService.AllFree, Lookup, LookupUsername, Issue, TrimSpace,
        Mobile.Normalize;
      hide AuthService.Parts, Update, Register, CreateSSOUser, FindSSO, ResendError, StatusOf;
      ViewNow(now, windows);
      var token := TrimSpace(r.token);
      if token == "" {
        return Failed(InvalidRefreshToken);
      }
      DeleteSession(now, token, windows);
      return Accepted;
    }

    method ValidateCurrentUser(now: Time, r: Request, ghost windows: map<string, RateLimitWindow>)
      returns (reply: Reply)
      requires Valid(now) && r.CurrentUser?
      modifies this, Parts()
      ensures Valid(now) && (View(now, windows), reply) == DoCurrentUser(cfg, old(View(now, windows)), r)
    {
      hide AuthService.Valid, AuthService.View, AuthService.AllFree, Lookup, LookupUsername, Issue, TrimSpace,
        Mobile.Normalize;
      hide AuthService.Parts, Update, Register, CreateSSOUser, FindSSO, ResendError, StatusOf;
      ViewNow(now, windows);
      var user := GetUserByUsername(now, TrimSpace(r.username), windows);
      return if user.Some? then Profile(user.value) else Failed(UserNotFound);
    }

    // ---- Google sign-on and profile completion ----

    method GoogleLogin(now: Time, r: Request, e: Entropy, ghost windows: map<string, RateLimitWindow>)
      returns (reply: Reply)
      requires Valid(now) && r.GoogleLogin?
      modifies this, Parts()
      ensures Valid(now) && (View(now, windows), reply) == DoGoogleLogin(cfg, old(View(now, windows)), r, e)
    {
      hide AuthService.Valid, AuthService.View, AuthService.AllFree, Lookup, LookupUsername, Issue, TrimSpace,
        Mobile.Normalize;
      hide AuthService.Parts, Update, Register, CreateSSOUser, FindSSO, ResendError, StatusOf;
      ViewNow(now, windows);
      var linked := GetLinkedUser(now, GOOGLE, r.identity, windows);
      if linked.Some? {
        reply := IssueTokenPair(now, linked.value, e, ByGoogle, None, windows);
        return;
      }
      var byEmail := GetUser(now, ByEmail, r.email, windows);
      if byEmail.Some? {
        LinkIdentity(now, byEmail.value.id, GOOGLE, r.identity, windows);
        reply := IssueTokenPair(now, byEmail.value, e, ByGoogle, None, windows);
        return;
      }
      var username := LocalPart(r.email);
      var holder := GetUserByUsername(now, username, windows);
      if holder.Some? {
        username := Fallback(username, now);
      }
      var made := CreateLinkedUser(now, Newcomer(username, r.email), GOOGLE, r.identity, windows);
      if made.Err? {
        return Failed(made.error);
      }
      reply := IssueTokenPair(now, made.value, e, ByGoogle, None, windows);
    }

    method CompleteProfile(now: Time, r: Request, e: Entropy, ghost windows: map<string, RateLimitWindow>)
      returns (reply: Reply)
      requires Valid(now) && r.CompleteProfile?
      modifies this, Parts()
      ensures Valid(now) && (View(now, windows), reply) == DoCompleteProfile(cfg, old(View(now, windows)), r, e)
    {
      hide AuthService.Valid, AuthService.View, AuthService.AllFree, Lookup, LookupUsername, Issue, TrimSpace,
        Mobile.Normalize;
      hide AuthService.Parts, Update, Register, CreateSSOUser, FindSSO, ResendError, StatusOf;
      ViewNow(now, windows);
      var found := GetUserByID(now, r.userID, windows);
      if found.None? {
        return Failed(UserNotFound);
      }
      if found.value.profileComplete {
        return Failed(ProfileAlreadyComplete);
      }
      var username := TrimSpace(r.username);
      if username == "" {
        return Failed(InvalidUsername);
      }
      var mobile := NormalizeMobile(now, r.mobile, windows);
      if mobile.Err? {
        return Failed(mobile.error);
      }
      var byName := GetUserByUsername(now, username, windows);
      if byName.Some? && byName.value.id != r.userID {
        return Failed(UsernameAlreadyExists);
      }
      var byMobile := GetUser(now, ByMobile, mobile.value, windows);
      if byMobile.Some? && byMobile.value.id != r.userID {
        return Failed(MobileAlreadyExists);
      }
      var user := found.value.(username := username, mobile := mobile.value, profileComplete := true);
      var err := UpdateUser(now, user, windows);
      if err.Some? {
        return Failed(err.value);
      }
      reply := IssueTokenPair(now, user, e, ByProfile, None, windows);
    }
  }
}
