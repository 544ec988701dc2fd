/**
  The service with the user cache in front of the table and the service without it
  (auth/cached_repository.go): when they answer alike, and exactly when they do not.
  */
module CacheTransparency {
  import opened Auth
  import opened Tables
  import opened Machine
  import opened Invariants
  import Mobile
  import Text

  function Uncached(cfg: Config): Config { cfg.(cacheTTL := None) }

  function Strip(w: World): World { w.(cache := map[]) }

  /** A live entry of a name that nobody holds. */
  predicate Lingers(w: World, name: string) {
    name in w.cache && Find(w.tables.users, ByUsername, name).None?
  }

  /** The name that a request looks up by username, in the state in which it is served. */
  function NameRead(cfg: Config, w: World, r: Request): Option<string> {
    match r
    case RequestSignup(username, password, email, mobile, _, _) =>
      (match NormalizeSignup(cfg, username, password, email, mobile)
       case Err(_) => None
       case Ok(form) => Some(form.username))
    case PasswordLogin(username, password, _) =>
      if Text.TrimSpace(username) == "" || password == "" then None else Some(Text.TrimSpace(username))
    case Refresh(token) =>
      var t := Text.TrimSpace(token);
      if t == "" || t !in w.sessions then None else Some(w.sessions[t].username)
    case GoogleLogin(identity, email) =>
      if FindSSO(w.tables, GOOGLE, identity).Some? || Find(w.tables.users, ByEmail, email).Some? then None
      else Some(LocalPart(email))
    case CompleteProfile(id, username, mobile) =>
      var found := ByID(w.tables.users, id);
      if found.None? || found.value.profileComplete || Text.TrimSpace(username) == ""
         || Mobile.Normalize(mobile, cfg.wideDigits).Err? then None
      else Some(Text.TrimSpace(username))
    case CurrentUser(username) => Some(Text.TrimSpace(username))
    case _ => None
  }

  /** Another pending signup has taken the username of the form, and the form's email and mobile are no user's. */
  ghost predicate NamePending(w: World, form: SignupForm) {
    && Find(w.tables.users, ByEmail, form.email).None? && Find(w.tables.users, ByMobile, form.mobile).None?
    && exists m :: m in w.pending && w.pending[m].username == form.username
        && (w.pending[m].email != form.email || w.pending[m].mobile != form.mobile)
  }

  /**
    Requests that a lingering entry makes no difference to: a password login, since the entry's user
    has no password, and a signup whose username is refused anyway.
    */
  ghost predicate Indifferent(cfg: Config, w: World, r: Request) {
    || r.PasswordLogin?
    || (r.RequestSignup? &&
        match NormalizeSignup(cfg, r.username, r.password, r.email, r.mobile)
        case Err(_) => true
        case Ok(form) => NamePending(w, form))
  }

  /** The served request reads a lingering entry. */
  ghost predicate Misled(cfg: Config, w: World, r: Request) {
    NameRead(cfg, w, r).Some? && Lingers(w, NameRead(cfg, w, r).value) && !Indifferent(cfg, w, r)
  }

  /** The same of a whole step: time passes, and the request is admitted. */
  ghost predicate ReadsLingering(cfg: Config, w: World, input: Input) {
    var (w1, ok) := Admit(cfg, Tick(w, input.at), input);
    ok && Misled(cfg, w1, input.request)
  }

  // ---- Reads ----

  lemma LookupStrips(cfg: Config, w: World, col: Column, key: string)
    ensures Lookup(Uncached(cfg), Strip(w), col, key) == (Strip(w), Lookup(cfg, w, col, key).1)
    ensures Strip(Lookup(cfg, w, col, key).0) == Strip(w)
  {
  }

  lemma LookupUsernameStrips(cfg: Config, w: World, name: string)
    requires Inv(cfg, w)
    ensures LookupUsername(Uncached(cfg), Strip(w), name) == (Strip(w), Find(w.tables.users, ByUsername, name))
    ensures Strip(LookupUsername(cfg, w, name).0) == Strip(w)
    ensures !Lingers(w, name) ==> LookupUsername(cfg, w, name).1 == Find(w.tables.users, ByUsername, name)
    ensures Lingers(w, name) ==> LookupUsername(cfg, w, name) == (w, Some(w.cache[name].user))
  {
    hide UsersOk, TablesOk, PendingOk, SessionsOk, MintedOk, VouchedOk;
  }

  /** The record of a lingering entry is that of a complete user as it was before completing, without a password. */
  lemma LingeringUser(cfg: Config, w: World, name: string)
    requires Inv(cfg, w) && Lingers(w, name)
    ensures
      var user := w.cache[name].user;
      && 1 <= user.id <= |w.tables.users| && w.tables.users[user.id - 1].profileComplete
      && user.username == name && !user.profileComplete && user.id !in w.tables.passwords
  {
    hide PendingOk, SessionsOk, MintedOk, VouchedOk;
    var user := w.cache[name].user;
    var row := w.tables.users[user.id - 1];
    assert row in w.tables.users && !Holds(row, ByUsername, name);
  }

  lemma IssueStrips(cfg: Config, w: World, user: User, e: Entropy, source: Source, parent: Option<string>)
    ensures
      var (w', reply) := Issue(cfg, w, user, e, source, parent);
      Issue(Uncached(cfg), Strip(w), user, e, source, parent) == (Strip(w'), reply)
  {
  }

  lemma IssueSucceeds(cfg: Config, w: World, user: User, e: Entropy, source: Source, parent: Option<string>)
    requires cfg.refreshTokenTTL > 0
    ensures Issue(cfg, w, user, e, source, parent).1.Issued? && Issue(cfg, w, user, e, source, parent).1.user == user
  {
  }

  /** Cached and uncached, a request does the same to everything but the cache, and gets the same reply. */
  ghost predicate Alike(cached: (World, Reply), bare: (World, Reply)) {
    bare == (Strip(cached.0), cached.1)
  }

  // ---- Signup ----

  lemma UserIDs(cfg: Config, w: World)
    requires Inv(cfg, w)
    ensures forall u :: u in w.tables.users ==> u.id != 0
  {
    hide CacheOk, PendingOk, SessionsOk, MintedOk, VouchedOk, TablesOk;
  }

  /** Among distinct pending signups the username error tells that another signup has the username. */
  lemma PendingNameTaken(pending: map<string, PendingSignup>, form: SignupForm)
    requires Distinct(pending)
    ensures PendingAvailability(pending, form) == Some(UsernameAlreadyExists) <==>
      exists m :: m in pending && pending[m].username == form.username
        && (pending[m].email != form.email || pending[m].mobile != form.mobile)
  {
    var byName := FindPending(pending, ByUsername, form.username);
    if byName.Some? {
      var n :| n in pending && pending[n] == byName.value;
      assert forall m :: m in pending && pending[m].username == form.username ==> m == n;
    } else {
      assert forall m :: m in pending ==> !PendingHolds(pending[m], ByUsername, form.username);
    }
  }

  lemma PendingDistinct(cfg: Config, w: World)
    requires Inv(cfg, w)
    ensures Distinct(w.pending)
  {
  }

  lemma AvailabilityStrips(cfg: Config, w: World, form: SignupForm)
    requires Inv(cfg, w)
    ensures
      var (w', r) := Availability(cfg, w, form);
      var (v', s) := Availability(Uncached(cfg), Strip(w), form);
      && v' == Strip(w') == Strip(w)
      && if Lingers(w, form.username) then
           r == Some(UsernameAlreadyExists) && (s == r <==> NamePending(w, form))
         else s == r
  {
    hide Inv, Lookup, LookupUsername, PendingAvailability, Find, Uncached, Strip;
    var (w1, byName) := LookupUsername(cfg, w, form.username);
    LookupUsernameStrips(cfg, w, form.username);
    LookupUsernameLeaves(cfg, w, form.username);
    var (w2, byEmail) := Lookup(cfg, w1, ByEmail, form.email);
    LookupStrips(cfg, w1, ByEmail, form.email);
    LookupLeaves(cfg, w1, ByEmail, form.email);
    LookupStrips(cfg, w, ByEmail, form.email);
    LookupLeaves(cfg, w, ByEmail, form.email);
    LookupStrips(cfg, w2, ByMobile, form.mobile);
    LookupLeaves(cfg, w2, ByMobile, form.mobile);
    LookupStrips(cfg, w, ByMobile, form.mobile);
    LookupLeaves(cfg, w, ByMobile, form.mobile);
    UserIDs(cfg, w);
    PendingDistinct(cfg, w);
    PendingNameTaken(w.pending, form);
    StripKeeps(w);
    if Lingers(w, form.username) { LingeringUser(cfg, w, form.username); }
  }

  lemma StripKeeps(w: World)
    ensures
      var v := Strip(w);
      && v.clock == w.clock && v.tables == w.tables && v.pending == w.pending && v.logins == w.logins
      && v.sessions == w.sessions && v.windows == w.windows
      && v.messages == w.messages && v.minted == w.minted && v.roots == w.roots
  {
  }

  lemma SendSignupStrips(cfg: Config, w: World, form: SignupForm, hash: Option<string>, sent: bool)
    ensures Alike(SendSignup(cfg, w, form, hash, sent), SendSignup(Uncached(cfg), Strip(w), form, hash, sent))
    ensures SendSignup(cfg, w, form, hash, sent).1 != Failed(UsernameAlreadyExists)
  {
  }

  lemma RequestSignupAlike(cfg: Config, w: World, r: Request)
    requires Inv(cfg, w) && r.RequestSignup?
    ensures
      var cached, bare := DoRequestSignup(cfg, w, r), DoRequestSignup(Uncached(cfg), Strip(w), r);
      if Misled(cfg, w, r) then cached.1 != bare.1 else Alike(cached, bare)
  {
    hide Inv, Availability, SendSignup, NormalizeSignup, Lingers, NamePending;
    SameForm(cfg, r);
    var f := NormalizeSignup(cfg, r.username, r.password, r.email, r.mobile);
    if f.Ok? {
      AvailabilityStrips(cfg, w, f.value);
      SendSignupStrips(cfg, Availability(cfg, w, f.value).0, f.value, r.hash, r.sent);
      SendSignupStrips(Uncached(cfg), Strip(w), f.value, r.hash, r.sent);
    }
  }

  lemma SameForm(cfg: Config, r: Request)
    requires r.RequestSignup?
    ensures NormalizeSignup(Uncached(cfg), r.username, r.password, r.email, r.mobile)
         == NormalizeSignup(cfg, r.username, r.password, r.email, r.mobile)
  {
  }

  lemma VerifySignupAlike(cfg: Config, w: World, r: Request, e: Entropy)
    requires r.VerifySignup?
    ensures Alike(DoVerifySignup(cfg, w, r, e), DoVerifySignup(Uncached(cfg), Strip(w), r, e))
  {
    hide Mobile.Normalize, Text.TrimSpace, FinishSignup;
    var f := Mobile.Normalize(r.mobile, cfg.wideDigits);
    if f.Ok? && f.value in w.pending {
      FinishSignupStrips(cfg, w, f.value, w.pending[f.value], e);
    }
  }

  lemma FinishSignupStrips(cfg: Config, w: World, mobile: string, p: PendingSignup, e: Entropy)
    ensures Alike(FinishSignup(cfg, w, mobile, p, e), FinishSignup(Uncached(cfg), Strip(w), mobile, p, e))
  {
    hide Register, Issue;
    var made := Register(w.tables, NewUser(p), p.passwordHash);
    if made.Ok? {
      var (t, user) := made.value;
      var w1 := w.(messages := w.messages + [SignupApproved(mobile, w.clock)]);
      var w2 := Remember(cfg, w1.(tables := t, messages := w1.messages + [Registered(user, w.clock)]), user);
      IssueStrips(cfg, w2.(pending := w2.pending - {mobile}), user, e, BySignup, None);
    }
  }

  lemma ResendSignupAlike(cfg: Config, w: World, r: Request)
    requires r.ResendSignup?
    ensures Alike(DoResendSignup(cfg, w, r), DoResendSignup(Uncached(cfg), Strip(w), r))
  {
    hide Mobile.Normalize;
  }

  lemma SignupStatusAlike(cfg: Config, w: World, r: Request)
    requires r.SignupStatus?
    ensures Alike(DoSignupStatus(cfg, w, r), DoSignupStatus(Uncached(cfg), Strip(w), r))
  {
    hide Mobile.Normalize, Lookup, Find;
    var f := Mobile.Normalize(r.mobile, cfg.wideDigits);
    if f.Ok? { LookupStrips(cfg, w, ByMobile, f.value); }
  }

  // ---- Login ----

  lemma RequestLoginAlike(cfg: Config, w: World, r: Request)
    requires r.RequestLogin?
    ensures Alike(DoRequestLogin(cfg, w, r), DoRequestLogin(Uncached(cfg), Strip(w), r))
  {
    hide Mobile.Normalize, Lookup;
    var f := Mobile.Normalize(r.mobile, cfg.wideDigits);
    if f.Ok? {
      LookupStrips(cfg, w, ByMobile, f.value);
      LookupLeaves(cfg, w, ByMobile, f.value);
    }
  }

  lemma VerifyLoginAlike(cfg: Config, w: World, r: Request, e: Entropy)
    requires r.VerifyLogin?
    ensures Alike(DoVerifyLogin(cfg, w, r, e), DoVerifyLogin(Uncached(cfg), Strip(w), r, e))
  {
    hide Mobile.Normalize, Lookup, Issue, Text.TrimSpace;
    var f := Mobile.Normalize(r.mobile, cfg.wideDigits);
    if f.Ok? {
      LookupStrips(cfg, w, ByMobile, f.value);
      LookupLeaves(cfg, w, ByMobile, f.value);
      var (w1, user) := Lookup(cfg, w, ByMobile, f.value);
      if user.Some? {
        var w2 := w1.(messages := w1.messages + [LoginApproved(f.value, w1.clock)],
          logins := w1.logins - {LoginKey(f.value)});
        IssueStrips(cfg, w2, user.value, e, ByOTP, None);
      }
    }
  }

  lemma PasswordLoginAlike(cfg: Config, w: World, r: Request, e: Entropy)
    requires Inv(cfg, w) && r.PasswordLogin?
    ensures Alike(DoPasswordLogin(cfg, w, r, e), DoPasswordLogin(Uncached(cfg), Strip(w), r, e))
  {
    hide Inv, LookupUsername, Issue, Text.TrimSpace, Find;
    var name := Text.TrimSpace(r.username);
    LookupUsernameStrips(cfg, w, name);
    LookupUsernameLeaves(cfg, w, name);
    var (w1, user) := LookupUsername(cfg, w, name);
    if Lingers(w, name) {
      LingeringUser(cfg, w, name);
    } else if user.Some? {
      IssueStrips(cfg, w1, user.value, e, ByPassword, None);
    }
  }

  lemma RefreshAlike(cfg: Config, w: World, r: Request, e: Entropy)
    requires Inv(cfg, w) && r.Refresh? && cfg.refreshTokenTTL > 0
    ensures
      var cached, bare := DoRefresh(cfg, w, r, e), DoRefresh(Uncached(cfg), Strip(w), r, e);
      if Misled(cfg, w, r) then cached.1 != bare.1 else Alike(cached, bare)
  {
    hide Inv, LookupUsername, Issue, Text.TrimSpace, Find;
    var token := Text.TrimSpace(r.token);
    if token != "" && token in w.sessions {
      var name := w.sessions[token].username;
      LookupUsernameStrips(cfg, w, name);
      LookupUsernameLeaves(cfg, w, name);
      var (w1, user) := LookupUsername(cfg, w, name);
      if user.Some? {
        IssueStrips(cfg, w1.(sessions := w1.sessions - {token}), user.value, e, ByRefresh, Some(token));
        IssueSucceeds(cfg, w1.(sessions := w1.sessions - {token}), user.value, e, ByRefresh, Some(token));
      }
    }
  }

  lemma CurrentUserAlike(cfg: Config, w: World, r: Request)
    requires Inv(cfg, w) && r.CurrentUser?
    ensures
      var cached, bare := DoCurrentUser(cfg, w, r), DoCurrentUser(Uncached(cfg), Strip(w), r);
      if Misled(cfg, w, r) then cached.1 != bare.1 else Alike(cached, bare)
  {
    hide Inv, LookupUsername, Text.TrimSpace, Find;
    LookupUsernameStrips(cfg, w, Text.TrimSpace(r.username));
  }

  // ---- Google sign-on and profile completion ----

  lemma FallbackDiffers(name: string, now: Time)
    ensures Fallback(name, now) != name
  {
    hide Text.Decimal;
    assert |Fallback(name, now)| > |name|;
  }

  lemma NewcomerRegisters(cfg: Config, w: World, username: string, email: string, identity: string)
    requires Inv(cfg, w) && Find(w.tables.users, ByUsername, username).None?
      && Find(w.tables.users, ByEmail, email).None?
    ensures
      var made := CreateSSOUser(w.tables, Newcomer(username, email), GOOGLE, identity);
      made.Ok? && made.value.1.username == username
  {
    hide Inv;
    NoBlankMobile(w.tables.users);
  }

  lemma NoBlankMobile(users: seq<User>)
    ensures Find(users, ByMobile, "").None?
  {
  }

  lemma MadeKeepsName(w: World, username: string, email: string, identity: string)
    ensures
      var made := CreateSSOUser(w.tables, Newcomer(username, email), GOOGLE, identity);
      && (made.Ok? ==> made.value.1.username == username)
      && (made.Err? ==> made.error == DuplicateKey)
  {
  }

  /** A newcomer whose wanted name lingers gets another name with the cache and the wanted one without. */
  lemma CreateMisled(cfg: Config, w: World, identity: string, email: string)
    requires Inv(cfg, w) && Find(w.tables.users, ByEmail, email).None? && Lingers(w, LocalPart(email))
    ensures
      var cached := CreateGoogle(cfg, w, identity, email).1;
      var bare := CreateGoogle(Uncached(cfg), Strip(w), identity, email).1;
      && (cached.Ok? ==> cached.value.username != LocalPart(email))
      && bare.Ok? && bare.value.username == LocalPart(email)
  {
    hide Inv, LookupUsername, Find, LocalPart, Fallback, CreateSSOUser;
    var wanted := LocalPart(email);
    LookupUsernameStrips(cfg, w, wanted);
    MadeKeepsName(w, Fallback(wanted, w.clock), email, identity);
    FallbackDiffers(wanted, w.clock);
    NobodyHolds(w, wanted);
    NewcomerRegisters(cfg, w, wanted, email, identity);
  }

  lemma CreateStrips(cfg: Config, w: World, identity: string, email: string)
    requires Inv(cfg, w) && !Lingers(w, LocalPart(email))
    ensures
      var (w', user) := CreateGoogle(cfg, w, identity, email);
      CreateGoogle(Uncached(cfg), Strip(w), identity, email) == (Strip(w'), user)
  {
    hide Inv, LookupUsername, Find, LocalPart, Fallback, CreateSSOUser, Lingers;
    LookupUsernameStrips(cfg, w, LocalPart(email));
    LookupUsernameLeaves(cfg, w, LocalPart(email));
  }

  lemma GoogleLoginAlike(cfg: Config, w: World, r: Request, e: Entropy)
    requires Inv(cfg, w) && r.GoogleLogin? && cfg.refreshTokenTTL > 0
    ensures
      var cached, bare := DoGoogleLogin(cfg, w, r, e), DoGoogleLogin(Uncached(cfg), Strip(w), r, e);
      if Misled(cfg, w, r) then cached.1 != bare.1 else Alike(cached, bare)
  {
    hide Inv, Lookup, Issue, Find, FindSSO, LocalPart, CreateGoogle, Link, Lingers;
    var (w1, byEmail) := Lookup(cfg, w, ByEmail, r.email);
    LookupStrips(cfg, w, ByEmail, r.email);
    LookupLeaves(cfg, w, ByEmail, r.email);
    if FindSSO(w.tables, GOOGLE, r.identity).None? && byEmail.None? {
      NoneLeaves(cfg, w, ByEmail, r.email);
      if Lingers(w, LocalPart(r.email)) {
        CreateMisled(cfg, w, r.identity, r.email);
      } else {
        CreateStrips(cfg, w, r.identity, r.email);
      }
    }
    var (w2, user) := ResolveGoogle(cfg, w, r.identity, r.email);
    var (v2, bareUser) := ResolveGoogle(Uncached(cfg), Strip(w), r.identity, r.email);
    hide ResolveGoogle;
    if user.Ok? {
      IssueStrips(cfg, w2, user.value, e, ByGoogle, None);
      IssueSucceeds(cfg, w2, user.value, e, ByGoogle, None);
    }
    if bareUser.Ok? { IssueSucceeds(Uncached(cfg), v2, bareUser.value, e, ByGoogle, None); }
  }

  lemma NoneLeaves(cfg: Config, w: World, col: Column, key: string)
    ensures Lookup(cfg, w, col, key).1.None? ==> Lookup(cfg, w, col, key).0 == w
  {
  }

  lemma WriteProfileStrips(cfg: Config, w: World, user: User, e: Entropy)
    ensures Alike(WriteProfile(cfg, w, user, e), WriteProfile(Uncached(cfg), Strip(w), user, e))
    ensures WriteProfile(cfg, w, user, e).1 != Failed(UsernameAlreadyExists)
  {
    hide Issue, Update;
    var t := Update(w.tables, user);
    var none: map<string, CachedUser> := map[];
    assert none - {user.username} == none;
    if t.Some? {
      IssueStrips(cfg, w.(tables := t.value, cache := w.cache - {user.username}), user, e, ByProfile, None);
      IssueLeaves(cfg, w.(tables := t.value, cache := w.cache - {user.username}), user, e, ByProfile, None);
      IssueFails(cfg, w.(tables := t.value, cache := w.cache - {user.username}), user, e, ByProfile, None);
    }
  }

  lemma IssueFails(cfg: Config, w: World, user: User, e: Entropy, source: Source, parent: Option<string>)
    ensures var reply := Issue(cfg, w, user, e, source, parent).1; reply.Issued? || reply == Failed(TokenExpired)
  {
  }

  /** Reads on behalf of a profile completion whose name is not a lingering one. */
  lemma ProfileAlike(cfg: Config, w: World, user: User, id: nat, e: Entropy)
    requires Inv(cfg, w) && !Lingers(w, user.username)
    ensures Alike(CheckProfile(cfg, w, user, id, e), CheckProfile(Uncached(cfg), Strip(w), user, id, e))
  {
    hide Inv, Lookup, LookupUsername, WriteProfile, Find, Strip, Uncached;
    var w1 := LookupUsername(cfg, w, user.username).0;
    LookupUsernameStrips(cfg, w, user.username);
    LookupUsernameLeaves(cfg, w, user.username);
    LookupStrips(cfg, w1, ByMobile, user.mobile);
    LookupLeaves(cfg, w1, ByMobile, user.mobile);
    LookupStrips(cfg, w, ByMobile, user.mobile);
    LookupLeaves(cfg, w, ByMobile, user.mobile);
    WriteProfileStrips(cfg, Lookup(cfg, w1, ByMobile, user.mobile).0, user, e);
  }

  /** A lingering name is found held with the cache and free without it. */
  lemma ProfileMisled(cfg: Config, w: World, user: User, id: nat, e: Entropy)
    requires Inv(cfg, w) && Lingers(w, user.username)
    requires 1 <= id <= |w.tables.users| && !w.tables.users[id - 1].profileComplete
    ensures CheckProfile(cfg, w, user, id, e).1 == Failed(UsernameAlreadyExists)
    ensures CheckProfile(Uncached(cfg), Strip(w), user, id, e).1 != Failed(UsernameAlreadyExists)
  {
    hide Inv, Lookup, LookupUsername, WriteProfile, Find;
    LookupUsernameStrips(cfg, w, user.username);
    LookupStrips(cfg, w, ByMobile, user.mobile);
    LingeringUser(cfg, w, user.username);
    NobodyHolds(w, user.username);
    WriteProfileStrips(Uncached(cfg), Strip(w), user, e);
  }

  lemma NobodyHolds(w: World, name: string)
    requires Lingers(w, name)
    ensures Find(w.tables.users, ByUsername, name).None?
  {
  }

  /** CompleteProfile from its two reads on, for the record it is going to write. */
  function CheckProfile(cfg: Config, w: World, user: User, id: nat, e: Entropy): (World, Reply) {
    var (w1, byName) := LookupUsername(cfg, w, user.username);
    if byName.Some? && byName.value.id != id then (w1, Failed(UsernameAlreadyExists)) else
    var (w2, byMobile) := Lookup(cfg, w1, ByMobile, user.mobile);
    if byMobile.Some? && byMobile.value.id != id then (w2, Failed(MobileAlreadyExists)) else
    WriteProfile(cfg, w2, user, e)
  }

  /** The checks before the reads pass. */
  predicate Completable(cfg: Config, w: World, r: Request)
    requires r.CompleteProfile?
  {
    var found := ByID(w.tables.users, r.userID);
    && found.Some? && !found.value.profileComplete && Text.TrimSpace(r.username) != ""
    && Mobile.Normalize(r.mobile, cfg.wideDigits).Ok?
  }

  function Completed(cfg: Config, w: World, r: Request): User
    requires r.CompleteProfile? && Completable(cfg, w, r)
  {
    ByID(w.tables.users, r.userID).value.(
      username := Text.TrimSpace(r.username),
      mobile := Mobile.Normalize(r.mobile, cfg.wideDigits).value,
      profileComplete := true)
  }

  lemma CompletionIsChecked(cfg: Config, w: World, r: Request, e: Entropy)
    requires r.CompleteProfile? && Completable(cfg, w, r)
    ensures DoCompleteProfile(cfg, w, r, e) == CheckProfile(cfg, w, Completed(cfg, w, r), r.userID, e)
  {
    hide Lookup, LookupUsername, WriteProfile, Mobile.Normalize, Text.TrimSpace;
  }

  lemma CompletableAlike(cfg: Config, w: World, r: Request, e: Entropy)
    requires Inv(cfg, w) && r.CompleteProfile? && Completable(cfg, w, r)
    ensures
      var cached, bare := DoCompleteProfile(cfg, w, r, e), DoCompleteProfile(Uncached(cfg), Strip(w), r, e);
      if Misled(cfg, w, r) then cached.1 != bare.1 else Alike(cached, bare)
  {
    hide Inv, Lingers, Mobile.Normalize, Text.TrimSpace, DoCompleteProfile, CheckProfile;
    CompletionIsChecked(cfg, w, r, e);
    CompletionIsChecked(Uncached(cfg), Strip(w), r, e);
    var user := Completed(cfg, w, r);
    if Lingers(w, user.username) {
      ProfileMisled(cfg, w, user, r.userID, e);
    } else {
      ProfileAlike(cfg, w, user, r.userID, e);
    }
  }

  lemma CompleteProfileAlike(cfg: Config, w: World, r: Request, e: Entropy)
    requires Inv(cfg, w) && r.CompleteProfile?
    ensures
      var cached, bare := DoCompleteProfile(cfg, w, r, e), DoCompleteProfile(Uncached(cfg), Strip(w), r, e);
      if Misled(cfg, w, r) then cached.1 != bare.1 else Alike(cached, bare)
  {
    hide Inv, Lookup, LookupUsername, WriteProfile, Lingers, Mobile.Normalize, Text.TrimSpace;
    if Completable(cfg, w, r) { CompletableAlike(cfg, w, r, e); }
  }

  // ---- Whole steps and runs ----

  lemma ServeAlike(cfg: Config, w: World, r: Request, e: Entropy)
    requires Inv(cfg, w) && cfg.refreshTokenTTL > 0
    ensures
      var cached, bare := Serve(cfg, w, r, e), Serve(Uncached(cfg), Strip(w), r, e);
      if Misled(cfg, w, r) then cached.1 != bare.1 else Alike(cached, bare)
  {
    hide Inv, Lingers, Strip, Uncached, NamePending, Text.TrimSpace, Mobile.Normalize, NormalizeSignup, FindSSO, Find;
    hide DoRequestSignup, DoVerifySignup, DoResendSignup, DoSignupStatus, DoRequestLogin, DoVerifyLogin,
      DoPasswordLogin;
    hide DoRefresh, DoGoogleLogin, DoCompleteProfile, DoCurrentUser;
    match r
    case RequestSignup(_, _, _, _, _, _) => RequestSignupAlike(cfg, w, r);
    case VerifySignup(_, _, _) => VerifySignupAlike(cfg, w, r, e);
    case ResendSignup(_, _) => ResendSignupAlike(cfg, w, r);
    case SignupStatus(_) => SignupStatusAlike(cfg, w, r);
    case RequestLogin(_, _) => RequestLoginAlike(cfg, w, r);
    case VerifyLogin(_, _, _) => VerifyLoginAlike(cfg, w, r, e);
    case PasswordLogin(_, _, _) => PasswordLoginAlike(cfg, w, r, e);
    case Refresh(_) => RefreshAlike(cfg, w, r, e);
    case Logout(_) => LogoutAlike(w, r);
    case GoogleLogin(_, _) => GoogleLoginAlike(cfg, w, r, e);
    case CompleteProfile(_, _, _) => CompleteProfileAlike(cfg, w, r, e);
    case CurrentUser(_) => CurrentUserAlike(cfg, w, r);
  }

  lemma LogoutAlike(w: World, r: Request)
    requires r.Logout?
    ensures Alike(DoLogout(w, r), DoLogout(Strip(w), r))
  {
    hide Text.TrimSpace;
  }

  lemma AdmitStrips(cfg: Config, w: World, input: Input)
    ensures
      var (w', ok) := Admit(cfg, w, input);
      Admit(Uncached(cfg), Strip(w), input) == (Strip(w'), ok)
  {
    hide Enforce, Strip;
    match input.request
    case RequestSignup(_, _, _, m, _, _) =>
      EnforceStrips(cfg, w, "request", input.ip, m, cfg.requestIP, cfg.requestMobile);
    case ResendSignup(m, _) => EnforceStrips(cfg, w, "request", input.ip, m, cfg.requestIP, cfg.requestMobile);
    case RequestLogin(m, _) => EnforceStrips(cfg, w, "request", input.ip, m, cfg.requestIP, cfg.requestMobile);
    case VerifySignup(m, _, _) => EnforceStrips(cfg, w, "verify", input.ip, m, cfg.verifyIP, cfg.verifyMobile);
    case VerifyLogin(m, _, _) => EnforceStrips(cfg, w, "verify", input.ip, m, cfg.verifyIP, cfg.verifyMobile);
    case _ =>
  }

  lemma EnforceStrips(cfg: Config, w: World, action: string, ip: string, m: string, ipRule: RateLimitRule,
      mobileRule: RateLimitRule)
    ensures
      var (w', ok) := Enforce(cfg, w, action, ip, m, ipRule, mobileRule);
      Enforce(Uncached(cfg), Strip(w), action, ip, m, ipRule, mobileRule) == (Strip(w'), ok)
  {
    hide Allow, Mobile.Normalize;
  }

  lemma TickStrips(w: World, now: Time)
    ensures Tick(Strip(w), now) == Strip(Tick(w, now))
  {
  }

  /** A step with the cache and the same step without it give the same reply unless it reads a lingering entry. */
  lemma StepAlike(cfg: Config, w: World, input: Input)
    requires Inv(cfg, w) && Possible(w, input) && cfg.refreshTokenTTL > 0
    ensures
      var cached, bare := Step(cfg, w, input), Step(Uncached(cfg), Strip(w), input);
      if ReadsLingering(cfg, w, input) then cached.1 != bare.1 else Alike(cached, bare)
  {
    hide Inv, Grows, Admit, Serve, Strip, Misled, Uncached, Tick;
    var w0 := Tick(w, input.at);
    TickKeeps(cfg, w, input.at);
    TickStrips(w, input.at);
    AdmitStrips(cfg, w0, input);
    AdmitOnlyCounts(cfg, w0, input);
    var (w1, ok) := Admit(cfg, w0, input);
    if ok {
      LimiterApart(cfg, w0, w1);
      ServeAlike(cfg, w1, input.request, input.entropy);
    }
  }

  /** The same requests to a service with a cache and to one without. */
  ghost predicate Twins(cfg: Config, cached: Run, bare: Run) {
    IsRun(cfg, cached) && IsRun(Uncached(cfg), bare) && cached.inputs == bare.inputs
  }

  ghost predicate Misreads(cfg: Config, run: Run, k: nat)
    requires run.Shaped() && k < |run.inputs|
  {
    ReadsLingering(cfg, run.states[k], run.inputs[k])
  }

  /** Until a request reads a lingering entry the two are the same but for the cache. */
  lemma {:induction false} SameUntilMisread(cfg: Config, cached: Run, bare: Run, n: nat)
    requires Twins(cfg, cached, bare) && n <= |cached.inputs| && cfg.refreshTokenTTL > 0
    requires forall k :: 0 <= k < n ==> !Misreads(cfg, cached, k)
    ensures bare.states[n] == Strip(cached.states[n])
    ensures forall k :: 0 <= k < n ==> bare.replies[k] == cached.replies[k]
  {
    hide Inv, Step, ReadsLingering;
    if n == 0 {
      assert bare.states[0] == INITIAL == cached.states[0];
    } else {
      SameUntilMisread(cfg, cached, bare, n - 1);
      StepAt(cfg, cached, n - 1);
      StepAt(Uncached(cfg), bare, n - 1);
      StepAlike(cfg, cached.states[n - 1], cached.inputs[n - 1]);
      assert !Misreads(cfg, cached, n - 1);
    }
  }

  /** With and without the cache the replies agree if and only if no request reads a lingering entry. */
  lemma {:induction false} AgreeIffNoMisread(cfg: Config, cached: Run, bare: Run, n: nat)
    requires Twins(cfg, cached, bare) && n <= |cached.inputs| && cfg.refreshTokenTTL > 0
    ensures (forall k :: 0 <= k < n ==> cached.replies[k] == bare.replies[k]) <==>
      (forall k :: 0 <= k < n ==> !Misreads(cfg, cached, k))
  {
    hide Inv, Step, ReadsLingering, Strip;
    if n > 0 {
      AgreeIffNoMisread(cfg, cached, bare, n - 1);
      if forall k :: 0 <= k < n - 1 ==> !Misreads(cfg, cached, k) {
        SameUntilMisread(cfg, cached, bare, n - 1);
        StepAt(cfg, cached, n - 1);
        StepAt(Uncached(cfg), bare, n - 1);
        StepAlike(cfg, cached.states[n - 1], cached.inputs[n - 1]);
        assert Misreads(cfg, cached, n - 1) <==> cached.replies[n - 1] != bare.replies[n - 1];
      }
    }
  }
}
