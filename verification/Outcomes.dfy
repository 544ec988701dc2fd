/**
  What each request does and is answered, told from the tables, the pending signups and the send states alone
  (auth/service/service.go): first as a relation between state, request, reply and next state, then over runs.
  */
module Outcomes {
  import opened Auth
  import opened Tables
  import opened Machine
  import opened Invariants
  import opened RateLimit
  import Accounts
  import CacheTransparency
  import Mobile
  import SignupStatus
  import Text

  // ---- The relations ----

  /** Users, pending signups, login states and messages are as before. */
  ghost predicate NothingDone(w: World, w': World) {
    w'.tables == w.tables && w'.pending == w.pending && w'.logins == w.logins && w'.messages == w.messages
  }

  ghost predicate Has(users: seq<User>, col: Column, value: string) {
    exists u :: u in users && Cell(u, col) == value
  }

  /** A user of that name is in the table, or a lingering cache entry shows one. */
  ghost predicate NameBorne(w: World, name: string) {
    Has(w.tables.users, ByUsername, name) || name in w.cache
  }

  ghost predicate Pends(w: World, col: Column, value: string) {
    exists m :: m in w.pending && PendingHolds(w.pending[m], col, value)
  }

  /** Why a well-formed signup is refused: the first value that a user has, or else that a live signup has. */
  ghost function SignupRefusal(w: World, name: string, email: string, m: string): Option<Error> {
    if NameBorne(w, name) then Some(UsernameAlreadyExists)
    else if Has(w.tables.users, ByEmail, email) then Some(EmailAlreadyExists)
    else if Has(w.tables.users, ByMobile, m) then Some(MobileAlreadyExists)
    else if m in w.pending && w.pending[m].username == name && w.pending[m].email == email
      then Some(SignupVerificationPending)
    else if Pends(w, ByUsername, name) then Some(UsernameAlreadyExists)
    else if Pends(w, ByEmail, email) then Some(EmailAlreadyExists)
    else if m in w.pending then Some(MobileAlreadyExists)
    else None
  }

  /** A signup request sends a code and is kept, or it is refused and nothing is done. */
  ghost predicate SignupOutcome(cfg: Config, w: World, w': World, r: Request, reply: Reply)
    requires r.RequestSignup?
  {
    var name, email := Text.TrimSpace(r.username), Text.ToLower(Text.TrimSpace(r.email));
    var f := Mobile.Normalize(r.mobile, cfg.wideDigits);
    if name == "" then reply == Failed(InvalidUsername) && NothingDone(w, w')
    else if r.password == "" then reply == Failed(InvalidPassword) && NothingDone(w, w')
    else if email == "" then reply == Failed(InvalidEmail) && NothingDone(w, w')
    else if f.Err? then reply == Failed(f.error) && NothingDone(w, w')
    else if SignupRefusal(w, name, email, f.value).Some? then
      reply == Failed(SignupRefusal(w, name, email, f.value).value) && NothingDone(w, w')
    else if r.hash.None? then reply == Failed(HashFailed) && NothingDone(w, w')
    else if !r.sent then reply == Failed(ProviderFailed) && NothingDone(w, w')
    else
      && reply == Accepted && w'.tables == w.tables && w'.logins == w.logins
      && w'.messages == w.messages + [SignupSent(f.value, w.clock, true)]
      && w'.pending == w.pending[f.value := PendingSignup(name, r.hash.value, email, f.value, 0, w.clock,
                                                          w.clock + cfg.pendingSignupTTL)]
  }

  /** The first of the three values that a row already has. */
  ghost function RowRefusal(users: seq<User>, name: string, email: string, m: string): Option<Error> {
    if Has(users, ByUsername, name) then Some(UsernameAlreadyExists)
    else if Has(users, ByEmail, email) then Some(EmailAlreadyExists)
    else if Has(users, ByMobile, m) then Some(MobileAlreadyExists)
    else None
  }

  /** The verified user that a pending signup becomes, with the next id. */
  function SignedUp(w: World, p: PendingSignup, m: string): User {
    User(|w.tables.users| + 1, p.username, p.email, m, true, ROLE_CUSTOMER, true)
  }

  /** One new row, and its password unless that is empty. */
  predicate NewRow(t: UserTables, t': UserTables, user: User, hash: string) {
    && t'.users == t.users + [user] && t'.sso == t.sso
    && t'.passwords == if hash == "" then t.passwords else t.passwords[user.id := hash]
  }

  /** An approved code for a pending signup creates its user with the password chosen, unless a value is taken. */
  ghost predicate VerifySignupOutcome(cfg: Config, w: World, w': World, r: Request, reply: Reply)
    requires r.VerifySignup?
  {
    var f := Mobile.Normalize(r.mobile, cfg.wideDigits);
    if f.Err? then reply == Failed(f.error) && NothingDone(w, w')
    else if Text.TrimSpace(r.code) == "" then reply == Failed(InvalidOTPCode) && NothingDone(w, w')
    else if f.value !in w.pending then reply == Failed(PendingSignupExpired) && NothingDone(w, w')
    else if r.verdict.Unreachable? then reply == Failed(ProviderFailed) && NothingDone(w, w')
    else if r.verdict.Rejected? then reply == Failed(InvalidOTPCode) && NothingDone(w, w')
    else
      var p, m := w.pending[f.value], f.value;
      var refusal := RowRefusal(w.tables.users, p.username, p.email, m);
      && w'.logins == w.logins
      && if refusal.Some? then
           && reply == Failed(refusal.value) && w'.tables == w.tables && w'.pending == w.pending
           && w'.messages == w.messages + [SignupApproved(m, w.clock)]
         else
           && reply.Issued? && reply.user == SignedUp(w, p, m)
           && NewRow(w.tables, w'.tables, reply.user, p.passwordHash) && w'.pending == w.pending - {m}
           && w'.messages == w.messages + [SignupApproved(m, w.clock), Registered(reply.user, w.clock)]
  }

  /** A resend sends within quota and cooldown, and is recorded unless the signup ends this very instant. */
  ghost predicate ResendOutcome(cfg: Config, w: World, w': World, r: Request, reply: Reply)
    requires r.ResendSignup?
  {
    var f := Mobile.Normalize(r.mobile, cfg.wideDigits);
    if f.Err? then reply == Failed(f.error) && NothingDone(w, w')
    else if f.value !in w.pending then reply == Failed(PendingSignupExpired) && NothingDone(w, w')
    else
      var p, m := w.pending[f.value], f.value;
      if 0 < cfg.maxResends <= p.resendCount then reply == Failed(OTPResendLimitReached) && NothingDone(w, w')
      else if p.lastSentAt != 0 && w.clock - p.lastSentAt < cfg.resendCooldown && cfg.resendCooldown > 0 then
        reply == Failed(OTPResendTooSoon) && NothingDone(w, w')
      else if !r.sent then reply == Failed(ProviderFailed) && NothingDone(w, w')
      else
        && w'.tables == w.tables && w'.logins == w.logins
        && w'.messages == w.messages + [SignupSent(m, w.clock, false)]
        && if w.clock < p.expiresAt then
             && reply == Accepted
             && w'.pending == w.pending[m := p.(resendCount := p.resendCount + 1, lastSentAt := w.clock)]
           else
             reply == Failed(PendingSignupExpired) && w'.pending == w.pending
  }

  ghost predicate StatusOutcome(cfg: Config, w: World, w': World, r: Request, reply: Reply)
    requires r.SignupStatus?
  {
    var f := Mobile.Normalize(r.mobile, cfg.wideDigits);
    && NothingDone(w, w')
    && if f.Err? then reply == Failed(f.error)
       else if f.value in w.pending && w.clock < w.pending[f.value].expiresAt then reply == Status("pending")
       else if SignupStatus.VerifiedHolder(w.tables.users, f.value) then reply == Status("completed")
       else reply == Status("expired")
  }

  /** A verified user has the number, and the state of its last code, if that still lives, permits another one. */
  ghost predicate LoginSendDue(cfg: Config, w: World, m: string) {
    && SignupStatus.VerifiedHolder(w.tables.users, m)
    && (LoginKey(m) in w.logins ==>
          var s := w.logins[LoginKey(m)];
          && (cfg.maxResends > 0 ==> s.resendCount < cfg.maxResends)
          && (s.lastSentAt != 0 && cfg.resendCooldown > 0 ==> w.clock - s.lastSentAt >= cfg.resendCooldown))
  }

  /** A login code is sent exactly if one is due; that none was sent is only told if the provider failed. */
  ghost predicate RequestLoginOutcome(cfg: Config, w: World, w': World, r: Request, reply: Reply)
    requires r.RequestLogin?
  {
    var f := Mobile.Normalize(r.mobile, cfg.wideDigits);
    if f.Err? || !LoginSendDue(cfg, w, f.value) then reply == Accepted && NothingDone(w, w')
    else if !r.sent then reply == Failed(ProviderFailed) && NothingDone(w, w')
    else
      var m, key := f.value, LoginKey(f.value);
      && reply == Accepted && w'.tables == w.tables && w'.pending == w.pending
      && w'.messages == w.messages + [LoginSent(m, w.clock)]
      && w'.logins == w.logins[key := OTPRequestState(m, if key in w.logins then w.logins[key].resendCount + 1 else 0,
                                                      w.clock, w.clock + cfg.pendingSignupTTL)]
  }

  /** An approved code logs in the verified holder of the number; every other verification is refused. */
  ghost predicate VerifyLoginOutcome(cfg: Config, w: World, w': World, r: Request, reply: Reply)
    requires r.VerifyLogin?
  {
    var f := Mobile.Normalize(r.mobile, cfg.wideDigits);
    if f.Err? then reply == Failed(InvalidCredentials) && NothingDone(w, w')
    else if Text.TrimSpace(r.code) == "" then reply == Failed(InvalidOTPCode) && NothingDone(w, w')
    else if !Has(w.tables.users, ByMobile, f.value) then reply == Failed(InvalidCredentials) && NothingDone(w, w')
    else if !SignupStatus.VerifiedHolder(w.tables.users, f.value) then
      reply == Failed(MobileNotVerified) && NothingDone(w, w')
    else if r.verdict.Unreachable? then reply == Failed(ProviderFailed) && NothingDone(w, w')
    else if r.verdict.Rejected? then reply == Failed(InvalidOTPCode) && NothingDone(w, w')
    else
      && reply.Issued? && reply.user in w.tables.users && reply.user.mobile == f.value && reply.user.mobileVerified
      && w'.tables == w.tables && w'.pending == w.pending && w'.logins == w.logins - {LoginKey(f.value)}
      && w'.messages == w.messages + [LoginApproved(f.value, w.clock)]
  }

  /** The user has the name, and a password is stored for it. */
  ghost predicate HasPassword(t: UserTables, user: User, name: string) {
    user in t.users && user.username == name && user.id in t.passwords
  }

  /** A password login succeeds exactly for a user of that name with a stored password that matches. */
  ghost predicate PasswordOutcome(w: World, w': World, r: Request, reply: Reply)
    requires r.PasswordLogin?
  {
    var name := Text.TrimSpace(r.username);
    && NothingDone(w, w')
    && if name == "" then reply == Failed(InvalidUsername)
       else if r.password == "" then reply == Failed(InvalidPassword)
       else if r.matches && exists u :: HasPassword(w.tables, u, name) then
         reply.Issued? && HasPassword(w.tables, reply.user, name)
       else reply == Failed(InvalidCredentials)
  }

  /** A refresh needs a live session, and yields tokens for whoever bears the name in it. */
  ghost predicate RefreshOutcome(w: World, w': World, r: Request, reply: Reply)
    requires r.Refresh?
  {
    var token := Text.TrimSpace(r.token);
    && NothingDone(w, w')
    && if token == "" || token !in w.sessions then reply == Failed(InvalidRefreshToken)
       else match Accounts.Bearer(w, w.sessions[token].username)
         case None => reply == Failed(UserNotFound)
         case Some(user) => reply.Issued? && reply.user == user
  }

  ghost predicate LogoutOutcome(w: World, w': World, r: Request, reply: Reply)
    requires r.Logout?
  {
    NothingDone(w, w') && reply == if Text.TrimSpace(r.token) == "" then Failed(InvalidRefreshToken) else Accepted
  }

  /** The identity has a row, and the row is the user's. */
  ghost predicate Linked(t: UserTables, identity: string, user: User) {
    user in t.users && SSORow(user.id, GOOGLE, identity) in t.sso
  }

  /** A linked identity logs in its user, an email of a user's links it to that user, any other creates one. */
  ghost predicate GoogleOutcome(w: World, w': World, r: Request, reply: Reply)
    requires r.GoogleLogin?
  {
    && w'.pending == w.pending && w'.logins == w.logins && w'.messages == w.messages
    && if exists u :: Linked(w.tables, r.identity, u) then
         reply.Issued? && Linked(w.tables, r.identity, reply.user) && w'.tables == w.tables
       else if Has(w.tables.users, ByEmail, r.email) then
         && reply.Issued? && reply.user in w.tables.users && reply.user.email == r.email
         && w'.tables == w.tables.(sso := w.tables.sso + [SSORow(reply.user.id, GOOGLE, r.identity)])
       else
         var wanted := LocalPart(r.email);
         var name := if NameBorne(w, wanted) then Fallback(wanted, w.clock) else wanted;
         if NameBorne(w, wanted) && Has(w.tables.users, ByUsername, name) then
           reply == Failed(DuplicateKey) && w'.tables == w.tables
         else
           var user := User(|w.tables.users| + 1, name, r.email, "", false, ROLE_CUSTOMER, false);
           && reply.Issued? && reply.user == user
           && w'.tables == UserTables(w.tables.users + [user], w.tables.passwords,
                                      w.tables.sso + [SSORow(user.id, GOOGLE, r.identity)])
  }

  /** Another user than the one with the id has the number. */
  ghost predicate OthersMobile(users: seq<User>, id: nat, m: string) {
    exists u :: u in users && u.mobile == m && u.id != id
  }

  /** An incomplete profile is completed, or refused and left as it is. */
  ghost predicate ProfileOutcome(cfg: Config, w: World, w': World, r: Request, reply: Reply)
    requires r.CompleteProfile?
  {
    var users, name, f := w.tables.users, Text.TrimSpace(r.username), Mobile.Normalize(r.mobile, cfg.wideDigits);
    var bearer := Accounts.Bearer(w, name);
    if !(1 <= r.userID <= |users|) then reply == Failed(UserNotFound) && NothingDone(w, w')
    else if users[r.userID - 1].profileComplete then reply == Failed(ProfileAlreadyComplete) && NothingDone(w, w')
    else if name == "" then reply == Failed(InvalidUsername) && NothingDone(w, w')
    else if f.Err? then reply == Failed(f.error) && NothingDone(w, w')
    else if bearer.Some? && bearer.value.id != r.userID then
      reply == Failed(UsernameAlreadyExists) && NothingDone(w, w')
    else if OthersMobile(users, r.userID, f.value) then reply == Failed(MobileAlreadyExists) && NothingDone(w, w')
    else
      && reply.Issued? && w'.pending == w.pending && w'.logins == w.logins && w'.messages == w.messages
      && reply.user == users[r.userID - 1].(username := name, mobile := f.value, profileComplete := true)
      && w'.tables == w.tables.(users := users[r.userID - 1 := reply.user])
  }

  ghost predicate CurrentUserOutcome(w: World, w': World, r: Request, reply: Reply)
    requires r.CurrentUser?
  {
    && NothingDone(w, w')
    && match Accounts.Bearer(w, Text.TrimSpace(r.username))
       case None => reply == Failed(UserNotFound)
       case Some(user) => reply == Profile(user)
  }

  // ---- Helpers ----

  lemma FindMeansHas(users: seq<User>, col: Column, value: string)
    requires !(col.ByMobile? && value == "")
    ensures Find(users, col, value).Some? <==> Has(users, col, value)
  {
    var r := Find(users, col, value);
    if Has(users, col, value) {
      var u :| u in users && Cell(u, col) == value;
      assert Holds(u, col, value);
    }
  }

  lemma PendingMeans(cfg: Config, w: World, form: SignupForm)
    requires Inv(cfg, w)
    requires !NameBorne(w, form.username) && !Has(w.tables.users, ByEmail, form.email)
      && !Has(w.tables.users, ByMobile, form.mobile)
    ensures PendingAvailability(w.pending, form) == SignupRefusal(w, form.username, form.email, form.mobile)
  {
    hide UsersOk, TablesOk, CacheOk, SessionsOk, MintedOk, VouchedOk, Has, NameBorne;
    var p, name, email, m := w.pending, form.username, form.email, form.mobile;
    assert Distinct(p);
    var byName := FindPending(p, ByUsername, name);
    assert byName.Some? <==> Pends(w, ByUsername, name);
    var byEmail := FindPending(p, ByEmail, email);
    assert byEmail.Some? <==> Pends(w, ByEmail, email);
    var byMobile := FindPending(p, ByMobile, m);
    assert byMobile.Some? <==> m in p;
    if byName.Some? {
      var n :| n in p && p[n] == byName.value;
      assert p[n].mobile == n;
      if m in p && p[m].username == name { assert m == n; }
    }
  }

  lemma AvailabilityRefuses(cfg: Config, w: World, form: SignupForm)
    requires Inv(cfg, w) && form.mobile != ""
    ensures
      var (w', r) := Availability(cfg, w, form);
      && w' == w.(cache := w'.cache)
      && r == SignupRefusal(w, form.username, form.email, form.mobile)
  {
    hide Inv, Grows, Lookup, LookupUsername, PendingAvailability, Find, SignupRefusal, Has;
    AvailabilityKeeps(cfg, w, form);
    var (w1, byName) := LookupUsername(cfg, w, form.username);
    LookupUsernameLeaves(cfg, w, form.username);
    NameFound(cfg, w, form.username);
    var (w2, byEmail) := Lookup(cfg, w1, ByEmail, form.email);
    LookupLeaves(cfg, w1, ByEmail, form.email);
    FindMeansHas(w.tables.users, ByEmail, form.email);
    var (w3, byMobile) := Lookup(cfg, w2, ByMobile, form.mobile);
    LookupLeaves(cfg, w2, ByMobile, form.mobile);
    FindMeansHas(w.tables.users, ByMobile, form.mobile);
    CacheTransparency.UserIDs(cfg, w);
    RefusalFirst(w, form.username, form.email, form.mobile);
    if byName.None? && byEmail.None? && byMobile.None? { PendingMeans(cfg, w, form); }
  }

  lemma RefusalFirst(w: World, name: string, email: string, m: string)
    ensures NameBorne(w, name) ==> SignupRefusal(w, name, email, m) == Some(UsernameAlreadyExists)
    ensures !NameBorne(w, name) && Has(w.tables.users, ByEmail, email) ==>
      SignupRefusal(w, name, email, m) == Some(EmailAlreadyExists)
    ensures !NameBorne(w, name) && !Has(w.tables.users, ByEmail, email) && Has(w.tables.users, ByMobile, m) ==>
      SignupRefusal(w, name, email, m) == Some(MobileAlreadyExists)
  {
  }

  /** A name read finds whoever bears the name. */
  lemma NameFound(cfg: Config, w: World, name: string)
    requires Inv(cfg, w)
    ensures
      var r := LookupUsername(cfg, w, name).1;
      && r == Accounts.Bearer(w, name)
      && (r.Some? <==> NameBorne(w, name))
      && (r.Some? ==> r.value.username == name && r.value.id != 0)
  {
    hide TablesOk, PendingOk, SessionsOk, MintedOk, VouchedOk;
    Accounts.BearerIsFound(cfg, w, name);
    FindMeansHas(w.tables.users, ByUsername, name);
    CacheTransparency.UserIDs(cfg, w);
  }

  lemma SignupServed(cfg: Config, w: World, r: Request)
    requires Inv(cfg, w) && cfg.Valid() && r.RequestSignup?
    ensures var (w', reply) := DoRequestSignup(cfg, w, r); SignupOutcome(cfg, w, w', r, reply)
  {
    hide Inv, Availability, SignupRefusal, Mobile.Normalize, Text.TrimSpace, Text.ToLower;
    var f := NormalizeSignup(cfg, r.username, r.password, r.email, r.mobile);
    if f.Ok? { AvailabilityRefuses(cfg, w, f.value); }
  }

  // ---- Signup and login by code ----

  lemma RegisterRefuses(w: World, p: PendingSignup)
    requires p.mobile != ""
    ensures
      var made, refusal := Register(w.tables, NewUser(p), p.passwordHash),
                           RowRefusal(w.tables.users, p.username, p.email, p.mobile);
      && (made.Err? <==> refusal.Some?)
      && (made.Err? ==> made.error == refusal.value)
      && (made.Ok? ==>
            made.value.1 == SignedUp(w, p, p.mobile)
              && NewRow(w.tables, made.value.0, made.value.1, p.passwordHash))
  {
    hide Find, Has;
    FindMeansHas(w.tables.users, ByUsername, p.username);
    FindMeansHas(w.tables.users, ByEmail, p.email);
    FindMeansHas(w.tables.users, ByMobile, p.mobile);
  }

  lemma VerifySignupServed(cfg: Config, w: World, r: Request, e: Entropy)
    requires Inv(cfg, w) && cfg.Valid() && r.VerifySignup?
    ensures var (w', reply) := DoVerifySignup(cfg, w, r, e); VerifySignupOutcome(cfg, w, w', r, reply)
  {
    hide Inv, Mobile.Normalize, Text.TrimSpace, FinishSignup, RowRefusal, SignedUp, NewRow;
    var f := Mobile.Normalize(r.mobile, cfg.wideDigits);
    if f.Ok? && f.value in w.pending {
      KeyedByMobile(cfg, w, f.value);
      FinishServed(cfg, w, f.value, w.pending[f.value], e);
    }
  }

  lemma FinishServed(cfg: Config, w: World, m: string, p: PendingSignup, e: Entropy)
    requires cfg.Valid() && p.mobile == m != ""
    ensures
      var (w', reply) := FinishSignup(cfg, w, m, p, e);
      var refusal := RowRefusal(w.tables.users, p.username, p.email, m);
      && w'.logins == w.logins
      && if refusal.Some? then
           && reply == Failed(refusal.value) && w'.tables == w.tables && w'.pending == w.pending
           && w'.messages == w.messages + [SignupApproved(m, w.clock)]
         else
           && reply.Issued? && reply.user == SignedUp(w, p, m)
           && NewRow(w.tables, w'.tables, reply.user, p.passwordHash) && w'.pending == w.pending - {m}
           && w'.messages == w.messages + [SignupApproved(m, w.clock), Registered(reply.user, w.clock)]
  {
    hide Register, Issue, RowRefusal, SignedUp, NewRow;
    var w1 := w.(messages := w.messages + [SignupApproved(m, w.clock)]);
    RegisterRefuses(w, p);
    var made := Register(w.tables, NewUser(p), p.passwordHash);
    if made.Ok? {
      var (t, user) := made.value;
      var w2 := Remember(cfg, w1.(tables := t, messages := w1.messages + [Registered(user, w.clock)]), user);
      assert w2.messages == w.messages + [SignupApproved(m, w.clock), Registered(user, w.clock)];
      IssueLeaves(cfg, w2.(pending := w2.pending - {m}), user, e, BySignup, None);
    }
  }

  lemma ResendServed(cfg: Config, w: World, r: Request)
    requires Inv(cfg, w) && cfg.Valid() && r.ResendSignup?
    ensures var (w', reply) := DoResendSignup(cfg, w, r); ResendOutcome(cfg, w, w', r, reply)
  {
    hide Inv, Mobile.Normalize;
    var f := Mobile.Normalize(r.mobile, cfg.wideDigits);
    if f.Ok? && f.value in w.pending { KeyedByMobile(cfg, w, f.value); }
  }

  /** With unique numbers, the user found by a number is verified exactly if the number has a verified holder. */
  lemma HolderFound(cfg: Config, w: World, m: string)
    requires Inv(cfg, w) && m != ""
    ensures
      var r := Find(w.tables.users, ByMobile, m);
      && (r.Some? <==> Has(w.tables.users, ByMobile, m))
      && (r.Some? ==> r.value in w.tables.users && r.value.mobile == m)
      && (SignupStatus.VerifiedHolder(w.tables.users, m) <==> r.Some? && r.value.mobileVerified)
  {
    hide TablesOk, CacheOk, PendingOk, SessionsOk, MintedOk, VouchedOk;
    FindMeansHas(w.tables.users, ByMobile, m);
    if SignupStatus.VerifiedHolder(w.tables.users, m) {
      var u :| u in w.tables.users && u.mobile == m && u.mobileVerified;
      FindUnique(w.tables.users, ByMobile, u);
    }
  }

  lemma StatusServed(cfg: Config, w: World, r: Request)
    requires Inv(cfg, w) && r.SignupStatus?
    ensures var (w', reply) := DoSignupStatus(cfg, w, r); StatusOutcome(cfg, w, w', r, reply)
  {
    hide Inv, Mobile.Normalize, Find, Lookup, SignupStatus.VerifiedHolder;
    var f := Mobile.Normalize(r.mobile, cfg.wideDigits);
    if f.Ok? {
      HolderFound(cfg, w, f.value);
      LookupLeaves(cfg, w, ByMobile, f.value);
    }
  }

  lemma RequestLoginServed(cfg: Config, w: World, r: Request)
    requires Inv(cfg, w) && cfg.Valid() && r.RequestLogin?
    ensures var (w', reply) := DoRequestLogin(cfg, w, r); RequestLoginOutcome(cfg, w, w', r, reply)
  {
    hide Inv, Mobile.Normalize, Find, Lookup, SignupStatus.VerifiedHolder, LoginKey;
    var f := Mobile.Normalize(r.mobile, cfg.wideDigits);
    if f.Ok? {
      HolderFound(cfg, w, f.value);
      LookupLeaves(cfg, w, ByMobile, f.value);
    }
  }

  lemma VerifyLoginServed(cfg: Config, w: World, r: Request, e: Entropy)
    requires Inv(cfg, w) && cfg.Valid() && r.VerifyLogin?
    ensures var (w', reply) := DoVerifyLogin(cfg, w, r, e); VerifyLoginOutcome(cfg, w, w', r, reply)
  {
    hide Inv, Mobile.Normalize, Find, Lookup, SignupStatus.VerifiedHolder, LoginKey, Issue, Text.TrimSpace, Has;
    var f := Mobile.Normalize(r.mobile, cfg.wideDigits);
    if f.Ok? {
      HolderFound(cfg, w, f.value);
      LookupLeaves(cfg, w, ByMobile, f.value);
      var (w1, user) := Lookup(cfg, w, ByMobile, f.value);
      if user.Some? {
        IssueLeaves(cfg,
          w1.(messages := w1.messages + [LoginApproved(f.value, w1.clock)], logins := w1.logins - {LoginKey(f.value)}),
          user.value, e, ByOTP, None);
      }
    }
  }

  // ---- Sessions ----

  lemma PasswordServed(cfg: Config, w: World, r: Request, e: Entropy)
    requires Inv(cfg, w) && cfg.Valid() && r.PasswordLogin?
    ensures var (w', reply) := DoPasswordLogin(cfg, w, r, e); PasswordOutcome(w, w', r, reply)
  {
    hide Inv, LookupUsername, Issue, Text.TrimSpace, HasPassword;
    var name := Text.TrimSpace(r.username);
    var (w1, user) := LookupUsername(cfg, w, name);
    LookupUsernameLeaves(cfg, w, name);
    PasswordOf(cfg, w, name);
    if user.Some? { IssueLeaves(cfg, w1, user.value, e, ByPassword, None); }
  }

  /** A lingering entry shows a user without a password. */
  lemma PasswordOf(cfg: Config, w: World, name: string)
    requires Inv(cfg, w)
    ensures
      var user := LookupUsername(cfg, w, name).1;
      && (user.Some? && user.value.id in w.tables.passwords ==> HasPassword(w.tables, user.value, name))
      && ((exists u :: HasPassword(w.tables, u, name)) ==> user.Some? && user.value.id in w.tables.passwords)
  {
    hide Inv, LookupUsername, Find;
    LookupUsernameKeeps(cfg, w, name);
    CacheTransparency.LookupUsernameStrips(cfg, w, name);
    var user := LookupUsername(cfg, w, name).1;
    if CacheTransparency.Lingers(w, name) {
      CacheTransparency.LingeringUser(cfg, w, name);
      assert forall u :: u in w.tables.users ==> !Holds(u, ByUsername, name);
    }
  }

  lemma RefreshServed(cfg: Config, w: World, r: Request, e: Entropy)
    requires Inv(cfg, w) && cfg.Valid() && r.Refresh?
    ensures var (w', reply) := DoRefresh(cfg, w, r, e); RefreshOutcome(w, w', r, reply)
  {
    hide Inv, LookupUsername, Issue, Text.TrimSpace, Accounts.Bearer;
    var token := Text.TrimSpace(r.token);
    if token in w.sessions {
      var name := w.sessions[token].username;
      var (w1, user) := LookupUsername(cfg, w, name);
      LookupUsernameLeaves(cfg, w, name);
      Accounts.BearerIsFound(cfg, w, name);
      if user.Some? { IssueLeaves(cfg, w1.(sessions := w1.sessions - {token}), user.value, e, ByRefresh, Some(token)); }
    }
  }

  lemma CurrentUserServed(cfg: Config, w: World, r: Request)
    requires Inv(cfg, w) && r.CurrentUser?
    ensures var (w', reply) := DoCurrentUser(cfg, w, r); CurrentUserOutcome(w, w', r, reply)
  {
    hide Inv, LookupUsername, Text.TrimSpace, Accounts.Bearer;
    LookupUsernameLeaves(cfg, w, Text.TrimSpace(r.username));
    Accounts.BearerIsFound(cfg, w, Text.TrimSpace(r.username));
  }

  lemma LogoutServed(w: World, r: Request)
    requires r.Logout?
    ensures var (w', reply) := DoLogout(w, r); LogoutOutcome(w, w', r, reply)
  {
    hide Text.TrimSpace;
  }

  // ---- Google sign-on and profile completion ----

  lemma LinkedFound(cfg: Config, w: World, identity: string)
    requires Inv(cfg, w)
    ensures
      var r := FindSSO(w.tables, GOOGLE, identity);
      && (r.Some? <==> exists u :: Linked(w.tables, identity, u))
      && (r.Some? ==> Linked(w.tables, identity, r.value))
  {
    hide CacheOk, PendingOk, SessionsOk, MintedOk, VouchedOk;
    var r := FindSSO(w.tables, GOOGLE, identity);
    if r.Some? {
      var row := FirstRow(w.tables.sso, GOOGLE, identity).value;
      assert row == SSORow(r.value.id, GOOGLE, identity);
      assert Linked(w.tables, identity, r.value);
    } else {
      NoRow(w.tables, GOOGLE, identity);
    }
  }

  lemma GoogleServed(cfg: Config, w: World, r: Request, e: Entropy)
    requires Inv(cfg, w) && cfg.Valid() && r.GoogleLogin?
    ensures var (w', reply) := DoGoogleLogin(cfg, w, r, e); GoogleOutcome(w, w', r, reply)
  {
    hide Inv, Issue, FindSSO, Find, Linked, LocalPart, Fallback, Has, CreateGoogle;
    LinkedFound(cfg, w, r.identity);
    FindMeansHas(w.tables.users, ByEmail, r.email);
    LookupLeaves(cfg, w, ByEmail, r.email);
    CacheTransparency.NoneLeaves(cfg, w, ByEmail, r.email);
    if Find(w.tables.users, ByEmail, r.email).None? { CreateServed(cfg, w, r.identity, r.email); }
    var (w1, user) := ResolveGoogle(cfg, w, r.identity, r.email);
    hide ResolveGoogle;
    if user.Ok? { IssueLeaves(cfg, w1, user.value, e, ByGoogle, None); }
  }

  lemma CreateServed(cfg: Config, w: World, identity: string, email: string)
    requires Inv(cfg, w) && Find(w.tables.users, ByEmail, email).None?
    ensures
      var (w', made) := CreateGoogle(cfg, w, identity, email);
      var wanted := LocalPart(email);
      var name := if NameBorne(w, wanted) then Fallback(wanted, w.clock) else wanted;
      && w' == w.(tables := w'.tables, cache := w'.cache)
      && if NameBorne(w, wanted) && Has(w.tables.users, ByUsername, name) then
           made == Err(DuplicateKey) && w'.tables == w.tables
         else
           var user := User(|w.tables.users| + 1, name, email, "", false, ROLE_CUSTOMER, false);
           && made == Ok(user)
           && w'.tables == UserTables(w.tables.users + [user], w.tables.passwords,
                                      w.tables.sso + [SSORow(user.id, GOOGLE, identity)])
  {
    hide Inv, LookupUsername, LocalPart, Fallback, Find, Has;
    var wanted := LocalPart(email);
    var (w1, holder) := LookupUsername(cfg, w, wanted);
    LookupUsernameLeaves(cfg, w, wanted);
    NameFound(cfg, w, wanted);
    var name := if holder.Some? then Fallback(wanted, w.clock) else wanted;
    FindMeansHas(w.tables.users, ByUsername, name);
    CacheTransparency.NoBlankMobile(w.tables.users);
  }

  lemma OtherFound(cfg: Config, w: World, id: nat, m: string)
    requires Inv(cfg, w) && m != ""
    ensures
      var r := Find(w.tables.users, ByMobile, m);
      OthersMobile(w.tables.users, id, m) <==> r.Some? && r.value.id != id
  {
    hide TablesOk, CacheOk, PendingOk, SessionsOk, MintedOk, VouchedOk;
    if OthersMobile(w.tables.users, id, m) {
      var u :| u in w.tables.users && u.mobile == m && u.id != id;
      FindUnique(w.tables.users, ByMobile, u);
    }
  }

  lemma ProfileServed(cfg: Config, w: World, r: Request, e: Entropy)
    requires Inv(cfg, w) && cfg.Valid() && r.CompleteProfile?
    ensures var (w', reply) := DoCompleteProfile(cfg, w, r, e); ProfileOutcome(cfg, w, w', r, reply)
  {
    hide Inv, Lookup, LookupUsername, WriteProfile, Find, Mobile.Normalize, Text.TrimSpace, Accounts.Bearer,
      OthersMobile;
    var name := Text.TrimSpace(r.username);
    var f := Mobile.Normalize(r.mobile, cfg.wideDigits);
    if ByID(w.tables.users, r.userID).Some? && !w.tables.users[r.userID - 1].profileComplete && f.Ok? {
      var (w1, byName) := LookupUsername(cfg, w, name);
      LookupUsernameLeaves(cfg, w, name);
      Accounts.BearerIsFound(cfg, w, name);
      LookupLeaves(cfg, w1, ByMobile, f.value);
      OtherFound(cfg, w, r.userID, f.value);
      var byMobile := Find(w.tables.users, ByMobile, f.value);
      if (byName.Some? ==> byName.value.id == r.userID) && (byMobile.Some? ==> byMobile.value.id == r.userID) {
        ProfileAccepted(cfg, w, r.userID, name, f.value);
        WriteServed(cfg, Lookup(cfg, w1, ByMobile, f.value).0,
          w.tables.users[r.userID - 1].(username := name, mobile := f.value, profileComplete := true), e);
      }
    }
  }

  lemma WriteServed(cfg: Config, w: World, user: User, e: Entropy)
    requires cfg.Valid() && 1 <= user.id <= |w.tables.users|
    requires Update(w.tables, user) == Some(w.tables.(users := w.tables.users[user.id - 1 := user]))
    ensures
      var (w', reply) := WriteProfile(cfg, w, user, e);
      && reply.Issued? && reply.user == user
      && w'.pending == w.pending && w'.logins == w.logins && w'.messages == w.messages
      && w'.tables == w.tables.(users := w.tables.users[user.id - 1 := user])
  {
    hide Update, Issue;
    var w1 := w.(tables := w.tables.(users := w.tables.users[user.id - 1 := user]), cache := w.cache - {user.username});
    IssueLeaves(cfg, w1, user, e, ByProfile, None);
  }

  // ---- Every request ----

  ghost predicate Outcome(cfg: Config, w: World, w': World, r: Request, reply: Reply) {
    match r
    case RequestSignup(_, _, _, _, _, _) => SignupOutcome(cfg, w, w', r, reply)
    case VerifySignup(_, _, _) => VerifySignupOutcome(cfg, w, w', r, reply)
    case ResendSignup(_, _) => ResendOutcome(cfg, w, w', r, reply)
    case SignupStatus(_) => StatusOutcome(cfg, w, w', r, reply)
    case RequestLogin(_, _) => RequestLoginOutcome(cfg, w, w', r, reply)
    case VerifyLogin(_, _, _) => VerifyLoginOutcome(cfg, w, w', r, reply)
    case PasswordLogin(_, _, _) => PasswordOutcome(w, w', r, reply)
    case Refresh(_) => RefreshOutcome(w, w', r, reply)
    case Logout(_) => LogoutOutcome(w, w', r, reply)
    case GoogleLogin(_, _) => GoogleOutcome(w, w', r, reply)
    case CompleteProfile(_, _, _) => ProfileOutcome(cfg, w, w', r, reply)
    case CurrentUser(_) => CurrentUserOutcome(w, w', r, reply)
  }

  lemma Served(cfg: Config, w: World, r: Request, e: Entropy)
    requires Inv(cfg, w) && cfg.Valid()
    ensures var (w', reply) := Serve(cfg, w, r, e); Outcome(cfg, w, w', r, reply)
  {
    hide Inv, SignupOutcome, VerifySignupOutcome, ResendOutcome, StatusOutcome, RequestLoginOutcome,
      VerifyLoginOutcome, PasswordOutcome, RefreshOutcome, LogoutOutcome, GoogleOutcome, ProfileOutcome,
      CurrentUserOutcome;
    hide DoRequestSignup, DoVerifySignup, DoResendSignup, DoSignupStatus, DoRequestLogin, DoVerifyLogin,
      DoPasswordLogin, DoRefresh, DoLogout, DoGoogleLogin, DoCompleteProfile, DoCurrentUser;
    match r
    case RequestSignup(_, _, _, _, _, _) => SignupServed(cfg, w, r);
    case VerifySignup(_, _, _) => VerifySignupServed(cfg, w, r, e);
    case ResendSignup(_, _) => ResendServed(cfg, w, r);
    case SignupStatus(_) => StatusServed(cfg, w, r);
    case RequestLogin(_, _) => RequestLoginServed(cfg, w, r);
    case VerifyLogin(_, _, _) => VerifyLoginServed(cfg, w, r, e);
    case PasswordLogin(_, _, _) => PasswordServed(cfg, w, r, e);
    case Refresh(_) => RefreshServed(cfg, w, r, e);
    case Logout(_) => LogoutServed(w, r);
    case GoogleLogin(_, _) => GoogleServed(cfg, w, r, e);
    case CompleteProfile(_, _, _) => ProfileServed(cfg, w, r, e);
    case CurrentUser(_) => CurrentUserServed(cfg, w, r);
  }

  /** No outcome of a request that is counted depends on the limiter's windows. */
  lemma WindowsApart(cfg: Config, w: World, w1: World, w': World, r: Request, reply: Reply)
    requires PurposeOf(r).Some? && w1 == w.(windows := w1.windows) && Outcome(cfg, w1, w', r, reply)
    ensures Outcome(cfg, w, w', r, reply)
  {
    hide GoogleOutcome, ProfileOutcome, PasswordOutcome, RefreshOutcome, LogoutOutcome, CurrentUserOutcome,
      StatusOutcome, Find, Mobile.Normalize, Text.TrimSpace, Text.ToLower, LocalPart, Fallback, NewRow, RowRefusal,
      SignupStatus.VerifiedHolder, LoginKey, Has;
  }

  /** Every request of a run is refused by the limiter or has its outcome. */
  lemma EveryRequest(cfg: Config, run: Run, i: nat)
    requires IsRun(cfg, run) && i < |run.inputs| && cfg.Valid()
    ensures
      var w, w', reply := Tick(run.states[i], run.inputs[i].at), run.states[i + 1], run.replies[i];
      if Limited(cfg, run.inputs, i) then reply == Failed(OTPTooManyRequests) && w' == w.(windows := w'.windows)
      else Outcome(cfg, w, w', run.inputs[i].request, reply)
  {
    hide Inv, Grows, Admit, Serve, Tick, Limited, Outcome;
    StepAt(cfg, run, i);
    Admitted(cfg, run, i);
    var input := run.inputs[i];
    var w := Tick(run.states[i], input.at);
    TickKeeps(cfg, run.states[i], input.at);
    AdmitOnlyCounts(cfg, w, input);
    var (w1, ok) := Admit(cfg, w, input);
    if ok {
      LimiterApart(cfg, w, w1);
      Served(cfg, w1, input.request, input.entropy);
      if PurposeOf(input.request).Some? {
        WindowsApart(cfg, w, w1, run.states[i + 1], input.request, run.replies[i]);
      } else {
        AdmitChecks(cfg, w, input);
      }
    }
  }

  /**
    In every run a password login succeeds if and only if name and password are given, the password matches
    and the table has a user of that name with a stored password; the tokens are then that user's. Whatever
    the cache shows, all other well-formed logins get the same error.
    */
  lemma PasswordLoginIff(cfg: Config, run: Run, i: nat)
    requires IsRun(cfg, run) && i < |run.inputs| && cfg.Valid() && run.inputs[i].request.PasswordLogin?
    ensures
      var t, r, reply := run.states[i].tables, run.inputs[i].request, run.replies[i];
      var name := Text.TrimSpace(r.username);
      && (reply.Issued? <==>
            && name != "" && r.password != "" && r.matches
            && exists u :: u in t.users && u.username == name && u.id in t.passwords)
      && (reply.Issued? ==>
            && reply.user in t.users && reply.user.username == name && reply.user.id in t.passwords
            && forall u :: u in t.users && u.username == name ==> u == reply.user)
      && (name != "" && r.password != "" && !reply.Issued? ==> reply == Failed(InvalidCredentials))
      && run.states[i + 1].tables == t
  {
    hide Inv, Step, Tick, Text.TrimSpace;
    EveryRequest(cfg, run, i);
    TickLeaves(run.states[i], run.inputs[i].at);
    var t, reply := run.states[i].tables, run.replies[i];
    assert forall u :: u in t.users && u.id in t.passwords ==> HasPassword(t, u, u.username);
    if reply.Issued? {
      assert HasPassword(t, reply.user, Text.TrimSpace(run.inputs[i].request.username));
      OneOfAName(cfg, run, i, reply.user);
    }
  }

  lemma OneOfAName(cfg: Config, run: Run, i: nat, user: User)
    requires IsRun(cfg, run) && i <= |run.inputs| && user in run.states[i].tables.users
    ensures forall u :: u in run.states[i].tables.users && u.username == user.username ==> u == user
    ensures forall u :: u in run.states[i].tables.users && u.email == user.email ==> u == user
  {
    hide Step;
    Accounts.IdentitiesDistinct(cfg, run, i);
    forall u | u in run.states[i].tables.users && (u.username == user.username || u.email == user.email)
      ensures u == user
    {
      var users := run.states[i].tables.users;
      var p :| 0 <= p < |users| && users[p] == u;
      var q :| 0 <= q < |users| && users[q] == user;
      assert Clash(users[p], users[q]) && Clash(users[q], users[p]);
    }
  }

  /** The user of a Google login and the tables after it, for an identity that no user is linked to. */
  ghost predicate Joins(t: UserTables, t': UserTables, identity: string, user: User) {
    t' == t.(users := t'.users, sso := t.sso + [SSORow(user.id, GOOGLE, identity)])
  }

  /**
    In every run a Google login logs in the linked user and changes no table; without one it links the user
    that has the email, by exactly one row; without either it creates and links an incomplete customer, and
    fails only if the wanted name was found held and its fallback is taken.
    */
  lemma GoogleLoginIff(cfg: Config, run: Run, i: nat)
    requires IsRun(cfg, run) && i < |run.inputs| && cfg.Valid() && run.inputs[i].request.GoogleLogin?
    ensures
      var w, t', r, reply := Tick(run.states[i], run.inputs[i].at), run.states[i + 1].tables, run.inputs[i].request,
        run.replies[i];
      var t, wanted := run.states[i].tables, LocalPart(r.email);
      var fallback := Fallback(wanted, run.inputs[i].at);
      && (forall u :: Linked(t, r.identity, u) ==> reply.Issued? && reply.user == u && t' == t)
      && ((forall u :: !Linked(t, r.identity, u)) ==>
            && (forall u :: u in t.users && u.email == r.email ==>
                  reply.Issued? && reply.user == u && t'.users == t.users && Joins(t, t', r.identity, u))
            && ((forall u :: u in t.users ==> u.email != r.email) ==>
                  if NameBorne(w, wanted) && Has(t.users, ByUsername, fallback) then
                    reply == Failed(DuplicateKey) && t' == t
                  else
                    && reply.Issued?
                    && reply.user == Newcomer(if NameBorne(w, wanted) then fallback else wanted, r.email)
                                       .(id := |t.users| + 1)
                    && t'.users == t.users + [reply.user] && Joins(t, t', r.identity, reply.user)))
  {
    hide Inv, Grows, Step, LiveCache, LivePending, LiveLogins, LiveSessions, LiveWindows, LocalPart, Fallback, Linked;
    EveryRequest(cfg, run, i);
    TickLeaves(run.states[i], run.inputs[i].at);
    Reachable(cfg, run, i);
    var t, r, reply := run.states[i].tables, run.inputs[i].request, run.replies[i];
    forall u | Linked(t, r.identity, u) && reply.Issued? && Linked(t, r.identity, reply.user) ensures u == reply.user {
      OneLinked(cfg, run.states[i], r.identity, u, reply.user);
    }
    if reply.Issued? && reply.user in t.users { OneOfAName(cfg, run, i, reply.user); }
  }

  lemma OneLinked(cfg: Config, w: World, identity: string, u: User, v: User)
    requires Inv(cfg, w) && Linked(w.tables, identity, u) && Linked(w.tables, identity, v)
    ensures u == v
  {
    hide CacheOk, PendingOk, SessionsOk, MintedOk, VouchedOk;
    FoundIsKnown(w.tables.users, u);
    FoundIsKnown(w.tables.users, v);
  }

  /** The wanted name is what stands before the first '@' of the email, if there is one. */
  lemma {:induction false} LocalPartMeans(email: string)
    ensures '@' in email ==> '@' !in LocalPart(email) && LocalPart(email) + "@" <= email
    ensures '@' !in email ==> LocalPart(email) == ""
  {
    if '@' in email && email[0] != '@' {
      assert email == [email[0]] + email[1..];
      LocalPartMeans(email[1..]);
    }
  }
}
