/**
  The authentication service as a state machine over ideal stores: one step serves one
  request at one clock reading, and an entry of a store is gone once its expiry has passed.
  The classes in Service.dfy run the same requests over the memory or the Redis stores and are
  proved to answer as this machine does.
  */
module Machine {
  import opened Text
  import opened Auth
  import opened Tables
  import Mobile

  /** What was sent to, or confirmed for, a mobile number. */
  datatype Message =
    | SignupSent(mobile: string, at: Time, first: bool)   // first: by a signup request, not a resend
    | LoginSent(mobile: string, at: Time)
    | SignupApproved(mobile: string, at: Time)
    | LoginApproved(mobile: string, at: Time)
    | Registered(user: User, at: Time)

  datatype Source = BySignup | ByOTP | ByPassword | ByRefresh | ByGoogle | ByProfile

  /** A token pair that was handed out, and the user record it was made from. */
  datatype Mint = Mint(user: User, tokens: TokenPair, source: Source)

  datatype World = World(
    clock: Time,
    tables: UserTables,
    cache: map<string, CachedUser>,           // by username
    pending: map<string, PendingSignup>,      // by mobile
    logins: map<string, OTPRequestState>,     // by state key
    sessions: map<string, RefreshSession>,    // by refresh token
    windows: map<string, RateLimitWindow>,    // by rate-limit key
    // history
    messages: seq<Message>,
    minted: seq<Mint>,
    roots: map<string, string>)               // the login each refresh token descends from

  const INITIAL := World(1, EMPTY, map[], map[], map[], map[], map[], [], [], map[])

  // ---- Time ----

  function LiveCache(m: map<string, CachedUser>, now: Time): map<string, CachedUser> {
    map k | k in m && now <= m[k].expiresAt :: m[k]
  }

  function LivePending(m: map<string, PendingSignup>, now: Time): map<string, PendingSignup> {
    map k | k in m && now <= m[k].expiresAt :: m[k]
  }

  function LiveLogins(m: map<string, OTPRequestState>, now: Time): map<string, OTPRequestState> {
    map k | k in m && now <= m[k].expiresAt :: m[k]
  }

  function LiveSessions(m: map<string, RefreshSession>, now: Time): map<string, RefreshSession> {
    map k | k in m && now <= m[k].expiresAt :: m[k]
  }

  function LiveWindows(m: map<string, RateLimitWindow>, now: Time): map<string, RateLimitWindow> {
    map k | k in m && now <= m[k].expiresAt :: m[k]
  }

  /** The clock moves on and what expired before now is gone. */
  function Tick(w: World, now: Time): World {
    w.(clock := now,
       cache := LiveCache(w.cache, now),
       pending := LivePending(w.pending, now),
       logins := LiveLogins(w.logins, now),
       sessions := LiveSessions(w.sessions, now),
       windows := LiveWindows(w.windows, now))
  }

  // ---- The cached user repository ----

  function Remember(cfg: Config, w: World, user: User): World {
    if cfg.cacheTTL.None? then w
    else w.(cache := w.cache[user.username := CachedUser(user, w.clock + cfg.cacheTTL.value)])
  }

  /** A write-through read by a column that is not the cache key. */
  function Lookup(cfg: Config, w: World, col: Column, key: string): (World, Option<User>) {
    match Find(w.tables.users, col, key)
    case None => (w, None)
    case Some(user) => (Remember(cfg, w, user), Some(user))
  }

  /** The read-through lookup: a cached record is returned without asking the database. */
  function LookupUsername(cfg: Config, w: World, username: string): (World, Option<User>) {
    if cfg.cacheTTL.Some? && username in w.cache then (w, Some(w.cache[username].user))
    else Lookup(cfg, w, ByUsername, username)
  }

  // ---- Tokens ----

  /** IssueTokenPair, for a login or (with a parent) for a redeemed refresh token. */
  function Issue(cfg: Config, w: World, user: User, e: Entropy, source: Source, parent: Option<string>):
    (World, Reply) {
    var (pair, session) := GenerateTokenPair(cfg, w.clock, user, e);
    if session.expiresAt - w.clock <= 0 then (w, Failed(TokenExpired))
    else
      var token := pair.refreshToken;
      var root := if parent.Some? && parent.value in w.roots then w.roots[parent.value] else token;
      (w.(sessions := w.sessions[token := session],
          minted := w.minted + [Mint(user, pair, source)],
          roots := w.roots[token := root]),
       Issued(user, pair))
  }

  // ---- Signup ----

  datatype SignupForm = SignupForm(username: string, email: string, mobile: string)

  function NormalizeSignup(cfg: Config, username: string, password: string, email: string, mobile: string):
    Result<SignupForm> {
    var username, email := TrimSpace(username), ToLower(TrimSpace(email));
    if username == "" then Err(InvalidUsername)
    else if password == "" then Err(InvalidPassword)
    else if email == "" then Err(InvalidEmail)
    else match Mobile.Normalize(mobile, cfg.wideDigits)
      case Err(e) => Err(e)
      case Ok(m) => Ok(SignupForm(username, email, m))
  }

  /** The error for a request that collides with a live pending signup. */
  function PendingConflict(p: PendingSignup, form: SignupForm): Error {
    if p.mobile == form.mobile && p.username == form.username && p.email == form.email then SignupVerificationPending
    else if p.username == form.username then UsernameAlreadyExists
    else if p.email == form.email then EmailAlreadyExists
    else if p.mobile == form.mobile then MobileAlreadyExists
    else SignupVerificationPending
  }

  predicate PendingHolds(p: PendingSignup, col: Column, key: string) {
    match col case ByUsername => p.username == key case ByEmail => p.email == key case ByMobile => p.mobile == key
  }

  /** Some live pending signup with the given value in a column. */
  ghost function FindPending(pending: map<string, PendingSignup>, col: Column, key: string): (r: Option<PendingSignup>)
    ensures r.Some? ==> r.value in pending.Values && PendingHolds(r.value, col, key)
    ensures r.None? ==> forall m :: m in pending ==> !PendingHolds(pending[m], col, key)
  {
    if m :| m in pending && PendingHolds(pending[m], col, key) then Some(pending[m]) else None
  }

  /** ensureSignupAvailability: users first, then pending signups, each by username, email, mobile. */
  ghost function Availability(cfg: Config, w: World, form: SignupForm): (World, Option<Error>) {
    var (w1, byName) := LookupUsername(cfg, w, form.username);
    if byName.Some? && byName.value.id != 0 then (w1, Some(UsernameAlreadyExists)) else
    var (w2, byEmail) := Lookup(cfg, w1, ByEmail, form.email);
    if byEmail.Some? && byEmail.value.id != 0 then (w2, Some(EmailAlreadyExists)) else
    var (w3, byMobile) := Lookup(cfg, w2, ByMobile, form.mobile);
    if byMobile.Some? && byMobile.value.id != 0 then (w3, Some(MobileAlreadyExists)) else
    (w3, PendingAvailability(w3.pending, form))
  }

  ghost function PendingAvailability(pending: map<string, PendingSignup>, form: SignupForm): Option<Error> {
    var byName := FindPending(pending, ByUsername, form.username);
    if byName.Some? then Some(PendingConflict(byName.value, form)) else
    var byEmail := FindPending(pending, ByEmail, form.email);
    if byEmail.Some? then Some(PendingConflict(byEmail.value, form)) else
    var byMobile := FindPending(pending, ByMobile, form.mobile);
    if byMobile.Some? then Some(PendingConflict(byMobile.value, form)) else
    None
  }

  /** Save on an ideal pending store. */
  function SavePending(w: World, p: PendingSignup): (World, Reply) {
    if p.expiresAt - w.clock <= 0 then (w, Failed(PendingSignupExpired))
    else (w.(pending := w.pending[p.mobile := p]), Accepted)
  }

  ghost function DoRequestSignup(cfg: Config, w: World, r: Request): (World, Reply)
    requires r.RequestSignup?
  {
    match NormalizeSignup(cfg, r.username, r.password, r.email, r.mobile)
    case Err(e) => (w, Failed(e))
    case Ok(form) =>
      var (w1, conflict) := Availability(cfg, w, form);
      if conflict.Some? then (w1, Failed(conflict.value))
      else SendSignup(cfg, w1, form, r.hash, r.sent)
  }

  /** An available signup: hash the password, send the code, save the record. */
  function SendSignup(cfg: Config, w: World, form: SignupForm, hash: Option<string>, sent: bool): (World, Reply) {
    if hash.None? then (w, Failed(HashFailed))
    else if !sent then (w, Failed(ProviderFailed))
    else
      SavePending(w.(messages := w.messages + [SignupSent(form.mobile, w.clock, true)]),
                  PendingSignup(form.username, hash.value, form.email, form.mobile, 0, w.clock,
                                w.clock + cfg.pendingSignupTTL))
  }

  function NewUser(p: PendingSignup): User {
    User(0, p.username, p.email, p.mobile, true, ROLE_CUSTOMER, true)
  }

  function DoVerifySignup(cfg: Config, w: World, r: Request, e: Entropy): (World, Reply)
    requires r.VerifySignup?
  {
    match Mobile.Normalize(r.mobile, cfg.wideDigits)
    case Err(err) => (w, Failed(err))
    case Ok(mobile) =>
      if TrimSpace(r.code) == "" then (w, Failed(InvalidOTPCode))
      else if mobile !in w.pending then (w, Failed(PendingSignupExpired))
      else if r.verdict.Unreachable? then (w, Failed(ProviderFailed))
      else if r.verdict.Rejected? then (w, Failed(InvalidOTPCode))
      else FinishSignup(cfg, w, mobile, w.pending[mobile], e)
  }

  /** An approved code: the user is created, then the pending record goes, then tokens are issued. */
  function FinishSignup(cfg: Config, w: World, mobile: string, p: PendingSignup, e: Entropy): (World, Reply) {
    var w1 := w.(messages := w.messages + [SignupApproved(mobile, w.clock)]);
    match Register(w1.tables, NewUser(p), p.passwordHash)
    case Err(err) => (w1, Failed(err))
    case Ok((t, user)) =>
      var w2 := Remember(cfg, w1.(tables := t, messages := w1.messages + [Registered(user, w.clock)]), user);
      Issue(cfg, w2.(pending := w2.pending - {mobile}), user, e, BySignup, None)
  }

  /** validateResendWindow. */
  function ResendError(cfg: Config, now: Time, lastSentAt: Time, resendCount: nat): Option<Error> {
    if cfg.maxResends > 0 && resendCount >= cfg.maxResends then Some(OTPResendLimitReached)
    else if lastSentAt != 0 && cfg.resendCooldown > 0 && now - lastSentAt < cfg.resendCooldown
      then Some(OTPResendTooSoon)
    else None
  }

  function DoResendSignup(cfg: Config, w: World, r: Request): (World, Reply)
    requires r.ResendSignup?
  {
    match Mobile.Normalize(r.mobile, cfg.wideDigits)
    case Err(err) => (w, Failed(err))
    case Ok(mobile) =>
      if mobile !in w.pending then (w, Failed(PendingSignupExpired))
      else ResendPending(cfg, w, mobile, w.pending[mobile], r.sent)
  }

  function ResendPending(cfg: Config, w: World, mobile: string, p: PendingSignup, sent: bool): (World, Reply) {
    var refused := ResendError(cfg, w.clock, p.lastSentAt, p.resendCount);
    if refused.Some? then (w, Failed(refused.value))
    else if !sent then (w, Failed(ProviderFailed))
    else
      SavePending(w.(messages := w.messages + [SignupSent(mobile, w.clock, false)]),
                  p.(resendCount := p.resendCount + 1, lastSentAt := w.clock))
  }

  /** The status of a normalised mobile number. */
  function StatusOf(w: World, mobile: string): string {
    if mobile in w.pending && w.clock < w.pending[mobile].expiresAt then "pending"
    else
      var user := Find(w.tables.users, ByMobile, mobile);
      if user.Some? && user.value.mobileVerified then "completed" else "expired"
  }

  function DoSignupStatus(cfg: Config, w: World, r: Request): (World, Reply)
    requires r.SignupStatus?
  {
    match Mobile.Normalize(r.mobile, cfg.wideDigits)
    case Err(err) => (w, Failed(err))
    case Ok(mobile) =>
      var text := StatusOf(w, mobile);
      (if text == "pending" then w else Lookup(cfg, w, ByMobile, mobile).0, Status(text))
  }

  // ---- Login by OTP ----

  function LoginKey(mobile: string): string { "login:" + mobile }

  /** RequestLoginOTP; an ineligible or throttled number gets the same answer as an eligible one. */
  function DoRequestLogin(cfg: Config, w: World, r: Request): (World, Reply)
    requires r.RequestLogin?
  {
    match Mobile.Normalize(r.mobile, cfg.wideDigits)
    case Err(err) => (w, Accepted)
    case Ok(mobile) =>
      var (w1, user) := Lookup(cfg, w, ByMobile, mobile);
      if user.None? || !user.value.mobileVerified then (w1, Accepted)
      else SendLogin(cfg, w1, mobile, r.sent)
  }

  /** The throttled send to the verified holder of a number. */
  function SendLogin(cfg: Config, w: World, mobile: string, sent: bool): (World, Reply) {
    var key := LoginKey(mobile);
    var known := key in w.logins;
    if known && ResendError(cfg, w.clock, w.logins[key].lastSentAt, w.logins[key].resendCount).Some? then (w, Accepted)
    else if !sent then (w, Failed(ProviderFailed))
    else
      var w1 := w.(messages := w.messages + [LoginSent(mobile, w.clock)]);
      var count := if known then w.logins[key].resendCount + 1 else 0;
      var state := OTPRequestState(mobile, count, w.clock, w.clock + cfg.pendingSignupTTL);
      if state.expiresAt - w.clock <= 0 then (w1, Failed(TokenExpired))
      else (w1.(logins := w1.logins[key := state]), Accepted)
  }

  function DoVerifyLogin(cfg: Config, w: World, r: Request, e: Entropy): (World, Reply)
    requires r.VerifyLogin?
  {
    match Mobile.Normalize(r.mobile, cfg.wideDigits)
    case Err(err) => (w, Failed(InvalidCredentials))
    case Ok(mobile) =>
      if TrimSpace(r.code) == "" then (w, Failed(InvalidOTPCode)) else
      var (w1, user) := Lookup(cfg, w, ByMobile, mobile);
      if user.None? then (w1, Failed(InvalidCredentials))
      else if !user.value.mobileVerified then (w1, Failed(MobileNotVerified))
      else if r.verdict.Unreachable? then (w1, Failed(ProviderFailed))
      else if r.verdict.Rejected? then (w1, Failed(InvalidOTPCode))
      else
        Issue(cfg,
          w1.(messages := w1.messages + [LoginApproved(mobile, w1.clock)], logins := w1.logins - {LoginKey(mobile)}),
              user.value, e, ByOTP, None)
  }

  // ---- Sessions ----

  function DoPasswordLogin(cfg: Config, w: World, r: Request, e: Entropy): (World, Reply)
    requires r.PasswordLogin?
  {
    var username := TrimSpace(r.username);
    if username == "" then (w, Failed(InvalidUsername))
    else if r.password == "" then (w, Failed(InvalidPassword))
    else
      var (w1, user) := LookupUsername(cfg, w, username);
      if user.None? || user.value.id !in w1.tables.passwords || !r.matches then (w1, Failed(InvalidCredentials))
      else Issue(cfg, w1, user.value, e, ByPassword, None)
  }

  /** Refresh; the user is looked up by the session's username, not by its id. */
  function DoRefresh(cfg: Config, w: World, r: Request, e: Entropy): (World, Reply)
    requires r.Refresh?
  {
    var token := TrimSpace(r.token);
    if token == "" || token !in w.sessions then (w, Failed(InvalidRefreshToken))
    else
      var (w1, user) := LookupUsername(cfg, w, w.sessions[token].username);
      if user.None? then (w1, Failed(UserNotFound))
      else Issue(cfg, w1.(sessions := w1.sessions - {token}), user.value, e, ByRefresh, Some(token))
  }

  function DoLogout(w: World, r: Request): (World, Reply)
    requires r.Logout?
  {
    var token := TrimSpace(r.token);
    if token == "" then (w, Failed(InvalidRefreshToken))
    else (w.(sessions := w.sessions - {token}), Accepted)
  }

  function DoCurrentUser(cfg: Config, w: World, r: Request): (World, Reply)
    requires r.CurrentUser?
  {
    var (w1, user) := LookupUsername(cfg, w, TrimSpace(r.username));
    (w1, if user.Some? then Profile(user.value) else Failed(UserNotFound))
  }

  // ---- Google sign-on and profile completion ----

  const GOOGLE := "google"

  /** The part of an email before its first '@'; "" if there is none. */
  function LocalPart(email: string): string {
    if '@' in email then UpToAt(email) else ""
  }

  function UpToAt(s: string): string {
    if s == "" || s[0] == '@' then "" else [s[0]] + UpToAt(s[1..])
  }

  /** Seconds since 1970, as time.Unix; clock readings are positive. */
  function UnixSeconds(now: Time): nat {
    if now < 0 then 0 else now / 1_000_000_000
  }

  function Fallback(username: string, now: Time): string {
    username + "_" + Decimal(UnixSeconds(now) % 1000)
  }

  function Newcomer(username: string, email: string): User {
    User(0, username, email, "", false, ROLE_CUSTOMER, false)
  }

  /** A new user of an identity, under the wanted name or, if that is found held, under a fallback. */
  function CreateGoogle(cfg: Config, w: World, identity: string, email: string): (World, Result<User>) {
    var (w1, holder) := LookupUsername(cfg, w, LocalPart(email));
    var username := if holder.Some? then Fallback(LocalPart(email), w1.clock) else LocalPart(email);
    match CreateSSOUser(w1.tables, Newcomer(username, email), GOOGLE, identity)
    case Err(err) => (w1, Err(err))
    case Ok((t, user)) => (Remember(cfg, w1.(tables := t), user), Ok(user))
  }

  /** The user of a resolved identity: already linked, linked by email, or created. */
  function ResolveGoogle(cfg: Config, w: World, identity: string, email: string): (World, Result<User>) {
    var linked := FindSSO(w.tables, GOOGLE, identity);
    if linked.Some? then (w, Ok(linked.value)) else
    var (w1, byEmail) := Lookup(cfg, w, ByEmail, email);
    if byEmail.Some? then
      (w1.(tables := Link(w1.tables, byEmail.value.id, GOOGLE, identity)), Ok(byEmail.value))
    else
      CreateGoogle(cfg, w1, identity, email)
  }

  /** GoogleLogin once the identity is resolved: all paths end with tokens for the identity's user. */
  function DoGoogleLogin(cfg: Config, w: World, r: Request, e: Entropy): (World, Reply)
    requires r.GoogleLogin?
  {
    var (w1, user) := ResolveGoogle(cfg, w, r.identity, r.email);
    if user.Err? then (w1, Failed(user.error)) else Issue(cfg, w1, user.value, e, ByGoogle, None)
  }

  function WriteProfile(cfg: Config, w: World, user: User, e: Entropy): (World, Reply) {
    match Update(w.tables, user)
    case None => (w, Failed(DuplicateKey))
    case Some(t) => Issue(cfg, w.(tables := t, cache := w.cache - {user.username}), user, e, ByProfile, None)
  }

  function DoCompleteProfile(cfg: Config, w: World, r: Request, e: Entropy): (World, Reply)
    requires r.CompleteProfile?
  {
    var found := ByID(w.tables.users, r.userID);
    if found.None? then (w, Failed(UserNotFound))
    else if found.value.profileComplete then (w, Failed(ProfileAlreadyComplete))
    else
      var username := TrimSpace(r.username);
      if username == "" then (w, Failed(InvalidUsername)) else
      match Mobile.Normalize(r.mobile, cfg.wideDigits)
      case Err(err) => (w, Failed(err))
      case Ok(mobile) =>
        var (w1, byName) := LookupUsername(cfg, w, username);
        if byName.Some? && byName.value.id != r.userID then (w1, Failed(UsernameAlreadyExists)) else
        var (w2, byMobile) := Lookup(cfg, w1, ByMobile, mobile);
        if byMobile.Some? && byMobile.value.id != r.userID then (w2, Failed(MobileAlreadyExists)) else
        WriteProfile(cfg, w2, found.value.(username := username, mobile := mobile, profileComplete := true), e)
  }

  // ---- The handler ----

  /** RateLimiter.Allow on a map whose windows vanish at expiry. */
  function Allow(windows: map<string, RateLimitWindow>, now: Time, key: string, rule: RateLimitRule):
    (map<string, RateLimitWindow>, bool)
  {
    if !rule.Enabled() then (windows, true)
    else
      var window := if key in windows then windows[key] else RateLimitWindow(0, now + rule.window);
      var counted := window.(count := window.count + 1);
      (windows[key := counted], counted.count <= rule.limit)
  }

  function IPKey(action: string, ip: string): string { "otp:" + action + ":ip:" + ip }

  function MobileKey(action: string, mobile: string): string { "otp:" + action + ":mobile:" + mobile }

  /** enforceRateLimit: the address first, then the normalised number if there is one. */
  function Enforce(cfg: Config, w: World, action: string, ip: string, mobile: string,
                   ipRule: RateLimitRule, mobileRule: RateLimitRule): (World, bool)
  {
    var (windows1, ok1) := Allow(w.windows, w.clock, IPKey(action, ip), ipRule);
    var w1 := w.(windows := windows1);
    if !ok1 then (w1, false)
    else match Mobile.Normalize(mobile, cfg.wideDigits)
      case Err(_) => (w1, true)
      case Ok(m) =>
        var (windows2, ok2) := Allow(windows1, w.clock, MobileKey(action, m), mobileRule);
        (w.(windows := windows2), ok2)
  }

  /** The limit check that precedes a request: OTP requests and OTP verifications have one. */
  function Admit(cfg: Config, w: World, input: Input): (World, bool) {
    match input.request
    case RequestSignup(_, _, _, mobile, _, _) =>
      Enforce(cfg, w, "request", input.ip, mobile, cfg.requestIP, cfg.requestMobile)
    case ResendSignup(mobile, _) => Enforce(cfg, w, "request", input.ip, mobile, cfg.requestIP, cfg.requestMobile)
    case RequestLogin(mobile, _) => Enforce(cfg, w, "request", input.ip, mobile, cfg.requestIP, cfg.requestMobile)
    case VerifySignup(mobile, _, _) => Enforce(cfg, w, "verify", input.ip, mobile, cfg.verifyIP, cfg.verifyMobile)
    case VerifyLogin(mobile, _, _) => Enforce(cfg, w, "verify", input.ip, mobile, cfg.verifyIP, cfg.verifyMobile)
    case _ => (w, true)
  }

  /** The service method behind a request. */
  ghost function Serve(cfg: Config, w: World, r: Request, e: Entropy): (World, Reply) {
    match r
    case RequestSignup(_, _, _, _, _, _) => DoRequestSignup(cfg, w, r)
    case VerifySignup(_, _, _) => DoVerifySignup(cfg, w, r, e)
    case ResendSignup(_, _) => DoResendSignup(cfg, w, r)
    case SignupStatus(_) => DoSignupStatus(cfg, w, r)
    case RequestLogin(_, _) => DoRequestLogin(cfg, w, r)
    case VerifyLogin(_, _, _) => DoVerifyLogin(cfg, w, r, e)
    case PasswordLogin(_, _, _) => DoPasswordLogin(cfg, w, r, e)
    case Refresh(_) => DoRefresh(cfg, w, r, e)
    case Logout(_) => DoLogout(w, r)
    case GoogleLogin(_, _) => DoGoogleLogin(cfg, w, r, e)
    case CompleteProfile(_, _, _) => DoCompleteProfile(cfg, w, r, e)
    case CurrentUser(_) => DoCurrentUser(cfg, w, r)
  }

  ghost function Step(cfg: Config, w: World, input: Input): (World, Reply) {
    var (w1, ok) := Admit(cfg, Tick(w, input.at), input);
    if !ok then (w1, Failed(OTPTooManyRequests)) else Serve(cfg, w1, input.request, input.entropy)
  }

  // ---- Runs ----

  function TokenOf(e: Entropy): string { e.tokenID + "." + e.raw }

  /** The clock does not run backwards and no refresh token is drawn twice. */
  predicate Possible(w: World, input: Input) {
    w.clock <= input.at && TokenOf(input.entropy) !in w.roots
  }

  /** Requests, the replies to them, and the states before and after each. */
  datatype Run = Run(inputs: seq<Input>, states: seq<World>, replies: seq<Reply>) {
    predicate Shaped() { |states| == |inputs| + 1 && |replies| == |inputs| }
  }

  ghost predicate Follows(cfg: Config, run: Run, i: nat)
    requires run.Shaped() && i < |run.inputs|
  {
    && Possible(run.states[i], run.inputs[i])
    && (run.states[i + 1], run.replies[i]) == Step(cfg, run.states[i], run.inputs[i])
  }

  /** A run of a service that started empty. */
  ghost predicate IsRun(cfg: Config, run: Run) {
    && run.Shaped() && run.states[0] == INITIAL
    && forall i :: 0 <= i < |run.inputs| ==> Follows(cfg, run, i)
  }

  /** The state after a sequence of any requests, and the reply to one of them. */
  ghost function After(cfg: Config, inputs: seq<Input>): World {
    if inputs == [] then INITIAL
    else Step(cfg, After(cfg, inputs[..|inputs| - 1]), inputs[|inputs| - 1]).0
  }

  ghost function ReplyAt(cfg: Config, inputs: seq<Input>, i: nat): Reply
    requires i < |inputs|
  {
    Step(cfg, After(cfg, inputs[..i]), inputs[i]).1
  }

  /** A run is determined by its requests. */
  lemma {:induction false} RunIsDetermined(cfg: Config, run: Run, i: nat)
    requires IsRun(cfg, run) && i <= |run.inputs|
    ensures run.states[i] == After(cfg, run.inputs[..i])
    ensures forall k :: 0 <= k < i ==> run.replies[k] == ReplyAt(cfg, run.inputs, k)
  {
    hide Step;
    if i > 0 {
      RunIsDetermined(cfg, run, i - 1);
      assert Follows(cfg, run, i - 1);
      assert run.inputs[..i][..i - 1] == run.inputs[..i - 1];
    }
  }

  /** One more request. */
  lemma Extend(cfg: Config, run: Run, input: Input) returns (longer: Run)
    requires IsRun(cfg, run) && Possible(run.states[|run.inputs|], input)
    ensures IsRun(cfg, longer) && longer.inputs == run.inputs + [input]
    ensures
      var (w, reply) := Step(cfg, run.states[|run.inputs|], input);
      longer.states == run.states + [w] && longer.replies == run.replies + [reply]
  {
    hide Step, Possible;
    var (w, reply) := Step(cfg, run.states[|run.inputs|], input);
    longer := Run(run.inputs + [input], run.states + [w], run.replies + [reply]);
    forall i | 0 <= i < |longer.inputs| ensures Follows(cfg, longer, i) {
      if i < |run.inputs| { assert Follows(cfg, run, i); }
    }
  }

  /** Requests make a run exactly if each is possible when it comes. */
  lemma RunExists(cfg: Config, inputs: seq<Input>) returns (run: Run)
    ensures run.inputs == inputs
    ensures IsRun(cfg, run) <==> forall i :: 0 <= i < |inputs| ==> Possible(After(cfg, inputs[..i]), inputs[i])
  {
    hide Step, Possible;
    run := Run(inputs,
               seq(|inputs| + 1, i requires 0 <= i <= |inputs| => After(cfg, inputs[..i])),
               seq(|inputs|, i requires 0 <= i < |inputs| => ReplyAt(cfg, inputs, i)));
    forall i | 0 <= i < |inputs| ensures Follows(cfg, run, i) <==> Possible(After(cfg, inputs[..i]), inputs[i]) {
      assert inputs[..i + 1][..i] == inputs[..i];
    }
  }
}
