/** What each request does to the OTP traffic: the messages, the pending signups and the login states. */
module OTPEffects {
  import opened Auth
  import opened Tables
  import opened Machine
  import opened Invariants
  import Mobile
  import Text

  /** Nothing that bears on OTP traffic changed. */
  ghost predicate Quiet(a: World, b: World) {
    b.messages == a.messages && b.pending == a.pending && b.logins == a.logins
  }

  ghost predicate FirstSend(cfg: Config, a: World, b: World, m: string) {
    && m !in a.pending && b.logins == a.logins
    && b.messages == a.messages + [SignupSent(m, a.clock, true)]
    && m in b.pending && b.pending == a.pending[m := b.pending[m]]
    && b.pending[m].resendCount == 0 && b.pending[m].lastSentAt == a.clock
    && b.pending[m].expiresAt == a.clock + cfg.pendingSignupTTL
  }

  ghost predicate Resend(cfg: Config, a: World, b: World, m: string) {
    && m in a.pending && b.logins == a.logins
    && b.messages == a.messages + [SignupSent(m, a.clock, false)]
    && var p := a.pending[m];
    && ResendError(cfg, a.clock, p.lastSentAt, p.resendCount).None?
    && b.pending == if a.clock < p.expiresAt
                    then a.pending[m := p.(resendCount := p.resendCount + 1, lastSentAt := a.clock)]
                    else a.pending
  }

  ghost predicate SignupVerified(a: World, b: World, m: string) {
    && b.logins == a.logins
    && (|| (b.messages == a.messages + [SignupApproved(m, a.clock)] && b.pending == a.pending)
        || exists u :: (b.messages == a.messages + [SignupApproved(m, a.clock), Registered(u, a.clock)]
                        && b.pending == a.pending - {m}))
  }

  ghost predicate LoginSend(cfg: Config, a: World, b: World, m: string) {
    && b.pending == a.pending
    && b.messages == a.messages + [LoginSent(m, a.clock)]
    && var key := LoginKey(m);
    && (key in a.logins ==> ResendError(cfg, a.clock, a.logins[key].lastSentAt, a.logins[key].resendCount).None?)
    && b.logins == a.logins[key := OTPRequestState(m, if key in a.logins then a.logins[key].resendCount + 1 else 0,
                                                   a.clock, a.clock + cfg.pendingSignupTTL)]
  }

  ghost predicate LoginVerified(a: World, b: World, m: string) {
    && b.pending == a.pending
    && b.messages == a.messages + [LoginApproved(m, a.clock)]
    && b.logins == a.logins - {LoginKey(m)}
  }

  /** The normalised number an OTP request is about; "" if it has none. */
  function Number(cfg: Config, r: Request): string {
    if r.RequestSignup? || r.VerifySignup? || r.ResendSignup? || r.RequestLogin? || r.VerifyLogin? then
      match Mobile.Normalize(r.mobile, cfg.wideDigits)
      case Ok(m) => m
      case Err(_) => ""
    else ""
  }

  ghost predicate Effect(cfg: Config, a: World, b: World, r: Request) {
    && b.clock == a.clock && b.windows == a.windows
    && (|| Quiet(a, b)
        || (Number(cfg, r) != "" &&
            match r
            case RequestSignup(_, _, _, _, _, _) => FirstSend(cfg, a, b, Number(cfg, r))
            case ResendSignup(_, _) => Resend(cfg, a, b, Number(cfg, r))
            case VerifySignup(_, _, _) => SignupVerified(a, b, Number(cfg, r))
            case RequestLogin(_, _) => LoginSend(cfg, a, b, Number(cfg, r))
            case VerifyLogin(_, _, _) => LoginVerified(a, b, Number(cfg, r))
            case _ => false))
  }

  lemma RequestSignupEffect(cfg: Config, w: World, r: Request)
    requires Inv(cfg, w) && cfg.Valid() && r.RequestSignup?
    ensures Effect(cfg, w, DoRequestSignup(cfg, w, r).0, r)
  {
    hide Inv, Grows, Availability, Available, Mobile.Normalize;
    var f := NormalizeSignup(cfg, r.username, r.password, r.email, r.mobile);
    if f.Ok? {
      AvailabilityKeeps(cfg, w, f.value);
      if Availability(cfg, w, f.value).1.None? {
        AvailabilityMeans(cfg, w, f.value);
        NotPending(cfg, w, f.value);
      }
    }
  }

  lemma ResendSignupEffect(cfg: Config, w: World, r: Request)
    requires Inv(cfg, w) && r.ResendSignup?
    ensures Effect(cfg, w, DoResendSignup(cfg, w, r).0, r)
  {
    hide Inv, ResendError, Mobile.Normalize;
    var f := Mobile.Normalize(r.mobile, cfg.wideDigits);
    if f.Ok? && f.value in w.pending { KeyedByMobile(cfg, w, f.value); }
  }

  lemma VerifySignupEffect(cfg: Config, w: World, r: Request, e: Entropy)
    requires r.VerifySignup?
    ensures Effect(cfg, w, DoVerifySignup(cfg, w, r, e).0, r)
  {
    hide Mobile.Normalize, Text.TrimSpace, Issue, Register;
    var f := Mobile.Normalize(r.mobile, cfg.wideDigits);
    if f.Ok? && f.value in w.pending {
      var m := f.value;
      var p := w.pending[m];
      var w1 := w.(messages := w.messages + [SignupApproved(m, w.clock)]);
      if Register(w1.tables, NewUser(p), p.passwordHash).Ok? {
        var (t, user) := Register(w1.tables, NewUser(p), p.passwordHash).value;
        var w2 := Remember(cfg, w1.(tables := t, messages := w1.messages + [Registered(user, w.clock)]), user);
        assert w2.messages == w.messages + [SignupApproved(m, w.clock), Registered(user, w.clock)];
        IssueLeaves(cfg, w2.(pending := w2.pending - {m}), user, e, BySignup, None);
      }
    }
  }

  lemma RequestLoginEffect(cfg: Config, w: World, r: Request)
    requires cfg.Valid() && r.RequestLogin?
    ensures Effect(cfg, w, DoRequestLogin(cfg, w, r).0, r)
  {
    hide Mobile.Normalize, Lookup, ResendError;
    var f := Mobile.Normalize(r.mobile, cfg.wideDigits);
    if f.Ok? { LookupLeaves(cfg, w, ByMobile, f.value); }
  }

  lemma VerifyLoginEffect(cfg: Config, w: World, r: Request, e: Entropy)
    requires r.VerifyLogin?
    ensures Effect(cfg, w, DoVerifyLogin(cfg, w, r, e).0, r)
  {
    hide Mobile.Normalize, Text.TrimSpace, Lookup, Issue;
    var f := Mobile.Normalize(r.mobile, cfg.wideDigits);
    if f.Ok? {
      LookupLeaves(cfg, w, ByMobile, f.value);
      var (w1, user) := Lookup(cfg, w, ByMobile, f.value);
      if user.Some? {
        IssueLeaves(cfg,
          w1.(messages := w1.messages + [LoginApproved(f.value, w1.clock)], logins := w1.logins - {LoginKey(f.value)}),
                   user.value, e, ByOTP, None);
      }
    }
  }

  lemma GoogleQuiet(cfg: Config, w: World, r: Request, e: Entropy)
    requires r.GoogleLogin?
    ensures Effect(cfg, w, DoGoogleLogin(cfg, w, r, e).0, r)
  {
    hide Issue, ResolveGoogle, FirstSend, Resend, SignupVerified, LoginSend, LoginVerified, Number;
    ResolveLeaves(cfg, w, r.identity, r.email);
    var (w1, user) := ResolveGoogle(cfg, w, r.identity, r.email);
    if user.Ok? { IssueLeaves(cfg, w1, user.value, e, ByGoogle, None); }
  }

  lemma ProfileQuiet(cfg: Config, w: World, r: Request, e: Entropy)
    requires r.CompleteProfile?
    ensures Effect(cfg, w, DoCompleteProfile(cfg, w, r, e).0, r)
  {
    hide Find, Lookup, LookupUsername, Text.TrimSpace, Mobile.Normalize, Update, Issue;
    var found := ByID(w.tables.users, r.userID);
    var username := Text.TrimSpace(r.username);
    var f := Mobile.Normalize(r.mobile, cfg.wideDigits);
    if found.Some? && f.Ok? {
      LookupUsernameLeaves(cfg, w, username);
      var w1 := LookupUsername(cfg, w, username).0;
      LookupLeaves(cfg, w1, ByMobile, f.value);
      var w2 := Lookup(cfg, w1, ByMobile, f.value).0;
      var user := found.value.(username := username, mobile := f.value, profileComplete := true);
      if Update(w2.tables, user).Some? {
        IssueLeaves(cfg, w2.(tables := Update(w2.tables, user).value, cache := w2.cache - {username}), user, e,
          ByProfile, None);
      }
    }
  }

  lemma SessionQuiet(cfg: Config, w: World, r: Request, e: Entropy)
    requires r.PasswordLogin? || r.Refresh? || r.Logout? || r.CurrentUser?
    ensures Effect(cfg, w, Serve(cfg, w, r, e).0, r)
  {
    hide LookupUsername, Issue, Text.TrimSpace, FirstSend, Resend, SignupVerified, LoginSend, LoginVerified, Number;
    if r.PasswordLogin? || r.CurrentUser? {
      var (w1, user) := LookupUsername(cfg, w, Text.TrimSpace(r.username));
      LookupUsernameLeaves(cfg, w, Text.TrimSpace(r.username));
      if user.Some? { IssueLeaves(cfg, w1, user.value, e, ByPassword, None); }
    } else if r.Refresh? {
      var token := Text.TrimSpace(r.token);
      if token in w.sessions {
        var (w1, user) := LookupUsername(cfg, w, w.sessions[token].username);
        LookupUsernameLeaves(cfg, w, w.sessions[token].username);
        if user.Some? {
          IssueLeaves(cfg, w1.(sessions := w1.sessions - {token}), user.value, e, ByRefresh,
            Some(token));
        }
      }
    }
  }

  lemma StatusQuiet(cfg: Config, w: World, r: Request)
    requires r.SignupStatus?
    ensures Effect(cfg, w, DoSignupStatus(cfg, w, r).0, r)
  {
    hide Lookup, StatusOf, Mobile.Normalize;
    var f := Mobile.Normalize(r.mobile, cfg.wideDigits);
    if f.Ok? { LookupLeaves(cfg, w, ByMobile, f.value); }
  }

  lemma ServeEffect(cfg: Config, w: World, r: Request, e: Entropy)
    requires Inv(cfg, w) && cfg.Valid()
    ensures Effect(cfg, w, Serve(cfg, w, r, e).0, r)
  {
    hide Inv, Effect, DoRequestSignup, DoVerifySignup, DoGoogleLogin, DoCompleteProfile, DoResendSignup, DoSignupStatus;
    hide DoRequestLogin, DoVerifyLogin;
    match r
    case RequestSignup(_, _, _, _, _, _) => RequestSignupEffect(cfg, w, r);
    case VerifySignup(_, _, _) => VerifySignupEffect(cfg, w, r, e);
    case ResendSignup(_, _) => ResendSignupEffect(cfg, w, r);
    case SignupStatus(_) => StatusQuiet(cfg, w, r);
    case RequestLogin(_, _) => RequestLoginEffect(cfg, w, r);
    case VerifyLogin(_, _, _) => VerifyLoginEffect(cfg, w, r, e);
    case GoogleLogin(_, _) => GoogleQuiet(cfg, w, r, e);
    case CompleteProfile(_, _, _) => ProfileQuiet(cfg, w, r, e);
    case PasswordLogin(_, _, _) => SessionQuiet(cfg, w, r, e);
    case Refresh(_) => SessionQuiet(cfg, w, r, e);
    case Logout(_) => SessionQuiet(cfg, w, r, e);
    case CurrentUser(_) => SessionQuiet(cfg, w, r, e);
  }

  /** A whole step: time passes, the limiter counts, and the request has its effect if admitted. */
  lemma StepEffect(cfg: Config, w: World, input: Input)
    requires Inv(cfg, w) && cfg.Valid() && Possible(w, input)
    ensures
      var w0 := Tick(w, input.at);
      var (w1, ok) := Admit(cfg, w0, input);
      var w' := Step(cfg, w, input).0;
      && w1 == w0.(windows := w1.windows)
      && if ok then Effect(cfg, w1, w', input.request) else w' == w1
  {
    hide Inv, Grows, Admit, Serve, Effect, LiveCache, LiveLogins, LiveSessions, LiveWindows, LivePending;
    var w0 := Tick(w, input.at);
    TickKeeps(cfg, w, input.at);
    AdmitOnlyCounts(cfg, w0, input);
    var (w1, ok) := Admit(cfg, w0, input);
    if ok {
      LimiterApart(cfg, w0, w1);
      ServeEffect(cfg, w1, input.request, input.entropy);
    }
  }

}
