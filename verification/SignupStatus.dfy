/** The life of a mobile number as SignupStatus shows it (auth/service/service.go). */
module SignupStatus {
  import opened Auth
  import opened Tables
  import opened Machine
  import opened Invariants
  import Mobile
  import Text

  ghost predicate VerifiedHolder(users: seq<User>, mobile: string) {
    exists u :: u in users && u.mobileVerified && u.mobile == mobile
  }

  /** In every reachable state "completed" means exactly that a verified user has the mobile. */
  lemma CompletedMeans(cfg: Config, w: World, mobile: string)
    requires Inv(cfg, w) && mobile != ""
    ensures StatusOf(w, mobile) == "completed" <==> VerifiedHolder(w.tables.users, mobile)
    ensures StatusOf(w, mobile) == "pending" <==> mobile in w.pending && w.clock < w.pending[mobile].expiresAt
  {
    var r := Find(w.tables.users, ByMobile, mobile);
    if VerifiedHolder(w.tables.users, mobile) {
      var u :| u in w.tables.users && u.mobileVerified && u.mobile == mobile;
      FindUnique(w.tables.users, ByMobile, u);
    }
  }

  /** What one request may do to pending signups and verified users. */
  ghost predicate SignupFrame(cfg: Config, a: World, b: World, r: Request, m: string) {
    && b.clock == a.clock
    // a pending record appears by a request for its mobile, and goes by an approved verification
    && (m !in a.pending && m in b.pending ==> r.RequestSignup? && Mobile.Normalize(r.mobile, cfg.wideDigits) == Ok(m))
    && (m in a.pending && m in b.pending ==> b.pending[m].expiresAt == a.pending[m].expiresAt)
    && (m in a.pending && m !in b.pending ==> VerifiedHolder(b.tables.users, m))
    // a verified user appears by an approved verification of its mobile
    && (VerifiedHolder(b.tables.users, m) && !VerifiedHolder(a.tables.users, m) ==> ApprovedSignup(cfg, a, r, m))
  }

  ghost predicate ApprovedSignup(cfg: Config, w: World, r: Request, m: string) {
    && r.VerifySignup? && Mobile.Normalize(r.mobile, cfg.wideDigits) == Ok(m)
    && r.verdict.Approved? && m in w.pending
  }

  lemma RequestSignupFrame(cfg: Config, w: World, r: Request, m: string)
    requires Inv(cfg, w) && r.RequestSignup? && m != ""
    ensures SignupFrame(cfg, w, DoRequestSignup(cfg, w, r).0, r, m)
  {
    hide Inv, Grows, Availability, Available, Mobile.Normalize;
    var f := NormalizeSignup(cfg, r.username, r.password, r.email, r.mobile);
    if f.Ok? {
      AvailabilityKeeps(cfg, w, f.value);
      if Availability(cfg, w, f.value).1.None? {
        AvailabilityMeans(cfg, w, f.value);
        NotPending(cfg, w, f.value);
      }
    }
  }

  lemma VerifySignupFrame(cfg: Config, w: World, r: Request, e: Entropy, m: string)
    requires Inv(cfg, w) && r.VerifySignup? && m != ""
    ensures SignupFrame(cfg, w, DoVerifySignup(cfg, w, r, e).0, r, m)
  {
    hide Inv, Mobile.Normalize, Text.TrimSpace, Issue, Find;
    var f := Mobile.Normalize(r.mobile, cfg.wideDigits);
    if f.Ok? && f.value in w.pending {
      KeyedByMobile(cfg, w, f.value);
      var p := w.pending[f.value];
      var w1 := w.(messages := w.messages + [SignupApproved(f.value, w.clock)]);
      if Register(w1.tables, NewUser(p), p.passwordHash).Ok? {
        var (t, user) := Register(w1.tables, NewUser(p), p.passwordHash).value;
        var w2 := Remember(cfg, w1.(tables := t, messages := w1.messages + [Registered(user, w.clock)]), user);
        IssueLeaves(cfg, w2.(pending := w2.pending - {f.value}), user, e, BySignup, None);
        assert user in t.users && user.mobile == f.value;
      }
    }
  }

  lemma GoogleFrame(cfg: Config, w: World, r: Request, e: Entropy, m: string)
    requires r.GoogleLogin?
    ensures SignupFrame(cfg, w, DoGoogleLogin(cfg, w, r, e).0, r, m)
  {
    hide Issue, ResolveGoogle, ApprovedSignup, Mobile.Normalize, VerifiedHolder;
    ResolveLeaves(cfg, w, r.identity, r.email);
    ResolveVerifiesNobody(cfg, w, r.identity, r.email, m);
    var (w1, user) := ResolveGoogle(cfg, w, r.identity, r.email);
    if user.Ok? { IssueLeaves(cfg, w1, user.value, e, ByGoogle, None); }
  }

  /** A newcomer is not verified. */
  lemma ResolveVerifiesNobody(cfg: Config, w: World, identity: string, email: string, m: string)
    ensures
      VerifiedHolder(ResolveGoogle(cfg, w, identity, email).0.tables.users, m) <==> VerifiedHolder(w.tables.users, m)
  {
    hide Find, FindSSO, Lookup, CreateGoogle, VerifiedHolder;
    LookupLeaves(cfg, w, ByEmail, email);
    CreateVerifiesNobody(cfg, Lookup(cfg, w, ByEmail, email).0, identity, email, m);
  }

  lemma CreateVerifiesNobody(cfg: Config, w: World, identity: string, email: string, m: string)
    ensures
      VerifiedHolder(CreateGoogle(cfg, w, identity, email).0.tables.users, m) <==> VerifiedHolder(w.tables.users, m)
  {
    hide Find, LookupUsername, LocalPart, Fallback;
    LookupUsernameLeaves(cfg, w, LocalPart(email));
  }

  lemma ProfileFrame(cfg: Config, w: World, r: Request, e: Entropy, m: string)
    requires Inv(cfg, w) && r.CompleteProfile?
    ensures SignupFrame(cfg, w, DoCompleteProfile(cfg, w, r, e).0, r, m)
  {
    hide Inv, Find, Lookup, LookupUsername, WriteProfile, Text.TrimSpace, Mobile.Normalize;
    var found := ByID(w.tables.users, r.userID);
    var username := Text.TrimSpace(r.username);
    var f := Mobile.Normalize(r.mobile, cfg.wideDigits);
    if found.Some? && !found.value.profileComplete && f.Ok? {
      LookupUsernameLeaves(cfg, w, username);
      var w1 := LookupUsername(cfg, w, username).0;
      LookupLeaves(cfg, w1, ByMobile, f.value);
      var w2 := Lookup(cfg, w1, ByMobile, f.value).0;
      NotVerified(cfg, w, found.value);
      WriteFrame(cfg, w2, found.value.(username := username, mobile := f.value, profileComplete := true), e, r, m);
    }
  }

  lemma NotVerified(cfg: Config, w: World, user: User)
    requires Inv(cfg, w) && !user.profileComplete && user in w.tables.users
    ensures !user.mobileVerified
  {
  }

  lemma WriteFrame(cfg: Config, w: World, user: User, e: Entropy, r: Request, m: string)
    requires !user.mobileVerified
    ensures SignupFrame(cfg, w, WriteProfile(cfg, w, user, e).0, r, m)
  {
    hide Issue, Clash, Mobile.Normalize;
    var t := Update(w.tables, user);
    if t.Some? {
      IssueLeaves(cfg, w.(tables := t.value, cache := w.cache - {user.username}), user, e, ByProfile, None);
      if VerifiedHolder(t.value.users, m) {
        var u :| u in t.value.users && u.mobileVerified && u.mobile == m;
        assert u in w.tables.users;
      }
    }
  }

  // Requests that neither sign up, nor add or change a user.

  lemma ResendFrame(cfg: Config, w: World, r: Request, m: string)
    requires Inv(cfg, w) && r.ResendSignup?
    ensures SignupFrame(cfg, w, DoResendSignup(cfg, w, r).0, r, m)
  {
    hide Inv, Mobile.Normalize, ResendError;
    var f := Mobile.Normalize(r.mobile, cfg.wideDigits);
    if f.Ok? && f.value in w.pending { KeyedByMobile(cfg, w, f.value); }
  }

  lemma StatusFrame(cfg: Config, w: World, r: Request, m: string)
    requires r.SignupStatus?
    ensures SignupFrame(cfg, w, DoSignupStatus(cfg, w, r).0, r, m)
  {
    hide Lookup, StatusOf, Mobile.Normalize;
    var f := Mobile.Normalize(r.mobile, cfg.wideDigits);
    if f.Ok? { LookupLeaves(cfg, w, ByMobile, f.value); }
  }

  lemma OTPFrame(cfg: Config, w: World, r: Request, m: string)
    requires r.RequestLogin?
    ensures SignupFrame(cfg, w, DoRequestLogin(cfg, w, r).0, r, m)
  {
    hide Lookup, ResendError, Mobile.Normalize;
    var f := Mobile.Normalize(r.mobile, cfg.wideDigits);
    if f.Ok? { LookupLeaves(cfg, w, ByMobile, f.value); }
  }

  lemma LoginFrame(cfg: Config, w: World, r: Request, e: Entropy, m: string)
    requires r.VerifyLogin?
    ensures SignupFrame(cfg, w, DoVerifyLogin(cfg, w, r, e).0, r, m)
  {
    hide Lookup, Issue, Text.TrimSpace, Mobile.Normalize;
    var f := Mobile.Normalize(r.mobile, cfg.wideDigits);
    if f.Ok? {
      LookupLeaves(cfg, w, ByMobile, f.value);
      var (w1, user) := Lookup(cfg, w, ByMobile, f.value);
      if user.Some? {
        IssueLeaves(cfg,
          w1.(messages := w1.messages + [LoginApproved(f.value, w1.clock)], logins := w1.logins - {LoginKey(f.value)}),
                    user.value, e, ByOTP, None);
      }
    }
  }

  lemma SessionFrame(cfg: Config, w: World, r: Request, e: Entropy, m: string)
    requires r.PasswordLogin? || r.Refresh? || r.Logout? || r.CurrentUser?
    ensures SignupFrame(cfg, w, Serve(cfg, w, r, e).0, r, m)
  {
    hide LookupUsername, Issue, Text.TrimSpace, Mobile.Normalize;
    if r.PasswordLogin? || r.CurrentUser? {
      var (w1, user) := LookupUsername(cfg, w, Text.TrimSpace(r.username));
      LookupUsernameLeaves(cfg, w, Text.TrimSpace(r.username));
      if user.Some? { IssueLeaves(cfg, w1, user.value, e, ByPassword, None); }
    } else if r.Refresh? {
      var token := Text.TrimSpace(r.token);
      if token in w.sessions {
        var (w1, user) := LookupUsername(cfg, w, w.sessions[token].username);
        LookupUsernameLeaves(cfg, w, w.sessions[token].username);
        if user.Some? {
          IssueLeaves(cfg, w1.(sessions := w1.sessions - {token}), user.value, e, ByRefresh,
            Some(token));
        }
      }
    }
  }

  lemma ServeFrame(cfg: Config, w: World, r: Request, e: Entropy, m: string)
    requires Inv(cfg, w) && m != ""
    ensures SignupFrame(cfg, w, Serve(cfg, w, r, e).0, r, m)
  {
    hide Inv, SignupFrame, DoRequestSignup, DoVerifySignup, DoGoogleLogin, DoCompleteProfile, DoResendSignup,
      DoSignupStatus;
    hide DoRequestLogin, DoVerifyLogin;
    match r
    case RequestSignup(_, _, _, _, _, _) => RequestSignupFrame(cfg, w, r, m);
    case VerifySignup(_, _, _) => VerifySignupFrame(cfg, w, r, e, m);
    case GoogleLogin(_, _) => GoogleFrame(cfg, w, r, e, m);
    case CompleteProfile(_, _, _) => ProfileFrame(cfg, w, r, e, m);
    case PasswordLogin(_, _, _) => SessionFrame(cfg, w, r, e, m);
    case Refresh(_) => SessionFrame(cfg, w, r, e, m);
    case Logout(_) => SessionFrame(cfg, w, r, e, m);
    case CurrentUser(_) => SessionFrame(cfg, w, r, e, m);
    case ResendSignup(_, _) => ResendFrame(cfg, w, r, m);
    case SignupStatus(_) => StatusFrame(cfg, w, r, m);
    case RequestLogin(_, _) => OTPFrame(cfg, w, r, m);
    case VerifyLogin(_, _, _) => LoginFrame(cfg, w, r, e, m);
  }

  lemma StepFrame(cfg: Config, w: World, input: Input, m: string)
    requires Inv(cfg, w) && Possible(w, input) && m != ""
    ensures SignupFrame(cfg, Tick(w, input.at), Step(cfg, w, input).0, input.request, m)
  {
    hide Inv, Grows, Admit, Serve, Mobile.Normalize, LiveCache, LiveLogins, LiveSessions, LiveWindows, LivePending;
    var w0 := Tick(w, input.at);
    TickKeeps(cfg, w, input.at);
    AdmitOnlyCounts(cfg, w0, input);
    var (w1, ok) := Admit(cfg, w0, input);
    if ok {
      LimiterApart(cfg, w0, w1);
      ServeFrame(cfg, w1, input.request, input.entropy, m);
    }
  }

  /**
    The automaton of one number. Time alone only lets a pending status lapse. At the instant of any
    request: completed for good; pending
    until time runs out or an approved verification completes it; expired until a request for
    this very number, except that a verification at the last instant still completes it.
    */
  lemma StatusAutomaton(cfg: Config, run: Run, i: nat, m: string)
    requires IsRun(cfg, run) && i < |run.inputs| && m != ""
    ensures
      var input, w0, w' := run.inputs[i], Tick(run.states[i], run.inputs[i].at), run.states[i + 1];
      var before := StatusOf(run.states[i], m);
      var s, s' := StatusOf(w0, m), StatusOf(w', m);
      && (s == "completed" <==> before == "completed") && (s == "pending" ==> before == "pending")
      && (s == "completed" ==> s' == "completed")
      && (s == "pending" ==> s' != "expired")
      && (s == "expired" && s' == "pending" ==>
            input.request.RequestSignup? && Mobile.Normalize(input.request.mobile, cfg.wideDigits) == Ok(m))
      && (s != "completed" && s' == "completed" ==> ApprovedSignup(cfg, w0, input.request, m))
      && (s == "expired" && s' == "completed" ==> m in w0.pending && w0.pending[m].expiresAt == input.at)
  {
    hide Inv, Grows, StatusOf, Mobile.Normalize, LiveCache, LiveLogins, LiveSessions, LiveWindows, Step;
    var w, input := run.states[i], run.inputs[i];
    var w0, w' := Tick(w, input.at), run.states[i + 1];
    StepAt(cfg, run, i);
    TickKeeps(cfg, w, input.at);
    CompletedMeans(cfg, w, m);
    CompletedMeans(cfg, w0, m);
    CompletedMeans(cfg, w', m);
    PendingLapses(w, input.at, m);
    StepFrame(cfg, w, input, m);
    TickLeaves(w, input.at);
    InvUsers(cfg, w);
    VerifiedStays(cfg, w, w', m);
    StatusValues(w0, m);
    StatusValues(w', m);
  }

  lemma PendingLapses(w: World, now: Time, m: string)
    requires w.clock <= now
    ensures StatusOf(Tick(w, now), m) == "pending" ==> StatusOf(w, m) == "pending"
  {
    hide Find;
    StatusValues(w, m);
    StatusValues(Tick(w, now), m);
  }

  lemma StatusValues(w: World, m: string)
    ensures var s := StatusOf(w, m); s == "pending" || s == "completed" || s == "expired"
    ensures "pending" != "completed" && "pending" != "expired" && "completed" != "expired"
  {
    assert "pending"[0] != "completed"[0] && "pending"[0] != "expired"[0] && "completed"[0] != "expired"[0];
  }

  lemma VerifiedStays(cfg: Config, a: World, b: World, m: string)
    requires UsersOk(a.tables.users) && (a.tables == b.tables || Grows(a, b))
    ensures VerifiedHolder(a.tables.users, m) ==> VerifiedHolder(b.tables.users, m)
  {
    if VerifiedHolder(a.tables.users, m) {
      var u :| u in a.tables.users && u.mobileVerified && u.mobile == m;
      var i :| 0 <= i < |a.tables.users| && a.tables.users[i] == u;
      assert a.tables == b.tables || RowKept(u, b.tables.users[i]);
      assert b.tables.users[i] in b.tables.users;
    }
  }

  lemma StatusStep(cfg: Config, w: World, input: Input)
    requires input.request.SignupStatus?
    ensures
      var f := Mobile.Normalize(input.request.mobile, cfg.wideDigits);
      f.Ok? ==> Step(cfg, w, input).1 == Status(StatusOf(Tick(w, input.at), f.value))
  {
    hide Tick, Lookup, StatusOf, Mobile.Normalize;
  }

  /** A number that was once reported completed is reported completed ever after, in whatever spelling. */
  lemma CompletedForGood(cfg: Config, run: Run, i: nat, j: nat)
    requires IsRun(cfg, run) && i < j < |run.inputs|
    requires run.inputs[i].request.SignupStatus? && run.inputs[j].request.SignupStatus?
    requires run.replies[i] == Status("completed")
    requires Mobile.Normalize(run.inputs[i].request.mobile, cfg.wideDigits) ==
      Mobile.Normalize(run.inputs[j].request.mobile, cfg.wideDigits)
    ensures run.replies[j] == Status("completed")
  {
    hide Inv, Grows, Step, Tick, StatusOf, Mobile.Normalize, UsersOk, VerifiedHolder;
    var f := Mobile.Normalize(run.inputs[i].request.mobile, cfg.wideDigits);
    StepAt(cfg, run, i);
    StepAt(cfg, run, j);
    var a, b := run.states[i], run.states[j];
    BadNumber(cfg, a, run.inputs[i]);
    StatusStep(cfg, a, run.inputs[i]);
    StatusStep(cfg, b, run.inputs[j]);
    var a0, b0 := Tick(a, run.inputs[i].at), Tick(b, run.inputs[j].at);
    TickKeeps(cfg, a, run.inputs[i].at);
    TickKeeps(cfg, b, run.inputs[j].at);
    CompletedMeans(cfg, a0, f.value);
    CompletedMeans(cfg, b0, f.value);
    RunGrows(cfg, run, i, j);
    TickLeaves(a, run.inputs[i].at);
    TickLeaves(b, run.inputs[j].at);
    InvUsers(cfg, a);
    VerifiedStays(cfg, a, b, f.value);
  }

  lemma BadNumber(cfg: Config, w: World, input: Input)
    requires input.request.SignupStatus?
    ensures Step(cfg, w, input).1.Status? ==> Mobile.Normalize(input.request.mobile, cfg.wideDigits).Ok?
  {
    hide Tick, Lookup, StatusOf, Mobile.Normalize;
  }
}
