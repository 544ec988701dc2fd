/** Properties of whole runs about users, sessions and external identities. */
module Accounts {
  import opened Auth
  import opened Tables
  import opened Machine
  import opened Invariants
  import opened SignupStatus
  import Mobile
  import Text

  // ---- Access tokens ----

  /** requireAccessToken: the username a complete, unexpired token lets through. */
  function RequireAccessToken(claims: AccessClaims, now: Time): Option<string> {
    match ParseAccessToken(claims, now)
    case Err(_) => None
    case Ok(c) => if c.profileComplete then Some(c.subject) else None
  }

  /** Tokens that a reply hands out are on record as minted for the user in the reply. */
  lemma IssuedIsMinted(cfg: Config, w: World, input: Input)
    ensures
      var (w', reply) := Step(cfg, w, input);
      reply.Issued? ==> exists s :: Mint(reply.user, reply.tokens, s) in w'.minted
  {
    hide Admit;
    var (w1, ok) := Admit(cfg, Tick(w, input.at), input);
    if ok {
      ServedIsMinted(cfg, w1, input.request, input.entropy);
    }
  }

  lemma ServedIsMinted(cfg: Config, w: World, r: Request, e: Entropy)
    ensures
      var (w', reply) := Serve(cfg, w, r, e);
      reply.Issued? ==> exists s :: Mint(reply.user, reply.tokens, s) in w'.minted
  {
    hide Availability, Register, Update, CreateSSOUser, FindSSO, Lookup, LookupUsername, Find, Remember,
      Mobile.Normalize;
    var (w', reply) := Serve(cfg, w, r, e);
    if reply.Issued? {
      var m := Mint(reply.user, reply.tokens, w'.minted[|w'.minted| - 1].source);
      assert m in w'.minted;
    }
  }

  /**
    A token handed out for a complete profile names, in every later state, an existing complete
    user with the very record it was made from, whether that record came from the table or the cache.
    */
  lemma CompleteTokensStayTrue(cfg: Config, run: Run, i: nat, j: nat)
    requires IsRun(cfg, run) && i < j <= |run.inputs|
    requires run.replies[i].Issued? && run.replies[i].tokens.accessToken.profileComplete
    ensures
      var Issued(user, tokens) := run.replies[i];
      && user in run.states[j].tables.users && user.profileComplete
      && tokens.accessToken.subject == user.username && tokens.accessToken.role == user.role
  {
    hide Step;
    StepAt(cfg, run, i);
    IssuedIsMinted(cfg, run.states[i], run.inputs[i]);
    RunGrows(cfg, run, i + 1, j);
    Reachable(cfg, run, j);
    var Issued(user, tokens) := run.replies[i];
    var s :| Mint(user, tokens, s) in run.states[i + 1].minted;
    assert Mint(user, tokens, s) in run.states[j].minted;
    assert MintOk(run.states[j].tables.users, Mint(user, tokens, s));
  }

  /** What a token says, and until when: the user of the reply, from the time of the request on for one lifetime. */
  lemma IssuedTokens(cfg: Config, run: Run, i: nat)
    requires IsRun(cfg, run) && i < |run.inputs| && run.replies[i].Issued?
    ensures
      var Issued(user, tokens), at := run.replies[i], run.inputs[i].at;
      && tokens.accessToken ==
          AccessClaims(user.username, "access", user.role, user.profileComplete, at, at + cfg.accessTokenTTL)
      && tokens.refreshToken == TokenOf(run.inputs[i].entropy)
  {
    hide Inv, Grows, Step, Tick;
    StepAt(cfg, run, i);
    StepDescends(cfg, run.states[i], run.inputs[i]);
    TickClock(run.states[i], run.inputs[i].at);
  }

  lemma TickClock(w: World, now: Time)
    ensures Tick(w, now).clock == now
  {
  }

  /**
    The gate of the protected endpoints lets a token through exactly if it was handed out for a complete
    profile and its lifetime has not passed. It sets the name of the user, who has that very record ever after.
    */
  lemma GateAdmitsCompleteUsers(cfg: Config, run: Run, i: nat, j: nat, now: Time)
    requires IsRun(cfg, run) && i < j <= |run.inputs| && run.replies[i].Issued?
    ensures
      var Issued(user, tokens) := run.replies[i];
      var gate := RequireAccessToken(tokens.accessToken, now);
      && (gate.Some? <==> user.profileComplete && now <= run.inputs[i].at + cfg.accessTokenTTL)
      && (gate.Some? ==> gate.value == user.username && user in run.states[j].tables.users)
  {
    hide Follows;
    IssuedTokens(cfg, run, i);
    if run.replies[i].user.profileComplete {
      CompleteTokensStayTrue(cfg, run, i, j);
    }
  }

  // ---- Uniqueness ----

  /** No two users of a reachable state share a username, an email or a mobile, nor do two pending signups. */
  lemma IdentitiesDistinct(cfg: Config, run: Run, i: nat)
    requires IsRun(cfg, run) && i <= |run.inputs|
    ensures
      var w := run.states[i];
      && Unique(w.tables.users) && Distinct(w.pending)
  {
    Reachable(cfg, run, i);
  }

  lemma ProfileStep(cfg: Config, w: World, input: Input)
    requires input.request.CompleteProfile?
    ensures Step(cfg, w, input) == DoCompleteProfile(cfg, Tick(w, input.at), input.request, input.entropy)
  {
    hide DoCompleteProfile, Tick;
  }

  /** CompleteProfile never runs into a unique index: its own checks suffice. */
  lemma CompleteProfileNeverClashes(cfg: Config, run: Run, i: nat)
    requires IsRun(cfg, run) && i < |run.inputs| && run.inputs[i].request.CompleteProfile?
    ensures run.replies[i] != Failed(DuplicateKey)
  {
    hide Inv, Grows, DoCompleteProfile, Tick, Step;
    StepAt(cfg, run, i);
    var w := run.states[i];
    TickKeeps(cfg, w, run.inputs[i].at);
    TickLeaves(w, run.inputs[i].at);
    ProfileStep(cfg, w, run.inputs[i]);
    CompleteProfileKeeps(cfg, Tick(w, run.inputs[i].at), run.inputs[i].request, run.inputs[i].entropy);
  }

  // ---- Verified mobiles ----

  /** The k-th request verified a signup with an approved code for the user's number, and created the user. */
  ghost predicate CreatedBy(cfg: Config, run: Run, k: nat, user: User)
    requires run.Shaped() && k < |run.inputs|
  {
    var r := run.inputs[k].request;
    && r.VerifySignup? && r.verdict.Approved?
    && Mobile.Normalize(r.mobile, cfg.wideDigits) == Ok(user.mobile)
    && user !in run.states[k].tables.users && user in run.states[k + 1].tables.users
  }

  /**
    A verified user was created by an earlier signup verification of the run, whose code the
    provider approved for the very mobile the user still has.
    */
  lemma {:induction false} VerifiedWasApproved(cfg: Config, run: Run, i: nat, user: User)
    requires IsRun(cfg, run) && i <= |run.inputs| && user in run.states[i].tables.users && user.mobileVerified
    ensures user.profileComplete && user.mobile != "" && Vouched(run.states[i].messages, user)
    ensures exists k :: 0 <= k < i && CreatedBy(cfg, run, k, user)
  {
    hide Step, Inv, Grows, SignupFrame, Vouched;
    Reachable(cfg, run, i);
    assert i > 0 by { assert run.states[0] == INITIAL; }
    StepAt(cfg, run, i - 1);
    var a, b, m := run.states[i - 1], run.states[i], user.mobile;
    VerifiedIsVouched(cfg, b, user);
    if user in a.tables.users {
      VerifiedWasApproved(cfg, run, i - 1, user);
    } else {
      InvUsers(cfg, a);
      InvUsers(cfg, b);
      NewHolder(a, b, user);
      StepFrame(cfg, a, run.inputs[i - 1], m);
      TickLeaves(a, run.inputs[i - 1].at);
      FrameApproves(cfg, Tick(a, run.inputs[i - 1].at), b, run.inputs[i - 1].request, user);
      assert CreatedBy(cfg, run, i - 1, user);
    }
  }

  lemma VerifiedIsVouched(cfg: Config, w: World, user: User)
    requires Inv(cfg, w) && user in w.tables.users && user.mobileVerified
    ensures user.profileComplete && user.mobile != "" && Vouched(w.messages, user)
  {
  }

  /** A new verified user has a number that no verified user had before. */
  lemma NewHolder(a: World, b: World, user: User)
    requires UsersOk(a.tables.users) && UsersOk(b.tables.users) && Grows(a, b)
    requires user in b.tables.users && user !in a.tables.users && user.mobileVerified
    ensures !VerifiedHolder(a.tables.users, user.mobile)
  {
    forall h | h in a.tables.users && h.mobileVerified ensures h.mobile != user.mobile {
      var p :| 0 <= p < |a.tables.users| && a.tables.users[p] == h;
      var q :| 0 <= q < |b.tables.users| && b.tables.users[q] == user;
      assert RowKept(h, b.tables.users[p]);
    }
  }

  lemma FrameApproves(cfg: Config, a: World, b: World, r: Request, user: User)
    requires SignupFrame(cfg, a, b, r, user.mobile) && !VerifiedHolder(a.tables.users, user.mobile)
    requires user in b.tables.users && user.mobileVerified
    ensures ApprovedSignup(cfg, a, r, user.mobile)
  {
  }

  /** An OTP login succeeds only for the verified holder of the number, after an approved code. */
  lemma OTPLoginIsVerified(cfg: Config, run: Run, i: nat)
    requires IsRun(cfg, run) && i < |run.inputs| && run.inputs[i].request.VerifyLogin?
    requires run.replies[i].Issued?
    ensures
      var user := run.replies[i].user;
      && run.inputs[i].request.verdict.Approved?
      && Mobile.Normalize(run.inputs[i].request.mobile, cfg.wideDigits) == Ok(user.mobile)
      && user in run.states[i].tables.users && user.mobileVerified
      && Vouched(run.states[i].messages, user)
  {
    hide Admit, Inv, Mobile.Normalize, Text.TrimSpace, Vouched;
    StepAt(cfg, run, i);
    var w0 := Tick(run.states[i], run.inputs[i].at);
    AdmitOnlyCounts(cfg, w0, run.inputs[i]);
    var w1 := Admit(cfg, w0, run.inputs[i]).0;
    OTPLoginUser(cfg, w1, run.inputs[i].request, run.inputs[i].entropy);
    VerifiedWasApproved(cfg, run, i, run.replies[i].user);
  }

  lemma OTPLoginUser(cfg: Config, w: World, r: Request, e: Entropy)
    requires r.VerifyLogin? && DoVerifyLogin(cfg, w, r, e).1.Issued?
    ensures
      var user := DoVerifyLogin(cfg, w, r, e).1.user;
      && r.verdict.Approved? && Mobile.Normalize(r.mobile, cfg.wideDigits) == Ok(user.mobile)
      && user in w.tables.users && user.mobileVerified
  {
    hide Mobile.Normalize, Text.TrimSpace;
  }

  // ---- Refresh tokens ----

  ghost predicate Spent(w: World, token: string) {
    token in w.roots && token !in w.sessions
  }

  /** Redeeming or revoking a token that was handed out spends it. */
  lemma RedeemSpends(cfg: Config, w: World, input: Input)
    requires Inv(cfg, w) && Possible(w, input)
    requires
      || (input.request.Refresh? && Step(cfg, w, input).1.Issued?)
      || (input.request.Logout? && Text.TrimSpace(input.request.token) != ""
          && Text.TrimSpace(input.request.token) in w.roots)
    ensures Spent(Step(cfg, w, input).0, Text.TrimSpace(input.request.token))
  {
    hide Inv, Grows, Text.TrimSpace, LookupUsername;
    var w0 := Tick(w, input.at);
    TickKeeps(cfg, w, input.at);
    if input.request.Refresh? {
      var token := Text.TrimSpace(input.request.token);
      LookupUsernameKeeps(cfg, w0, w0.sessions[token].username);
      SessionRemoved(cfg, w0, token);
    }
  }

  /** Two refreshes of the same token never both succeed, and none succeeds after a logout. */
  lemma RedeemedOnce(cfg: Config, run: Run, i: nat, j: nat)
    requires IsRun(cfg, run) && i < j < |run.inputs|
    requires run.inputs[j].request.Refresh?
    requires
      || (run.inputs[i].request.Refresh? && run.replies[i].Issued?)
      || (run.inputs[i].request.Logout? && Text.TrimSpace(run.inputs[i].request.token) in run.states[i].roots)
    requires Text.TrimSpace(run.inputs[i].request.token) == Text.TrimSpace(run.inputs[j].request.token)
    ensures run.replies[j] == Failed(InvalidRefreshToken)
  {
    hide Inv, Step, Text.TrimSpace;
    if Text.TrimSpace(run.inputs[i].request.token) != "" || run.inputs[i].request.Refresh? {
      StepAt(cfg, run, i);
      RedeemSpends(cfg, run.states[i], run.inputs[i]);
      RunGrows(cfg, run, i + 1, j);
    }
    StepAt(cfg, run, j);
    SpentIsRefused(cfg, run.states[j], run.inputs[j]);
  }

  lemma SpentIsRefused(cfg: Config, w: World, input: Input)
    requires input.request.Refresh?
    requires Text.TrimSpace(input.request.token) == "" || Text.TrimSpace(input.request.token) !in w.sessions
    ensures Step(cfg, w, input).1 == Failed(InvalidRefreshToken)
  {
    hide Text.TrimSpace;
  }

  /** Every login has at most one live descendant. */
  lemma OneLiveDescendant(cfg: Config, run: Run, i: nat, s: string, t: string)
    requires IsRun(cfg, run) && i <= |run.inputs|
    requires s in run.states[i].sessions && t in run.states[i].sessions
    ensures
      var w := run.states[i];
      s in w.roots && t in w.roots && (w.roots[s] == w.roots[t] ==> s == t)
  {
    Reachable(cfg, run, i);
  }

  /** The lineage is the real one: a login starts its own, a refresh continues that of the redeemed token. */
  lemma Lineage(cfg: Config, run: Run, i: nat)
    requires IsRun(cfg, run) && i < |run.inputs| && run.replies[i].Issued?
    ensures
      var token := run.replies[i].tokens.refreshToken;
      var a, b := run.states[i], run.states[i + 1];
      && token !in a.roots && token in b.roots && BelongsTo(b.sessions, token, run.replies[i].user)
      && if run.inputs[i].request.Refresh? then
           var redeemed := Text.TrimSpace(run.inputs[i].request.token);
           redeemed in a.roots && b.roots[token] == a.roots[redeemed]
         else b.roots[token] == token
  {
    hide Inv, Grows, Step, LiveCache, LivePending, LiveLogins, LiveSessions, LiveWindows, Text.TrimSpace;
    StepAt(cfg, run, i);
    StepDescends(cfg, run.states[i], run.inputs[i]);
  }

  /** The token is live and its session is the user's. */
  ghost predicate BelongsTo(sessions: map<string, RefreshSession>, token: string, user: User) {
    token in sessions && sessions[token].userID == user.id && sessions[token].username == user.username
  }

  /**
    The token pair of a reply was drawn now for the user of the reply, and its root is that of the token
    redeemed, if any. Sessions end by a refresh or a logout and begin with tokens handed out, and only so.
    */
  ghost predicate Descends(cfg: Config, w: World, w': World, reply: Reply, r: Request, e: Entropy) {
    if reply.Issued? then
      var user, rest := reply.user, if r.Refresh? then w.sessions - {Text.TrimSpace(r.token)} else w.sessions;
      && !r.Logout? && reply.tokens.refreshToken == TokenOf(e)
      && reply.tokens.accessToken ==
          AccessClaims(user.username, "access", user.role, user.profileComplete, w.clock, w.clock + cfg.accessTokenTTL)
      && w'.sessions ==
          rest[TokenOf(e) := RefreshSession(e.tokenID, user.id, user.username, w.clock + cfg.refreshTokenTTL)]
      && if r.Refresh? then
           Text.TrimSpace(r.token) in w.roots && w'.roots == w.roots[TokenOf(e) := w.roots[Text.TrimSpace(r.token)]]
         else w'.roots == w.roots[TokenOf(e) := TokenOf(e)]
    else
      && w'.roots == w.roots
      && (cfg.refreshTokenTTL > 0 ==>
            w'.sessions == if r.Logout? && Text.TrimSpace(r.token) != "" then w.sessions - {Text.TrimSpace(r.token)}
                           else w.sessions)
  }

  lemma StepDescends(cfg: Config, w: World, input: Input)
    requires Inv(cfg, w) && Possible(w, input)
    ensures Descends(cfg, Tick(w, input.at), Step(cfg, w, input).0, Step(cfg, w, input).1, input.request, input.entropy)
  {
    hide Inv, Grows, Admit, Serve, LiveCache, LivePending, LiveLogins, LiveSessions, LiveWindows, Text.TrimSpace;
    var w0 := Tick(w, input.at);
    TickKeeps(cfg, w, input.at);
    AdmitOnlyCounts(cfg, w0, input);
    OnlyOTPIsRefused(cfg, w0, input);
    var (w1, ok) := Admit(cfg, w0, input);
    LiveAreRooted(cfg, w0);
    if ok { ServeLineage(cfg, w1, input.request, input.entropy); }
  }

  lemma OnlyOTPIsRefused(cfg: Config, w: World, input: Input)
    ensures input.request.Logout? || input.request.Refresh? ==> Admit(cfg, w, input).1
  {
    hide Enforce;
  }

  lemma ServeLineage(cfg: Config, w: World, r: Request, e: Entropy)
    requires w.sessions.Keys <= w.roots.Keys
    ensures Descends(cfg, w, Serve(cfg, w, r, e).0, Serve(cfg, w, r, e).1, r, e)
  {
    hide Availability, Register, Update, CreateSSOUser, FindSSO, Find, Mobile.Normalize, Text.TrimSpace, Issue;
    hide DoVerifySignup, DoVerifyLogin, DoPasswordLogin, DoRefresh, DoGoogleLogin, DoCompleteProfile, LookupUsername,
      Lookup, DoRequestSignup, DoRequestLogin, DoResendSignup, DoSignupStatus, DoCurrentUser, Descends;
    match r
    case VerifySignup(_, _, _) => SignupLineage(cfg, w, r, e);
    case VerifyLogin(_, _, _) => OTPLineage(cfg, w, r, e);
    case PasswordLogin(n, _, _) => PasswordLineage(cfg, w, r, e);
    case Refresh(t) => RefreshLineage(cfg, w, r, e);
    case Logout(_) => LogoutLineage(cfg, w, r, e);
    case GoogleLogin(_, _) => GoogleLineage(cfg, w, r, e);
    case CompleteProfile(_, _, _) => ProfileLineage(cfg, w, r, e);
    case RequestSignup(_, _, _, _, _, _) => RequestLineage(cfg, w, r, e);
    case _ => QuietLineage(cfg, w, r, e);
  }

  lemma AvailabilityLeaves(cfg: Config, w: World, form: SignupForm)
    ensures var w' := Availability(cfg, w, form).0; w' == w.(cache := w'.cache)
  {
    hide Lookup, LookupUsername, PendingAvailability;
    var w1 := LookupUsername(cfg, w, form.username).0;
    LookupUsernameLeaves(cfg, w, form.username);
    var w2 := Lookup(cfg, w1, ByEmail, form.email).0;
    LookupLeaves(cfg, w1, ByEmail, form.email);
    LookupLeaves(cfg, w2, ByMobile, form.mobile);
  }

  lemma RequestLineage(cfg: Config, w: World, r: Request, e: Entropy)
    requires r.RequestSignup?
    ensures Descends(cfg, w, DoRequestSignup(cfg, w, r).0, DoRequestSignup(cfg, w, r).1, r, e)
  {
    hide Availability, NormalizeSignup, Text.TrimSpace;
    var f := NormalizeSignup(cfg, r.username, r.password, r.email, r.mobile);
    if f.Ok? { AvailabilityLeaves(cfg, w, f.value); }
  }

  lemma QuietLineage(cfg: Config, w: World, r: Request, e: Entropy)
    requires r.ResendSignup? || r.SignupStatus? || r.RequestLogin? || r.CurrentUser?
    ensures Descends(cfg, w, Serve(cfg, w, r, e).0, Serve(cfg, w, r, e).1, r, e)
  {
    hide Mobile.Normalize, Text.TrimSpace, Lookup, LookupUsername, ResendPending, SendLogin, StatusOf;
    if r.CurrentUser? {
      LookupUsernameLeaves(cfg, w, Text.TrimSpace(r.username));
    } else {
      var f := Mobile.Normalize(r.mobile, cfg.wideDigits);
      if f.Ok? {
        LookupLeaves(cfg, w, ByMobile, f.value);
        if f.value in w.pending { ResendKeepsSessions(cfg, w, f.value, w.pending[f.value], r.ResendSignup? && r.sent); }
        SendKeepsSessions(cfg, Lookup(cfg, w, ByMobile, f.value).0, f.value, r.RequestLogin? && r.sent);
      }
    }
  }

  lemma ResendKeepsSessions(cfg: Config, w: World, m: string, p: PendingSignup, sent: bool)
    ensures
      var (w', reply) := ResendPending(cfg, w, m, p, sent);
      w'.sessions == w.sessions && w'.roots == w.roots && !reply.Issued?
  {
  }

  lemma SendKeepsSessions(cfg: Config, w: World, m: string, sent: bool)
    ensures
      var (w', reply) := SendLogin(cfg, w, m, sent);
      w'.sessions == w.sessions && w'.roots == w.roots && !reply.Issued?
  {
  }

  lemma LogoutLineage(cfg: Config, w: World, r: Request, e: Entropy)
    requires r.Logout?
    ensures Descends(cfg, w, DoLogout(w, r).0, DoLogout(w, r).1, r, e)
  {
    hide Text.TrimSpace;
  }

  lemma IssueDescends(cfg: Config, w: World, user: User, e: Entropy, source: Source, r: Request)
    requires !r.Refresh? && !r.Logout?
    ensures var (w', reply) := Issue(cfg, w, user, e, source, None); Descends(cfg, w, w', reply, r, e)
  {
    hide Text.TrimSpace;
  }

  lemma SignupLineage(cfg: Config, w: World, r: Request, e: Entropy)
    requires r.VerifySignup?
    ensures Descends(cfg, w, DoVerifySignup(cfg, w, r, e).0, DoVerifySignup(cfg, w, r, e).1, r, e)
  {
    hide FinishSignup, Mobile.Normalize, Text.TrimSpace;
    var f := Mobile.Normalize(r.mobile, cfg.wideDigits);
    if f.Ok? && f.value in w.pending { FinishLineage(cfg, w, f.value, w.pending[f.value], r, e); }
  }

  lemma FinishLineage(cfg: Config, w: World, m: string, p: PendingSignup, r: Request, e: Entropy)
    requires r.VerifySignup?
    ensures Descends(cfg, w, FinishSignup(cfg, w, m, p, e).0, FinishSignup(cfg, w, m, p, e).1, r, e)
  {
    hide Register, Issue, Text.TrimSpace;
    var w1 := w.(messages := w.messages + [SignupApproved(m, w.clock)]);
    var made := Register(w1.tables, NewUser(p), p.passwordHash);
    if made.Ok? {
      var (t, user) := made.value;
      var w2 := Remember(cfg, w1.(tables := t, messages := w1.messages + [Registered(user, w.clock)]), user);
      IssueDescends(cfg, w2.(pending := w2.pending - {m}), user, e, BySignup, r);
    }
  }

  lemma OTPLineage(cfg: Config, w: World, r: Request, e: Entropy)
    requires r.VerifyLogin?
    ensures Descends(cfg, w, DoVerifyLogin(cfg, w, r, e).0, DoVerifyLogin(cfg, w, r, e).1, r, e)
  {
    hide Lookup, Issue, Mobile.Normalize, Text.TrimSpace;
    var f := Mobile.Normalize(r.mobile, cfg.wideDigits);
    if f.Ok? {
      var (w1, user) := Lookup(cfg, w, ByMobile, f.value);
      LookupLeaves(cfg, w, ByMobile, f.value);
      if user.Some? {
        var w2 := w1.(messages := w1.messages + [LoginApproved(f.value, w1.clock)],
          logins := w1.logins - {LoginKey(f.value)});
        IssueDescends(cfg, w2, user.value, e, ByOTP, r);
      }
    }
  }

  lemma PasswordLineage(cfg: Config, w: World, r: Request, e: Entropy)
    requires r.PasswordLogin?
    ensures Descends(cfg, w, DoPasswordLogin(cfg, w, r, e).0, DoPasswordLogin(cfg, w, r, e).1, r, e)
  {
    hide LookupUsername, Text.TrimSpace;
    LookupUsernameLeaves(cfg, w, Text.TrimSpace(r.username));
  }

  lemma RefreshLineage(cfg: Config, w: World, r: Request, e: Entropy)
    requires r.Refresh? && w.sessions.Keys <= w.roots.Keys
    ensures Descends(cfg, w, DoRefresh(cfg, w, r, e).0, DoRefresh(cfg, w, r, e).1, r, e)
  {
    hide LookupUsername, Text.TrimSpace;
    var token := Text.TrimSpace(r.token);
    if token in w.sessions { LookupUsernameLeaves(cfg, w, w.sessions[token].username); }
  }

  lemma GoogleLineage(cfg: Config, w: World, r: Request, e: Entropy)
    requires r.GoogleLogin?
    ensures Descends(cfg, w, DoGoogleLogin(cfg, w, r, e).0, DoGoogleLogin(cfg, w, r, e).1, r, e)
  {
    hide Issue, ResolveGoogle, Text.TrimSpace;
    ResolveLeaves(cfg, w, r.identity, r.email);
    var (w1, user) := ResolveGoogle(cfg, w, r.identity, r.email);
    if user.Ok? { IssueDescends(cfg, w1, user.value, e, ByGoogle, r); }
  }

  lemma ProfileLineage(cfg: Config, w: World, r: Request, e: Entropy)
    requires r.CompleteProfile?
    ensures Descends(cfg, w, DoCompleteProfile(cfg, w, r, e).0, DoCompleteProfile(cfg, w, r, e).1, r, e)
  {
    hide Find, Update, LookupUsername, Lookup, Text.TrimSpace, Mobile.Normalize;
    LookupUsernameLeaves(cfg, w, Text.TrimSpace(r.username));
    var f := Mobile.Normalize(r.mobile, cfg.wideDigits);
    if f.Ok? { LookupLeaves(cfg, LookupUsername(cfg, w, Text.TrimSpace(r.username)).0, ByMobile, f.value); }
  }

  lemma LiveAreRooted(cfg: Config, w: World)
    requires Inv(cfg, w)
    ensures w.sessions.Keys <= w.roots.Keys
  {
  }

  // ---- Whose tokens a refresh yields ----

  /** Who bears a name: the user the table has under it, or else the one a lingering cache entry shows. */
  ghost function Bearer(w: World, name: string): Option<User> {
    var holder := Find(w.tables.users, ByUsername, name);
    if holder.Some? then holder else if name in w.cache then Some(w.cache[name].user) else None
  }

  /** The name of a user is borne by another user. */
  ghost predicate Usurped(w: World, user: User) {
    || (exists u :: u in w.tables.users && u.username == user.username && u.id != user.id)
    || ((forall u :: u in w.tables.users ==> u.username != user.username)
        && user.username in w.cache && w.cache[user.username].user.id != user.id)
  }

  /**
    A refresh looks its user up by the name in the session. It yields tokens for whoever bears that
    name by then: for another user exactly if the name was usurped, and never so for a complete user.
    */
  lemma RefreshYieldsTheBearer(cfg: Config, run: Run, i: nat, j: nat)
    requires IsRun(cfg, run) && i < j < |run.inputs| && run.replies[i].Issued?
    requires run.inputs[j].request.Refresh? && run.replies[j].Issued?
    requires Text.TrimSpace(run.inputs[j].request.token) == run.replies[i].tokens.refreshToken
    ensures
      var user, user' := run.replies[i].user, run.replies[j].user;
      var w := Tick(run.states[j], run.inputs[j].at);
      && BelongsTo(w.sessions, run.replies[i].tokens.refreshToken, user)
      && Bearer(w, user.username) == Some(user')
      && (user'.id != user.id <==> Usurped(w, user))
      && (user.profileComplete ==> user' == user)
  {
    hide Inv, Grows, Step, Tick, DoRefresh, Text.TrimSpace, Bearer, Usurped;
    var user, token := run.replies[i].user, run.replies[i].tokens.refreshToken;
    Lineage(cfg, run, i);
    StepAt(cfg, run, j);
    RunGrows(cfg, run, i + 1, j);
    var w := Tick(run.states[j], run.inputs[j].at);
    TickKeeps(cfg, run.states[j], run.inputs[j].at);
    RefreshStep(cfg, run.states[j], run.inputs[j]);
    RefreshFindsBearer(cfg, w, run.inputs[j].request, run.inputs[j].entropy);
    SessionStays(run.states[i + 1], run.states[j], w, token, user);
    BearerMeans(cfg, w, user);
    if user.profileComplete {
      MintedUserStays(cfg, run, i, j);
      TickLeaves(run.states[j], run.inputs[j].at);
    }
  }

  lemma RefreshStep(cfg: Config, w: World, input: Input)
    requires input.request.Refresh?
    ensures Step(cfg, w, input) == DoRefresh(cfg, Tick(w, input.at), input.request, input.entropy)
  {
    hide DoRefresh, Tick;
  }

  lemma RefreshFindsBearer(cfg: Config, w: World, r: Request, e: Entropy)
    requires Inv(cfg, w) && r.Refresh? && DoRefresh(cfg, w, r, e).1.Issued?
    ensures
      var token := Text.TrimSpace(r.token);
      token in w.sessions && Bearer(w, w.sessions[token].username) == Some(DoRefresh(cfg, w, r, e).1.user)
  {
    hide Text.TrimSpace, Issue, Inv, Find;
    var token := Text.TrimSpace(r.token);
    var (w1, user) := LookupUsername(cfg, w, w.sessions[token].username);
    BearerIsFound(cfg, w, w.sessions[token].username);
    IssueLeaves(cfg, w1.(sessions := w1.sessions - {token}), user.value, e, ByRefresh, Some(token));
  }

  lemma BearerIsFound(cfg: Config, w: World, name: string)
    requires Inv(cfg, w)
    ensures LookupUsername(cfg, w, name).1 == Bearer(w, name)
  {
    hide UsersOk, TablesOk, PendingOk, SessionsOk, MintedOk, VouchedOk;
  }

  lemma SessionStays(a: World, b: World, b0: World, token: string, user: User)
    requires Grows(a, b) && Grows(b, b0) && token in a.roots && BelongsTo(a.sessions, token, user)
      && token in b0.sessions
    ensures BelongsTo(b0.sessions, token, user)
  {
  }

  lemma BearerMeans(cfg: Config, w: World, user: User)
    requires Inv(cfg, w) && Bearer(w, user.username).Some?
    ensures Bearer(w, user.username).value.id != user.id <==> Usurped(w, user)
    ensures user in w.tables.users ==> Bearer(w, user.username) == Some(user)
  {
    hide TablesOk, PendingOk, SessionsOk, MintedOk, VouchedOk;
    var holder := Find(w.tables.users, ByUsername, user.username);
    if holder.Some? {
      assert holder.value in w.tables.users && Holds(holder.value, ByUsername, user.username);
      forall u | u in w.tables.users && u.username == user.username ensures holder == Some(u) {
        FindUnique(w.tables.users, ByUsername, u);
      }
    } else {
      forall u | u in w.tables.users ensures u.username != user.username {
        assert !Holds(u, ByUsername, user.username);
      }
    }
  }

  /** The record of a complete user is the one in the table ever after. */
  lemma MintedUserStays(cfg: Config, run: Run, i: nat, j: nat)
    requires IsRun(cfg, run) && i < j <= |run.inputs|
    requires run.replies[i].Issued? && run.replies[i].user.profileComplete
    ensures run.replies[i].user in run.states[j].tables.users
  {
    hide Step;
    StepAt(cfg, run, i);
    IssuedIsMinted(cfg, run.states[i], run.inputs[i]);
    Reachable(cfg, run, i + 1);
    var Issued(user, tokens) := run.replies[i];
    var s :| Mint(user, tokens, s) in run.states[i + 1].minted;
    assert MintOk(run.states[i + 1].tables.users, Mint(user, tokens, s));
    CompleteTokensStayTrue(cfg, run, i, j);
  }

  /** requirePartialAccessToken: the id under which a profile is completed, found by the name in the token. */
  function RequirePartialAccessToken(cfg: Config, w: World, claims: AccessClaims, now: Time): Option<nat> {
    match ParseAccessToken(claims, now)
    case Err(_) => None
    case Ok(c) =>
      match LookupUsername(cfg, w, Text.TrimSpace(c.subject)).1
      case None => None
      case Some(user) => Some(user.id)
  }

  /**
    The gate of profile completion lets a token through exactly while its lifetime lasts and somebody bears the
    name in it. It yields the id of that bearer: another user's exactly if the name was usurped.
    */
  lemma PartialGateYieldsTheBearer(cfg: Config, run: Run, i: nat, j: nat, now: Time)
    requires IsRun(cfg, run) && i < j <= |run.inputs| && run.replies[i].Issued? && run.states[j].clock <= now
    ensures
      var Issued(user, tokens) := run.replies[i];
      var w, named := Tick(run.states[j], now), user.(username := Text.TrimSpace(user.username));
      var id := RequirePartialAccessToken(cfg, w, tokens.accessToken, now);
      && (id.Some? <==> now <= run.inputs[i].at + cfg.accessTokenTTL && Bearer(w, named.username).Some?)
      && (id.Some? ==>
            id.value == Bearer(w, named.username).value.id && (id.value != user.id <==> Usurped(w, named)))
  {
    hide Inv, Grows, Step, Tick, LookupUsername, Bearer, Usurped, Text.TrimSpace;
    var Issued(user, tokens) := run.replies[i];
    var w, named := Tick(run.states[j], now), user.(username := Text.TrimSpace(user.username));
    IssuedTokens(cfg, run, i);
    Reachable(cfg, run, j);
    TickKeeps(cfg, run.states[j], now);
    BearerIsFound(cfg, w, named.username);
    if Bearer(w, named.username).Some? { BearerMeans(cfg, w, named); }
  }

  // ---- External identities ----

  lemma {:induction false} FirstRowStays(a: seq<SSORow>, b: seq<SSORow>, provider: string, identity: string)
    requires FirstRow(a, provider, identity).Some?
    ensures FirstRow(a + b, provider, identity) == FirstRow(a, provider, identity)
  {
    assert (a + b)[0] == a[0] && (a + b)[1..] == a[1..] + b;
    if a[0].provider != provider || a[0].providerID != identity {
      FirstRowStays(a[1..], b, provider, identity);
    }
  }

  /** A linked identity stays linked to the user of the same id. */
  lemma LinkStays(a: World, b: World, identity: string)
    requires UsersOk(a.tables.users) && UsersOk(b.tables.users) && Grows(a, b)
    requires FindSSO(a.tables, GOOGLE, identity).Some?
    ensures FindSSO(b.tables, GOOGLE, identity).Some?
    ensures FindSSO(b.tables, GOOGLE, identity).value.id == FindSSO(a.tables, GOOGLE, identity).value.id
  {
    var tail := b.tables.sso[|a.tables.sso|..];
    assert b.tables.sso == a.tables.sso + tail;
    FirstRowStays(a.tables.sso, tail, GOOGLE, identity);
  }

  lemma LastRowFound(t: UserTables, userID: nat, identity: string)
    requires TablesOk(t) && FindSSO(t, GOOGLE, identity).None?
    ensures FirstRow(Link(t, userID, GOOGLE, identity).sso, GOOGLE, identity) == Some(SSORow(userID, GOOGLE, identity))
  {
    NoRow(t, GOOGLE, identity);
    var sso := Link(t, userID, GOOGLE, identity).sso;
    assert sso[|t.sso|] == SSORow(userID, GOOGLE, identity);
    assert forall i :: 0 <= i < |t.sso| ==> sso[i] == t.sso[i];
    var r := FirstRow(sso, GOOGLE, identity);
    var i :| 0 <= i < |sso| && sso[i] == r.value;
  }

  /** A Google login leaves its identity linked to the user it logged in. */
  lemma GoogleBinds(cfg: Config, w: World, r: Request, e: Entropy)
    requires Inv(cfg, w) && r.GoogleLogin? && DoGoogleLogin(cfg, w, r, e).1.Issued?
    ensures
      var (w', reply) := DoGoogleLogin(cfg, w, r, e);
      && FindSSO(w'.tables, GOOGLE, r.identity).Some?
      && FindSSO(w'.tables, GOOGLE, r.identity).value.id == reply.user.id
  {
    hide Inv, FindSSO, Issue, ResolveGoogle;
    ResolveBinds(cfg, w, r.identity, r.email);
    var (w1, user) := ResolveGoogle(cfg, w, r.identity, r.email);
    IssueLeaves(cfg, w1, user.value, e, ByGoogle, None);
  }

  lemma ResolveBinds(cfg: Config, w: World, identity: string, email: string)
    requires Inv(cfg, w)
    ensures
      var (w', user) := ResolveGoogle(cfg, w, identity, email);
      user.Ok? ==> FindSSO(w'.tables, GOOGLE, identity) == Some(user.value)
  {
    hide Inv, Lookup, LookupUsername, Find, FindSSO, CreateSSOUser, Remember, LocalPart, Fallback, Link;
    var (w1, byEmail) := Lookup(cfg, w, ByEmail, email);
    LookupLeaves(cfg, w, ByEmail, email);
    if FindSSO(w.tables, GOOGLE, identity).None? {
      if byEmail.Some? {
        LinkBinds(cfg, w, byEmail.value, identity);
      } else {
        var (w2, holder) := LookupUsername(cfg, w1, LocalPart(email));
        LookupUsernameLeaves(cfg, w1, LocalPart(email));
        var username := if holder.Some? then Fallback(LocalPart(email), w2.clock) else LocalPart(email);
        CreateBinds(cfg, w, username, email, identity);
        var made := CreateSSOUser(w2.tables, Newcomer(username, email), GOOGLE, identity);
        if made.Ok? { RememberTables(cfg, w2.(tables := made.value.0), made.value.1); }
      }
    }
  }

  lemma RememberTables(cfg: Config, w: World, user: User)
    ensures Remember(cfg, w, user).tables == w.tables
  {
  }

  lemma LinkBinds(cfg: Config, w: World, user: User, identity: string)
    requires Inv(cfg, w) && user in w.tables.users && FindSSO(w.tables, GOOGLE, identity).None?
    ensures FindSSO(Link(w.tables, user.id, GOOGLE, identity), GOOGLE, identity) == Some(user)
  {
    hide CacheOk, PendingOk, SessionsOk, MintedOk, VouchedOk, UsersOk, TablesOk, FirstRow;
    UsersAreUnique(w.tables.users);
    FoundIsKnown(w.tables.users, user);
    LastRowFound(w.tables, user.id, identity);
  }

  lemma CreateBinds(cfg: Config, w: World, username: string, email: string, identity: string)
    requires Inv(cfg, w) && FindSSO(w.tables, GOOGLE, identity).None?
    ensures
      var made := CreateSSOUser(w.tables, Newcomer(username, email), GOOGLE, identity);
      made.Ok? ==> FindSSO(made.value.0, GOOGLE, identity) == Some(made.value.1)
  {
    hide CacheOk, PendingOk, SessionsOk, MintedOk, VouchedOk, UsersOk, TablesOk, FirstRow, Register;
    NewcomerRegistered(cfg, w, username, email);
    var made := Register(w.tables, Newcomer(username, email), "");
    if made.Ok? {
      var (t0, user) := made.value;
      UsersAreUnique(t0.users);
      FoundIsKnown(t0.users, user);
      LastRowFound(w.tables, user.id, identity);
    }
  }

  lemma GoogleStep(cfg: Config, w: World, input: Input)
    requires input.request.GoogleLogin?
    ensures Step(cfg, w, input) == DoGoogleLogin(cfg, Tick(w, input.at), input.request, input.entropy)
  {
    hide DoGoogleLogin, Tick;
  }

  /** A linked identity logs in its user; an issued reply shows that tokens can be issued at all. */
  lemma LinkedLogsIn(cfg: Config, w: World, r: Request, e: Entropy)
    requires r.GoogleLogin? && FindSSO(w.tables, GOOGLE, r.identity).Some? && cfg.refreshTokenTTL > 0
    ensures
      var reply := DoGoogleLogin(cfg, w, r, e).1;
      reply.Issued? && reply.user == FindSSO(w.tables, GOOGLE, r.identity).value
  {
    IssueLeaves(cfg, w, FindSSO(w.tables, GOOGLE, r.identity).value, e, ByGoogle, None);
  }

  lemma GoogleNeedsTTL(cfg: Config, w: World, r: Request, e: Entropy)
    requires r.GoogleLogin? && DoGoogleLogin(cfg, w, r, e).1.Issued?
    ensures cfg.refreshTokenTTL > 0
  {
    hide ResolveGoogle;
  }

  /** Once an identity has logged in, every later login with it succeeds and is for the same user. */
  lemma SameIdentitySameUser(cfg: Config, run: Run, i: nat, j: nat)
    requires IsRun(cfg, run) && i < j < |run.inputs|
    requires run.inputs[i].request.GoogleLogin? && run.inputs[j].request.GoogleLogin?
    requires run.inputs[i].request.identity == run.inputs[j].request.identity
    requires run.replies[i].Issued?
    ensures run.replies[j].Issued?
    ensures run.replies[j].user.id == run.replies[i].user.id
  {
    hide Inv, Grows, DoGoogleLogin, Tick, Step, FindSSO;
    StepAt(cfg, run, i);
    StepAt(cfg, run, j);
    var a, b := run.states[i], run.states[j];
    TickKeeps(cfg, a, run.inputs[i].at);
    GoogleStep(cfg, a, run.inputs[i]);
    GoogleStep(cfg, b, run.inputs[j]);
    GoogleBinds(cfg, Tick(a, run.inputs[i].at), run.inputs[i].request, run.inputs[i].entropy);
    GoogleNeedsTTL(cfg, Tick(a, run.inputs[i].at), run.inputs[i].request, run.inputs[i].entropy);
    RunGrows(cfg, run, i + 1, j);
    Reachable(cfg, run, j);
    InvUsers(cfg, run.states[i + 1]);
    InvUsers(cfg, b);
    LinkStays(run.states[i + 1], b, run.inputs[i].request.identity);
    TickLeaves(b, run.inputs[j].at);
    LinkedLogsIn(cfg, Tick(b, run.inputs[j].at), run.inputs[j].request, run.inputs[j].entropy);
  }

}
