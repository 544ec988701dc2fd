/** Runs that show what does not hold: each is a sequence of requests to a service that started empty. */
module Witnesses {
  import opened Auth
  import opened Tables
  import opened Machine
  import opened Invariants
  import opened CacheTransparency
  import Accounts
  import Mobile
  import SignupSends
  import Text

  /** No rule for OTP requests or verifications is enabled. */
  predicate Unlimited(cfg: Config) {
    && !cfg.requestIP.Enabled() && !cfg.requestMobile.Enabled()
    && !cfg.verifyIP.Enabled() && !cfg.verifyMobile.Enabled()
  }

  lemma UnlimitedAdmits(cfg: Config, w: World, input: Input)
    requires Unlimited(cfg)
    ensures Admit(cfg, w, input) == (w, true)
    ensures Step(cfg, w, input) == Serve(cfg, Tick(w, input.at), input.request, input.entropy)
  {
    hide Serve, Tick, Mobile.Normalize;
  }

  // ---- Requests that the handler lets through ----

  const BOBS_MOBILE := "9876543210"

  const ALICES_MOBILE := "9123456789"

  const BOBS_MAIL := "bob@x.com"

  const ALICES_MAIL := "alice@x.com"

  const OTHER_MAIL := "a@y.com"

  const PASSWORD := "password"

  ghost predicate Word(s: string) { s != "" && forall i :: 0 <= i < |s| ==> 'a' <= s[i] <= 'z' }

  /** An address of the plainest form: a word, an at sign and a domain of two words. */
  ghost predicate Address(s: string, name: string, host: string, top: string) {
    s == name + "@" + host + "." + top && Word(name) && Word(host) && Word(top) && |top| >= 2
  }

  /** What the validation tags of the handler ask of a request, with addresses of the plainest form only. */
  ghost predicate PassesTags(r: Request) {
    match r
    case RequestSignup(username, password, email, mobile, _, _) =>
      && 3 <= |username| <= 50 && 8 <= |password| <= 72 && mobile != ""
      && exists name, host, top :: Address(email, name, host, top)
    case VerifySignup(mobile, code, _) => mobile != "" && (|code| == 4 || |code| == 6)
    case ResendSignup(mobile, _) => mobile != ""
    case SignupStatus(mobile) => mobile != ""
    case RequestLogin(mobile, _) => mobile != ""
    case VerifyLogin(mobile, code, _) => mobile != "" && (|code| == 4 || |code| == 6)
    case PasswordLogin(username, password, _) => 3 <= |username| <= 50 && 8 <= |password| <= 72
    case CompleteProfile(_, username, mobile) => 3 <= |username| <= 50 && mobile != ""
    case _ => true
  }

  ghost predicate AllPass(inputs: seq<Input>) {
    forall k :: 0 <= k < |inputs| ==> PassesTags(inputs[k].request)
  }

  lemma SignupsPass(mail: string, name: string, host: string, username: string, mobile: string)
    requires mail == name + "@" + host + "." + "com" && Word(name) && Word(host)
    requires 3 <= |username| <= 50 && mobile != ""
    ensures PassesTags(RequestSignup(username, PASSWORD, mail, mobile, Some("hash"), true))
  {
    assert Address(mail, name, host, "com");
  }

  lemma Numbers(wide: set<char>)
    ensures Mobile.Normalize(BOBS_MOBILE, wide) == Ok("+91" + BOBS_MOBILE)
    ensures Mobile.Normalize(ALICES_MOBILE, wide) == Ok("+91" + ALICES_MOBILE)
  {
    hide Mobile.Normalize;
    BareNumber(BOBS_MOBILE, wide);
    BareNumber(ALICES_MOBILE, wide);
  }

  lemma BareNumber(n: string, wide: set<char>)
    requires |n| == 10 && Mobile.AllAscii(n) && '6' <= n[0] <= '9'
    ensures Mobile.Normalize(n, wide) == Ok("+91" + n)
  {
    hide Text.ByteLen, Text.TrimSpace, Mobile.Digits;
    assert "" + n + "" == n;
    Text.TrimUnique("", n, "");
    Mobile.DigitsOfDigits(n, wide);
    Mobile.AsciiLen(n);
    Mobile.AcceptedExactly(n, n, wide);
  }

  lemma Trimmed(s: string)
    requires s != "" && !Text.IsSpace(s[0]) && !Text.IsSpace(s[|s| - 1])
    ensures Text.TrimSpace(s) == s
  {
    assert "" + s + "" == s;
    Text.TrimUnique("", s, "");
  }

  lemma {:induction false} Lower(s: string)
    requires forall i :: 0 <= i < |s| ==> !('A' <= s[i] <= 'Z')
    ensures Text.ToLower(s) == s
  {
    if s != "" { Lower(s[1..]); }
  }

  // ---- Resends at the instant of expiry ----

  /** A pending signup at its expiry, after n codes were sent for it. */
  ghost predicate AtExpiry(cfg: Config, w: World, p: PendingSignup, n: nat) {
    && w.clock <= p.expiresAt && w.pending == map[p.mobile := p] && w.roots == map[]
    && SignupSends.SignupHistory(w.messages, p.mobile) != [] && |SignupSends.SignupHistory(w.messages, p.mobile)| == n
  }

  lemma FirstRequest(cfg: Config, input: Input, form: SignupForm)
    requires Unlimited(cfg) && cfg.Valid() && input.at == 1
    requires input.request.RequestSignup? && input.request.hash.Some? && input.request.sent
    requires var r := input.request; NormalizeSignup(cfg, r.username, r.password, r.email, r.mobile) == Ok(form)
    ensures
      var p := PendingSignup(form.username, input.request.hash.value, form.email, form.mobile, 0, 1,
        1 + cfg.pendingSignupTTL);
      var (w, reply) := Step(cfg, INITIAL, input);
      reply == Accepted && AtExpiry(cfg, w, p, 1)
  {
    hide NormalizeSignup, Tick;
    UnlimitedAdmits(cfg, INITIAL, input);
    TickInitial(1);
    var r := input.request;
    assert Availability(cfg, INITIAL, form) == (INITIAL, None);
    var w := DoRequestSignup(cfg, INITIAL, r).0;
    SignupSends.HistoryAppend([], SignupSent(form.mobile, 1, true), form.mobile);
    assert [] + [SignupSent(form.mobile, 1, true)] == w.messages;
  }

  lemma TickInitial(now: Time)
    ensures Tick(INITIAL, now) == INITIAL.(clock := now)
  {
  }

  lemma ResendAgain(cfg: Config, w: World, p: PendingSignup, n: nat, input: Input)
    requires Unlimited(cfg) && AtExpiry(cfg, w, p, n) && input.at == p.expiresAt
    requires p.resendCount == 0 && p.expiresAt - p.lastSentAt >= cfg.resendCooldown
    requires input.request.ResendSignup? && input.request.sent
    requires Mobile.Normalize(input.request.mobile, cfg.wideDigits) == Ok(p.mobile)
    ensures
      var (w', reply) := Step(cfg, w, input);
      reply == Failed(PendingSignupExpired) && AtExpiry(cfg, w', p, n + 1)
  {
    hide Tick, Mobile.Normalize;
    UnlimitedAdmits(cfg, w, input);
    TickPending(w, input.at, p);
    TickLeaves(w, input.at);
    var w0 := Tick(w, input.at);
    SignupSends.ResendAtExpiry(cfg, w0, input.request);
    SignupSends.HistoryAppend(w.messages, SignupSent(p.mobile, w0.clock, false), p.mobile);
  }

  lemma TickPending(w: World, now: Time, p: PendingSignup)
    requires w.pending == map[p.mobile := p] && now <= p.expiresAt
    ensures Tick(w, now).pending == w.pending && Tick(w, now).clock == now
  {
  }

  /** Any requests the first of which signs up at time 1 and the others resend to its number at its expiry. */
  ghost predicate Flood(cfg: Config, inputs: seq<Input>, form: SignupForm) {
    && inputs != [] && inputs[0].at == 1
    && inputs[0].request.RequestSignup? && inputs[0].request.hash.Some? && inputs[0].request.sent
    && (var r := inputs[0].request; NormalizeSignup(cfg, r.username, r.password, r.email, r.mobile) == Ok(form))
    && forall k :: 1 <= k < |inputs| ==>
        && inputs[k].at == 1 + cfg.pendingSignupTTL
        && inputs[k].request.ResendSignup? && inputs[k].request.sent
        && Mobile.Normalize(inputs[k].request.mobile, cfg.wideDigits) == Ok(form.mobile)
  }

  /**
    However many resends are requested at the very expiry of a signup, each of them goes out: neither
    maxResends nor the cooldown limits them, and each is answered with an error.
    */
  lemma {:induction false} UnlimitedResendsAtExpiry(cfg: Config, inputs: seq<Input>, form: SignupForm)
    returns (run: Run)
    requires Unlimited(cfg) && cfg.Valid() && cfg.resendCooldown <= cfg.pendingSignupTTL && Flood(cfg, inputs, form)
    ensures IsRun(cfg, run) && run.inputs == inputs
    ensures run.replies[0] == Accepted
    ensures forall k :: 1 <= k < |inputs| ==> run.replies[k] == Failed(PendingSignupExpired)
    ensures |SignupSends.SignupHistory(run.states[|inputs|].messages, form.mobile)| == |inputs|
    ensures
      var p := PendingSignup(form.username, inputs[0].request.hash.value, form.email, form.mobile, 0, 1,
        1 + cfg.pendingSignupTTL);
      AtExpiry(cfg, run.states[|inputs|], p, |inputs|)
  {
    hide Step, NormalizeSignup, Mobile.Normalize, SignupSends.SignupHistory;
    var n := |inputs| - 1;
    if n == 0 {
      run := Run([], [INITIAL], []);
      FirstRequest(cfg, inputs[0], form);
      run := Extend(cfg, run, inputs[0]);
    } else {
      run := UnlimitedResendsAtExpiry(cfg, inputs[..n], form);
      var p := PendingSignup(form.username, inputs[0].request.hash.value, form.email, form.mobile, 0, 1,
        1 + cfg.pendingSignupTTL);
      ResendAgain(cfg, run.states[n], p, n, inputs[n]);
      run := Extend(cfg, run, inputs[n]);
    }
  }

  function BobSignsUp(e: Entropy): Input {
    Input(1, "", e, RequestSignup("bob", PASSWORD, BOBS_MAIL, BOBS_MOBILE, Some("hash"), true))
  }

  function Resend(cfg: Config, e: Entropy): Input {
    Input(1 + cfg.pendingSignupTTL, "", e, ResendSignup(BOBS_MOBILE, true))
  }

  /** Such requests exist: bob signs up and asks for three more codes at the expiry. */
  lemma ThreeResendsAtExpiry(cfg: Config, e: Entropy) returns (run: Run)
    requires Unlimited(cfg) && cfg.Valid() && cfg.resendCooldown <= cfg.pendingSignupTTL
    ensures IsRun(cfg, run) && run.inputs == [BobSignsUp(e), Resend(cfg, e), Resend(cfg, e), Resend(cfg, e)]
    ensures AllPass(run.inputs)
    ensures |SignupSends.SignupHistory(run.states[4].messages, "+91" + BOBS_MOBILE)| == 4
  {
    hide SignupSends.SignupHistory, IsRun, NormalizeSignup, Mobile.Normalize, AtExpiry;
    Numbers(cfg.wideDigits);
    BobsForm(cfg);
    var resend := Resend(cfg, e);
    assert BOBS_MAIL == "bob" + "@" + "x" + "." + "com";
    SignupsPass(BOBS_MAIL, "bob", "x", "bob", BOBS_MOBILE);
    run := UnlimitedResendsAtExpiry(cfg, [BobSignsUp(e), resend, resend, resend],
      SignupForm("bob", BOBS_MAIL, "+91" + BOBS_MOBILE));
  }

  lemma BobsForm(cfg: Config)
    ensures NormalizeSignup(cfg, "bob", PASSWORD, BOBS_MAIL, BOBS_MOBILE) ==
      Ok(SignupForm("bob", BOBS_MAIL, "+91" + BOBS_MOBILE))
  {
    hide Text.TrimSpace, Mobile.Normalize, Text.ToLower;
    Numbers(cfg.wideDigits);
    Trimmed("bob");
    Trimmed(BOBS_MAIL);
    Lower(BOBS_MAIL);
  }

  // ---- A name given up ----

  const ALICE := User(1, "alice", ALICES_MAIL, "", false, ROLE_CUSTOMER, false)

  /** Alice after she completed her profile under another name. */
  const BOB := ALICE.(username := "bob", mobile := "+91" + BOBS_MOBILE, profileComplete := true)

  const GOOGLE_ROW := SSORow(1, GOOGLE, "g")

  function Draw(n: string): Entropy { Entropy(n, "x") }

  lemma DrawsDiffer(m: string, n: string)
    ensures TokenOf(Draw(m)) == TokenOf(Draw(n)) <==> m == n
  {
    assert TokenOf(Draw(m)) == m + ".x" && TokenOf(Draw(n)) == n + ".x";
    assert (m + ".x")[..|m|] == m && (n + ".x")[..|n|] == n;
    assert m + ".x" == n + ".x" ==> |m| == |n|;
  }

  function SignOn(): Input { Input(1, "", Draw("1"), GoogleLogin("g", ALICES_MAIL)) }

  function Rename(): Input { Input(2, "", Draw("2"), CompleteProfile(1, "bob", BOBS_MOBILE)) }

  function RefreshFirst(at: Time): Input { Input(at, "", Draw("3"), Refresh(TokenOf(Draw("1")))) }

  function Entry(cfg: Config): map<string, CachedUser> {
    if cfg.cacheTTL.None? then map[] else map["alice" := CachedUser(ALICE, 1 + cfg.cacheTTL.value)]
  }

  function Session(cfg: Config, n: string, id: nat, username: string, at: Time): RefreshSession {
    RefreshSession(n, id, username, at + cfg.refreshTokenTTL)
  }

  lemma AliceIsTheLocalPart()
    ensures LocalPart(ALICES_MAIL) == "alice"
  {
    assert ALICES_MAIL[5] == '@';
    LocalPartOf("alice", "x.com");
    assert "alice" + "@" + "x.com" == ALICES_MAIL;
  }

  lemma {:induction false} LocalPartOf(a: string, b: string)
    requires '@' !in a
    ensures LocalPart(a + "@" + b) == a
  {
    var s := a + "@" + b;
    assert s[|a|] == '@';
    if a == "" {
      assert UpToAt(s) == "";
    } else {
      LocalPartOf(a[1..], b);
      assert s[1..] == a[1..] + "@" + b && s[0] == a[0];
      assert (a[1..] + "@" + b)[|a| - 1] == '@';
    }
  }

  /** What the first sign-on hands out. */
  function FirstTokens(cfg: Config): TokenPair {
    TokenPair(AccessClaims("alice", "access", ROLE_CUSTOMER, false, 1, 1 + cfg.accessTokenTTL), TokenOf(Draw("1")))
  }

  /** The state after the Google login of a newcomer. */
  ghost predicate SignedOn(cfg: Config, w: World) {
    && w.clock == 1 && w.tables == UserTables([ALICE], map[], [GOOGLE_ROW])
    && w.cache == Entry(cfg) && w.pending == map[]
    && w.sessions == map[TokenOf(Draw("1")) := Session(cfg, "1", 1, "alice", 1)]
    && w.roots.Keys == {TokenOf(Draw("1"))}
  }

  lemma SigningOn(cfg: Config)
    requires cfg.refreshTokenTTL > 0
    ensures
      var (w, reply) := Step(cfg, INITIAL, SignOn());
      SignedOn(cfg, w) && reply == Issued(ALICE, FirstTokens(cfg))
  {
    hide Tick, LocalPart, Fallback;
    TickInitial(1);
    AliceIsTheLocalPart();
    var w := INITIAL;
    assert FindSSO(EMPTY, GOOGLE, "g").None?;
    assert Lookup(cfg, w, ByEmail, ALICES_MAIL) == (w, None);
    assert LookupUsername(cfg, w, "alice") == (w, None);
    AliceIsCreated();
  }

  lemma AliceIsCreated()
    ensures CreateSSOUser(EMPTY, Newcomer("alice", ALICES_MAIL), GOOGLE, "g")
         == Ok((UserTables([ALICE], map[], [GOOGLE_ROW]), ALICE))
  {
    var newcomer := Newcomer("alice", ALICES_MAIL);
    assert newcomer.(id := 1) == ALICE;
    assert [] + [ALICE] == [ALICE] && [] + [GOOGLE_ROW] == [GOOGLE_ROW];
    assert Register(EMPTY, newcomer, "") == Ok((EMPTY.(users := [ALICE]), ALICE));
  }

  /** Nothing has expired. */
  lemma AllLive(w: World, now: Time)
    requires forall k :: k in w.cache ==> now <= w.cache[k].expiresAt
    requires forall k :: k in w.pending ==> now <= w.pending[k].expiresAt
    requires forall k :: k in w.sessions ==> now <= w.sessions[k].expiresAt
    ensures
      var w' := Tick(w, now);
      w'.clock == now && w'.cache == w.cache && w'.pending == w.pending && w'.sessions == w.sessions
  {
  }

  ghost predicate Renamed(cfg: Config, w: World) {
    && w.clock == 2 && w.tables == UserTables([BOB], map[], [GOOGLE_ROW])
    && w.cache == Entry(cfg) && w.pending == map[]
    && w.sessions == map[TokenOf(Draw("1")) := Session(cfg, "1", 1, "alice", 1),
                         TokenOf(Draw("2")) := Session(cfg, "2", 1, "bob", 2)]
    && w.roots.Keys == {TokenOf(Draw("1")), TokenOf(Draw("2"))}
  }

  lemma Renaming(cfg: Config, w: World)
    requires SignedOn(cfg, w) && cfg.refreshTokenTTL > 0 && (cfg.cacheTTL.Some? ==> cfg.cacheTTL.value > 0)
    ensures
      var (w', reply) := Step(cfg, w, Rename());
      Renamed(cfg, w') && reply.Issued? && reply.user == BOB
  {
    hide Tick, Mobile.Normalize, Text.TrimSpace, WriteProfile, TokenOf;
    AllLive(w, 2);
    TickLeaves(w, 2);
    Numbers(cfg.wideDigits);
    Trimmed("bob");
    var w0 := Tick(w, 2);
    NamesDiffer();
    assert LookupUsername(cfg, w0, "bob") == (w0, None);
    assert Lookup(cfg, w0, ByMobile, "+91" + BOBS_MOBILE) == (w0, None);
    BobsProfile(cfg, w0);
    assert WriteProfile(cfg, w0, BOB, Draw("2")) == Step(cfg, w, Rename());
  }

  lemma BobsProfile(cfg: Config, w: World)
    requires SignedOn(cfg, w.(clock := 1)) && w.clock == 2 && cfg.refreshTokenTTL > 0
    ensures
      var (w', reply) := WriteProfile(cfg, w, BOB, Draw("2"));
      Renamed(cfg, w') && reply.Issued? && reply.user == BOB
  {
    hide Update;
    DrawsDiffer("1", "2");
    NamesDiffer();
    BobIsWritten();
    assert Entry(cfg) - {"bob"} == Entry(cfg);
  }

  lemma NamesDiffer()
    ensures "alice" != "bob"
  {
    assert |"alice"| == 5 && |"bob"| == 3;
  }

  lemma BobIsWritten()
    ensures Update(UserTables([ALICE], map[], [GOOGLE_ROW]), BOB) == Some(UserTables([BOB], map[], [GOOGLE_ROW]))
  {
    assert [ALICE][0 := BOB] == [BOB];
  }

  /** Alice signs on with Google and completes her profile as bob. */
  lemma RenamingRun(cfg: Config) returns (run: Run)
    requires cfg.refreshTokenTTL > 0 && (cfg.cacheTTL.Some? ==> cfg.cacheTTL.value > 0)
    ensures IsRun(cfg, run) && run.inputs == [SignOn(), Rename()] && Renamed(cfg, run.states[2])
    ensures run.replies[0] == Issued(ALICE, FirstTokens(cfg))
    ensures run.replies[1].Issued? && SignedOn(cfg, run.states[1])
  {
    hide Step, TokenOf;
    run := Run([], [INITIAL], []);
    SigningOn(cfg);
    run := Extend(cfg, run, SignOn());
    Renaming(cfg, run.states[1]);
    DrawsDiffer("1", "2");
    run := Extend(cfg, run, Rename());
  }

  /**
    After the renaming, the first token shows alice as long as her entry lingers in the cache; without
    a cache it is refused.
    */
  lemma RefreshAfterRenaming(cfg: Config) returns (run: Run)
    requires cfg.refreshTokenTTL > 1 && (cfg.cacheTTL.Some? ==> cfg.cacheTTL.value > 1)
    ensures IsRun(cfg, run) && run.inputs == [SignOn(), Rename(), RefreshFirst(3)] && AllPass(run.inputs)
    ensures cfg.cacheTTL.Some? ==> "alice" in run.states[2].cache && run.states[2].cache["alice"].user == ALICE
    ensures forall u :: u in run.states[2].tables.users ==> u.username != "alice"
    ensures
      if cfg.cacheTTL.Some? then run.replies[2].Issued? && run.replies[2].user == ALICE
      else run.replies[2] == Failed(UserNotFound)
  {
    hide Step, TokenOf;
    run := RenamingRun(cfg);
    DrawsDiffer("1", "3");
    DrawsDiffer("2", "3");
    Refreshing(cfg, run.states[2]);
    NamesDiffer();
    run := Extend(cfg, run, RefreshFirst(3));
  }

  /** So a service with a cache and one without can be told apart. */
  lemma TwinsDiffer(cfg: Config) returns (cached: Run, bare: Run)
    requires cfg.refreshTokenTTL > 1 && cfg.cacheTTL.Some? && cfg.cacheTTL.value > 1
    ensures Twins(cfg, cached, bare) && |cached.replies| == |bare.replies| == 3
    ensures cached.replies[2] != bare.replies[2] && exists k :: 0 <= k < 3 && Misreads(cfg, cached, k)
  {
    hide Misreads, Step;
    cached := RefreshAfterRenaming(cfg);
    bare := RefreshAfterRenaming(Uncached(cfg));
    AgreeIffNoMisread(cfg, cached, bare, 3);
  }

  lemma Refreshing(cfg: Config, w: World)
    requires Renamed(cfg, w) && cfg.refreshTokenTTL > 1 && (cfg.cacheTTL.Some? ==> cfg.cacheTTL.value > 1)
    ensures
      var reply := Step(cfg, w, RefreshFirst(3)).1;
      if cfg.cacheTTL.Some? then reply.Issued? && reply.user == ALICE else reply == Failed(UserNotFound)
  {
    hide Tick, Text.TrimSpace, Serve;
    AllLive(w, 3);
    TickLeaves(w, 3);
    assert TokenOf(Draw("1")) == "1.x";
    Trimmed("1.x");
    DrawsDiffer("1", "2");
    NamesDiffer();
    Accounts.RefreshStep(cfg, w, RefreshFirst(3));
    var w0 := Tick(w, 3);
    assert w0.sessions[TokenOf(Draw("1"))].username == "alice";
    var user := LookupUsername(cfg, w0, "alice").1;
    assert user == if cfg.cacheTTL.Some? then Some(ALICE) else None;
  }

  // ---- A name taken over ----

  function SignUpAsAlice(): Input {
    Input(3, "", Draw("3"), RequestSignup("alice", PASSWORD, OTHER_MAIL, ALICES_MOBILE, Some("hash"), true))
  }

  function VerifyAlice(): Input { Input(4, "", Draw("4"), VerifySignup(ALICES_MOBILE, "123456", Approved)) }

  function RefreshLast(): Input { Input(5, "", Draw("5"), Refresh(TokenOf(Draw("1")))) }

  const OTHER_ALICE := User(2, "alice", OTHER_MAIL, "+91" + ALICES_MOBILE, true, ROLE_CUSTOMER, true)

  function AlicesSignup(cfg: Config): PendingSignup {
    PendingSignup("alice", "hash", OTHER_MAIL, "+91" + ALICES_MOBILE, 0, 3, 3 + cfg.pendingSignupTTL)
  }

  lemma AllDiffer()
    ensures "alice" != "bob" && OTHER_MAIL != ALICES_MAIL && "+91" + ALICES_MOBILE != "+91" + BOBS_MOBILE
    ensures "+91" + ALICES_MOBILE != ""
  {
    NamesDiffer();
    assert |OTHER_MAIL| == 7 && |ALICES_MAIL| == 11;
    assert ("+91" + ALICES_MOBILE)[4] == '1' && ("+91" + BOBS_MOBILE)[4] == '8';
  }

  lemma AlicesForm(cfg: Config)
    ensures NormalizeSignup(cfg, "alice", PASSWORD, OTHER_MAIL, ALICES_MOBILE) ==
      Ok(SignupForm("alice", OTHER_MAIL, "+91" + ALICES_MOBILE))
  {
    hide Text.TrimSpace, Mobile.Normalize, Text.ToLower;
    Numbers(cfg.wideDigits);
    Trimmed("alice");
    Trimmed(OTHER_MAIL);
    Lower(OTHER_MAIL);
  }

  lemma SigningUp(cfg: Config, w: World)
    requires Renamed(cfg, w) && Unlimited(cfg) && cfg.Valid() && cfg.cacheTTL.None? && cfg.refreshTokenTTL > 3
    ensures
      var w' := Step(cfg, w, SignUpAsAlice()).0;
      && w'.clock == 3 && w'.tables == w.tables && w'.cache == map[] && w'.sessions == w.sessions && w'.roots == w.roots
      && w'.pending == map["+91" + ALICES_MOBILE := AlicesSignup(cfg)]
  {
    hide Tick, Mobile.Normalize, NormalizeSignup, TokenOf, Serve, Admit;
    UnlimitedAdmits(cfg, w, SignUpAsAlice());
    AllLive(w, 3);
    TickLeaves(w, 3);
    AlicesForm(cfg);
    AllDiffer();
    var w0 := Tick(w, 3);
    var form := SignupForm("alice", OTHER_MAIL, "+91" + ALICES_MOBILE);
    assert Find([BOB], ByUsername, "alice").None? && Find([BOB], ByEmail, OTHER_MAIL).None?;
    assert Find([BOB], ByMobile, form.mobile).None?;
    assert Availability(cfg, w0, form) == (w0, None);
    assert Serve(cfg, w0, SignUpAsAlice().request, Draw("3")) == DoRequestSignup(cfg, w0, SignUpAsAlice().request) by {
      ServeSignup(cfg, w0, SignUpAsAlice().request, Draw("3"));
    }
  }

  lemma ServeSignup(cfg: Config, w: World, r: Request, e: Entropy)
    ensures r.RequestSignup? ==> Serve(cfg, w, r, e) == DoRequestSignup(cfg, w, r)
    ensures r.VerifySignup? ==> Serve(cfg, w, r, e) == DoVerifySignup(cfg, w, r, e)
  {
    hide DoRequestSignup, DoVerifySignup;
  }

  lemma AliceIsRegistered(cfg: Config)
    ensures
      var made := Register(UserTables([BOB], map[], [GOOGLE_ROW]), NewUser(AlicesSignup(cfg)), "hash");
      made.Ok? && made.value.0.users == [BOB, OTHER_ALICE] && made.value.1 == OTHER_ALICE
  {
    AllDiffer();
    assert NewUser(AlicesSignup(cfg)).(id := 2) == OTHER_ALICE;
    assert [BOB] + [OTHER_ALICE] == [BOB, OTHER_ALICE];
  }

  lemma Verifying(cfg: Config, w: World, before: World)
    requires Renamed(cfg, before) && cfg.Valid() && Unlimited(cfg) && cfg.cacheTTL.None? && cfg.refreshTokenTTL > 3
    requires w.clock == 3 && w.tables == before.tables && w.cache == map[] && w.sessions == before.sessions
    requires w.roots == before.roots && w.pending == map["+91" + ALICES_MOBILE := AlicesSignup(cfg)]
    ensures
      var w' := Step(cfg, w, VerifyAlice()).0;
      && w'.clock == 4 && w'.tables.users == [BOB, OTHER_ALICE] && w'.cache == map[]
      && TokenOf(Draw("1")) in w'.sessions && w'.sessions[TokenOf(Draw("1"))] == Session(cfg, "1", 1, "alice", 1)
      && w'.pending == map[] && w'.roots.Keys == w.roots.Keys + {TokenOf(Draw("4"))}
      && forall k :: k in w'.sessions ==> 4 < w'.sessions[k].expiresAt
  {
    hide Tick, Mobile.Normalize, Register, Serve, Admit, Text.TrimSpace;
    UnlimitedAdmits(cfg, w, VerifyAlice());
    AllLive(w, 4);
    TickLeaves(w, 4);
    Numbers(cfg.wideDigits);
    Trimmed("123456");
    DrawsDiffer("1", "4");
    DrawsDiffer("2", "4");
    AliceIsRegistered(cfg);
    ServeSignup(cfg, Tick(w, 4), VerifyAlice().request, Draw("4"));
    assert w.pending - {"+91" + ALICES_MOBILE} == map[];
  }

  lemma RefreshingAnother(cfg: Config, w: World)
    requires cfg.Valid() && cfg.cacheTTL.None?
    requires w.clock == 4 && w.tables.users == [BOB, OTHER_ALICE] && w.cache == map[] && w.pending == map[]
    requires TokenOf(Draw("1")) in w.sessions && w.sessions[TokenOf(Draw("1"))] == Session(cfg, "1", 1, "alice", 1)
    requires forall k :: k in w.sessions ==> 4 < w.sessions[k].expiresAt
    ensures var reply := Step(cfg, w, RefreshLast()).1; reply.Issued? && reply.user == OTHER_ALICE
  {
    hide Tick, Text.TrimSpace, Serve;
    AllLive(w, 5);
    TickLeaves(w, 5);
    assert TokenOf(Draw("1")) == "1.x";
    Trimmed("1.x");
    NamesDiffer();
    Accounts.RefreshStep(cfg, w, RefreshLast());
    assert Find([BOB, OTHER_ALICE], ByUsername, "alice") == Some(OTHER_ALICE) by {
      assert [BOB, OTHER_ALICE][1..] == [OTHER_ALICE];
    }
    assert LookupUsername(cfg, Tick(w, 5), "alice").1 == Some(OTHER_ALICE);
  }

  /** Once another user has taken the name that alice gave up, alice's first token yields tokens for that user. */
  lemma RefreshAsAnotherUser(cfg: Config) returns (run: Run)
    requires cfg.Valid() && Unlimited(cfg) && cfg.cacheTTL.None? && cfg.refreshTokenTTL > 3
    ensures IsRun(cfg, run) && run.inputs == [SignOn(), Rename(), SignUpAsAlice(), VerifyAlice(), RefreshLast()]
    ensures AllPass(run.inputs)
    ensures run.replies[0].Issued? && run.replies[0].user.id == 1
    ensures run.replies[0].tokens.refreshToken == run.inputs[4].request.token
    ensures run.replies[4].Issued? && run.replies[4].user.id == 2
  {
    hide Step, TokenOf, Unlimited;
    assert OTHER_MAIL == "a" + "@" + "y" + "." + "com";
    SignupsPass(OTHER_MAIL, "a", "y", "alice", ALICES_MOBILE);
    run := RenamingRun(cfg);
    var renamed := run.states[2];
    SigningUp(cfg, renamed);
    DrawsDiffer("1", "3");
    DrawsDiffer("2", "3");
    DrawsDiffer("1", "4");
    DrawsDiffer("2", "4");
    DrawsDiffer("1", "5");
    DrawsDiffer("2", "5");
    DrawsDiffer("4", "5");
    run := Extend(cfg, run, SignUpAsAlice());
    Verifying(cfg, run.states[3], renamed);
    run := Extend(cfg, run, VerifyAlice());
    RefreshingAnother(cfg, run.states[4]);
    run := Extend(cfg, run, RefreshLast());
  }

  // ---- A name taken over by an incomplete user ----

  const THIRD_MAIL := "alice@z.com"

  const NEW_ALICE := User(2, "alice", THIRD_MAIL, "", false, ROLE_CUSTOMER, false)

  function SignOnAgain(): Input { Input(3, "", Draw("3"), GoogleLogin("h", THIRD_MAIL)) }

  lemma NewAliceIsCreated()
    ensures CreateSSOUser(UserTables([BOB], map[], [GOOGLE_ROW]), Newcomer("alice", THIRD_MAIL), GOOGLE, "h")
         == Ok((UserTables([BOB, NEW_ALICE], map[], [GOOGLE_ROW, SSORow(2, GOOGLE, "h")]), NEW_ALICE))
  {
    var newcomer, t := Newcomer("alice", THIRD_MAIL), UserTables([BOB], map[], [GOOGLE_ROW]);
    assert newcomer.(id := 2) == NEW_ALICE;
    assert [BOB] + [NEW_ALICE] == [BOB, NEW_ALICE];
    MailsDiffer();
    assert [GOOGLE_ROW] + [SSORow(2, GOOGLE, "h")] == [GOOGLE_ROW, SSORow(2, GOOGLE, "h")];
    assert Register(t, newcomer, "") == Ok((t.(users := [BOB, NEW_ALICE]), NEW_ALICE));
  }

  lemma MailsDiffer()
    ensures THIRD_MAIL != ALICES_MAIL && "alice" != "bob"
  {
    NamesDiffer();
    assert THIRD_MAIL[6] == 'z' && ALICES_MAIL[6] == 'x';
  }

  lemma SigningOnAgain(cfg: Config, w: World)
    requires Renamed(cfg, w) && cfg.cacheTTL.None? && cfg.refreshTokenTTL > 2
    ensures
      var (w', reply) := Step(cfg, w, SignOnAgain());
      w'.clock == 3 && w'.tables.users == [BOB, NEW_ALICE] && w'.cache == map[] && reply.Issued?
  {
    hide Tick, LocalPart, Fallback, TokenOf, CreateSSOUser;
    AllLive(w, 3);
    TickLeaves(w, 3);
    MailsDiffer();
    NewAliceIsCreated();
    assert THIRD_MAIL[5] == '@';
    LocalPartOf("alice", "z.com");
    assert "alice" + "@" + "z.com" == THIRD_MAIL;
    var w0 := Tick(w, 3);
    assert FindSSO(w0.tables, GOOGLE, "h").None?;
    assert Lookup(cfg, w0, ByEmail, THIRD_MAIL) == (w0, None);
    assert LookupUsername(cfg, w0, "alice") == (w0, None);
  }

  /** Alice's first access token now takes the gate of profile completion to the other alice. */
  lemma GateYieldsAnotherUser(cfg: Config) returns (run: Run)
    requires cfg.Valid() && cfg.cacheTTL.None? && cfg.refreshTokenTTL > 2 && cfg.accessTokenTTL > 2
    ensures IsRun(cfg, run) && run.inputs == [SignOn(), Rename(), SignOnAgain()] && AllPass(run.inputs)
    ensures run.replies[0].Issued? && run.replies[0].user.id == 1
    ensures
      var w, token := Tick(run.states[3], 4), run.replies[0].tokens.accessToken;
      Accounts.RequirePartialAccessToken(cfg, w, token, 4) == Some(2)
  {
    hide Step, TokenOf, Tick;
    run := RenamingRun(cfg);
    DrawsDiffer("1", "3");
    DrawsDiffer("2", "3");
    SigningOnAgain(cfg, run.states[2]);
    run := Extend(cfg, run, SignOnAgain());
    TickLeaves(run.states[3], 4);
    TickEmptyCache(run.states[3], 4);
    Trimmed("alice");
    SecondIsFound();
  }

  lemma TickEmptyCache(w: World, now: Time)
    requires w.cache == map[]
    ensures Tick(w, now).cache == map[]
  {
  }

  lemma SecondIsFound()
    ensures Find([BOB, NEW_ALICE], ByUsername, "alice") == Some(NEW_ALICE)
  {
    NamesDiffer();
    assert [BOB, NEW_ALICE][1..] == [NEW_ALICE];
  }
}
