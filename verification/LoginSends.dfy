/** How often a login OTP is sent to one number (RequestLoginOTP, auth/service/service.go). */
module LoginSends {
  import opened Auth
  import opened Machine
  import opened Invariants
  import opened OTPEffects
  import Mobile
  import Outcomes
  import RateLimit
  import SignupStatus

  datatype LoginStep = Sent(at: Time) | Cleared

  /** The login codes sent to a number and the approvals that cleared its state, in order. */
  ghost function LoginHistory(log: seq<Message>, m: string): seq<LoginStep> {
    if log == [] then []
    else LoginHistory(log[..|log| - 1], m) + LoginStepOf(log[|log| - 1], m)
  }

  ghost function LoginStepOf(msg: Message, m: string): seq<LoginStep> {
    match msg
    case LoginSent(n, at) => if n == m then [Sent(at)] else []
    case LoginApproved(n, _) => if n == m then [Cleared] else []
    case _ => []
  }

  /** Length of the longest tail of sends in which no gap exceeds ttl. */
  ghost function Streak(p: seq<LoginStep>, ttl: Time): nat {
    var n := |p|;
    if n == 0 || p[n - 1].Cleared? then 0
    else if n >= 2 && p[n - 2].Sent? && p[n - 1].at - p[n - 2].at <= ttl then Streak(p[..n - 1], ttl) + 1
    else 1
  }

  /** What the resend window promises of a history. */
  ghost predicate Throttled(cfg: Config, p: seq<LoginStep>) {
    && (forall k :: 0 <= k <= |p| && cfg.maxResends > 0 ==> Streak(p[..k], cfg.pendingSignupTTL) <= cfg.maxResends + 1)
    && (forall k :: 0 <= k < |p| - 1 && p[k].Sent? && p[k + 1].Sent? ==>
          p[k + 1].at - p[k].at >= cfg.resendCooldown || p[k + 1].at - p[k].at > cfg.pendingSignupTTL)
  }

  /** The stored state of a number mirrors the end of its history. */
  ghost predicate Mirrored(cfg: Config, w: World, m: string) {
    var p := LoginHistory(w.messages, m);
    var key := LoginKey(m);
    if p != [] && p[|p| - 1].Sent? then
      var t := p[|p| - 1].at;
      && 0 < t <= w.clock
      && Streak(p, cfg.pendingSignupTTL) >= 1
      && (key in w.logins <==> w.clock <= t + cfg.pendingSignupTTL)
      && (key in w.logins ==>
            w.logins[key] == OTPRequestState(m, Streak(p, cfg.pendingSignupTTL) - 1, t, t + cfg.pendingSignupTTL))
    else
      key !in w.logins
  }

  ghost predicate LoginsOk(cfg: Config, w: World, m: string) {
    Mirrored(cfg, w, m) && Throttled(cfg, LoginHistory(w.messages, m))
  }

  lemma TickMirrors(cfg: Config, w: World, now: Time, m: string)
    requires LoginsOk(cfg, w, m) && w.clock <= now
    ensures LoginsOk(cfg, Tick(w, now), m)
  {
    hide Throttled, Streak;
  }

  lemma HistoryAppend(log: seq<Message>, msg: Message, m: string)
    ensures LoginHistory(log + [msg], m) == LoginHistory(log, m) + LoginStepOf(msg, m)
  {
    assert (log + [msg])[..|log|] == log;
  }

  lemma ThrottledAppend(cfg: Config, p: seq<LoginStep>, s: LoginStep)
    requires Throttled(cfg, p)
    requires cfg.maxResends > 0 ==> Streak(p + [s], cfg.pendingSignupTTL) <= cfg.maxResends + 1
    requires s.Sent? && p != [] && p[|p| - 1].Sent? ==>
      s.at - p[|p| - 1].at >= cfg.resendCooldown || s.at - p[|p| - 1].at > cfg.pendingSignupTTL
    ensures Throttled(cfg, p + [s])
  {
    hide Streak;
    var q := p + [s];
    forall k | 0 <= k <= |q| && cfg.maxResends > 0 ensures Streak(q[..k], cfg.pendingSignupTTL) <= cfg.maxResends + 1 {
      if k <= |p| { assert q[..k] == p[..k]; } else { assert q[..k] == q; }
    }
  }

  /** A permitted send continues the streak within the lifetime, and starts a new one after it. */
  lemma NextStreak(cfg: Config, a: World, m: string)
    requires cfg.Valid() && a.clock > 0 && Mirrored(cfg, a, m)
    requires var key := LoginKey(m);
      key in a.logins ==> ResendError(cfg, a.clock, a.logins[key].lastSentAt, a.logins[key].resendCount).None?
    ensures
      var p, key := LoginHistory(a.messages, m), LoginKey(m);
      var last := if p != [] then p[|p| - 1] else Cleared;
      && Streak(p + [Sent(a.clock)], cfg.pendingSignupTTL) ==
          (if key in a.logins then a.logins[key].resendCount + 2 else 1)
      && (key in a.logins && cfg.maxResends > 0 ==> a.logins[key].resendCount < cfg.maxResends)
      && (last.Sent? ==> a.clock - last.at >= cfg.resendCooldown || a.clock - last.at > cfg.pendingSignupTTL)
  {
    var p := LoginHistory(a.messages, m);
    var q := p + [Sent(a.clock)];
    assert q[..|p|] == p;
    assert p != [] ==> q[|q| - 2] == p[|p| - 1];
  }

  lemma SendMirrors(cfg: Config, a: World, b: World, n: string, m: string)
    requires cfg.Valid() && a.clock > 0 && LoginsOk(cfg, a, m)
    requires LoginSend(cfg, a, b, n) && b.clock == a.clock
    ensures LoginsOk(cfg, b, m)
  {
    hide Throttled, Streak, LoginHistory;
    HistoryAppend(a.messages, LoginSent(n, a.clock), m);
    if n == m {
      NextStreak(cfg, a, m);
      ThrottledAppend(cfg, LoginHistory(a.messages, m), Sent(a.clock));
    } else {
      KeysDiffer(n, m);
      assert LoginHistory(b.messages, m) == LoginHistory(a.messages, m);
    }
  }

  lemma KeysDiffer(n: string, m: string)
    ensures LoginKey(n) == LoginKey(m) ==> n == m
  {
    assert LoginKey(n)[6..] == n && LoginKey(m)[6..] == m;
  }

  lemma ApprovalMirrors(cfg: Config, a: World, b: World, n: string, m: string)
    requires cfg.Valid() && LoginsOk(cfg, a, m) && LoginVerified(a, b, n) && b.clock == a.clock
    ensures LoginsOk(cfg, b, m)
  {
    hide Throttled;
    HistoryAppend(a.messages, LoginApproved(n, a.clock), m);
    KeysDiffer(n, m);
    if n == m {
      ThrottledAppend(cfg, LoginHistory(a.messages, m), Cleared);
    } else {
      assert LoginHistory(b.messages, m) == LoginHistory(a.messages, m);
    }
  }

  /** Signup traffic does not show in a login history. */
  lemma SignupTraffic(cfg: Config, a: World, b: World, r: Request, m: string)
    requires Effect(cfg, a, b, r) && !r.RequestLogin? && !r.VerifyLogin?
    ensures LoginHistory(b.messages, m) == LoginHistory(a.messages, m) && b.logins == a.logins
  {
    hide Number, LoginHistory, ResendError;
    var n := Number(cfg, r);
    if !Quiet(a, b) {
      match r
      case RequestSignup(_, _, _, _, _, _) => HistoryAppend(a.messages, SignupSent(n, a.clock, true), m);
      case ResendSignup(_, _) => HistoryAppend(a.messages, SignupSent(n, a.clock, false), m);
      case VerifySignup(_, _, _) => ApprovalTraffic(a, b, n, m);
    }
  }

  lemma ApprovalTraffic(a: World, b: World, n: string, m: string)
    requires SignupVerified(a, b, n)
    ensures LoginHistory(b.messages, m) == LoginHistory(a.messages, m)
  {
    hide LoginHistory;
    HistoryAppend(a.messages, SignupApproved(n, a.clock), m);
    if b.messages != a.messages + [SignupApproved(n, a.clock)] {
      var u :| b.messages == a.messages + [SignupApproved(n, a.clock), Registered(u, a.clock)];
      HistoryAppend(a.messages + [SignupApproved(n, a.clock)], Registered(u, a.clock), m);
      assert b.messages == a.messages + [SignupApproved(n, a.clock)] + [Registered(u, a.clock)];
    }
  }

  lemma EffectMirrors(cfg: Config, a: World, b: World, r: Request, m: string)
    requires cfg.Valid() && a.clock > 0 && LoginsOk(cfg, a, m) && Effect(cfg, a, b, r)
    ensures LoginsOk(cfg, b, m)
  {
    hide Throttled, Streak, LoginSend, LoginVerified;
    if Quiet(a, b) {
    } else if r.RequestLogin? {
      SendMirrors(cfg, a, b, Number(cfg, r), m);
    } else if r.VerifyLogin? {
      ApprovalMirrors(cfg, a, b, Number(cfg, r), m);
    } else {
      SignupTraffic(cfg, a, b, r, m);
    }
  }

  lemma StepMirrors(cfg: Config, w: World, input: Input, m: string)
    requires Inv(cfg, w) && cfg.Valid() && Possible(w, input) && LoginsOk(cfg, w, m)
    ensures LoginsOk(cfg, Step(cfg, w, input).0, m)
  {
    hide Inv, Grows, Admit, Step, Effect, Throttled, Streak, LiveCache, LiveSessions, LiveWindows, LivePending,
      LiveLogins;
    var w0 := Tick(w, input.at);
    TickKeeps(cfg, w, input.at);
    TickMirrors(cfg, w, input.at, m);
    StepEffect(cfg, w, input);
    var (w1, ok) := Admit(cfg, w0, input);
    assert LoginsOk(cfg, w1, m);
    if ok {
      Positive(cfg, w0);
      EffectMirrors(cfg, w1, Step(cfg, w, input).0, input.request, m);
    }
  }

  lemma {:induction false} RunMirrors(cfg: Config, run: Run, n: nat, m: string)
    requires IsRun(cfg, run) && n <= |run.inputs| && cfg.Valid()
    ensures LoginsOk(cfg, run.states[n], m)
  {
    hide Inv, Step, Throttled;
    if n == 0 {
      assert run.states[0] == INITIAL;
      EmptyThrottled(cfg);
    } else {
      RunMirrors(cfg, run, n - 1, m);
      StepAt(cfg, run, n - 1);
      StepMirrors(cfg, run.states[n - 1], run.inputs[n - 1], m);
    }
  }

  lemma EmptyThrottled(cfg: Config)
    ensures Throttled(cfg, [])
  {
  }

  /** A tail of sends with no gap above ttl makes a streak at least as long. */
  lemma {:induction false} ChainIsStreak(p: seq<LoginStep>, n: nat, ttl: Time)
    requires 0 < n <= |p|
    requires forall k :: |p| - n <= k < |p| ==> p[k].Sent?
    requires forall k :: |p| - n <= k < |p| - 1 ==> p[k + 1].at - p[k].at <= ttl
    ensures Streak(p, ttl) >= n
  {
    if n > 1 {
      ChainIsStreak(p[..|p| - 1], n - 1, ttl);
    }
  }

  /**
    Among any maxResends + 2 successive login sends to a number with no approval between them,
    two neighbours are further apart than the state's lifetime.
    */
  lemma SendsAreBounded(cfg: Config, run: Run, n: nat, m: string, i: nat)
    requires IsRun(cfg, run) && n <= |run.inputs| && cfg.Valid() && cfg.maxResends > 0
    requires i + cfg.maxResends + 2 <= |LoginHistory(run.states[n].messages, m)|
    requires var p := LoginHistory(run.states[n].messages, m);
      forall k :: i <= k < i + cfg.maxResends + 2 ==> p[k].Sent?
    ensures var p := LoginHistory(run.states[n].messages, m);
      exists k :: i <= k < i + cfg.maxResends + 1 && p[k + 1].at - p[k].at > cfg.pendingSignupTTL
  {
    hide Streak, Mirrored;
    RunMirrors(cfg, run, n, m);
    var p := LoginHistory(run.states[n].messages, m);
    var size := cfg.maxResends + 2;
    assert Streak(p[..i + size], cfg.pendingSignupTTL) <= cfg.maxResends + 1;
    if forall k :: i <= k < i + size - 1 ==> p[k + 1].at - p[k].at <= cfg.pendingSignupTTL {
      ChainIsStreak(p[..i + size], size, cfg.pendingSignupTTL);
      assert false;
    }
  }

  /**
    Successive sends are at least the cooldown apart unless the state of the first has expired;
    so always, if the state outlives the cooldown.
    */
  lemma SendsAreSpaced(cfg: Config, run: Run, n: nat, m: string, k: nat)
    requires IsRun(cfg, run) && n <= |run.inputs| && cfg.Valid()
    requires var p := LoginHistory(run.states[n].messages, m);
      k + 1 < |p| && p[k].Sent? && p[k + 1].Sent?
    ensures var p := LoginHistory(run.states[n].messages, m);
      && (p[k + 1].at - p[k].at >= cfg.resendCooldown || p[k + 1].at - p[k].at > cfg.pendingSignupTTL)
      && (cfg.pendingSignupTTL >= cfg.resendCooldown ==> p[k + 1].at - p[k].at >= cfg.resendCooldown)
  {
    hide Streak, Mirrored;
    RunMirrors(cfg, run, n, m);
  }

  /** The history permits another code: the state of the last one has lapsed, or quota and cooldown allow it. */
  ghost predicate MaySend(cfg: Config, p: seq<LoginStep>, now: Time) {
    p != [] && p[|p| - 1].Sent? && now <= p[|p| - 1].at + cfg.pendingSignupTTL ==>
      && (cfg.maxResends > 0 ==> Streak(p, cfg.pendingSignupTTL) <= cfg.maxResends)
      && now - p[|p| - 1].at >= cfg.resendCooldown
  }

  lemma DueIffMaySend(cfg: Config, w: World, m: string)
    requires cfg.Valid() && Mirrored(cfg, w, m)
    ensures Outcomes.LoginSendDue(cfg, w, m) <==>
      SignupStatus.VerifiedHolder(w.tables.users, m) && MaySend(cfg, LoginHistory(w.messages, m), w.clock)
  {
    hide Streak, LoginHistory, SignupStatus.VerifiedHolder;
  }

  /** A login request served at a time: what it adds to the history of its number, and its reply. */
  ghost predicate SendsIfDue(p: seq<LoginStep>, p': seq<LoginStep>, due: bool, sent: bool, at: Time, reply: Reply) {
    && p' == (if due && sent then p + [Sent(at)] else p)
    && reply == if due && !sent then Failed(ProviderFailed) else Accepted
  }

  /**
    A login request sends a code if and only if the limiter lets it through, a verified user has the number
    and the codes sent so far permit another. It is answered alike whether or not one is due.
    */
  lemma SentIff(cfg: Config, run: Run, i: nat, m: string)
    requires IsRun(cfg, run) && i < |run.inputs| && cfg.Valid() && run.inputs[i].request.RequestLogin?
    requires Mobile.Normalize(run.inputs[i].request.mobile, cfg.wideDigits) == Ok(m)
    ensures
      var w, at, reply := run.states[i], run.inputs[i].at, run.replies[i];
      var p, p' := LoginHistory(w.messages, m), LoginHistory(run.states[i + 1].messages, m);
      if RateLimit.Limited(cfg, run.inputs, i) then reply == Failed(OTPTooManyRequests) && p' == p
      else
        var due := SignupStatus.VerifiedHolder(w.tables.users, m) && MaySend(cfg, p, at);
        SendsIfDue(p, p', due, run.inputs[i].request.sent, at, reply)
  {
    hide Inv, Step, Throttled, Streak, LoginHistory, Mirrored, LiveCache, LiveSessions, LiveWindows, LivePending,
      LiveLogins, RateLimit.Limited, Mobile.Normalize, Outcomes.LoginSendDue, SignupStatus.VerifiedHolder, MaySend;
    RunMirrors(cfg, run, i, m);
    StepAt(cfg, run, i);
    TickMirrors(cfg, run.states[i], run.inputs[i].at, m);
    var w := Tick(run.states[i], run.inputs[i].at);
    DueIffMaySend(cfg, w, m);
    Outcomes.EveryRequest(cfg, run, i);
    HistoryAppend(w.messages, LoginSent(m, w.clock), m);
  }
}
