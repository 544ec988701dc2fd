/** How often a signup OTP is sent for one pending signup (auth/service/service.go). */
module SignupSends {
  import opened Auth
  import opened Machine
  import opened Invariants
  import opened OTPEffects
  import Mobile
  import Outcomes
  import RateLimit

  datatype SignupStep = First(at: Time) | Again(at: Time)

  /** The signup codes sent to a number, in order: by a signup request or by a resend. */
  ghost function SignupHistory(log: seq<Message>, m: string): seq<SignupStep> {
    if log == [] then []
    else SignupHistory(log[..|log| - 1], m) + SignupStepOf(log[|log| - 1], m)
  }

  ghost function SignupStepOf(msg: Message, m: string): seq<SignupStep> {
    match msg
    case SignupSent(n, at, first) => if n != m then [] else if first then [First(at)] else [Again(at)]
    case _ => []
  }

  /** One pending signup: when it was requested, how many resends it saw before its expiry, and its last send then. */
  datatype Episode = Episode(start: Time, resends: nat, last: Time)

  /** The episode at the end of a history. A resend at the very expiry is not recorded by the store. */
  ghost function Current(p: seq<SignupStep>, ttl: Time): Option<Episode> {
    var n := |p|;
    if n == 0 then None
    else match p[n - 1]
      case First(t) => Some(Episode(t, 0, t))
      case Again(t) =>
        match Current(p[..n - 1], ttl)
        case None => None
        case Some(e) => Some(if t < e.start + ttl then Episode(e.start, e.resends + 1, t) else e)
  }

  /** A resend falls within an episode, before or at its expiry, within its quota and after the cooldown. */
  ghost predicate Permitted(cfg: Config, p: seq<SignupStep>, s: SignupStep) {
    s.Again? ==>
      match Current(p, cfg.pendingSignupTTL)
      case None => false
      case Some(e) =>
        && s.at <= e.start + cfg.pendingSignupTTL
        && (cfg.maxResends > 0 ==> e.resends < cfg.maxResends)
        && s.at - e.last >= cfg.resendCooldown
  }

  ghost predicate AllPermitted(cfg: Config, p: seq<SignupStep>) {
    && (forall k :: 0 <= k < |p| ==> Permitted(cfg, p[..k], p[k]))
    && (forall k :: 0 <= k < |p| - 1 ==> p[k].at <= p[k + 1].at)
  }

  /** The stored record of a number is the current episode of its history. */
  ghost predicate Recorded(cfg: Config, w: World, m: string) {
    var p := SignupHistory(w.messages, m);
    && (p != [] ==> p[|p| - 1].at <= w.clock)
    && (m in w.pending ==>
          match Current(p, cfg.pendingSignupTTL)
          case None => false
          case Some(e) =>
            && 0 < e.last <= w.clock
            && w.pending[m].expiresAt == e.start + cfg.pendingSignupTTL
            && w.pending[m].resendCount == e.resends && w.pending[m].lastSentAt == e.last)
  }

  ghost predicate SignupsOk(cfg: Config, w: World, m: string) {
    Recorded(cfg, w, m) && AllPermitted(cfg, SignupHistory(w.messages, m))
  }

  lemma TickRecords(cfg: Config, w: World, now: Time, m: string)
    requires SignupsOk(cfg, w, m) && w.clock <= now
    ensures SignupsOk(cfg, Tick(w, now), m)
  {
    hide AllPermitted, Current;
  }

  lemma HistoryAppend(log: seq<Message>, msg: Message, m: string)
    ensures SignupHistory(log + [msg], m) == SignupHistory(log, m) + SignupStepOf(msg, m)
  {
    assert (log + [msg])[..|log|] == log;
  }

  lemma PermittedAppend(cfg: Config, p: seq<SignupStep>, s: SignupStep)
    requires AllPermitted(cfg, p) && Permitted(cfg, p, s)
    requires p != [] ==> p[|p| - 1].at <= s.at
    ensures AllPermitted(cfg, p + [s])
  {
    hide Permitted;
    var q := p + [s];
    forall k | 0 <= k < |q| ensures Permitted(cfg, q[..k], q[k]) {
      if k < |p| { assert q[..k] == p[..k] && q[k] == p[k]; } else { assert q[..k] == p; }
    }
  }

  lemma FirstRecorded(cfg: Config, a: World, b: World, n: string, m: string)
    requires cfg.Valid() && a.clock > 0 && SignupsOk(cfg, a, m) && FirstSend(cfg, a, b, n) && b.clock == a.clock
    ensures SignupsOk(cfg, b, m)
  {
    hide AllPermitted;
    HistoryAppend(a.messages, SignupSent(n, a.clock, true), m);
    var p := SignupHistory(a.messages, m);
    if n == m {
      PermittedAppend(cfg, p, First(a.clock));
    } else {
      assert SignupHistory(b.messages, m) == p;
    }
  }

  lemma ResendRecorded(cfg: Config, a: World, b: World, n: string, m: string)
    requires cfg.Valid() && a.clock > 0 && SignupsOk(cfg, a, m) && Resend(cfg, a, b, n) && b.clock == a.clock
    requires n in a.pending && a.clock <= a.pending[n].expiresAt
    ensures SignupsOk(cfg, b, m)
  {
    hide AllPermitted, SignupHistory;
    HistoryAppend(a.messages, SignupSent(n, a.clock, false), m);
    var p := SignupHistory(a.messages, m);
    if n == m {
      var q := p + [Again(a.clock)];
      assert q[..|p|] == p;
      PermittedAppend(cfg, p, Again(a.clock));
    } else {
      assert SignupHistory(b.messages, m) == p;
    }
  }

  /** Login traffic and approvals do not show in a signup history. */
  lemma OtherTraffic(cfg: Config, a: World, b: World, r: Request, m: string)
    requires Effect(cfg, a, b, r) && !r.RequestSignup? && !r.ResendSignup?
    ensures SignupHistory(b.messages, m) == SignupHistory(a.messages, m)
    ensures b.pending == a.pending || b.pending == a.pending - {Number(cfg, r)}
  {
    var n := Number(cfg, r);
    if !Quiet(a, b) {
      match r
      case RequestLogin(_, _) => HistoryAppend(a.messages, LoginSent(n, a.clock), m);
      case VerifyLogin(_, _, _) => HistoryAppend(a.messages, LoginApproved(n, a.clock), m);
      case VerifySignup(_, _, _) =>
        HistoryAppend(a.messages, SignupApproved(n, a.clock), m);
        if b.messages != a.messages + [SignupApproved(n, a.clock)] {
          var u :| b.messages == a.messages + [SignupApproved(n, a.clock), Registered(u, a.clock)];
          HistoryAppend(a.messages + [SignupApproved(n, a.clock)], Registered(u, a.clock), m);
          assert b.messages == a.messages + [SignupApproved(n, a.clock)] + [Registered(u, a.clock)];
        }
    }
  }

  lemma EffectRecorded(cfg: Config, a: World, b: World, r: Request, m: string)
    requires cfg.Valid() && a.clock > 0 && SignupsOk(cfg, a, m) && Effect(cfg, a, b, r)
    requires forall n :: n in a.pending ==> a.clock <= a.pending[n].expiresAt
    ensures SignupsOk(cfg, b, m)
  {
    hide AllPermitted, Current, FirstSend, SignupVerified, LoginSend, LoginVerified;
    if Quiet(a, b) {
    } else if r.RequestSignup? {
      FirstRecorded(cfg, a, b, Number(cfg, r), m);
    } else if r.ResendSignup? {
      ResendRecorded(cfg, a, b, Number(cfg, r), m);
    } else {
      OtherTraffic(cfg, a, b, r, m);
    }
  }

  lemma StepRecorded(cfg: Config, w: World, input: Input, m: string)
    requires Inv(cfg, w) && cfg.Valid() && Possible(w, input) && SignupsOk(cfg, w, m)
    ensures SignupsOk(cfg, Step(cfg, w, input).0, m)
  {
    hide Inv, Grows, Admit, Step, Effect, AllPermitted, Current, LiveCache, LiveSessions, LiveWindows, LiveLogins;
    var w0 := Tick(w, input.at);
    TickKeeps(cfg, w, input.at);
    TickRecords(cfg, w, input.at, m);
    StepEffect(cfg, w, input);
    var (w1, ok) := Admit(cfg, w0, input);
    assert SignupsOk(cfg, w1, m);
    if ok {
      Positive(cfg, w0);
      EffectRecorded(cfg, w1, Step(cfg, w, input).0, input.request, m);
    }
  }

  lemma {:induction false} RunRecorded(cfg: Config, run: Run, n: nat, m: string)
    requires IsRun(cfg, run) && n <= |run.inputs| && cfg.Valid()
    ensures SignupsOk(cfg, run.states[n], m)
  {
    hide Inv, Step;
    if n == 0 {
      assert run.states[0] == INITIAL;
    } else {
      hide AllPermitted;
      RunRecorded(cfg, run, n - 1, m);
      StepAt(cfg, run, n - 1);
      StepRecorded(cfg, run.states[n - 1], run.inputs[n - 1], m);
    }
  }

  lemma {:induction false} Sorted(cfg: Config, p: seq<SignupStep>, i: nat, j: nat)
    requires AllPermitted(cfg, p) && i <= j < |p|
    ensures p[i].at <= p[j].at
  {
    if i < j {
      Sorted(cfg, p, i, j - 1);
    }
  }

  /** Resends strictly before the expiry all count towards the episode they belong to. */
  lemma {:induction false} EpisodeOf(cfg: Config, p: seq<SignupStep>, i: nat, j: nat)
    requires AllPermitted(cfg, p) && i <= j < |p| && p[i].First?
    requires forall k :: i < k <= j ==> p[k].Again?
    requires p[j].at < p[i].at + cfg.pendingSignupTTL
    ensures Current(p[..j + 1], cfg.pendingSignupTTL) == Some(Episode(p[i].at, j - i, p[j].at))
  {
    hide AllPermitted;
    var q := p[..j + 1];
    assert q[|q| - 1] == p[j] && q[..|q| - 1] == p[..j];
    if i < j {
      Sorted(cfg, p, j - 1, j);
      EpisodeOf(cfg, p, i, j - 1);
    }
  }

  lemma BoundedIn(cfg: Config, p: seq<SignupStep>, i: nat, j: nat)
    requires AllPermitted(cfg, p) && i < j < |p| && p[i].First? && (forall k :: i < k <= j ==> p[k].Again?)
    requires p[j].at < p[i].at + cfg.pendingSignupTTL
    ensures (cfg.maxResends > 0 ==> j - i <= cfg.maxResends) && p[j].at - p[j - 1].at >= cfg.resendCooldown
  {
    hide Current;
    Sorted(cfg, p, j - 1, j);
    EpisodeOf(cfg, p, i, j - 1);
    assert Permitted(cfg, p[..j], p[j]);
  }

  /**
    From a signup request up to the next one, at most maxResends codes are resent strictly
    before the expiry, each at least the cooldown after the one before it.
    */
  lemma ResendsAreBounded(cfg: Config, run: Run, n: nat, m: string, i: nat, j: nat)
    requires IsRun(cfg, run) && n <= |run.inputs| && cfg.Valid()
    requires var p := SignupHistory(run.states[n].messages, m);
      && i < j < |p| && p[i].First? && (forall k :: i < k <= j ==> p[k].Again?)
      && p[j].at < p[i].at + cfg.pendingSignupTTL
    ensures var p := SignupHistory(run.states[n].messages, m);
      && (cfg.maxResends > 0 ==> j - i <= cfg.maxResends)
      && p[j].at - p[j - 1].at >= cfg.resendCooldown
  {
    hide AllPermitted, Recorded;
    RunRecorded(cfg, run, n, m);
    BoundedIn(cfg, SignupHistory(run.states[n].messages, m), i, j);
  }

  /** An episode starts at its signup request. */
  lemma {:induction false} EpisodeStartsAt(cfg: Config, p: seq<SignupStep>, i: nat, j: nat)
    requires i <= j < |p| && p[i].First? && forall k :: i < k <= j ==> p[k].Again?
    ensures var e := Current(p[..j + 1], cfg.pendingSignupTTL); e.Some? && e.value.start == p[i].at
  {
    var q := p[..j + 1];
    assert q[|q| - 1] == p[j] && q[..|q| - 1] == p[..j];
    if i < j {
      EpisodeStartsAt(cfg, p, i, j - 1);
    }
  }

  /**
    No code is resent after the expiry. So a resend beyond maxResends happens exactly at the instant of
    expiry, if at all.
    */
  lemma NoResendAfterExpiry(cfg: Config, run: Run, n: nat, m: string, i: nat, j: nat)
    requires IsRun(cfg, run) && n <= |run.inputs| && cfg.Valid()
    requires var p := SignupHistory(run.states[n].messages, m);
      i < j < |p| && p[i].First? && forall k :: i < k <= j ==> p[k].Again?
    ensures var p := SignupHistory(run.states[n].messages, m);
      && p[j].at <= p[i].at + cfg.pendingSignupTTL
      && (0 < cfg.maxResends < j - i ==> p[j].at == p[i].at + cfg.pendingSignupTTL)
  {
    hide Current, Recorded, SignupHistory;
    RunRecorded(cfg, run, n, m);
    var p := SignupHistory(run.states[n].messages, m);
    EpisodeStartsAt(cfg, p, i, j - 1);
    assert Permitted(cfg, p[..j], p[j]);
    if p[j].at < p[i].at + cfg.pendingSignupTTL { BoundedIn(cfg, p, i, j); }
  }

  /** The record belongs to the last signup request in the history: only resends follow it. */
  ghost predicate RequestedAt(p: seq<SignupStep>, i: nat, start: Time) {
    i < |p| && p[i] == First(start) && forall k :: i < k < |p| ==> p[k].Again?
  }

  ghost predicate LastRequestedAt(p: seq<SignupStep>, start: Time) {
    exists i :: RequestedAt(p, i, start)
  }

  /** No resend ever moves the expiry of a pending signup past its request plus the lifetime. */
  lemma ExpiryIsFixed(cfg: Config, run: Run, n: nat, m: string)
    requires IsRun(cfg, run) && n <= |run.inputs| && cfg.Valid() && m in run.states[n].pending
    ensures
      var w := run.states[n];
      LastRequestedAt(SignupHistory(w.messages, m), w.pending[m].expiresAt - cfg.pendingSignupTTL)
  {
    hide AllPermitted, LastRequestedAt, Current, Step, SignupHistory;
    RunRecorded(cfg, run, n, m);
    EpisodeStart(SignupHistory(run.states[n].messages, m), cfg.pendingSignupTTL);
  }

  lemma {:induction false} EpisodeStart(p: seq<SignupStep>, ttl: Time)
    requires Current(p, ttl).Some?
    ensures LastRequestedAt(p, Current(p, ttl).value.start)
  {
    var n := |p|;
    if p[n - 1].First? {
      assert RequestedAt(p, n - 1, p[n - 1].at);
    } else {
      EpisodeStart(p[..n - 1], ttl);
      var start := Current(p, ttl).value.start;
      var i :| RequestedAt(p[..n - 1], i, start);
      assert forall k :: 0 <= k < n - 1 ==> p[..n - 1][k] == p[k];
      assert RequestedAt(p, i, start);
    }
  }

  /** At the very instant of expiry a permitted resend goes out and leaves no trace in the store. */
  lemma ResendAtExpiry(cfg: Config, w: World, r: Request)
    requires r.ResendSignup? && r.sent
    requires var f := Mobile.Normalize(r.mobile, cfg.wideDigits);
      && f.Ok? && f.value in w.pending && w.pending[f.value].expiresAt == w.clock
      && ResendError(cfg, w.clock, w.pending[f.value].lastSentAt, w.pending[f.value].resendCount).None?
    ensures
      var m := Mobile.Normalize(r.mobile, cfg.wideDigits).value;
      && DoResendSignup(cfg, w, r) ==
          (w.(messages := w.messages + [SignupSent(m, w.clock, false)]), Failed(PendingSignupExpired))
      && DoResendSignup(cfg, DoResendSignup(cfg, w, r).0, r).0.messages
           == w.messages + [SignupSent(m, w.clock, false), SignupSent(m, w.clock, false)]
  {
  }

  /** The refusal of a resend by the codes sent so far for the pending signup, if there is one. */
  ghost function ResendRefusal(cfg: Config, p: seq<SignupStep>, now: Time): Option<Error> {
    match Current(p, cfg.pendingSignupTTL)
    case None => Some(PendingSignupExpired)
    case Some(e) =>
      if 0 < cfg.maxResends <= e.resends then Some(OTPResendLimitReached)
      else if now - e.last < cfg.resendCooldown then Some(OTPResendTooSoon)
      else None
  }

  /**
    A resend sends a code if and only if the limiter lets it through, a signup is pending for the number, and
    quota and cooldown of its codes so far allow one more; otherwise its reply tells which of them does not.
    */
  lemma ResentIff(cfg: Config, run: Run, i: nat, m: string)
    requires IsRun(cfg, run) && i < |run.inputs| && cfg.Valid() && run.inputs[i].request.ResendSignup?
    requires Mobile.Normalize(run.inputs[i].request.mobile, cfg.wideDigits) == Ok(m)
    ensures
      var w, at, sent := run.states[i], run.inputs[i].at, run.inputs[i].request.sent;
      var p, p', reply := SignupHistory(w.messages, m), SignupHistory(run.states[i + 1].messages, m), run.replies[i];
      if RateLimit.Limited(cfg, run.inputs, i) then reply == Failed(OTPTooManyRequests) && p' == p
      else if m !in w.pending || w.pending[m].expiresAt < at then reply == Failed(PendingSignupExpired) && p' == p
      else if ResendRefusal(cfg, p, at).Some? then reply == Failed(ResendRefusal(cfg, p, at).value) && p' == p
      else if !sent then reply == Failed(ProviderFailed) && p' == p
      else
        && p' == p + [Again(at)]
        && reply == if at < w.pending[m].expiresAt then Accepted else Failed(PendingSignupExpired)
  {
    hide Inv, Step, AllPermitted, SignupHistory, Recorded, LiveCache, LiveSessions, LiveWindows, LiveLogins,
      RateLimit.Limited, Mobile.Normalize, ResendRefusal;
    RunRecorded(cfg, run, i, m);
    StepAt(cfg, run, i);
    TickRecords(cfg, run.states[i], run.inputs[i].at, m);
    var w := Tick(run.states[i], run.inputs[i].at);
    Outcomes.EveryRequest(cfg, run, i);
    HistoryAppend(w.messages, SignupSent(m, w.clock, false), m);
    if m in w.pending { RefusalIs(cfg, w, m); }
  }

  lemma RefusalIs(cfg: Config, w: World, m: string)
    requires cfg.Valid() && Recorded(cfg, w, m) && m in w.pending
    ensures
      var s := w.pending[m];
      ResendRefusal(cfg, SignupHistory(w.messages, m), w.clock) ==
        if 0 < cfg.maxResends <= s.resendCount then Some(OTPResendLimitReached)
        else if s.lastSentAt != 0 && w.clock - s.lastSentAt < cfg.resendCooldown && cfg.resendCooldown > 0
          then Some(OTPResendTooSoon)
        else None
  {
    hide SignupHistory, Current;
  }
}
