/**
  The request handler (auth/http/handler.go): the rate-limit check in front of the service, and
  whole sequences of requests served over the memory stores or over the Redis stores.
  */
module Handler {
  import opened Auth
  import opened Tables
  import opened Machine
  import opened Backends
  import opened CacheTransparency
  import Invariants
  import Mobile
  import Repository
  import Service
  import M = MemoryStores
  import R = RedisStores
  import PI = PendingIndex

  class AuthHandler {
    const service: Service.AuthService
    const limiter: Limiter
    ghost var clock: Time

    ghost predicate Valid()
      reads this, service, service.Parts(), limiter.Obj()
    {
      && service.Valid(clock) && limiter.Valid()
      && {this as object, limiter.Obj()} !! {service as object} + service.Parts()
      && this != limiter.Obj()
    }

    /** The state of the machine that the stores represent. */
    ghost function State(): World
      reads this, service, service.Parts(), limiter.Obj()
      requires Valid()
    {
      service.View(clock, limiter.Live(clock))
    }

    constructor (service: Service.AuthService, limiter: Limiter)
      requires service.Valid(1) && limiter.Valid() && service.View(1, map[]) == INITIAL && limiter.Live(1) == map[]
      requires limiter.Obj() !in service.Parts() && limiter.Obj() != service
      ensures Valid() && clock == 1 && State() == INITIAL
      ensures this.service == service && this.limiter == limiter
    {
      hide PI.Exact, R.Represents, Invariants.Distinct, LivePending, LiveLogins, LiveSessions, LiveWindows, LiveCache;
      this.service, this.limiter, clock := service, limiter, 1;
    }

    /** Between requests only time passes: what the stores show is what the machine keeps. */
    ghost method Wait(now: Time)
      requires Valid() && clock <= now
      modifies this`clock
      ensures Valid() && clock == now && State() == Tick(old(State()), now)
    {
      service.Later(clock, now, limiter.Live(clock));
      limiter.Later(clock, now);
      clock := now;
    }

    method Allow(at: Time, key: string, rule: RateLimitRule) returns (ok: bool)
      requires Valid() && clock == at
      modifies limiter.Obj()
      ensures Valid()
      ensures
        var w := old(State());
        var (windows, allowed) := Machine.Allow(w.windows, w.clock, key, rule);
        State() == w.(windows := windows) && ok == allowed
    {
      hide PI.Exact, R.Represents, Invariants.Distinct, LivePending, LiveLogins, LiveSessions, LiveCache, Machine.Allow;
      ok := limiter.Allow(at, key, rule);
    }

    method Normalize(mobile: string) returns (r: Result<string>)
      requires Valid()
      ensures Valid() && clock == old(clock) && State() == old(State())
        && r == Mobile.Normalize(mobile, service.cfg.wideDigits)
    {
      hide PI.Exact, R.Represents, Invariants.Distinct, LivePending, LiveLogins, LiveSessions, LiveCache,
        Mobile.Normalize;
      r := Mobile.NormalizeIndianMobile(mobile, service.cfg.wideDigits);
    }

    method EnforceRateLimit(at: Time, action: string, ip: string, mobile: string, ipRule: RateLimitRule,
        mobileRule: RateLimitRule)
      returns (ok: bool)
      requires Valid() && clock == at
      modifies limiter.Obj()
      ensures Valid()
      ensures (State(), ok) == Enforce(service.cfg, old(State()), action, ip, mobile, ipRule, mobileRule)
    {
      hide AuthHandler.Valid, AuthHandler.State, Machine.Allow, Mobile.Normalize, IPKey, MobileKey;
      ok := Allow(at, IPKey(action, ip), ipRule);
      if !ok {
        return;
      }
      var normalized := Normalize(mobile);
      if normalized.Err? {
        return true;
      }
      ok := Allow(at, MobileKey(action, normalized.value), mobileRule);
    }

    /** The rate-limit check of the OTP handlers. */
    method AdmitRequest(at: Time, input: Input) returns (ok: bool)
      requires Valid() && clock == at
      modifies limiter.Obj()
      ensures Valid() && clock == at
      ensures (State(), ok) == Admit(service.cfg, old(State()), input)
    {
      hide AuthHandler.Valid, AuthHandler.State, Enforce;
      var cfg := service.cfg;
      match input.request
      case RequestSignup(_, _, _, mobile, _, _) =>
        ok := EnforceRateLimit(at, "request", input.ip, mobile, cfg.requestIP, cfg.requestMobile);
      case ResendSignup(mobile, _) =>
        ok := EnforceRateLimit(at, "request", input.ip, mobile, cfg.requestIP, cfg.requestMobile);
      case RequestLogin(mobile, _) =>
        ok := EnforceRateLimit(at, "request", input.ip, mobile, cfg.requestIP, cfg.requestMobile);
      case VerifySignup(mobile, _, _) =>
        ok := EnforceRateLimit(at, "verify", input.ip, mobile, cfg.verifyIP, cfg.verifyMobile);
      case VerifyLogin(mobile, _, _) =>
        ok := EnforceRateLimit(at, "verify", input.ip, mobile, cfg.verifyIP, cfg.verifyMobile);
      case _ => ok := true;
    }

    /** The service method behind the request. */
    method Dispatch(at: Time, r: Request, e: Entropy) returns (reply: Reply)
      requires Valid() && clock == at
      modifies service, service.Parts()
      ensures Valid() && clock == at
      ensures (State(), reply) == Serve(service.cfg, old(State()), r, e)
    {
      hide PI.Exact, R.Represents, Invariants.Distinct, Service.AuthService.View, Service.AuthService.Valid;
      hide DoRequestSignup, DoVerifySignup, DoResendSignup, DoSignupStatus, DoRequestLogin, DoVerifyLogin,
        DoPasswordLogin;
      hide DoRefresh, DoLogout, DoGoogleLogin, DoCompleteProfile, DoCurrentUser;
      ghost var windows := limiter.Live(clock);
      match r
      case RequestSignup(_, _, _, _, _, _) => reply := service.RequestSignupOTP(at, r, windows);
      case VerifySignup(_, _, _) => reply := service.VerifySignupOTP(at, r, e, windows);
      case ResendSignup(_, _) => reply := service.ResendSignupOTP(at, r, windows);
      case SignupStatus(_) => reply := service.SignupStatus(at, r, windows);
      case RequestLogin(_, _) => reply := service.RequestLoginOTP(at, r, windows);
      case VerifyLogin(_, _, _) => reply := service.VerifyLoginOTP(at, r, e, windows);
      case PasswordLogin(_, _, _) => reply := service.PasswordLogin(at, r, e, windows);
      case Refresh(_) => reply := service.RefreshTokens(at, r, e, windows);
      case Logout(_) => reply := service.Logout(at, r, windows);
      case GoogleLogin(_, _) => reply := service.GoogleLogin(at, r, e, windows);
      case CompleteProfile(_, _, _) => reply := service.CompleteProfile(at, r, e, windows);
      case CurrentUser(_) => reply := service.ValidateCurrentUser(at, r, windows);
    }

    /** One request, at a time not before the last one. */
    method Handle(input: Input) returns (reply: Reply)
      requires Valid() && clock <= input.at
      modifies this, service, service.Parts(), limiter.Obj()
      ensures Valid() && clock == input.at
      ensures (State(), reply) == Step(service.cfg, old(State()), input)
    {
      hide AuthHandler.Valid, AuthHandler.State, Tick, Admit, Serve;
      Wait(input.at);
      var ok := AdmitRequest(input.at, input);
      if !ok {
        return Failed(OTPTooManyRequests);
      }
      reply := Dispatch(input.at, input.request, input.entropy);
    }
  }

  // ---- All stores in memory, or all on Redis ----

  method NewPending(redis: bool) returns (s: PendingStore)
    ensures fresh(s.Obj()) && s.Valid(1) && s.Live(1) == map[] && s.RedisPending? == redis
  {
    if redis {
      var p := new R.PendingSignupStore();
      s := RedisPending(p);
    } else {
      var p := new M.PendingSignupStore();
      s := MemoryPending(p);
    }
  }

  method NewStates(redis: bool) returns (s: StateStore)
    ensures fresh(s.Obj()) && s.Valid() && s.Live(1) == map[]
  {
    if redis {
      var l := new R.OTPStateStore();
      s := RedisStates(l);
    } else {
      var l := new M.OTPStateStore();
      s := MemoryStates(l);
    }
  }

  method NewSessions(redis: bool) returns (s: SessionStore)
    ensures fresh(s.Obj()) && s.Valid() && s.Live(1) == map[]
  {
    if redis {
      var r := new R.RefreshStore();
      s := RedisSessions(r);
    } else {
      var r := new M.RefreshStore();
      s := MemorySessions(r);
    }
  }

  method NewLimiter(redis: bool) returns (s: Limiter)
    ensures fresh(s.Obj()) && s.Valid() && s.Live(1) == map[]
  {
    if redis {
      var w := new R.RateLimiter();
      s := RedisLimiter(w);
    } else {
      var w := new M.RateLimiter();
      s := MemoryLimiter(w);
    }
  }

  method NewService(cfg: Config, redis: bool) returns (s: Service.AuthService)
    requires cfg.cacheTTL.Some? ==> cfg.cacheTTL.value > 0
    ensures fresh(s) && fresh(s.Parts()) && s.cfg == cfg && s.Valid(1) && s.View(1, map[]) == INITIAL
    ensures s.pending.RedisPending? == redis
  {
    hide PI.Exact, R.Represents, Invariants.Distinct, LivePending, LiveLogins, LiveSessions, LiveWindows, LiveCache;
    var repo := new Repository.CachedUserRepository(cfg.cacheTTL);
    var pending := NewPending(redis);
    var logins := NewStates(redis);
    var sessions := NewSessions(redis);
    s := new Service.AuthService(cfg, repo, pending, logins, sessions);
  }

  method NewHandler(cfg: Config, redis: bool) returns (h: AuthHandler)
    requires cfg.cacheTTL.Some? ==> cfg.cacheTTL.value > 0
    ensures fresh(h) && fresh(h.service) && fresh(h.service.Parts()) && fresh(h.limiter.Obj())
    ensures h.Valid() && h.clock == 1 && h.State() == INITIAL && h.service.cfg == cfg
      && h.service.pending.RedisPending? == redis
  {
    hide PI.Exact, R.Represents, Invariants.Distinct, LivePending, LiveLogins, LiveSessions, LiveWindows, LiveCache;
    var limiter := NewLimiter(redis);
    var service := NewService(cfg, redis);
    h := new AuthHandler(service, limiter);
  }

  /** Requests come in the order of their times, from the first instant on. */
  ghost predicate Ordered(inputs: seq<Input>) {
    && (forall i :: 0 <= i < |inputs| ==> inputs[i].at >= 1)
    && (forall i :: 0 <= i < |inputs| - 1 ==> inputs[i].at <= inputs[i + 1].at)
  }

  /** Any sequence of requests gets, over either kind of stores, the replies of the machine, and leaves its state. */
  method ServeAll(cfg: Config, redis: bool, inputs: seq<Input>) returns (replies: seq<Reply>, handler: AuthHandler)
    requires cfg.cacheTTL.Some? ==> cfg.cacheTTL.value > 0
    requires Ordered(inputs)
    ensures |replies| == |inputs|
    ensures forall k :: 0 <= k < |inputs| ==> replies[k] == ReplyAt(cfg, inputs, k)
    ensures handler.Valid() && handler.State() == After(cfg, inputs) && handler.service.pending.RedisPending? == redis
    ensures forall run :: IsRun(cfg, run) && run.inputs == inputs ==>
      replies == run.replies && handler.State() == run.states[|inputs|]
  {
    hide AuthHandler.Valid, AuthHandler.State, Step;
    handler := NewHandler(cfg, redis);
    replies := [];
    ghost var h := handler;
    ghost var parts := {h as object, h.service, h.limiter.Obj()} + h.service.Parts();
    for i := 0 to |inputs|
      invariant handler == h && h.Valid() && h.service.cfg == cfg && fresh(parts)
      invariant parts == {h as object, h.service, h.limiter.Obj()} + h.service.Parts()
      invariant h.clock == if i == 0 then 1 else inputs[i - 1].at
      invariant h.State() == After(cfg, inputs[..i])
      invariant |replies| == i
      invariant forall k :: 0 <= k < i ==> replies[k] == ReplyAt(cfg, inputs, k)
    {
      var reply := handler.Handle(inputs[i]);
      assert inputs[..i + 1][..i] == inputs[..i];
      replies := replies + [reply];
    }
    assert inputs[..|inputs|] == inputs;
    forall run | IsRun(cfg, run) && run.inputs == inputs
      ensures replies == run.replies && h.State() == run.states[|inputs|] {
      RunIsDetermined(cfg, run, |inputs|);
    }
  }

  /**
    The memory stores and the Redis stores are indistinguishable: on every sequence of requests at
    non-decreasing times, with the same answers from outside, both give the same replies.
    */
  method BackendsAgree(cfg: Config, inputs: seq<Input>) returns (inMemory: seq<Reply>, onRedis: seq<Reply>)
    requires cfg.cacheTTL.Some? ==> cfg.cacheTTL.value > 0
    requires Ordered(inputs)
    ensures inMemory == onRedis
    ensures |inMemory| == |inputs| && forall k :: 0 <= k < |inputs| ==> inMemory[k] == ReplyAt(cfg, inputs, k)
  {
    hide AuthHandler.Valid, AuthHandler.State;
    var first, _ := ServeAll(cfg, false, inputs);
    var second, _ := ServeAll(cfg, true, inputs);
    return first, second;
  }

  /**
    The two services that the program can start: memory stores with no user cache, Redis stores with
    one. They reply alike if and only if no request reads a lingering cache entry.
    */
  method DeploymentsAgreeIff(cfg: Config, inputs: seq<Input>, ghost cached: Run, ghost bare: Run)
    returns (inMemory: seq<Reply>, onRedis: seq<Reply>)
    requires cfg.Valid() && cfg.cacheTTL.Some? && Ordered(inputs)
    requires Twins(cfg, cached, bare) && cached.inputs == inputs
    ensures inMemory == bare.replies && onRedis == cached.replies
    ensures inMemory == onRedis <==> forall k :: 0 <= k < |inputs| ==> !Misreads(cfg, cached, k)
  {
    hide AuthHandler.Valid, AuthHandler.State, IsRun, Misreads;
    var first, _ := ServeAll(Uncached(cfg), false, inputs);
    var second, _ := ServeAll(cfg, true, inputs);
    AgreeIffNoMisread(cfg, cached, bare, |inputs|);
    RunShape(cfg, cached);
    RunShape(Uncached(cfg), bare);
    return first, second;
  }

  lemma RunShape(cfg: Config, run: Run)
    requires IsRun(cfg, run)
    ensures run.Shaped()
  {
  }

  /** After any sequence of requests the indexes in memory are exact, expired records included. */
  method IndexesStayExact(cfg: Config, inputs: seq<Input>) returns (handler: AuthHandler)
    requires cfg.cacheTTL.Some? ==> cfg.cacheTTL.value > 0
    requires Ordered(inputs)
    ensures handler.Valid() && handler.State() == After(cfg, inputs)
    ensures
      var store := handler.service.pending;
      && store.MemoryPending? && PI.Exact(store.m.Contents())
      && LivePending(store.m.signups, After(cfg, inputs).clock) == After(cfg, inputs).pending
  {
    hide PI.Exact, LivePending, Step;
    var _, h := ServeAll(cfg, false, inputs);
    handler := h;
  }
}
