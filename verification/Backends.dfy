/**
  The store interfaces of the service (auth/otp.go, auth/refresh_store.go, auth/ratelimit.go),
  each held by the memory or by the Redis implementation. What an interface promises is said
  once, about the live entries.
  */
module Backends {
  import opened Auth
  import opened Tables
  import opened Machine
  import Invariants
  import M = MemoryStores
  import R = RedisStores
  import PI = PendingIndex

  datatype SessionStore = MemorySessions(m: M.RefreshStore) | RedisSessions(r: R.RefreshStore) {
    ghost function Obj(): object {
      match this case MemorySessions(s) => s case RedisSessions(s) => s
    }

    ghost predicate Valid()
      reads Obj()
    {
      match this case MemorySessions(_) => true case RedisSessions(s) => s.Valid()
    }

    ghost function Live(now: Time): map<string, RefreshSession>
      reads Obj()
    {
      match this case MemorySessions(s) => s.Live(now) case RedisSessions(s) => s.Live(now)
    }

    method Save(now: Time, token: string, session: RefreshSession) returns (err: Option<Error>)
      requires Valid()
      modifies Obj()
      ensures Valid()
      ensures err == if session.expiresAt - now <= 0 then Some(TokenExpired) else None
      ensures Live(now) == if err.Some? then old(Live(now)) else old(Live(now))[token := session]
    {
      match this
      case MemorySessions(s) => err := s.Save(now, token, session);
      case RedisSessions(s) => err := s.Save(now, token, session);
    }

    method Get(now: Time, token: string) returns (r: Option<RefreshSession>)
      requires Valid()
      modifies Obj()
      ensures Valid()
      ensures Live(now) == old(Live(now))
      ensures r == if token in Live(now) then Some(Live(now)[token]) else None
    {
      match this
      case MemorySessions(s) => r := s.Get(now, token);
      case RedisSessions(s) => r := s.Get(now, token);
    }

    method Delete(ghost now: Time, token: string)
      requires Valid()
      modifies Obj()
      ensures Valid()
      ensures Live(now) == old(Live(now)) - {token}
    {
      match this
      case MemorySessions(s) => s.Delete(token);
      case RedisSessions(s) => s.Delete(token);
    }

    lemma Later(now: Time, later: Time)
      requires Valid() && now <= later
      ensures Live(later) == LiveSessions(Live(now), later)
    {
    }
  }

  datatype StateStore = MemoryStates(m: M.OTPStateStore) | RedisStates(r: R.OTPStateStore) {
    ghost function Obj(): object {
      match this case MemoryStates(s) => s case RedisStates(s) => s
    }

    ghost predicate Valid()
      reads Obj()
    {
      match this case MemoryStates(_) => true case RedisStates(s) => s.Valid()
    }

    ghost function Live(now: Time): map<string, OTPRequestState>
      reads Obj()
    {
      match this case MemoryStates(s) => s.Live(now) case RedisStates(s) => s.Live(now)
    }

    method Save(now: Time, key: string, state: OTPRequestState) returns (err: Option<Error>)
      requires Valid()
      modifies Obj()
      ensures Valid()
      ensures err == if state.expiresAt - now <= 0 then Some(TokenExpired) else None
      ensures Live(now) == if err.Some? then old(Live(now)) else old(Live(now))[key := state]
    {
      match this
      case MemoryStates(s) => err := s.Save(now, key, state);
      case RedisStates(s) => err := s.Save(now, key, state);
    }

    method Get(now: Time, key: string) returns (r: Option<OTPRequestState>)
      requires Valid()
      modifies Obj()
      ensures Valid()
      ensures Live(now) == old(Live(now))
      ensures r == if key in Live(now) then Some(Live(now)[key]) else None
    {
      match this
      case MemoryStates(s) => r := s.Get(now, key);
      case RedisStates(s) => r := s.Get(now, key);
    }

    method Delete(ghost now: Time, key: string)
      requires Valid()
      modifies Obj()
      ensures Valid()
      ensures Live(now) == old(Live(now)) - {key}
    {
      match this
      case MemoryStates(s) => s.Delete(key);
      case RedisStates(s) => s.Delete(key);
    }

    lemma Later(now: Time, later: Time)
      requires Valid() && now <= later
      ensures Live(later) == LiveLogins(Live(now), later)
    {
    }
  }

  datatype Limiter = MemoryLimiter(m: M.RateLimiter) | RedisLimiter(r: R.RateLimiter) {
    ghost function Obj(): object {
      match this case MemoryLimiter(s) => s case RedisLimiter(s) => s
    }

    ghost predicate Valid()
      reads Obj()
    {
      match this
      case MemoryLimiter(_) => true
      case RedisLimiter(s) => s.Valid() && forall k :: k in s.keys ==> s.keys[k].count >= 1
    }

    ghost function Live(now: Time): map<string, RateLimitWindow>
      requires Valid()
      reads Obj()
    {
      match this case MemoryLimiter(s) => s.Live(now) case RedisLimiter(s) => s.Live(now)
    }

    method Allow(now: Time, key: string, rule: RateLimitRule) returns (ok: bool)
      requires Valid()
      modifies Obj()
      ensures Valid()
      ensures (Live(now), ok) == Machine.Allow(old(Live(now)), now, key, rule)
    {
      match this
      case MemoryLimiter(s) => ok := s.Allow(now, key, rule);
      case RedisLimiter(s) => ok := s.Allow(now, key, rule);
    }

    lemma Later(now: Time, later: Time)
      requires Valid() && now <= later
      ensures Live(later) == LiveWindows(Live(now), later)
    {
    }
  }

  /** The two pending stores agree only on clients that save over nothing or over the same username and email. */
  datatype PendingStore = MemoryPending(m: M.PendingSignupStore) | RedisPending(r: R.PendingSignupStore) {
    ghost function Obj(): object {
      match this case MemoryPending(s) => s case RedisPending(s) => s
    }

    ghost predicate Valid(now: Time)
      reads Obj()
    {
      && Invariants.Distinct(Live(now))
      && match this
         case MemoryPending(s) => PI.Exact(s.Contents())
         case RedisPending(s) => s.Valid(now)
    }

    ghost function Live(now: Time): map<string, PendingSignup>
      reads Obj()
    {
      match this case MemoryPending(s) => LivePending(s.signups, now) case RedisPending(s) => s.Live(now)
    }

    /** No record at all has the value: in memory not even an expired one that is still to be purged. */
    ghost predicate Free(now: Time, col: Column, key: string)
      reads Obj()
    {
      match this
      case MemoryPending(s) => forall m :: m in s.signups ==> PI.PendingCell(s.signups[m], col) != key
      case RedisPending(s) => forall m :: m in s.Live(now) ==> !PendingHolds(s.Live(now)[m], col, key)
    }

    /** What the service establishes before it saves: all three values free, or the same record again. */
    ghost predicate MaySave(now: Time, p: PendingSignup)
      reads Obj()
    {
      && p.mobile != ""
      && (|| (Free(now, ByUsername, p.username) && Free(now, ByEmail, p.email) && Free(now, ByMobile, p.mobile))
          || (p.mobile in Live(now) && Live(now)[p.mobile].username == p.username
              && Live(now)[p.mobile].email == p.email))
    }

    method Save(now: Time, p: PendingSignup) returns (err: Option<Error>)
      requires Valid(now) && MaySave(now, p)
      modifies Obj()
      ensures Valid(now)
      ensures err == if p.expiresAt - now <= 0 then Some(PendingSignupExpired) else None
      ensures Live(now) == if err.Some? then old(Live(now)) else old(Live(now))[p.mobile := p]
    {
      ghost var live := Live(now);
      SavesKeepDistinct(now, p);
      match this
      case MemoryPending(s) =>
        ghost var was := s.Contents();
        MemoryUnclaimed(was, now, p, this);
        err := s.Save(now, p);
        if err.None? { PI.SaveIsLive(was, now, p); }
      case RedisPending(s) =>
        err := s.Save(now, p);
    }

    lemma SavesKeepDistinct(now: Time, p: PendingSignup)
      requires Valid(now) && MaySave(now, p)
      ensures Invariants.Distinct(Live(now)[p.mobile := p]) && R.Disciplined(Live(now), p)
    {
      hide PI.Exact, PI.NoDangling, R.Represents;
      var live := Live(now);
      if Free(now, ByUsername, p.username) && Free(now, ByEmail, p.email) && Free(now, ByMobile, p.mobile) {
        forall m | m in live
          ensures live[m].username != p.username && live[m].email != p.email && m != p.mobile
        {
          assert live[m].mobile == m;
          match this
          case MemoryPending(s) => assert m in s.signups && s.signups[m] == live[m];
          case RedisPending(s) => assert !PendingHolds(s.Live(now)[m], ByUsername, p.username);
        }
      }
    }

    static lemma MemoryUnclaimed(was: PI.Index, now: Time, p: PendingSignup, store: PendingStore)
      requires store.MemoryPending? && was == store.m.Contents() && store.Valid(now) && store.MaySave(now, p)
      ensures PI.Unclaimed(was, p) && PI.NoDangling(was)
    {
      if p.mobile in store.Live(now) {
        PI.OneColumn(was, ByUsername);
        PI.OneColumn(was, ByEmail);
        forall m | m in was.signups && m != p.mobile
          ensures was.signups[m].username != p.username && was.signups[m].email != p.email
        {
          assert was.byUsername[PI.PendingCell(was.signups[m], ByUsername)] == m;
          assert was.byUsername[PI.PendingCell(was.signups[p.mobile], ByUsername)] == p.mobile;
          assert was.byEmail[PI.PendingCell(was.signups[m], ByEmail)] == m;
          assert was.byEmail[PI.PendingCell(was.signups[p.mobile], ByEmail)] == p.mobile;
        }
      } else {
        forall m | m in was.signups
          ensures was.signups[m].username != p.username && was.signups[m].email != p.email
        {
          assert PI.PendingCell(was.signups[m], ByUsername) != p.username;
          assert PI.PendingCell(was.signups[m], ByEmail) != p.email;
        }
      }
    }

    method GetByMobile(now: Time, mobile: string) returns (r: Option<PendingSignup>)
      requires Valid(now)
      modifies Obj()
      ensures Valid(now) && Live(now) == old(Live(now))
      ensures r == if mobile in Live(now) then Some(Live(now)[mobile]) else None
      ensures r.Some? ==> r.value.mobile == mobile && mobile != "" && now <= r.value.expiresAt
    {
      match this
      case MemoryPending(s) =>
        PI.ExactIsSound(s.Contents());
        PI.GetIsLive(s.Contents(), now, mobile);
        PI.GetKeeps(s.Contents(), now, mobile);
        r := s.GetByMobile(now, mobile);
      case RedisPending(s) =>
        r := s.GetByMobile(now, mobile);
    }

    method DeleteByMobile(now: Time, mobile: string)
      requires Valid(now)
      modifies Obj()
      ensures Valid(now) && Live(now) == old(Live(now)) - {mobile}
    {
      match this
      case MemoryPending(s) =>
        PI.ExactIsSound(s.Contents());
        PI.DeleteIsLive(s.Contents(), now, mobile);
        PI.DeleteKeeps(s.Contents(), mobile);
        s.DeleteByMobile(mobile);
      case RedisPending(s) =>
        s.DeleteByMobile(now, mobile);
    }

    /** GetMobileByUsername, GetMobileByEmail and GetMobileByMobile. */
    method GetMobile(now: Time, col: Column, key: string) returns (r: Option<string>)
      requires Valid(now)
      modifies Obj()
      ensures Valid(now) && Live(now) == old(Live(now))
      ensures r.Some? ==> r.value in Live(now) && PendingHolds(Live(now)[r.value], col, key)
      ensures r.None? ==> Free(now, col, key) && forall m :: m in Live(now) ==> !PendingHolds(Live(now)[m], col, key)
      ensures forall c, k :: old(Free(now, c, k)) ==> Free(now, c, k)
    {
      match this
      case MemoryPending(s) =>
        PI.LookupIsLive(s.Contents(), now, col, key);
        match col {
          case ByUsername => r := s.GetMobileByUsername(now, key);
          case ByEmail => r := s.GetMobileByEmail(now, key);
          case ByMobile => r := s.GetMobileByMobile(now, key);
        }
      case RedisPending(s) =>
        match col {
          case ByUsername => r := s.GetMobileByUsername(now, key);
          case ByEmail => r := s.GetMobileByEmail(now, key);
          case ByMobile => r := s.GetMobileByMobile(now, key);
        }
    }

    lemma Later(now: Time, later: Time)
      requires Valid(now) && now <= later
      ensures Live(later) == LivePending(Live(now), later) && Valid(later)
    {
      hide PI.Exact;
      match this
      case MemoryPending(s) =>
      case RedisPending(s) =>
        assert s.Live(later) == LivePending(s.Live(now), later);
        R.TimePasses(s.keys, s.Live(now), now, later);
    }
  }
}
