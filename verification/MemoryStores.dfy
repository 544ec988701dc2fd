/** The process-local stores, updated in place (cache/memory/stores.go). */
module MemoryStores {
  import opened Auth
  import opened Machine
  import opened Tables
  import PI = PendingIndex

  /** Sessions by token key; the hash of the token is taken to be the token itself. */
  class RefreshStore {
    var sessions: map<string, RefreshSession>

    constructor ()
      ensures sessions == map[]
    {
      sessions := map[];
    }

    ghost function Live(now: Time): map<string, RefreshSession>
      reads this
    {
      LiveSessions(sessions, now)
    }

    method Save(now: Time, token: string, session: RefreshSession) returns (err: Option<Error>)
      modifies this
      ensures err == if session.expiresAt - now <= 0 then Some(TokenExpired) else None
      ensures Live(now) == if err.Some? then old(Live(now)) else old(Live(now))[token := session]
    {
      if session.expiresAt - now <= 0 {
        return Some(TokenExpired);
      }
      sessions := sessions[token := session];
      return None;
    }

    method Get(now: Time, token: string) returns (r: Option<RefreshSession>)
      modifies this
      ensures Live(now) == old(Live(now))
      ensures r == if token in Live(now) then Some(Live(now)[token]) else None
    {
      if token !in sessions {
        return None;
      }
      var session := sessions[token];
      if now > session.expiresAt {
        sessions := sessions - {token};
        return None;
      }
      return Some(session);
    }

    method Delete(token: string)
      modifies this
      ensures sessions == old(sessions) - {token}
    {
      sessions := sessions - {token};
    }
  }

  class OTPStateStore {
    var states: map<string, OTPRequestState>

    constructor ()
      ensures states == map[]
    {
      states := map[];
    }

    ghost function Live(now: Time): map<string, OTPRequestState>
      reads this
    {
      LiveLogins(states, now)
    }

    method Save(now: Time, key: string, state: OTPRequestState) returns (err: Option<Error>)
      modifies this
      ensures err == if state.expiresAt - now <= 0 then Some(TokenExpired) else None
      ensures Live(now) == if err.Some? then old(Live(now)) else old(Live(now))[key := state]
    {
      if state.expiresAt - now <= 0 {
        return Some(TokenExpired);
      }
      states := states[key := state];
      return None;
    }

    method Get(now: Time, key: string) returns (r: Option<OTPRequestState>)
      modifies this
      ensures Live(now) == old(Live(now))
      ensures r == if key in Live(now) then Some(Live(now)[key]) else None
    {
      if key !in states {
        return None;
      }
      var state := states[key];
      if now > state.expiresAt {
        states := states - {key};
        return None;
      }
      return Some(state);
    }

    method Delete(key: string)
      modifies this
      ensures states == old(states) - {key}
    {
      states := states - {key};
    }
  }

  /** A fixed window per key, replaced when it has passed. */
  class RateLimiter {
    var windows: map<string, RateLimitWindow>

    constructor ()
      ensures windows == map[]
    {
      windows := map[];
    }

    ghost function Live(now: Time): map<string, RateLimitWindow>
      reads this
    {
      LiveWindows(windows, now)
    }

    method Allow(now: Time, key: string, rule: RateLimitRule) returns (ok: bool)
      modifies this
      ensures (Live(now), ok) == Machine.Allow(old(Live(now)), now, key, rule)
    {
      if rule.limit <= 0 || rule.window <= 0 {
        return true;
      }
      var window := RateLimitWindow(0, 0);
      if key in windows {
        window := windows[key];
      }
      if key !in windows || now > window.expiresAt {
        window := RateLimitWindow(0, now + rule.window);
      }
      window := window.(count := window.count + 1);
      windows := windows[key := window];
      assert Live(now) == Machine.Allow(old(Live(now)), now, key, rule).0;
      return window.count <= rule.limit;
    }
  }

  /** Pending signups by mobile, with an index for each value that must not be claimed twice. */
  class PendingSignupStore {
    var signups: map<string, PendingSignup>
    var byUsername: map<string, string>
    var byEmail: map<string, string>
    var byMobile: map<string, string>

    constructor ()
      ensures Contents() == PI.EMPTY_INDEX
    {
      signups, byUsername, byEmail, byMobile := map[], map[], map[], map[];
    }

    ghost function Contents(): PI.Index
      reads this
    {
      PI.Index(signups, byUsername, byEmail, byMobile)
    }

    method Save(now: Time, signup: PendingSignup) returns (err: Option<Error>)
      modifies this
      ensures (Contents(), err) == PI.Save(old(Contents()), now, signup)
      ensures old(PI.NoDangling(Contents())) ==> PI.NoDangling(Contents())
      ensures old(PI.Exact(Contents())) && err.None? ==>
        (PI.Exact(Contents()) <==> old(PI.Unclaimed(Contents(), signup)))
    {
      ghost var was := Contents();
      if signup.expiresAt - now <= 0 {
        return Some(PendingSignupExpired);
      }
      if signup.mobile in signups {
        DeleteLocked(signups[signup.mobile].mobile);
      }
      signups := signups[signup.mobile := signup];
      byUsername := byUsername[signup.username := signup.mobile];
      byEmail := byEmail[signup.email := signup.mobile];
      byMobile := byMobile[signup.mobile := signup.mobile];
      if PI.NoDangling(was) { PI.SaveKeeps(was, now, signup); }
      if PI.Exact(was) { PI.SaveExactIff(was, now, signup); }
      return None;
    }

    method GetByMobile(now: Time, mobile: string) returns (r: Option<PendingSignup>)
      modifies this
      ensures (Contents(), r) == PI.Get(old(Contents()), now, mobile)
    {
      if mobile !in signups {
        return None;
      }
      var signup := signups[mobile];
      if now > signup.expiresAt {
        DeleteLocked(mobile);
        return None;
      }
      return Some(signup);
    }

    method DeleteByMobile(mobile: string)
      modifies this
      ensures Contents() == PI.Delete(old(Contents()), mobile)
    {
      DeleteLocked(mobile);
    }

    method GetMobileByUsername(now: Time, username: string) returns (r: Option<string>)
      modifies this
      ensures (Contents(), r) == PI.LookupIndex(old(Contents()), now, ByUsername, username)
    {
      r := GetIndexLocked(now, byUsername, username);
    }

    method GetMobileByEmail(now: Time, email: string) returns (r: Option<string>)
      modifies this
      ensures (Contents(), r) == PI.LookupIndex(old(Contents()), now, ByEmail, email)
    {
      r := GetIndexLocked(now, byEmail, email);
    }

    method GetMobileByMobile(now: Time, mobile: string) returns (r: Option<string>)
      modifies this
      ensures (Contents(), r) == PI.LookupIndex(old(Contents()), now, ByMobile, mobile)
    {
      r := GetIndexLocked(now, byMobile, mobile);
    }

    method GetIndexLocked(now: Time, index: map<string, string>, key: string) returns (r: Option<string>)
      modifies this
      ensures
        if key !in index then Contents() == old(Contents()) && r == None
        else
          var (s, found) := PI.Get(old(Contents()), now, index[key]);
          Contents() == s && r == if found.Some? then Some(index[key]) else None
    {
      if key !in index {
        return None;
      }
      var mobile := index[key];
      var found := GetByMobile(now, mobile);
      if found.None? {
        return None;
      }
      return Some(mobile);
    }

    method DeleteLocked(mobile: string)
      modifies this
      ensures Contents() == PI.Delete(old(Contents()), mobile)
    {
      if mobile !in signups {
        return;
      }
      var signup := signups[mobile];
      signups := signups - {mobile};
      byUsername := byUsername - {signup.username};
      byEmail := byEmail - {signup.email};
      byMobile := byMobile - {signup.mobile};
    }
  }
}
