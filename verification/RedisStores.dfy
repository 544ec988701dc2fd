/**
  The Redis-backed stores (cache/redis). Redis is a map from keys to values with an expiry; a
  key is visible up to and including its expiry, and no command fails.
  */
module RedisStores {
  import opened Auth
  import opened Machine
  import opened Tables

  datatype SessionEntry = SessionEntry(session: RefreshSession, expiresAt: Time)

  class RefreshStore {
    var keys: map<string, SessionEntry>

    constructor ()
      ensures keys == map[]
    {
      keys := map[];
    }

    /** SET stores each session until its own expiry. */
    ghost predicate Valid()
      reads this
    {
      forall k :: k in keys ==> keys[k].expiresAt == keys[k].session.expiresAt
    }

    ghost function Live(now: Time): map<string, RefreshSession>
      reads this
    {
      map k | k in keys && now <= keys[k].expiresAt :: keys[k].session
    }

    method Save(now: Time, token: string, session: RefreshSession) returns (err: Option<Error>)
      requires Valid()
      modifies this
      ensures Valid()
      ensures err == if session.expiresAt - now <= 0 then Some(TokenExpired) else None
      ensures Live(now) == if err.Some? then old(Live(now)) else old(Live(now))[token := session]
    {
      var ttl := session.expiresAt - now;
      if ttl <= 0 {
        return Some(TokenExpired);
      }
      keys := keys[token := SessionEntry(session, now + ttl)];
      return None;
    }

    method Get(now: Time, token: string) returns (r: Option<RefreshSession>)
      ensures r == if token in Live(now) then Some(Live(now)[token]) else None
    {
      if token in keys && now <= keys[token].expiresAt {
        return Some(keys[token].session);
      }
      return None;
    }

    method Delete(token: string)
      requires Valid()
      modifies this
      ensures Valid()
      ensures keys == old(keys) - {token}
    {
      keys := keys - {token};
    }
  }

  datatype StateEntry = StateEntry(state: OTPRequestState, expiresAt: Time)

  class OTPStateStore {
    var keys: map<string, StateEntry>

    constructor ()
      ensures keys == map[]
    {
      keys := map[];
    }

    ghost predicate Valid()
      reads this
    {
      forall k :: k in keys ==> keys[k].expiresAt == keys[k].state.expiresAt
    }

    ghost function Live(now: Time): map<string, OTPRequestState>
      reads this
    {
      map k | k in keys && now <= keys[k].expiresAt :: keys[k].state
    }

    method Save(now: Time, key: string, state: OTPRequestState) returns (err: Option<Error>)
      requires Valid()
      modifies this
      ensures Valid()
      ensures err == if state.expiresAt - now <= 0 then Some(TokenExpired) else None
      ensures Live(now) == if err.Some? then old(Live(now)) else old(Live(now))[key := state]
    {
      var ttl := state.expiresAt - now;
      if ttl <= 0 {
        return Some(TokenExpired);
      }
      keys := keys[key := StateEntry(state, now + ttl)];
      return None;
    }

    method Get(now: Time, key: string) returns (r: Option<OTPRequestState>)
      ensures r == if key in Live(now) then Some(Live(now)[key]) else None
    {
      if key in keys && now <= keys[key].expiresAt {
        return Some(keys[key].state);
      }
      return None;
    }

    method Delete(key: string)
      requires Valid()
      modifies this
      ensures Valid()
      ensures keys == old(keys) - {key}
    {
      keys := keys - {key};
    }
  }

  /** A counter; it has no expiry between its first INCR and the EXPIRE that follows. */
  datatype Counter = Counter(count: nat, expiresAt: Option<Time>)

  class RateLimiter {
    var keys: map<string, Counter>

    constructor ()
      ensures keys == map[]
    {
      keys := map[];
    }

    ghost predicate Valid()
      reads this
    {
      forall k :: k in keys ==> keys[k].expiresAt.Some?
    }

    ghost function Live(now: Time): map<string, RateLimitWindow>
      requires Valid()
      reads this
    {
      map k | k in keys && now <= keys[k].expiresAt.value :: RateLimitWindow(keys[k].count, keys[k].expiresAt.value)
    }

    /** INCR: a key that is not visible counts as absent and starts at one, without expiry. */
    method Incr(now: Time, key: string) returns (count: nat)
      modifies this
      ensures
        var visible := key in old(keys) && (old(keys)[key].expiresAt.Some? ==> now <= old(keys)[key].expiresAt.value);
        && count == (if visible then old(keys)[key].count + 1 else 1)
        && keys == old(keys)[key := Counter(count, if visible then old(keys)[key].expiresAt else None)]
    {
      if key in keys && (keys[key].expiresAt.None? || now <= keys[key].expiresAt.value) {
        keys := keys[key := keys[key].(count := keys[key].count + 1)];
      } else {
        keys := keys[key := Counter(1, None)];
      }
      count := keys[key].count;
    }

    method Allow(now: Time, key: string, rule: RateLimitRule) returns (ok: bool)
      requires Valid() && forall k :: k in keys ==> keys[k].count >= 1
      modifies this
      ensures Valid() && forall k :: k in keys ==> keys[k].count >= 1
      ensures (Live(now), ok) == Machine.Allow(old(Live(now)), now, key, rule)
    {
      if rule.limit <= 0 || rule.window <= 0 {
        return true;
      }
      var count := Incr(now, key);
      if count == 1 {
        keys := keys[key := keys[key].(expiresAt := Some(now + rule.window))];
      }
      assert Live(now) == Machine.Allow(old(Live(now)), now, key, rule).0;
      return count <= rule.limit;
    }
  }

  /** The user cache; SET with the configured lifetime. */
  class UserCache {
    var keys: map<string, CachedUser>
    const ttl: Time

    constructor (ttl: Time)
      ensures keys == map[] && this.ttl == ttl
    {
      this.ttl := ttl;
      keys := map[];
    }

    ghost function Live(now: Time): map<string, CachedUser>
      reads this
    {
      LiveCache(keys, now)
    }

    method GetUser(now: Time, username: string) returns (r: Option<User>)
      ensures r == if username in Live(now) then Some(Live(now)[username].user) else None
    {
      if username in keys && now <= keys[username].expiresAt {
        return Some(keys[username].user);
      }
      return None;
    }

    method SetUser(now: Time, user: User)
      modifies this
      ensures keys == old(keys)[user.username := CachedUser(user, now + ttl)]
    {
      keys := keys[user.username := CachedUser(user, now + ttl)];
    }

    method DeleteUser(username: string)
      modifies this
      ensures keys == old(keys) - {username}
    {
      keys := keys - {username};
    }
  }

  // ---- Pending signups: four independent keys, no cleanup on overwrite ----

  datatype PendingValue = Payload(signup: PendingSignup) | Mobile(mobile: string)

  datatype PendingEntry = PendingEntry(value: PendingValue, expiresAt: Time)

  const PREFIX := "auth:pending_signup:"

  function SignupKey(mobile: string): string { PREFIX + "mobile:" + mobile }

  function UsernameKey(username: string): string { PREFIX + "username:" + username }

  function EmailKey(email: string): string { PREFIX + "email:" + email }

  function MobileIndexKey(mobile: string): string { PREFIX + "index_mobile:" + mobile }

  /** The four key builders are injective and never collide with each other. */
  lemma KeysApart(a: string, b: string)
    ensures SignupKey(a) == SignupKey(b) ==> a == b
    ensures UsernameKey(a) == UsernameKey(b) ==> a == b
    ensures EmailKey(a) == EmailKey(b) ==> a == b
    ensures MobileIndexKey(a) == MobileIndexKey(b) ==> a == b
    ensures SignupKey(a) != UsernameKey(b) && SignupKey(a) != EmailKey(b) && SignupKey(a) != MobileIndexKey(b)
    ensures UsernameKey(a) != EmailKey(b) && UsernameKey(a) != MobileIndexKey(b) && EmailKey(a) != MobileIndexKey(b)
  {
    assert |PREFIX| == 20;
    assert SignupKey(a)[27..] == a && SignupKey(b)[27..] == b;
    assert UsernameKey(a)[29..] == a && UsernameKey(b)[29..] == b;
    assert EmailKey(a)[26..] == a && EmailKey(b)[26..] == b;
    assert MobileIndexKey(a)[33..] == a && MobileIndexKey(b)[33..] == b;
    assert SignupKey(a)[20] == 'm' && UsernameKey(a)[20] == 'u' && EmailKey(a)[20] == 'e';
    assert UsernameKey(b)[20] == 'u' && EmailKey(b)[20] == 'e' && MobileIndexKey(b)[20] == 'i';
  }

  ghost predicate Visible(keys: map<string, PendingEntry>, now: Time, key: string) {
    key in keys && now <= keys[key].expiresAt
  }

  /** A live record has its payload and its three index keys, all with its own expiry. */
  ghost predicate Stored(keys: map<string, PendingEntry>, p: PendingSignup) {
    && SignupKey(p.mobile) in keys && keys[SignupKey(p.mobile)] == PendingEntry(Payload(p), p.expiresAt)
    && UsernameKey(p.username) in keys && keys[UsernameKey(p.username)] == PendingEntry(Mobile(p.mobile), p.expiresAt)
    && EmailKey(p.email) in keys && keys[EmailKey(p.email)] == PendingEntry(Mobile(p.mobile), p.expiresAt)
    && MobileIndexKey(p.mobile) in keys && keys[MobileIndexKey(p.mobile)] == PendingEntry(Mobile(p.mobile), p.expiresAt)
  }

  /** The visible keys are exactly those of the live records. */
  ghost predicate Represents(keys: map<string, PendingEntry>, live: map<string, PendingSignup>, now: Time) {
    && (forall m :: m in live ==> live[m].mobile == m && now <= live[m].expiresAt && Stored(keys, live[m]))
    && (forall m :: Visible(keys, now, SignupKey(m)) ==> m in live)
    && (forall u :: Visible(keys, now, UsernameKey(u)) ==> PointsTo(keys[UsernameKey(u)].value, live, ByUsername, u))
    && (forall e :: Visible(keys, now, EmailKey(e)) ==> PointsTo(keys[EmailKey(e)].value, live, ByEmail, e))
    && (forall m :: Visible(keys, now, MobileIndexKey(m)) ==>
        PointsTo(keys[MobileIndexKey(m)].value, live, ByMobile, m))
  }

  ghost predicate PointsTo(v: PendingValue, live: map<string, PendingSignup>, col: Column, key: string) {
    v.Mobile? && v.mobile in live && PendingHolds(live[v.mobile], col, key)
  }

  /** Saves a client may make: over nothing, or over a record with the same username and email. */
  ghost predicate Disciplined(live: map<string, PendingSignup>, p: PendingSignup) {
    && (forall m :: m in live && m != p.mobile ==> live[m].username != p.username && live[m].email != p.email)
    && (p.mobile in live ==> live[p.mobile].username == p.username && live[p.mobile].email == p.email)
  }

  /** The four SETs of one transaction. */
  function Saved(keys: map<string, PendingEntry>, p: PendingSignup, until: Time): map<string, PendingEntry> {
    keys[SignupKey(p.mobile) := PendingEntry(Payload(p), until)]
        [UsernameKey(p.username) := PendingEntry(Mobile(p.mobile), until)]
        [EmailKey(p.email) := PendingEntry(Mobile(p.mobile), until)]
        [MobileIndexKey(p.mobile) := PendingEntry(Mobile(p.mobile), until)]
  }

  function KeysOf(p: PendingSignup): set<string> {
    {SignupKey(p.mobile), UsernameKey(p.username), EmailKey(p.email), MobileIndexKey(p.mobile)}
  }

  /** Which of a record's four keys a key is. */
  lemma KeyOf(p: PendingSignup, x: string)
    ensures SignupKey(x) in KeysOf(p) <==> x == p.mobile
    ensures UsernameKey(x) in KeysOf(p) <==> x == p.username
    ensures EmailKey(x) in KeysOf(p) <==> x == p.email
    ensures MobileIndexKey(x) in KeysOf(p) <==> x == p.mobile
  {
    hide SignupKey, UsernameKey, EmailKey, MobileIndexKey;
    KeysApart(x, p.mobile);
    KeysApart(x, p.username);
    KeysApart(x, p.email);
    KeysApart(p.mobile, x);
    KeysApart(p.username, x);
    KeysApart(p.email, x);
  }

  lemma SavedKeys(keys: map<string, PendingEntry>, p: PendingSignup)
    ensures Saved(keys, p, p.expiresAt).Keys == keys.Keys + KeysOf(p)
    ensures forall k :: k in keys && k !in KeysOf(p) ==> Saved(keys, p, p.expiresAt)[k] == keys[k]
    ensures Stored(Saved(keys, p, p.expiresAt), p)
  {
    KeysApart(p.mobile, p.username);
    KeysApart(p.mobile, p.email);
    KeysApart(p.mobile, p.mobile);
    KeysApart(p.username, p.email);
    KeysApart(p.username, p.mobile);
    KeysApart(p.email, p.mobile);
  }

  lemma OthersStored(keys: map<string, PendingEntry>, keys': map<string, PendingEntry>, p: PendingSignup,
      q: PendingSignup)
    requires Stored(keys, q) && q.mobile != p.mobile && q.username != p.username && q.email != p.email
    requires forall k :: k in keys && k !in KeysOf(p) ==> k in keys' && keys'[k] == keys[k]
    ensures Stored(keys', q)
  {
    hide KeysOf, SignupKey, UsernameKey, EmailKey, MobileIndexKey;
    KeyOf(p, q.mobile);
    KeyOf(p, q.username);
    KeyOf(p, q.email);
  }

  /** A disciplined save keeps the key space an exact image of the live records. */
  lemma SaveRepresents(keys: map<string, PendingEntry>, live: map<string, PendingSignup>, now: Time, p: PendingSignup)
    requires Represents(keys, live, now) && Disciplined(live, p) && now < p.expiresAt
    ensures Represents(Saved(keys, p, p.expiresAt), live[p.mobile := p], now)
  {
    hide KeysOf, Saved, SignupKey, UsernameKey, EmailKey, MobileIndexKey;
    var keys', live' := Saved(keys, p, p.expiresAt), live[p.mobile := p];
    SavedKeys(keys, p);
    forall m | m in live' ensures live'[m].mobile == m && now <= live'[m].expiresAt && Stored(keys', live'[m]) {
      if m != p.mobile { OthersStored(keys, keys', p, live[m]); }
    }
    forall m | Visible(keys', now, SignupKey(m)) ensures m in live' {
      KeyOf(p, m);
      if m != p.mobile { assert Visible(keys, now, SignupKey(m)); }
    }
    forall u | Visible(keys', now, UsernameKey(u)) ensures PointsTo(keys'[UsernameKey(u)].value, live', ByUsername, u) {
      KeyOf(p, u);
      if u != p.username { assert Visible(keys, now, UsernameKey(u)); }
    }
    forall e | Visible(keys', now, EmailKey(e)) ensures PointsTo(keys'[EmailKey(e)].value, live', ByEmail, e) {
      KeyOf(p, e);
      if e != p.email { assert Visible(keys, now, EmailKey(e)); }
    }
    forall m | Visible(keys', now, MobileIndexKey(m))
      ensures PointsTo(keys'[MobileIndexKey(m)].value, live', ByMobile, m) {
      KeyOf(p, m);
      if m != p.mobile { assert Visible(keys, now, MobileIndexKey(m)); }
    }
  }

  /** Deleting a record's four keys removes just that record. */
  lemma DeleteRepresents(keys: map<string, PendingEntry>, live: map<string, PendingSignup>, now: Time, m: string)
    requires Represents(keys, live, now) && m in live
    requires forall n :: n in live && n != m ==> live[n].username != live[m].username && live[n].email != live[m].email
    ensures Represents(keys - KeysOf(live[m]), live - {m}, now)
  {
    hide KeysOf, SignupKey, UsernameKey, EmailKey, MobileIndexKey;
    var p := live[m];
    var keys', live' := keys - KeysOf(p), live - {m};
    forall n | n in live' ensures live'[n].mobile == n && now <= live'[n].expiresAt && Stored(keys', live'[n]) {
      OthersStored(keys, keys', p, live[n]);
    }
    forall n | Visible(keys', now, SignupKey(n)) ensures n in live' {
      KeyOf(p, n);
      assert Visible(keys, now, SignupKey(n));
    }
    forall u | Visible(keys', now, UsernameKey(u)) ensures PointsTo(keys'[UsernameKey(u)].value, live', ByUsername, u) {
      KeyOf(p, u);
      assert Visible(keys, now, UsernameKey(u));
    }
    forall e | Visible(keys', now, EmailKey(e)) ensures PointsTo(keys'[EmailKey(e)].value, live', ByEmail, e) {
      KeyOf(p, e);
      assert Visible(keys, now, EmailKey(e));
    }
    forall n | Visible(keys', now, MobileIndexKey(n))
      ensures PointsTo(keys'[MobileIndexKey(n)].value, live', ByMobile, n) {
      KeyOf(p, n);
      assert Visible(keys, now, MobileIndexKey(n));
    }
  }

  /** A key that is visible later points to a record that is live later, since both have one expiry. */
  lemma UsernameStays(keys: map<string, PendingEntry>, live: map<string, PendingSignup>, now: Time, later: Time,
      u: string)
    requires Represents(keys, live, now) && now <= later && Visible(keys, later, UsernameKey(u))
    ensures PointsTo(keys[UsernameKey(u)].value, LivePending(live, later), ByUsername, u)
  {
    hide SignupKey, UsernameKey, EmailKey, MobileIndexKey;
    assert Visible(keys, now, UsernameKey(u));
  }

  lemma EmailStays(keys: map<string, PendingEntry>, live: map<string, PendingSignup>, now: Time, later: Time, e: string)
    requires Represents(keys, live, now) && now <= later && Visible(keys, later, EmailKey(e))
    ensures PointsTo(keys[EmailKey(e)].value, LivePending(live, later), ByEmail, e)
  {
    hide SignupKey, UsernameKey, EmailKey, MobileIndexKey;
    assert Visible(keys, now, EmailKey(e));
  }

  lemma MobileStays(keys: map<string, PendingEntry>, live: map<string, PendingSignup>, now: Time, later: Time,
      m: string)
    requires Represents(keys, live, now) && now <= later
    ensures Visible(keys, later, MobileIndexKey(m)) ==>
      PointsTo(keys[MobileIndexKey(m)].value, LivePending(live, later), ByMobile, m)
    ensures Visible(keys, later, SignupKey(m)) ==> m in LivePending(live, later)
  {
    hide SignupKey, UsernameKey, EmailKey, MobileIndexKey;
    assert Visible(keys, later, MobileIndexKey(m)) ==> Visible(keys, now, MobileIndexKey(m));
    assert Visible(keys, later, SignupKey(m)) ==> Visible(keys, now, SignupKey(m));
  }

  /** As time passes, keys and records vanish together. */
  lemma TimePasses(keys: map<string, PendingEntry>, live: map<string, PendingSignup>, now: Time, later: Time)
    requires Represents(keys, live, now) && now <= later
    ensures Represents(keys, LivePending(live, later), later)
  {
    hide SignupKey, UsernameKey, EmailKey, MobileIndexKey, PointsTo, Stored;
    var live' := LivePending(live, later);
    forall u | Visible(keys, later, UsernameKey(u)) ensures PointsTo(keys[UsernameKey(u)].value, live', ByUsername, u) {
      UsernameStays(keys, live, now, later, u);
    }
    forall e | Visible(keys, later, EmailKey(e)) ensures PointsTo(keys[EmailKey(e)].value, live', ByEmail, e) {
      EmailStays(keys, live, now, later, e);
    }
    forall m ensures Visible(keys, later, MobileIndexKey(m)) ==>
      PointsTo(keys[MobileIndexKey(m)].value, live', ByMobile, m) {
      MobileStays(keys, live, now, later, m);
    }
    forall m ensures Visible(keys, later, SignupKey(m)) ==> m in live' {
      MobileStays(keys, live, now, later, m);
    }
  }

  lemma Resaved(view: map<string, PendingSignup>, now: Time, p: PendingSignup)
    requires now <= p.expiresAt
    ensures LivePending(LivePending(view, now)[p.mobile := p], now) == LivePending(view, now)[p.mobile := p]
  {
  }

  class PendingSignupStore {
    var keys: map<string, PendingEntry>
    ghost var view: map<string, PendingSignup>      // the records saved and not deleted

    constructor ()
      ensures keys == map[] && view == map[]
    {
      keys := map[];
      view := map[];
    }

    ghost function Live(now: Time): map<string, PendingSignup>
      reads this
    {
      LivePending(view, now)
    }

    ghost predicate Valid(now: Time)
      reads this
    {
      Represents(keys, Live(now), now)
    }

    method Save(now: Time, signup: PendingSignup) returns (err: Option<Error>)
      requires Valid(now) && Disciplined(Live(now), signup)
      modifies this
      ensures Valid(now)
      ensures err == if signup.expiresAt - now <= 0 then Some(PendingSignupExpired) else None
      ensures Live(now) == if err.Some? then old(Live(now)) else old(Live(now))[signup.mobile := signup]
    {
      hide Represents, Saved, Disciplined, LivePending;
      var ttl := signup.expiresAt - now;
      if ttl <= 0 {
        return Some(PendingSignupExpired);
      }
      Resaved(view, now, signup);
      SaveRepresents(keys, Live(now), now, signup);
      assert now + ttl == signup.expiresAt;
      view := Live(now)[signup.mobile := signup];
      keys := Saved(keys, signup, now + ttl);
      return None;
    }

    method GetByMobile(now: Time, mobile: string) returns (r: Option<PendingSignup>)
      requires Valid(now)
      ensures r == if mobile in Live(now) then Some(Live(now)[mobile]) else None
    {
      var key := SignupKey(mobile);
      if key in keys && now <= keys[key].expiresAt {
        assert Visible(keys, now, SignupKey(mobile));
        return Some(keys[key].value.signup);
      }
      return None;
    }

    method DeleteByMobile(now: Time, mobile: string)
      requires Valid(now)
      requires forall m, n :: m in Live(now) && n in Live(now) && m != n ==>
        Live(now)[m].username != Live(now)[n].username && Live(now)[m].email != Live(now)[n].email
      modifies this
      ensures Valid(now) && Live(now) == old(Live(now)) - {mobile}
    {
      var found := GetByMobile(now, mobile);
      if found.None? {
        assert Live(now) - {mobile} == Live(now);
        return;
      }
      var signup := found.value;
      DeleteRepresents(keys, Live(now), now, mobile);
      view := Live(now) - {mobile};
      keys := keys - {SignupKey(mobile), UsernameKey(signup.username), EmailKey(signup.email),
        MobileIndexKey(signup.mobile)};
      assert Live(now) == view;
    }

    method GetMobileByUsername(now: Time, username: string) returns (r: Option<string>)
      requires Valid(now)
      ensures Answers(r, Live(now), ByUsername, username)
    {
      ghost var _ := Visible(keys, now, UsernameKey(username));
      r := GetIndex(now, UsernameKey(username));
      Unseen(keys, Live(now), now);
    }

    method GetMobileByEmail(now: Time, email: string) returns (r: Option<string>)
      requires Valid(now)
      ensures Answers(r, Live(now), ByEmail, email)
    {
      ghost var _ := Visible(keys, now, EmailKey(email));
      r := GetIndex(now, EmailKey(email));
      Unseen(keys, Live(now), now);
    }

    method GetMobileByMobile(now: Time, mobile: string) returns (r: Option<string>)
      requires Valid(now)
      ensures Answers(r, Live(now), ByMobile, mobile)
    {
      ghost var _ := Visible(keys, now, MobileIndexKey(mobile));
      r := GetIndex(now, MobileIndexKey(mobile));
      Unseen(keys, Live(now), now);
    }

    method GetIndex(now: Time, key: string) returns (r: Option<string>)
      requires Visible(keys, now, key) ==> keys[key].value.Mobile?
      ensures r == if Visible(keys, now, key) then Some(keys[key].value.mobile) else None
    {
      if key in keys && now <= keys[key].expiresAt {
        return Some(keys[key].value.mobile);
      }
      return None;
    }
  }

  /** An index read names the live record with the key, if there is one. */
  ghost predicate Answers(r: Option<string>, live: map<string, PendingSignup>, col: Column, key: string) {
    && (r.Some? ==> r.value in live && PendingHolds(live[r.value], col, key))
    && (r.None? ==> forall m :: m in live ==> !PendingHolds(live[m], col, key))
  }

  /** Every live record's index keys are visible. */
  lemma Unseen(keys: map<string, PendingEntry>, live: map<string, PendingSignup>, now: Time)
    requires Represents(keys, live, now)
    ensures forall m :: m in live ==>
      && Visible(keys, now, UsernameKey(live[m].username)) && Visible(keys, now, EmailKey(live[m].email))
      && Visible(keys, now, MobileIndexKey(live[m].mobile))
  {
  }
}
