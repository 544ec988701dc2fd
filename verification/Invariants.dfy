/** What every request keeps: the invariant of the reachable states and the ways a state grows. */
module Invariants {
  import opened Auth
  import opened Tables
  import opened Machine
  import Mobile

  // ---- The invariant, component by component ----

  /** A verified mobile belongs to a complete profile, an incomplete profile has no mobile. */
  ghost predicate UsersOk(users: seq<User>) {
    && Unique(users)
    && forall u :: u in users ==>
         && (u.mobileVerified ==> u.profileComplete && u.mobile != "")
         && (!u.profileComplete ==> u.mobile == "")
  }

  /** Passwords are those of verified users; no external identity has two rows, and every row belongs to a user. */
  ghost predicate TablesOk(t: UserTables) {
    && (forall id :: id in t.passwords ==> 1 <= id <= |t.users| && t.users[id - 1].mobileVerified)
    && (forall row :: row in t.sso ==> 1 <= row.userID <= |t.users|)
    && forall i, j :: 0 <= i < j < |t.sso| ==>
         t.sso[i].provider != t.sso[j].provider || t.sso[i].providerID != t.sso[j].providerID
  }

  /** A record as it is in the table, or as it was before its profile was completed. */
  ghost predicate Known(users: seq<User>, u: User) {
    && 1 <= u.id <= |users|
    && (users[u.id - 1] == u
        || (!u.profileComplete && users[u.id - 1].profileComplete && !users[u.id - 1].mobileVerified))
  }

  /** A cached record is the user of that name whenever the table has a user of that name. */
  ghost predicate Coherent(users: seq<User>, cache: map<string, CachedUser>) {
    forall u :: u in users && u.username in cache ==> cache[u.username].user == u
  }

  ghost predicate CacheOk(cfg: Config, users: seq<User>, cache: map<string, CachedUser>) {
    && (cfg.cacheTTL.None? ==> cache == map[])
    && (forall n :: n in cache ==> cache[n].user.username == n && Known(users, cache[n].user))
    && Coherent(users, cache)
  }

  /** Keyed by their own mobile; no two share a username or an email. */
  ghost predicate Distinct(pending: map<string, PendingSignup>) {
    && (forall m :: m in pending ==> pending[m].mobile == m && m != "")
    && forall m, n :: m in pending && n in pending && m != n ==>
         pending[m].username != pending[n].username && pending[m].email != pending[n].email
  }

  ghost predicate PendingOk(users: seq<User>, pending: map<string, PendingSignup>) {
    && Distinct(pending)
    && forall u :: u in users && u.mobileVerified ==> u.mobile !in pending
  }

  /** Every live refresh token descends from a login, and no two from the same one. */
  ghost predicate SessionsOk(sessions: map<string, RefreshSession>, roots: map<string, string>) {
    && sessions.Keys <= roots.Keys
    && roots.Values <= roots.Keys
    && forall s, t :: s in sessions && t in sessions && roots[s] == roots[t] ==> s == t
  }

  ghost predicate MintOk(users: seq<User>, m: Mint) {
    && m.tokens.accessToken.subject == m.user.username
    && m.tokens.accessToken.role == m.user.role
    && m.tokens.accessToken.profileComplete == m.user.profileComplete
    && (m.user.profileComplete ==> m.user in users)
    && (m.source.ByOTP? ==> m.user.mobileVerified)
  }

  ghost predicate MintedOk(users: seq<User>, minted: seq<Mint>) {
    forall m :: m in minted ==> MintOk(users, m)
  }

  /** The user was registered right after the provider approved a code for its mobile. */
  ghost predicate Vouched(messages: seq<Message>, u: User) {
    exists i, at :: VouchedAt(messages, i, at, u)
  }

  ghost predicate VouchedAt(messages: seq<Message>, i: nat, at: Time, u: User) {
    i + 1 < |messages| && messages[i] == SignupApproved(u.mobile, at) && messages[i + 1] == Registered(u, at)
  }

  ghost predicate VouchedOk(users: seq<User>, messages: seq<Message>) {
    forall u :: u in users && u.mobileVerified ==> Vouched(messages, u)
  }

  ghost predicate Inv(cfg: Config, w: World) {
    && w.clock > 0
    && UsersOk(w.tables.users)
    && TablesOk(w.tables)
    && CacheOk(cfg, w.tables.users, w.cache)
    && PendingOk(w.tables.users, w.pending)
    && SessionsOk(w.sessions, w.roots)
    && MintedOk(w.tables.users, w.minted)
    && VouchedOk(w.tables.users, w.messages)
  }

  // ---- Growth ----

  /** A row stays as it is once its profile is complete; completing keeps all but name and mobile. */
  ghost predicate RowKept(a: User, b: User) {
    a == b || (!a.profileComplete && b == a.(username := b.username, mobile := b.mobile, profileComplete := true))
  }

  ghost predicate UsersGrow(a: seq<User>, b: seq<User>) {
    |a| <= |b| && forall i :: 0 <= i < |a| ==> RowKept(a[i], b[i])
  }

  /** Of the refresh tokens handed out before, only live ones are live later, with the same session. */
  ghost predicate Buried(roots: map<string, string>, a: map<string, RefreshSession>, b: map<string, RefreshSession>) {
    forall t :: t in roots && t in b ==> t in a && b[t] == a[t]
  }

  ghost predicate RootsGrow(a: map<string, string>, b: map<string, string>) {
    forall t :: t in a ==> t in b && b[t] == a[t]
  }

  ghost predicate Grows(a: World, b: World) {
    && a.clock <= b.clock
    && UsersGrow(a.tables.users, b.tables.users)
    && a.tables.sso <= b.tables.sso
    && a.messages <= b.messages
    && a.minted <= b.minted
    && RootsGrow(a.roots, b.roots)
    && Buried(a.roots, a.sessions, b.sessions)
  }

  lemma GrowsTransitive(a: World, b: World, c: World)
    requires Grows(a, b) && Grows(b, c)
    ensures Grows(a, c)
  {
    forall i | 0 <= i < |a.tables.users| ensures RowKept(a.tables.users[i], c.tables.users[i]) {
      assert RowKept(a.tables.users[i], b.tables.users[i]) && RowKept(b.tables.users[i], c.tables.users[i]);
    }
  }

  /** What one step of a request leaves behind. */
  ghost predicate Kept(cfg: Config, a: World, b: World) {
    Inv(cfg, b) && Grows(a, b)
  }

  // ---- Small steps ----

  lemma TickKeeps(cfg: Config, w: World, now: Time)
    requires Inv(cfg, w) && w.clock <= now
    ensures Kept(cfg, w, Tick(w, now))
  {
  }

  /** Nothing changed but the clock, the caches, the pending signups or the limiter. */
  lemma Untouched(a: World, b: World)
    requires a.clock <= b.clock && a.tables == b.tables && a.messages == b.messages && a.minted == b.minted
    requires a.roots == b.roots && forall t :: t in b.sessions ==> t in a.sessions && b.sessions[t] == a.sessions[t]
    ensures Grows(a, b)
  {
  }

  lemma CacheRemembers(cfg: Config, users: seq<User>, cache: map<string, CachedUser>, user: User, until: Time)
    requires Unique(users) && CacheOk(cfg, users, cache) && cfg.cacheTTL.Some? && user in users
    ensures CacheOk(cfg, users, cache[user.username := CachedUser(user, until)])
  {
    FoundIsKnown(users, user);
    forall u | u in users && u.username == user.username ensures u == user {
      FindUnique(users, ByUsername, u);
      FindUnique(users, ByUsername, user);
    }
  }

  lemma RememberKeeps(cfg: Config, w: World, user: User)
    requires Inv(cfg, w) && user in w.tables.users
    ensures Kept(cfg, w, Remember(cfg, w, user))
  {
    hide CacheOk, TablesOk, PendingOk, SessionsOk, MintedOk, VouchedOk;
    Untouched(w, Remember(cfg, w, user));
    if cfg.cacheTTL.Some? {
      CacheRemembers(cfg, w.tables.users, w.cache, user, w.clock + cfg.cacheTTL.value);
    }
  }

  /** Reads touch nothing but the cache. */
  lemma LookupLeaves(cfg: Config, w: World, col: Column, key: string)
    ensures var (w', r) := Lookup(cfg, w, col, key); w' == w.(cache := w'.cache) && r == Find(w.tables.users, col, key)
  {
  }

  lemma LookupUsernameLeaves(cfg: Config, w: World, username: string)
    ensures var w' := LookupUsername(cfg, w, username).0; w' == w.(cache := w'.cache)
  {
  }

  /** Issuing touches sessions, mints and lineages, and these only if it hands out a pair. */
  lemma IssueLeaves(cfg: Config, w: World, user: User, e: Entropy, source: Source, parent: Option<string>)
    ensures
      var (w', reply) := Issue(cfg, w, user, e, source, parent);
      && w' == w.(sessions := w'.sessions, minted := w'.minted, roots := w'.roots)
      && (reply.Issued? <==> cfg.refreshTokenTTL > 0)
      && if reply.Issued? then reply.user == user && w'.minted == w.minted + [Mint(user, reply.tokens, source)]
          else w' == w
  {
  }

  /** Time touches neither tables nor history. */
  lemma TickLeaves(w: World, now: Time)
    ensures
      var w' := Tick(w, now);
      w'.tables == w.tables && w'.roots == w.roots && w'.messages == w.messages && w'.minted == w.minted
  {
  }

  lemma LimiterApart(cfg: Config, a: World, b: World)
    requires Inv(cfg, a) && b == a.(windows := b.windows)
    ensures Inv(cfg, b)
  {
  }

  lemma InvUsers(cfg: Config, w: World)
    requires Inv(cfg, w)
    ensures UsersOk(w.tables.users)
  {
  }

  lemma Positive(cfg: Config, w: World)
    requires Inv(cfg, w)
    ensures w.clock > 0
  {
  }

  lemma KeyedByMobile(cfg: Config, w: World, m: string)
    requires Inv(cfg, w) && m in w.pending
    ensures w.pending[m].mobile == m && m != ""
  {
  }

  lemma LookupKeeps(cfg: Config, w: World, col: Column, key: string)
    requires Inv(cfg, w)
    ensures Kept(cfg, w, Lookup(cfg, w, col, key).0)
    ensures Lookup(cfg, w, col, key) == (w.(cache := Lookup(cfg, w, col, key).0.cache), Find(w.tables.users, col, key))
  {
    hide UsersOk, TablesOk, CacheOk, PendingOk, SessionsOk, MintedOk, VouchedOk, UsersGrow, RootsGrow, Buried;
    Untouched(w, w);
    var r := Find(w.tables.users, col, key);
    if r.Some? {
      RememberKeeps(cfg, w, r.value);
    }
  }

  lemma LookupUsernameKeeps(cfg: Config, w: World, username: string)
    requires Inv(cfg, w)
    ensures Kept(cfg, w, LookupUsername(cfg, w, username).0)
    ensures var w' := LookupUsername(cfg, w, username).0; w' == w.(cache := w'.cache)
    ensures
      var r := LookupUsername(cfg, w, username).1;
      && (r.Some? ==> r.value.username == username && Known(w.tables.users, r.value))
      && (forall u :: u in w.tables.users && u.username == username ==> r == Some(u))
  {
    LookupKeeps(cfg, w, ByUsername, username);
    var r := LookupUsername(cfg, w, username).1;
    if r.Some? && !(cfg.cacheTTL.Some? && username in w.cache) {
      FoundIsKnown(w.tables.users, r.value);
    }
    forall u | u in w.tables.users && u.username == username ensures r == Some(u) {
      FindUnique(w.tables.users, ByUsername, u);
    }
  }

  lemma FoundIsKnown(users: seq<User>, u: User)
    requires Unique(users) && u in users
    ensures Known(users, u) && ByID(users, u.id) == Some(u)
  {
    var i :| 0 <= i < |users| && users[i] == u;
  }

  lemma RowIsKnown(cfg: Config, w: World, u: User)
    requires Inv(cfg, w) && u in w.tables.users
    ensures Known(w.tables.users, u) && 1 <= u.id <= |w.tables.users|
  {
    FoundIsKnown(w.tables.users, u);
  }

  lemma MessageKeeps(cfg: Config, w: World, m: Message)
    requires Inv(cfg, w)
    ensures Kept(cfg, w, w.(messages := w.messages + [m]))
  {
    VouchedGrows(w.tables.users, w.messages, w.messages + [m]);
  }

  lemma VouchedGrows(users: seq<User>, a: seq<Message>, b: seq<Message>)
    requires VouchedOk(users, a) && a <= b
    ensures VouchedOk(users, b)
  {
    forall u | u in users && u.mobileVerified ensures Vouched(b, u) {
      var i, at :| VouchedAt(a, i, at, u);
      assert VouchedAt(b, i, at, u);
    }
  }

  /** Issuing tokens: for a login, or for a token whose session was just removed. */
  lemma IssueKeeps(cfg: Config, w: World, user: User, e: Entropy, source: Source, parent: Option<string>)
    requires Inv(cfg, w) && TokenOf(e) !in w.roots
    requires Known(w.tables.users, user)
    requires source.ByOTP? ==> user.mobileVerified
    requires parent.Some? ==> parent.value in w.roots
    requires parent.Some? ==> forall s :: s in w.sessions ==> s in w.roots && w.roots[s] != w.roots[parent.value]
    ensures Kept(cfg, w, Issue(cfg, w, user, e, source, parent).0)
  {
    var (w', reply) := Issue(cfg, w, user, e, source, parent);
    if reply.Issued? {
      var token := TokenOf(e);
      var m := Mint(user, reply.tokens, source);
      assert w'.minted == w.minted + [m];
      assert MintOk(w.tables.users, m);
      forall t | t in w.roots ensures w.roots[t] != token {
        assert w.roots[t] in w.roots.Values;
      }
      assert w'.roots.Values <= w'.roots.Keys by {
        forall x | x in w'.roots.Values ensures x in w'.roots.Keys {
          var t :| t in w'.roots && w'.roots[t] == x;
          if t in w.roots && t != token { assert w.roots[t] in w.roots.Values; }
        }
      }
    }
  }

  // ---- Signup ----

  lemma AvailabilityKeeps(cfg: Config, w: World, form: SignupForm)
    requires Inv(cfg, w)
    ensures
      var w' := Availability(cfg, w, form).0;
      Kept(cfg, w, w') && w' == w.(cache := w'.cache)
  {
    hide Lookup, LookupUsername;
    hide UsersOk, TablesOk, CacheOk, PendingOk, SessionsOk, MintedOk, VouchedOk, UsersGrow, RootsGrow, Buried;
    hide PendingAvailability;
    var w1 := LookupUsername(cfg, w, form.username).0;
    LookupUsernameKeeps(cfg, w, form.username);
    var w2 := Lookup(cfg, w1, ByEmail, form.email).0;
    LookupKeeps(cfg, w1, ByEmail, form.email);
    GrowsTransitive(w, w1, w2);
    var w3 := Lookup(cfg, w2, ByMobile, form.mobile).0;
    LookupKeeps(cfg, w2, ByMobile, form.mobile);
    GrowsTransitive(w, w2, w3);
  }

  /** No user and no live pending signup has the username, the email or the mobile. */
  ghost predicate Available(users: seq<User>, pending: map<string, PendingSignup>, form: SignupForm) {
    && (forall u :: u in users ==>
          u.username != form.username && u.email != form.email && u.mobile != form.mobile)
    && (forall m :: m in pending ==>
          && pending[m].username != form.username && pending[m].email != form.email
          && pending[m].mobile != form.mobile)
  }

  lemma NotPending(cfg: Config, w: World, form: SignupForm)
    requires Inv(cfg, w) && Available(w.tables.users, w.pending, form)
    ensures form.mobile !in w.pending
  {
  }

  lemma AvailabilityMeans(cfg: Config, w: World, form: SignupForm)
    requires Inv(cfg, w) && form.mobile != "" && Availability(cfg, w, form).1.None?
    ensures Available(w.tables.users, w.pending, form)
  {
    hide TablesOk, CacheOk, PendingOk, SessionsOk, MintedOk, VouchedOk, UsersGrow, RootsGrow, Buried;
    var (w1, byName) := LookupUsername(cfg, w, form.username);
    LookupUsernameKeeps(cfg, w, form.username);
    assert byName.None?;
    var (w2, byEmail) := Lookup(cfg, w1, ByEmail, form.email);
    assert byEmail.None? by {
      if byEmail.Some? { FoundIsKnown(w.tables.users, byEmail.value); }
    }
    var byMobile := Find(w.tables.users, ByMobile, form.mobile);
    assert byMobile.None? by {
      if byMobile.Some? { FoundIsKnown(w.tables.users, byMobile.value); }
    }
    forall u | u in w.tables.users
      ensures u.username != form.username && u.email != form.email && u.mobile != form.mobile
    {
      assert !Holds(u, ByEmail, form.email) && !Holds(u, ByMobile, form.mobile);
    }
    forall m | m in w.pending
      ensures w.pending[m].username != form.username && w.pending[m].email != form.email
        && w.pending[m].mobile != form.mobile
    {
      assert !PendingHolds(w.pending[m], ByUsername, form.username);
      assert !PendingHolds(w.pending[m], ByEmail, form.email);
      assert !PendingHolds(w.pending[m], ByMobile, form.mobile);
    }
  }

  lemma PendingSaved(users: seq<User>, pending: map<string, PendingSignup>, p: PendingSignup)
    requires PendingOk(users, pending) && p.mobile != ""
    requires
      || Available(users, pending, SignupForm(p.username, p.email, p.mobile))
      || (p.mobile in pending && pending[p.mobile].username == p.username && pending[p.mobile].email == p.email)
    ensures PendingOk(users, pending[p.mobile := p])
  {
  }

  lemma SavedKeeps(cfg: Config, w: World, p: PendingSignup)
    requires Inv(cfg, w)
    requires
      || (p.mobile != "" && Available(w.tables.users, w.pending, SignupForm(p.username, p.email, p.mobile)))
      || (p.mobile in w.pending && w.pending[p.mobile].username == p.username && w.pending[p.mobile].email == p.email)
    ensures Kept(cfg, w, w.(pending := w.pending[p.mobile := p]))
  {
    hide UsersOk, TablesOk, CacheOk, SessionsOk, MintedOk, VouchedOk, UsersGrow, RootsGrow, Buried, Available;
    Untouched(w, w.(pending := w.pending[p.mobile := p]));
    PendingSaved(w.tables.users, w.pending, p);
  }

  lemma RequestSignupKeeps(cfg: Config, w: World, r: Request)
    requires Inv(cfg, w) && r.RequestSignup?
    ensures Kept(cfg, w, DoRequestSignup(cfg, w, r).0)
  {
    hide UsersOk, TablesOk, CacheOk, PendingOk, SessionsOk, MintedOk, VouchedOk, UsersGrow, RootsGrow, Buried;
    hide Availability, Available;
    var f := NormalizeSignup(cfg, r.username, r.password, r.email, r.mobile);
    Untouched(w, w);
    if f.Ok? {
      var form := f.value;
      AvailabilityKeeps(cfg, w, form);
      var (w1, conflict) := Availability(cfg, w, form);
      if conflict.None? && r.hash.Some? && r.sent {
        AvailabilityMeans(cfg, w, form);
        var w2 := w1.(messages := w1.messages + [SignupSent(form.mobile, w1.clock, true)]);
        MessageKeeps(cfg, w1, SignupSent(form.mobile, w1.clock, true));
        GrowsTransitive(w, w1, w2);
        var p := PendingSignup(form.username, r.hash.value, form.email, form.mobile, 0, w1.clock,
          w1.clock + cfg.pendingSignupTTL);
        SavedKeeps(cfg, w2, p);
        GrowsTransitive(w, w2, w2.(pending := w2.pending[p.mobile := p]));
      }
    }
  }

  lemma ResendSignupKeeps(cfg: Config, w: World, r: Request)
    requires Inv(cfg, w) && r.ResendSignup?
    ensures Kept(cfg, w, DoResendSignup(cfg, w, r).0)
  {
    hide Inv, Grows, Mobile.Normalize, ResendPending;
    var f := Mobile.Normalize(r.mobile, cfg.wideDigits);
    Untouched(w, w);
    if f.Ok? && f.value in w.pending { ResendPendingKeeps(cfg, w, f.value, r.sent); }
  }

  lemma ResendPendingKeeps(cfg: Config, w: World, mobile: string, sent: bool)
    requires Inv(cfg, w) && mobile in w.pending
    ensures Kept(cfg, w, ResendPending(cfg, w, mobile, w.pending[mobile], sent).0)
  {
    hide Inv, Grows, ResendError;
    Untouched(w, w);
    KeyedByMobile(cfg, w, mobile);
    MessageKeeps(cfg, w, SignupSent(mobile, w.clock, false));
    var p := w.pending[mobile].(resendCount := w.pending[mobile].resendCount + 1, lastSentAt := w.clock);
    var w1 := w.(messages := w.messages + [SignupSent(mobile, w.clock, false)]);
    SavedKeeps(cfg, w1, p);
    GrowsTransitive(w, w1, w1.(pending := w1.pending[p.mobile := p]));
  }

  /** A new row that clashes with none, seen from the other components. */
  lemma RowAdded(cfg: Config, w: World, user: User, t: UserTables)
    requires Inv(cfg, w)
    requires t.users == w.tables.users + [user] && t.sso == w.tables.sso
    requires forall id :: id in t.passwords ==> id in w.tables.passwords || (id == |t.users| && user.mobileVerified)
    requires user.mobileVerified ==> Vouched(w.messages, user)
    ensures UsersGrow(w.tables.users, t.users) && TablesOk(t)
    ensures MintedOk(t.users, w.minted) && VouchedOk(t.users, w.messages)
  {
    hide UsersOk, CacheOk, PendingOk, SessionsOk, RootsGrow, Buried, Vouched;
  }

  lemma CacheRowAdded(cfg: Config, users: seq<User>, cache: map<string, CachedUser>, user: User, until: Time)
    requires Unique(users + [user]) && CacheOk(cfg, users, cache) && cfg.cacheTTL.Some?
    ensures CacheOk(cfg, users + [user], cache[user.username := CachedUser(user, until)])
  {
    var users' := users + [user];
    var cache' := cache[user.username := CachedUser(user, until)];
    assert users'[|users|] == user;
    forall u | u in users' && u.username in cache' ensures cache'[u.username].user == u {
      if u.username == user.username {
        FindUnique(users', ByUsername, u);
        FindUnique(users', ByUsername, user);
      } else {
        assert u in users;
      }
    }
    forall n | n in cache' ensures cache'[n].user.username == n && Known(users', cache'[n].user) {
      if n != user.username { assert Known(users, cache[n].user); }
    }
  }

  /** A row was inserted and remembered, and the pending signup of its mobile is gone. */
  lemma UserCreated(cfg: Config, w: World, user: User, t: UserTables, pending: map<string, PendingSignup>)
    requires Inv(cfg, w) && UsersOk(t.users)
    requires t.users == w.tables.users + [user] && t.sso == w.tables.sso
    requires forall id :: id in t.passwords ==> id in w.tables.passwords || (id == |t.users| && user.mobileVerified)
    requires user.mobileVerified ==> Vouched(w.messages, user)
    requires pending == w.pending || pending == w.pending - {user.mobile}
    requires user.mobileVerified ==> user.mobile !in pending
    ensures Kept(cfg, w, Remember(cfg, w.(tables := t, pending := pending), user))
  {
    hide UsersOk, TablesOk, CacheOk, SessionsOk, MintedOk, VouchedOk, UsersGrow, RootsGrow, Buried, Vouched;
    Untouched(w, w);
    RowAdded(cfg, w, user, t);
    assert PendingOk(t.users, pending);
    if cfg.cacheTTL.Some? {
      assert Unique(t.users) by { UsersAreUnique(t.users); }
      CacheRowAdded(cfg, w.tables.users, w.cache, user, w.clock + cfg.cacheTTL.value);
    } else {
      NoCache(cfg, w.tables.users, t.users, w.cache);
    }
  }

  lemma UsersAreUnique(users: seq<User>)
    requires UsersOk(users)
    ensures Unique(users)
  {
  }

  lemma NoCache(cfg: Config, users: seq<User>, users': seq<User>, cache: map<string, CachedUser>)
    requires CacheOk(cfg, users, cache) && cfg.cacheTTL.None?
    ensures CacheOk(cfg, users', cache)
  {
  }

  /** The insert of VerifySignupOTP, from an approved code on. */
  lemma SignupRegistered(cfg: Config, w: World, mobile: string, at: Time)
    requires Inv(cfg, w) && mobile in w.pending && at == w.clock
    requires w.messages != [] && w.messages[|w.messages| - 1] == SignupApproved(mobile, at)
    ensures
      var p := w.pending[mobile];
      Register(w.tables, NewUser(p), p.passwordHash).Ok? ==>
        var (t, user) := Register(w.tables, NewUser(p), p.passwordHash).value;
        var w' := Remember(cfg, w.(tables := t, messages := w.messages + [Registered(user, at)]), user);
        Kept(cfg, w, w'.(pending := w'.pending - {mobile})) && Known(t.users, user) && user in t.users
  {
    hide TablesOk, CacheOk, SessionsOk, MintedOk, VouchedOk, UsersGrow, RootsGrow, Buried;
    var p := w.pending[mobile];
    UsersAreUnique(w.tables.users);
    RegisterKeepsUnique(w.tables, NewUser(p), p.passwordHash);
    if Register(w.tables, NewUser(p), p.passwordHash).Ok? {
      var (t, user) := Register(w.tables, NewUser(p), p.passwordHash).value;
      var w1 := w.(messages := w.messages + [Registered(user, at)]);
      MessageKeeps(cfg, w, Registered(user, at));
      assert VouchedAt(w1.messages, |w.messages| - 1, at, user);
      assert UsersOk(t.users);
      UserCreated(cfg, w1, user, t, w.pending - {mobile});
      var w2 := Remember(cfg, w1.(tables := t, pending := w.pending - {mobile}), user);
      GrowsTransitive(w, w1, w2);
      assert t.users[|w.tables.users|] == user;
    }
  }

  lemma VerifySignupKeeps(cfg: Config, w: World, r: Request, e: Entropy)
    requires Inv(cfg, w) && r.VerifySignup? && TokenOf(e) !in w.roots
    ensures Kept(cfg, w, DoVerifySignup(cfg, w, r, e).0)
  {
    hide UsersOk, TablesOk, CacheOk, PendingOk, SessionsOk, MintedOk, VouchedOk, UsersGrow, RootsGrow, Buried;
    hide Register, Issue;
    var f := Mobile.Normalize(r.mobile, cfg.wideDigits);
    Untouched(w, w);
    if f.Ok? && Text.TrimSpace(r.code) != "" && f.value in w.pending && r.verdict.Approved? {
      var mobile := f.value;
      var p := w.pending[mobile];
      var w1 := w.(messages := w.messages + [SignupApproved(mobile, w.clock)]);
      MessageKeeps(cfg, w, SignupApproved(mobile, w.clock));
      SignupRegistered(cfg, w1, mobile, w.clock);
      if Register(w1.tables, NewUser(p), p.passwordHash).Ok? {
        var (t, user) := Register(w1.tables, NewUser(p), p.passwordHash).value;
        var w2 := Remember(cfg, w1.(tables := t, messages := w1.messages + [Registered(user, w.clock)]), user);
        var w3 := w2.(pending := w2.pending - {mobile});
        GrowsTransitive(w, w1, w3);
        IssueKeeps(cfg, w3, user, e, BySignup, None);
        GrowsTransitive(w, w3, DoVerifySignup(cfg, w, r, e).0);
      }
    }
  }

  // ---- Logins and sessions ----

  lemma RequestLoginKeeps(cfg: Config, w: World, r: Request)
    requires Inv(cfg, w) && r.RequestLogin?
    ensures Kept(cfg, w, DoRequestLogin(cfg, w, r).0)
  {
    hide Lookup, LookupUsername;
    hide UsersOk, TablesOk, CacheOk, PendingOk, SessionsOk, MintedOk, VouchedOk, UsersGrow, RootsGrow, Buried;
    var f := Mobile.Normalize(r.mobile, cfg.wideDigits);
    Untouched(w, w);
    if f.Ok? {
      LookupKeeps(cfg, w, ByMobile, f.value);
      var w1 := Lookup(cfg, w, ByMobile, f.value).0;
      MessageKeeps(cfg, w1, LoginSent(f.value, w1.clock));
      GrowsTransitive(w, w1, w1.(messages := w1.messages + [LoginSent(f.value, w1.clock)]));
    }
  }

  lemma VerifyLoginKeeps(cfg: Config, w: World, r: Request, e: Entropy)
    requires Inv(cfg, w) && r.VerifyLogin? && TokenOf(e) !in w.roots
    ensures Kept(cfg, w, DoVerifyLogin(cfg, w, r, e).0)
  {
    hide Lookup, LookupUsername;
    hide UsersOk, TablesOk, CacheOk, PendingOk, SessionsOk, MintedOk, VouchedOk, UsersGrow, RootsGrow, Buried;
    hide Issue;
    var f := Mobile.Normalize(r.mobile, cfg.wideDigits);
    Untouched(w, w);
    if f.Ok? && Text.TrimSpace(r.code) != "" {
      var (w1, user) := Lookup(cfg, w, ByMobile, f.value);
      LookupKeeps(cfg, w, ByMobile, f.value);
      if user.Some? && user.value.mobileVerified && r.verdict.Approved? {
        MessageKeeps(cfg, w1, LoginApproved(f.value, w1.clock));
        var w2 := w1.(messages := w1.messages + [LoginApproved(f.value, w1.clock)],
          logins := w1.logins - {LoginKey(f.value)});
        assert Kept(cfg, w1, w2);
        RowIsKnown(cfg, w, user.value);
        IssueKeeps(cfg, w2, user.value, e, ByOTP, None);
        GrowsTransitive(w, w1, w2);
        GrowsTransitive(w, w2, DoVerifyLogin(cfg, w, r, e).0);
      }
    }
  }

  lemma PasswordLoginKeeps(cfg: Config, w: World, r: Request, e: Entropy)
    requires Inv(cfg, w) && r.PasswordLogin? && TokenOf(e) !in w.roots
    ensures Kept(cfg, w, DoPasswordLogin(cfg, w, r, e).0)
  {
    hide Lookup, LookupUsername;
    hide UsersOk, TablesOk, CacheOk, PendingOk, SessionsOk, MintedOk, VouchedOk, UsersGrow, RootsGrow, Buried;
    hide Issue;
    Untouched(w, w);
    var username := Text.TrimSpace(r.username);
    LookupUsernameKeeps(cfg, w, username);
    var (w1, user) := LookupUsername(cfg, w, username);
    if user.Some? {
      IssueKeeps(cfg, w1, user.value, e, ByPassword, None);
      GrowsTransitive(w, w1, Issue(cfg, w1, user.value, e, ByPassword, None).0);
    }
  }

  lemma SessionRemoved(cfg: Config, w: World, token: string)
    requires Inv(cfg, w)
    ensures Kept(cfg, w, w.(sessions := w.sessions - {token}))
    ensures token in w.sessions ==> token in w.roots
    ensures token in w.sessions ==> forall s :: s in w.sessions - {token} ==>
      s in w.roots && w.roots[s] != w.roots[token]
  {
    hide UsersOk, TablesOk, CacheOk, PendingOk, MintedOk, VouchedOk;
    Untouched(w, w.(sessions := w.sessions - {token}));
  }

  lemma RefreshKeeps(cfg: Config, w: World, r: Request, e: Entropy)
    requires Inv(cfg, w) && r.Refresh? && TokenOf(e) !in w.roots
    ensures Kept(cfg, w, DoRefresh(cfg, w, r, e).0)
  {
    hide Lookup, LookupUsername;
    hide UsersOk, TablesOk, CacheOk, PendingOk, SessionsOk, MintedOk, VouchedOk, UsersGrow, RootsGrow, Buried;
    hide Issue;
    Untouched(w, w);
    var token := Text.TrimSpace(r.token);
    if token != "" && token in w.sessions {
      LookupUsernameKeeps(cfg, w, w.sessions[token].username);
      var (w1, user) := LookupUsername(cfg, w, w.sessions[token].username);
      if user.Some? {
        var w2 := w1.(sessions := w1.sessions - {token});
        SessionRemoved(cfg, w1, token);
        GrowsTransitive(w, w1, w2);
        IssueKeeps(cfg, w2, user.value, e, ByRefresh, Some(token));
        GrowsTransitive(w, w2, DoRefresh(cfg, w, r, e).0);
      }
    }
  }

  // ---- Google sign-on and profile completion ----

  lemma LinkKeeps(cfg: Config, w: World, userID: nat, provider: string, identity: string)
    requires Inv(cfg, w) && 1 <= userID <= |w.tables.users|
    requires FindSSO(w.tables, provider, identity).None?
    ensures Kept(cfg, w, w.(tables := Link(w.tables, userID, provider, identity)))
  {
    hide UsersOk, CacheOk, PendingOk, SessionsOk, MintedOk, VouchedOk, RootsGrow, Buried;
    Untouched(w, w);
    NoRow(w.tables, provider, identity);
  }

  /** Without a linked user there is no row either. */
  lemma NoRow(t: UserTables, provider: string, identity: string)
    requires TablesOk(t) && FindSSO(t, provider, identity).None?
    ensures forall i :: 0 <= i < |t.sso| ==> t.sso[i].provider != provider || t.sso[i].providerID != identity
  {
    var r := FirstRow(t.sso, provider, identity);
    assert forall i :: 0 <= i < |t.sso| ==> t.sso[i] in t.sso;
  }

  lemma LinkedIsKnown(cfg: Config, w: World, provider: string, identity: string)
    requires Inv(cfg, w) && FindSSO(w.tables, provider, identity).Some?
    ensures Known(w.tables.users, FindSSO(w.tables, provider, identity).value)
  {
  }

  lemma GoogleLoginKeeps(cfg: Config, w: World, r: Request, e: Entropy)
    requires Inv(cfg, w) && r.GoogleLogin? && TokenOf(e) !in w.roots
    ensures Kept(cfg, w, DoGoogleLogin(cfg, w, r, e).0)
  {
    hide Inv, Grows, Known, Issue, ResolveGoogle;
    ResolveKeeps(cfg, w, r.identity, r.email);
    ResolveLeaves(cfg, w, r.identity, r.email);
    var (w1, user) := ResolveGoogle(cfg, w, r.identity, r.email);
    if user.Ok? {
      IssueKeeps(cfg, w1, user.value, e, ByGoogle, None);
      GrowsTransitive(w, w1, Issue(cfg, w1, user.value, e, ByGoogle, None).0);
    }
  }

  /** Resolving an identity touches nothing but tables and cache. */
  lemma ResolveLeaves(cfg: Config, w: World, identity: string, email: string)
    ensures var w' := ResolveGoogle(cfg, w, identity, email).0; w' == w.(tables := w'.tables, cache := w'.cache)
  {
    hide Lookup, LookupUsername, FindSSO, CreateSSOUser, LocalPart, Fallback, Link;
    LookupLeaves(cfg, w, ByEmail, email);
    LookupUsernameLeaves(cfg, Lookup(cfg, w, ByEmail, email).0, LocalPart(email));
  }

  lemma ResolveKeeps(cfg: Config, w: World, identity: string, email: string)
    requires Inv(cfg, w)
    ensures
      var (w', user) := ResolveGoogle(cfg, w, identity, email);
      Kept(cfg, w, w') && (user.Ok? ==> Known(w'.tables.users, user.value))
  {
    hide Lookup, LookupUsername, Inv, Grows, Known, Find, CreateGoogle, FindSSO;
    Untouched(w, w);
    var linked := FindSSO(w.tables, GOOGLE, identity);
    if linked.Some? {
      LinkedIsKnown(cfg, w, GOOGLE, identity);
    } else {
      var (w1, byEmail) := Lookup(cfg, w, ByEmail, email);
      LookupKeeps(cfg, w, ByEmail, email);
      if byEmail.Some? {
        RowIsKnown(cfg, w1, byEmail.value);
        LinkKeeps(cfg, w1, byEmail.value.id, GOOGLE, identity);
        GrowsTransitive(w, w1, w1.(tables := Link(w1.tables, byEmail.value.id, GOOGLE, identity)));
      } else {
        CreateKeeps(cfg, w1, identity, email);
        GrowsTransitive(w, w1, CreateGoogle(cfg, w1, identity, email).0);
      }
    }
  }

  lemma CreateKeeps(cfg: Config, w: World, identity: string, email: string)
    requires Inv(cfg, w) && FindSSO(w.tables, GOOGLE, identity).None?
    ensures
      var (w', user) := CreateGoogle(cfg, w, identity, email);
      Kept(cfg, w, w') && (user.Ok? ==> Known(w'.tables.users, user.value))
  {
    hide LookupUsername, Inv, Grows, Known, FindSSO, Register, LocalPart, Fallback;
    var (w1, holder) := LookupUsername(cfg, w, LocalPart(email));
    LookupUsernameKeeps(cfg, w, LocalPart(email));
    var username := if holder.Some? then Fallback(LocalPart(email), w1.clock) else LocalPart(email);
    NewcomerStored(cfg, w1, username, email, identity);
    if Register(w1.tables, Newcomer(username, email), "").Ok? {
      GrowsTransitive(w, w1, CreateGoogle(cfg, w, identity, email).0);
    }
  }

  /** The new user's row, its SSO row and its cache entry. */
  lemma NewcomerStored(cfg: Config, w: World, username: string, email: string, identity: string)
    requires Inv(cfg, w) && FindSSO(w.tables, GOOGLE, identity).None?
    ensures
      var made := Register(w.tables, Newcomer(username, email), "");
      made.Ok? ==>
        var (t0, user) := made.value;
        Kept(cfg, w, Remember(cfg, w.(tables := Link(t0, user.id, GOOGLE, identity)), user)) && Known(t0.users, user)
  {
    hide Inv, Grows, Known, FindSSO, Register;
    NewcomerRegistered(cfg, w, username, email);
    var made := Register(w.tables, Newcomer(username, email), "");
    if made.Ok? {
      var (t0, user) := made.value;
      UserCreated(cfg, w, user, t0, w.pending);
      var w1 := Remember(cfg, w.(tables := t0), user);
      assert w1 == Remember(cfg, w.(tables := t0, pending := w.pending), user);
      NotLinked(cfg, w, t0, GOOGLE, identity);
      LinkKeeps(cfg, w1, user.id, GOOGLE, identity);
      GrowsTransitive(w, w1, w1.(tables := Link(t0, user.id, GOOGLE, identity)));
    }
  }

  lemma NewcomerRegistered(cfg: Config, w: World, username: string, email: string)
    requires Inv(cfg, w)
    ensures
      var t := w.tables;
      var made := Register(t, Newcomer(username, email), "");
      made.Ok? ==>
        var (t', user) := made.value;
        && UsersOk(t'.users) && t'.users == t.users + [user] && t'.sso == t.sso && t'.passwords == t.passwords
        && !user.mobileVerified && Known(t'.users, user) && 1 <= user.id <= |t'.users|
  {
    RegisterKeepsUnique(w.tables, Newcomer(username, email), "");
    var made := Register(w.tables, Newcomer(username, email), "");
    if made.Ok? {
      FoundIsKnown(made.value.0.users, made.value.1);
    }
  }

  /** A new user does not come with an SSO row. */
  lemma NotLinked(cfg: Config, w: World, t: UserTables, provider: string, identity: string)
    requires Inv(cfg, w) && t.sso == w.tables.sso && FindSSO(w.tables, provider, identity).None?
    ensures FindSSO(t, provider, identity).None?
  {
    NoRow(w.tables, provider, identity);
  }

  /** The checks of CompleteProfile leave no unique value for UpdateUser to trip over. */
  lemma ProfileIsFree(cfg: Config, w: World, id: nat, username: string, mobile: string)
    requires Inv(cfg, w) && 1 <= id <= |w.tables.users| && mobile != ""
    requires
      var byName := LookupUsername(cfg, w, username).1;
      byName.Some? ==> byName.value.id == id
    requires
      var byMobile := Find(w.tables.users, ByMobile, mobile);
      byMobile.Some? ==> byMobile.value.id == id
    ensures
      var user := w.tables.users[id - 1].(username := username, mobile := mobile, profileComplete := true);
      forall u :: u in w.tables.users && u.id != id ==> !Clash(user, u)
  {
    hide TablesOk, CacheOk, PendingOk, SessionsOk, MintedOk, VouchedOk, UsersGrow, RootsGrow, Buried;
    LookupUsernameKeeps(cfg, w, username);
    var row := w.tables.users[id - 1];
    forall u | u in w.tables.users && u.id != id
      ensures u.username != username && u.mobile != mobile && u.email != row.email
    {
      assert LookupUsername(cfg, w, username).1 != Some(u);
      var j :| 0 <= j < |w.tables.users| && w.tables.users[j] == u;
      if u.mobile == mobile {
        FindUnique(w.tables.users, ByMobile, u);
      }
      if j < id - 1 { assert !Clash(w.tables.users[j], row); } else { assert !Clash(row, w.tables.users[j]); }
    }
  }

  /** What CompleteProfile writes over an incomplete row. */
  ghost predicate Completes(users: seq<User>, user: User) {
    && 1 <= user.id <= |users| && user.mobile != ""
    && var row := users[user.id - 1];
    && !row.profileComplete
    && user == row.(username := user.username, mobile := user.mobile, profileComplete := true)
  }

  lemma CompletedUsers(users: seq<User>, user: User)
    requires UsersOk(users) && Completes(users, user) && Unique(users[user.id - 1 := user])
    ensures UsersOk(users[user.id - 1 := user]) && UsersGrow(users, users[user.id - 1 := user])
    ensures forall u :: u in users[user.id - 1 := user] ==> u == user || u in users
    ensures forall u :: u in users && u.profileComplete ==> u in users[user.id - 1 := user]
    ensures !user.mobileVerified
  {
    var users' := users[user.id - 1 := user];
    assert users[user.id - 1] in users;
    forall u | u in users && u.profileComplete ensures u in users' {
      var i :| 0 <= i < |users| && users[i] == u;
      assert users'[i] == u;
    }
  }

  lemma CompletedCache(cfg: Config, users: seq<User>, user: User, cache: map<string, CachedUser>)
    requires UsersOk(users) && Completes(users, user) && CacheOk(cfg, users, cache)
    requires forall u :: u in users[user.id - 1 := user] ==> u == user || u in users
    ensures CacheOk(cfg, users[user.id - 1 := user], cache - {user.username})
  {
    var cache' := cache - {user.username};
    forall n | n in cache' ensures Known(users[user.id - 1 := user], cache'[n].user) {
      assert Known(users, cache[n].user);
    }
  }

  /** Replacing an incomplete row by its completed form, with the new name out of the cache. */
  lemma ProfileWritten(cfg: Config, w: World, user: User)
    requires Inv(cfg, w) && Completes(w.tables.users, user)
    requires Unique(w.tables.users[user.id - 1 := user])
    ensures
      var t := w.tables.(users := w.tables.users[user.id - 1 := user]);
      Kept(cfg, w, w.(tables := t, cache := w.cache - {user.username}))
  {
    hide UsersOk, CacheOk, SessionsOk, UsersGrow, RootsGrow, Buried, Unique, Distinct, Vouched;
    CompletedUsers(w.tables.users, user);
    CompletedCache(cfg, w.tables.users, user, w.cache);
    Untouched(w, w);
  }

  lemma CompleteProfileKeeps(cfg: Config, w: World, r: Request, e: Entropy)
    requires Inv(cfg, w) && r.CompleteProfile? && TokenOf(e) !in w.roots
    ensures Kept(cfg, w, DoCompleteProfile(cfg, w, r, e).0)
    ensures DoCompleteProfile(cfg, w, r, e).1 != Failed(DuplicateKey)
  {
    hide Lookup, LookupUsername;
    hide Inv, Grows, WriteProfile, Find, Completes, Known, Unique, Update, Text.TrimSpace, Mobile.Normalize;
    Untouched(w, w);
    var found := ByID(w.tables.users, r.userID);
    var username := Text.TrimSpace(r.username);
    var f := Mobile.Normalize(r.mobile, cfg.wideDigits);
    if found.Some? && !found.value.profileComplete && username != "" && f.Ok? {
      var mobile := f.value;
      var (w1, byName) := LookupUsername(cfg, w, username);
      LookupUsernameKeeps(cfg, w, username);
      if byName.None? || byName.value.id == r.userID {
        var (w2, byMobile) := Lookup(cfg, w1, ByMobile, mobile);
        LookupKeeps(cfg, w1, ByMobile, mobile);
        GrowsTransitive(w, w1, w2);
        if byMobile.None? || byMobile.value.id == r.userID {
          var user := found.value.(username := username, mobile := mobile, profileComplete := true);
          ProfileAccepted(cfg, w, r.userID, username, mobile);
          ProfileIssued(cfg, w2, user, e);
          GrowsTransitive(w, w2, WriteProfile(cfg, w2, user, e).0);
        }
      }
    }
  }

  /** The update and the tokens of CompleteProfile. */
  lemma ProfileIssued(cfg: Config, w: World, user: User, e: Entropy)
    requires Inv(cfg, w) && Completes(w.tables.users, user) && TokenOf(e) !in w.roots
    requires Unique(w.tables.users[user.id - 1 := user]) && Known(w.tables.users[user.id - 1 := user], user)
    requires Update(w.tables, user) == Some(w.tables.(users := w.tables.users[user.id - 1 := user]))
    ensures Kept(cfg, w, WriteProfile(cfg, w, user, e).0)
    ensures WriteProfile(cfg, w, user, e).1 != Failed(DuplicateKey)
  {
    hide UsersOk, TablesOk, CacheOk, PendingOk, SessionsOk, MintedOk, VouchedOk, UsersGrow, RootsGrow, Buried, Unique,
      Known;
    hide Issue, Update;
    var w' := w.(tables := w.tables.(users := w.tables.users[user.id - 1 := user]), cache := w.cache - {user.username});
    ProfileWritten(cfg, w, user);
    IssueKeeps(cfg, w', user, e, ByProfile, None);
    IssueReply(cfg, w', user, e, ByProfile, None);
    GrowsTransitive(w, w', Issue(cfg, w', user, e, ByProfile, None).0);
  }

  lemma IssueReply(cfg: Config, w: World, user: User, e: Entropy, source: Source, parent: Option<string>)
    ensures var reply := Issue(cfg, w, user, e, source, parent).1;
      reply == Failed(TokenExpired) || (reply.Issued? && reply.user == user)
  {
  }

  /** Past its checks, CompleteProfile's update goes through. */
  lemma ProfileAccepted(cfg: Config, w: World, id: nat, username: string, mobile: string)
    requires Inv(cfg, w) && 1 <= id <= |w.tables.users| && mobile != ""
    requires !w.tables.users[id - 1].profileComplete
    requires
      var byName := LookupUsername(cfg, w, username).1;
      byName.Some? ==> byName.value.id == id
    requires
      var byMobile := Find(w.tables.users, ByMobile, mobile);
      byMobile.Some? ==> byMobile.value.id == id
    ensures
      var user := w.tables.users[id - 1].(username := username, mobile := mobile, profileComplete := true);
      && user.id == id && Completes(w.tables.users, user)
      && Update(w.tables, user) == Some(w.tables.(users := w.tables.users[id - 1 := user]))
      && Unique(w.tables.users[id - 1 := user])
      && Known(w.tables.users[id - 1 := user], user)
  {
    hide TablesOk, CacheOk, PendingOk, SessionsOk, MintedOk, VouchedOk;
    var user := w.tables.users[id - 1].(username := username, mobile := mobile, profileComplete := true);
    ProfileIsFree(cfg, w, id, username, mobile);
    UpdateKeepsUnique(w.tables, user);
  }

  // ---- Every request ----

  lemma EnforceOnlyCounts(cfg: Config, w: World, action: string, ip: string, mobile: string,
                          ipRule: RateLimitRule, mobileRule: RateLimitRule)
    ensures var w' := Enforce(cfg, w, action, ip, mobile, ipRule, mobileRule).0; w' == w.(windows := w'.windows)
  {
    hide Allow;
  }

  lemma AdmitOnlyCounts(cfg: Config, w: World, input: Input)
    ensures var w' := Admit(cfg, w, input).0; w' == w.(windows := w'.windows)
  {
    hide Enforce;
    match input.request
    case RequestSignup(_, _, _, m, _, _) =>
      EnforceOnlyCounts(cfg, w, "request", input.ip, m, cfg.requestIP, cfg.requestMobile);
    case ResendSignup(m, _) => EnforceOnlyCounts(cfg, w, "request", input.ip, m, cfg.requestIP, cfg.requestMobile);
    case RequestLogin(m, _) => EnforceOnlyCounts(cfg, w, "request", input.ip, m, cfg.requestIP, cfg.requestMobile);
    case VerifySignup(m, _, _) => EnforceOnlyCounts(cfg, w, "verify", input.ip, m, cfg.verifyIP, cfg.verifyMobile);
    case VerifyLogin(m, _, _) => EnforceOnlyCounts(cfg, w, "verify", input.ip, m, cfg.verifyIP, cfg.verifyMobile);
    case _ =>
  }

  lemma ServeKeeps(cfg: Config, w: World, r: Request, e: Entropy)
    requires Inv(cfg, w) && TokenOf(e) !in w.roots
    ensures Kept(cfg, w, Serve(cfg, w, r, e).0)
  {
    hide Kept;
    match r
    case RequestSignup(_, _, _, _, _, _) => RequestSignupKeeps(cfg, w, r);
    case VerifySignup(_, _, _) => VerifySignupKeeps(cfg, w, r, e);
    case ResendSignup(_, _) => ResendSignupKeeps(cfg, w, r);
    case SignupStatus(_) => SignupStatusKeeps(cfg, w, r);
    case RequestLogin(_, _) => RequestLoginKeeps(cfg, w, r);
    case VerifyLogin(_, _, _) => VerifyLoginKeeps(cfg, w, r, e);
    case PasswordLogin(_, _, _) => PasswordLoginKeeps(cfg, w, r, e);
    case Refresh(_) => RefreshKeeps(cfg, w, r, e);
    case Logout(_) => LogoutKeeps(cfg, w, r);
    case GoogleLogin(_, _) => GoogleLoginKeeps(cfg, w, r, e);
    case CompleteProfile(_, _, _) => CompleteProfileKeeps(cfg, w, r, e);
    case CurrentUser(n) => LookupUsernameKeeps(cfg, w, Text.TrimSpace(n));
  }

  lemma SignupStatusKeeps(cfg: Config, w: World, r: Request)
    requires Inv(cfg, w) && r.SignupStatus?
    ensures Kept(cfg, w, DoSignupStatus(cfg, w, r).0)
  {
    hide UsersOk, TablesOk, CacheOk, PendingOk, SessionsOk, MintedOk, VouchedOk, UsersGrow, RootsGrow, Buried, StatusOf;
    Untouched(w, w);
    var f := Mobile.Normalize(r.mobile, cfg.wideDigits);
    if f.Ok? { LookupKeeps(cfg, w, ByMobile, f.value); }
  }

  lemma LogoutKeeps(cfg: Config, w: World, r: Request)
    requires Inv(cfg, w) && r.Logout?
    ensures Kept(cfg, w, DoLogout(w, r).0)
  {
    Untouched(w, w);
    SessionRemoved(cfg, w, Text.TrimSpace(r.token));
  }

  /** One request at any later time keeps the invariant, and the state only grows. */
  lemma StepKeeps(cfg: Config, w: World, input: Input)
    requires Inv(cfg, w) && Possible(w, input)
    ensures Kept(cfg, w, Step(cfg, w, input).0)
  {
    hide UsersOk, TablesOk, CacheOk, PendingOk, SessionsOk, MintedOk, VouchedOk, UsersGrow, RootsGrow, Buried;
    hide Admit, Serve, LiveCache, LivePending, LiveLogins, LiveSessions, LiveWindows;
    var w0 := Tick(w, input.at);
    TickKeeps(cfg, w, input.at);
    var (w1, ok) := Admit(cfg, w0, input);
    AdmitOnlyCounts(cfg, w0, input);
    Untouched(w0, w1);
    GrowsTransitive(w, w0, w1);
    if ok {
      ServeKeeps(cfg, w1, input.request, input.entropy);
      GrowsTransitive(w, w1, Step(cfg, w, input).0);
    }
  }

  /** Every reachable state satisfies the invariant. */
  lemma {:induction false} Reachable(cfg: Config, run: Run, i: nat)
    requires IsRun(cfg, run) && i <= |run.inputs|
    ensures Inv(cfg, run.states[i])
  {
    hide Step;
    if i == 0 {
      assert run.states[0] == INITIAL;
    } else {
      hide Inv;
      Reachable(cfg, run, i - 1);
      assert Follows(cfg, run, i - 1);
      StepKeeps(cfg, run.states[i - 1], run.inputs[i - 1]);
    }
  }

  /** The i-th request of a run, seen as one step between reachable states. */
  lemma StepAt(cfg: Config, run: Run, i: nat)
    requires IsRun(cfg, run) && i < |run.inputs|
    ensures
      var w := run.states[i];
      && Inv(cfg, w) && Possible(w, run.inputs[i])
      && (run.states[i + 1], run.replies[i]) == Step(cfg, w, run.inputs[i])
      && Kept(cfg, w, run.states[i + 1])
  {
    hide Inv, Grows, Step;
    Reachable(cfg, run, i);
    assert Follows(cfg, run, i);
    StepKeeps(cfg, run.states[i], run.inputs[i]);
  }

  /** Of two states of a run the later one grew out of the earlier one. */
  lemma {:induction false} RunGrows(cfg: Config, run: Run, i: nat, j: nat)
    requires IsRun(cfg, run) && i <= j <= |run.inputs|
    ensures Grows(run.states[i], run.states[j])
  {
    hide Inv, Step;
    if i < j {
      hide Grows;
      RunGrows(cfg, run, i, j - 1);
      StepAt(cfg, run, j - 1);
      GrowsTransitive(run.states[i], run.states[j - 1], run.states[j]);
    }
  }
}
