/** The read-through user cache over whole runs (auth/cached_repository.go). */
module UserCache {
  import opened Auth
  import opened Tables
  import opened Machine
  import opened Invariants
  import Accounts
  import Mobile
  import Text

  /** Whenever the table has a user of a name, a hit on that name is that user. */
  lemma CacheCoherent(cfg: Config, run: Run, i: nat, name: string)
    requires IsRun(cfg, run) && i <= |run.inputs| && name in run.states[i].cache
    ensures
      var w := run.states[i];
      forall u :: u in w.tables.users && u.username == name ==> w.cache[name].user == u
  {
    Reachable(cfg, run, i);
  }

  /** The state after k requests held the record, and was not left more than a lifetime before the entry ends. */
  ghost predicate HeldAt(cfg: Config, run: Run, k: nat, entry: CachedUser)
    requires run.Shaped() && k <= |run.inputs| && cfg.cacheTTL.Some?
  {
    && entry.user in run.states[k].tables.users
    && entry.expiresAt == run.states[k].clock + cfg.cacheTTL.value
  }

  /** An entry written by one step holds a record of the table that the step leaves behind. */
  ghost predicate EntryFrom(cfg: Config, a: World, b: World, name: string)
    requires name in b.cache
  {
    || (name in a.cache && b.cache[name] == a.cache[name])
    || (cfg.cacheTTL.Some? && b.cache[name].user in b.tables.users
        && b.cache[name].expiresAt == b.clock + cfg.cacheTTL.value)
  }

  ghost predicate EntriesFrom(cfg: Config, a: World, b: World) {
    a.clock == b.clock && forall n :: n in b.cache ==> EntryFrom(cfg, a, b, n)
  }

  /** Reads write entries of the current table. */
  lemma LookupEntries(cfg: Config, w: World, col: Column, key: string)
    ensures EntriesFrom(cfg, w, Lookup(cfg, w, col, key).0)
  {
  }

  lemma LookupUsernameEntries(cfg: Config, w: World, username: string)
    ensures EntriesFrom(cfg, w, LookupUsername(cfg, w, username).0)
  {
    LookupEntries(cfg, w, ByUsername, username);
  }

  lemma EntriesChain(cfg: Config, a: World, b: World, c: World)
    requires EntriesFrom(cfg, a, b) && EntriesFrom(cfg, b, c)
    requires forall u :: u in b.tables.users ==> u in c.tables.users
    ensures EntriesFrom(cfg, a, c)
  {
    forall n | n in c.cache ensures EntryFrom(cfg, a, c, n) {
      assert EntryFrom(cfg, b, c, n);
      if n in b.cache { assert EntryFrom(cfg, a, b, n); }
    }
  }

  lemma AvailabilityEntries(cfg: Config, w: World, form: SignupForm)
    ensures EntriesFrom(cfg, w, Availability(cfg, w, form).0)
  {
    hide EntriesFrom, PendingAvailability, Find;
    var w1 := LookupUsername(cfg, w, form.username).0;
    var w2 := Lookup(cfg, w1, ByEmail, form.email).0;
    var w3 := Lookup(cfg, w2, ByMobile, form.mobile).0;
    LookupUsernameEntries(cfg, w, form.username);
    LookupEntries(cfg, w1, ByEmail, form.email);
    EntriesChain(cfg, w, w1, w2);
    LookupEntries(cfg, w2, ByMobile, form.mobile);
    EntriesChain(cfg, w, w2, w3);
  }

  lemma SignupEntries(cfg: Config, w: World, r: Request)
    requires r.RequestSignup?
    ensures EntriesFrom(cfg, w, DoRequestSignup(cfg, w, r).0)
  {
    hide Availability, NormalizeSignup;
    var f := NormalizeSignup(cfg, r.username, r.password, r.email, r.mobile);
    if f.Ok? { AvailabilityEntries(cfg, w, f.value); }
  }

  lemma VerifySignupEntries(cfg: Config, w: World, r: Request, e: Entropy)
    requires r.VerifySignup?
    ensures EntriesFrom(cfg, w, DoVerifySignup(cfg, w, r, e).0)
  {
    hide Find, Mobile.Normalize, Issue;
    var f := Mobile.Normalize(r.mobile, cfg.wideDigits);
    if f.Ok? && f.value in w.pending {
      var p := w.pending[f.value];
      var w1 := w.(messages := w.messages + [SignupApproved(f.value, w.clock)]);
      if Register(w1.tables, NewUser(p), p.passwordHash).Ok? {
        var (t, user) := Register(w1.tables, NewUser(p), p.passwordHash).value;
        var w2 := Remember(cfg, w1.(tables := t, messages := w1.messages + [Registered(user, w.clock)]), user);
        assert t.users[|w.tables.users|] == user;
        IssueLeaves(cfg, w2.(pending := w2.pending - {f.value}), user, e, BySignup, None);
      }
    }
  }

  lemma GoogleEntries(cfg: Config, w: World, r: Request, e: Entropy)
    requires r.GoogleLogin?
    ensures EntriesFrom(cfg, w, DoGoogleLogin(cfg, w, r, e).0)
  {
    hide Issue, ResolveGoogle;
    ResolveLeaves(cfg, w, r.identity, r.email);
    ResolveEntries(cfg, w, r.identity, r.email);
    var (w1, user) := ResolveGoogle(cfg, w, r.identity, r.email);
    if user.Ok? { IssueLeaves(cfg, w1, user.value, e, ByGoogle, None); }
  }

  lemma ResolveEntries(cfg: Config, w: World, identity: string, email: string)
    ensures EntriesFrom(cfg, w, ResolveGoogle(cfg, w, identity, email).0)
  {
    hide Find, FindSSO, Lookup, CreateGoogle;
    LookupEntries(cfg, w, ByEmail, email);
    LookupLeaves(cfg, w, ByEmail, email);
    CreateEntries(cfg, w, Lookup(cfg, w, ByEmail, email).0, identity, email);
  }

  lemma CreateEntries(cfg: Config, w0: World, w: World, identity: string, email: string)
    requires EntriesFrom(cfg, w0, w) && w.tables == w0.tables
    ensures EntriesFrom(cfg, w0, CreateGoogle(cfg, w, identity, email).0)
  {
    hide LookupUsername, LocalPart, Fallback;
    var (w1, holder) := LookupUsername(cfg, w, LocalPart(email));
    LookupUsernameEntries(cfg, w, LocalPart(email));
    LookupUsernameLeaves(cfg, w, LocalPart(email));
    EntriesChain(cfg, w0, w, w1);
    var username := if holder.Some? then Fallback(LocalPart(email), w1.clock) else LocalPart(email);
    NewcomerEntries(cfg, w0, w1, username, email, identity);
  }

  lemma NewcomerEntries(cfg: Config, w0: World, w: World, username: string, email: string, identity: string)
    requires EntriesFrom(cfg, w0, w)
    ensures
      var made := CreateSSOUser(w.tables, Newcomer(username, email), GOOGLE, identity);
      made.Ok? ==> EntriesFrom(cfg, w0, Remember(cfg, w.(tables := made.value.0), made.value.1))
  {
    hide Find;
    var made := CreateSSOUser(w.tables, Newcomer(username, email), GOOGLE, identity);
    if made.Ok? {
      var (t, user) := made.value;
      var w' := Remember(cfg, w.(tables := t), user);
      assert t.users[|w.tables.users|] == user;
      forall n | n in w'.cache ensures EntryFrom(cfg, w0, w', n) {
        if n != user.username || cfg.cacheTTL.None? {
          assert EntryFrom(cfg, w0, w, n);
          assert w.cache[n].user in w.tables.users ==> w.cache[n].user in t.users;
        }
      }
    }
  }

  /**
    Completing a profile under another name leaves the old name's entry behind, though nobody holds
    that name any more.
    */
  lemma OldNameLingers(cfg: Config, run: Run, i: nat, before: User)
    requires IsRun(cfg, run) && i < |run.inputs| && run.inputs[i].request.CompleteProfile? && run.replies[i].Issued?
    requires ByID(run.states[i].tables.users, run.inputs[i].request.userID) == Some(before)
    requires before.username != Text.TrimSpace(run.inputs[i].request.username)
    requires before.username in LiveCache(run.states[i].cache, run.inputs[i].at)
    ensures before.username in run.states[i + 1].cache
    ensures run.states[i + 1].cache[before.username] == run.states[i].cache[before.username]
    ensures forall u :: u in run.states[i + 1].tables.users ==> u.username != before.username
  {
    hide Inv, Grows, Step, DoCompleteProfile, Text.TrimSpace;
    StepAt(cfg, run, i);
    var w, input := run.states[i], run.inputs[i];
    TickKeeps(cfg, w, input.at);
    Accounts.ProfileStep(cfg, w, input);
    RenameLeaves(cfg, Tick(w, input.at), input.request, input.entropy);
  }

  lemma RenameLeaves(cfg: Config, w: World, r: Request, e: Entropy)
    requires Inv(cfg, w) && r.CompleteProfile? && DoCompleteProfile(cfg, w, r, e).1.Issued?
    requires var before := ByID(w.tables.users, r.userID);
      before.Some? && before.value.username in w.cache && before.value.username != Text.TrimSpace(r.username)
    ensures
      var w', name := DoCompleteProfile(cfg, w, r, e).0, ByID(w.tables.users, r.userID).value.username;
      && name in w'.cache && w'.cache[name] == w.cache[name]
      && forall u :: u in w'.tables.users ==> u.username != name
  {
    hide Inv, Lookup, LookupUsername, WriteProfile, Find, Mobile.Normalize, Text.TrimSpace;
    var before := ByID(w.tables.users, r.userID).value;
    var username := Text.TrimSpace(r.username);
    var m := Mobile.Normalize(r.mobile, cfg.wideDigits).value;
    var w1 := LookupUsername(cfg, w, username).0;
    LookupUsernameLeaves(cfg, w, username);
    OnlyOwnName(cfg, w, username, r.userID);
    KeepsName(cfg, w, username, before.username);
    LookupLeaves(cfg, w1, ByMobile, m);
    NoOwnMobile(cfg, w, r.userID, m);
    OwnID(cfg, w, r.userID);
    Renamed(cfg, w, w1, before, before.(username := username, mobile := m, profileComplete := true), e);
  }

  lemma OwnID(cfg: Config, w: World, id: nat)
    requires Inv(cfg, w) && ByID(w.tables.users, id).Some?
    ensures ByID(w.tables.users, id).value.id == id
  {
  }

  lemma KeepsName(cfg: Config, w: World, username: string, name: string)
    requires name in w.cache && name != username
    ensures name in LookupUsername(cfg, w, username).0.cache
  {
  }

  lemma Renamed(cfg: Config, w: World, w1: World, before: User, user: User, e: Entropy)
    requires Inv(cfg, w) && w1 == w.(cache := w1.cache) && ByID(w.tables.users, user.id) == Some(before)
    requires before.username != user.username && WriteProfile(cfg, w1, user, e).1.Issued?
    ensures
      var w' := WriteProfile(cfg, w1, user, e).0;
      && w'.cache == w1.cache - {user.username}
      && forall u :: u in w'.tables.users ==> u.username != before.username
  {
    hide CacheOk, PendingOk, SessionsOk, MintedOk, VouchedOk, TablesOk;
    var users := w.tables.users;
    var users' := users[user.id - 1 := user];
    forall i | 0 <= i < |users'| ensures users'[i].username != before.username {
      if i != user.id - 1 { assert !Clash(users[i], before); }
    }
  }

  /** The reads of CompleteProfile fetch no record that its update then changes, except under the name it evicts. */
  lemma ProfileEntries(cfg: Config, w: World, r: Request, e: Entropy)
    requires Inv(cfg, w) && r.CompleteProfile?
    ensures EntriesFrom(cfg, w, DoCompleteProfile(cfg, w, r, e).0)
  {
    hide Inv, Lookup, LookupUsername, WriteProfile, Find, Mobile.Normalize, Text.TrimSpace;
    var found := ByID(w.tables.users, r.userID);
    var username := Text.TrimSpace(r.username);
    var f := Mobile.Normalize(r.mobile, cfg.wideDigits);
    if found.Some? && !found.value.profileComplete && username != "" && f.Ok? {
      var (w1, byName) := LookupUsername(cfg, w, username);
      LookupUsernameEntries(cfg, w, username);
      LookupUsernameLeaves(cfg, w, username);
      if byName.None? || byName.value.id == r.userID {
        var (w2, byMobile) := Lookup(cfg, w1, ByMobile, f.value);
        LookupEntries(cfg, w1, ByMobile, f.value);
        LookupLeaves(cfg, w1, ByMobile, f.value);
        EntriesChain(cfg, w, w1, w2);
        if byMobile.None? || byMobile.value.id == r.userID {
          NoOwnMobile(cfg, w, r.userID, f.value);
          assert w2 == w1;
          OnlyOwnName(cfg, w, username, r.userID);
          WrittenEntries(cfg, w, w2, found.value.(username := username, mobile := f.value, profileComplete := true), e);
        }
      }
    }
  }

  /** An incomplete user has no mobile, so it cannot be found by one. */
  lemma NoOwnMobile(cfg: Config, w: World, id: nat, mobile: string)
    requires Inv(cfg, w) && 1 <= id <= |w.tables.users| && !w.tables.users[id - 1].profileComplete && mobile != ""
    requires var r := Find(w.tables.users, ByMobile, mobile); r.Some? ==> r.value.id == id
    ensures Find(w.tables.users, ByMobile, mobile).None?
    ensures forall w1: World :: w1.tables == w.tables ==> Lookup(cfg, w1, ByMobile, mobile).0 == w1
  {
    var r := Find(w.tables.users, ByMobile, mobile);
    assert w.tables.users[id - 1] in w.tables.users;
    if r.Some? {
      FoundIsKnown(w.tables.users, r.value);
    }
  }

  /** A username read that finds nobody or the user itself touches at most the entry of that name. */
  lemma OnlyOwnName(cfg: Config, w: World, username: string, id: nat)
    ensures
      var w1 := LookupUsername(cfg, w, username).0;
      forall n :: n in w1.cache && n != username ==> n in w.cache && w1.cache[n] == w.cache[n]
  {
  }

  lemma WrittenEntries(cfg: Config, w: World, w2: World, user: User, e: Entropy)
    requires w2 == w.(cache := w2.cache)
    requires EntriesFrom(cfg, w, w2)
    requires forall n :: n in w2.cache && n != user.username ==> n in w.cache && w2.cache[n] == w.cache[n]
    ensures EntriesFrom(cfg, w, WriteProfile(cfg, w2, user, e).0)
  {
    hide Issue, Clash;
    var t := Update(w2.tables, user);
    if t.Some? {
      IssueLeaves(cfg, w2.(tables := t.value, cache := w2.cache - {user.username}), user, e, ByProfile, None);
    }
  }

  lemma ServeEntries(cfg: Config, w: World, r: Request, e: Entropy)
    requires Inv(cfg, w)
    ensures EntriesFrom(cfg, w, Serve(cfg, w, r, e).0)
  {
    hide Inv, EntriesFrom, LookupUsername, DoRequestSignup, DoVerifySignup, DoResendSignup, DoSignupStatus,
      DoRequestLogin;
    hide DoVerifyLogin, DoGoogleLogin, DoCompleteProfile, DoLogout;
    match r
    case RequestSignup(_, _, _, _, _, _) => SignupEntries(cfg, w, r);
    case VerifySignup(_, _, _) => VerifySignupEntries(cfg, w, r, e);
    case ResendSignup(_, _) => ResendEntries(cfg, w, r);
    case SignupStatus(_) => StatusEntries(cfg, w, r);
    case RequestLogin(_, _) => OTPEntries(cfg, w, r);
    case VerifyLogin(_, _, _) => LoginEntries(cfg, w, r, e);
    case PasswordLogin(n, _, _) => PasswordEntries(cfg, w, r, e);
    case Refresh(t) => RefreshEntries(cfg, w, r, e);
    case Logout(_) => LogoutEntries(cfg, w, r);
    case GoogleLogin(_, _) => GoogleEntries(cfg, w, r, e);
    case CompleteProfile(_, _, _) => ProfileEntries(cfg, w, r, e);
    case CurrentUser(n) => LookupUsernameEntries(cfg, w, Text.TrimSpace(n));
  }

  lemma LogoutEntries(cfg: Config, w: World, r: Request)
    requires r.Logout?
    ensures EntriesFrom(cfg, w, DoLogout(w, r).0)
  {
  }

  lemma ResendEntries(cfg: Config, w: World, r: Request)
    requires r.ResendSignup?
    ensures EntriesFrom(cfg, w, DoResendSignup(cfg, w, r).0)
  {
    hide Mobile.Normalize;
  }

  lemma StatusEntries(cfg: Config, w: World, r: Request)
    requires r.SignupStatus?
    ensures EntriesFrom(cfg, w, DoSignupStatus(cfg, w, r).0)
  {
    hide Mobile.Normalize, Lookup, StatusOf;
    var f := Mobile.Normalize(r.mobile, cfg.wideDigits);
    if f.Ok? { LookupEntries(cfg, w, ByMobile, f.value); }
  }

  lemma OTPEntries(cfg: Config, w: World, r: Request)
    requires r.RequestLogin?
    ensures EntriesFrom(cfg, w, DoRequestLogin(cfg, w, r).0)
  {
    hide Mobile.Normalize, Lookup, ResendError;
    var f := Mobile.Normalize(r.mobile, cfg.wideDigits);
    if f.Ok? {
      LookupEntries(cfg, w, ByMobile, f.value);
      LookupLeaves(cfg, w, ByMobile, f.value);
    }
  }

  lemma LoginEntries(cfg: Config, w: World, r: Request, e: Entropy)
    requires r.VerifyLogin?
    ensures EntriesFrom(cfg, w, DoVerifyLogin(cfg, w, r, e).0)
  {
    hide Find, Mobile.Normalize, Text.TrimSpace, Issue, Lookup;
    var f := Mobile.Normalize(r.mobile, cfg.wideDigits);
    if f.Ok? {
      LookupEntries(cfg, w, ByMobile, f.value);
      LookupLeaves(cfg, w, ByMobile, f.value);
      var (w1, user) := Lookup(cfg, w, ByMobile, f.value);
      if user.Some? {
        IssueLeaves(cfg,
          w1.(messages := w1.messages + [LoginApproved(f.value, w1.clock)], logins := w1.logins - {LoginKey(f.value)}),
                     user.value, e, ByOTP, None);
      }
    }
  }

  lemma PasswordEntries(cfg: Config, w: World, r: Request, e: Entropy)
    requires r.PasswordLogin?
    ensures EntriesFrom(cfg, w, DoPasswordLogin(cfg, w, r, e).0)
  {
    hide Text.TrimSpace, Issue, LookupUsername;
    var name := Text.TrimSpace(r.username);
    LookupUsernameEntries(cfg, w, name);
    var (w1, user) := LookupUsername(cfg, w, name);
    if user.Some? {
      IssueLeaves(cfg, w1, user.value, e, ByPassword, None);
    }
  }

  lemma RefreshEntries(cfg: Config, w: World, r: Request, e: Entropy)
    requires r.Refresh?
    ensures EntriesFrom(cfg, w, DoRefresh(cfg, w, r, e).0)
  {
    hide Text.TrimSpace, Issue, LookupUsername;
    var token := Text.TrimSpace(r.token);
    if token in w.sessions {
      LookupUsernameEntries(cfg, w, w.sessions[token].username);
      var (w1, user) := LookupUsername(cfg, w, w.sessions[token].username);
      if user.Some? {
        IssueLeaves(cfg, w1.(sessions := w1.sessions - {token}), user.value, e, ByRefresh, Some(token));
      }
    }
  }

  lemma StepEntries(cfg: Config, w: World, input: Input)
    requires Inv(cfg, w) && Possible(w, input)
    ensures
      var w' := Step(cfg, w, input).0;
      w'.clock == input.at && forall n :: n in w'.cache ==> EntryFrom(cfg, w, w', n)
  {
    hide Inv, Grows, Admit, Serve;
    var w0 := Tick(w, input.at);
    TickKeeps(cfg, w, input.at);
    var (w1, ok) := Admit(cfg, w0, input);
    AdmitOnlyCounts(cfg, w0, input);
    if ok {
      LimiterApart(cfg, w0, w1);
      ServeEntries(cfg, w1, input.request, input.entropy);
      var w2 := Serve(cfg, w1, input.request, input.entropy).0;
      forall n | n in w2.cache ensures EntryFrom(cfg, w, w2, n) {
        assert EntryFrom(cfg, w1, w2, n);
      }
    }
  }

  /** Every cached record was in the table exactly one cache lifetime before the entry ends. */
  lemma {:induction false} CachedWasStored(cfg: Config, run: Run, n: nat, name: string)
    requires IsRun(cfg, run) && n <= |run.inputs| && name in run.states[n].cache
    ensures cfg.cacheTTL.Some? && exists k :: 0 <= k <= n && HeldAt(cfg, run, k, run.states[n].cache[name])
  {
    hide Inv, Step;
    assert n > 0 by { assert run.states[0] == INITIAL; }
    StepAt(cfg, run, n - 1);
    StepEntries(cfg, run.states[n - 1], run.inputs[n - 1]);
    var a, b := run.states[n - 1], run.states[n];
    assert EntryFrom(cfg, a, b, name);
    if name in a.cache && b.cache[name] == a.cache[name] {
      CachedWasStored(cfg, run, n - 1, name);
    } else {
      assert HeldAt(cfg, run, n, b.cache[name]);
    }
  }

  /** Hence a hit shows a record that the table had under that name at most one cache lifetime ago. */
  lemma HitsAreRecent(cfg: Config, run: Run, n: nat, name: string, now: Time)
    requires IsRun(cfg, run) && n <= |run.inputs| && name in LiveCache(run.states[n].cache, now)
    ensures
      var user := run.states[n].cache[name].user;
      && cfg.cacheTTL.Some? && user.username == name
      && exists k :: 0 <= k <= n && RecentlyStored(cfg, run.states[k], user, now)
  {
    Reachable(cfg, run, n);
    CachedWasStored(cfg, run, n, name);
    var k :| 0 <= k <= n && HeldAt(cfg, run, k, run.states[n].cache[name]);
    assert RecentlyStored(cfg, run.states[k], run.states[n].cache[name].user, now);
  }

  ghost predicate RecentlyStored(cfg: Config, w: World, user: User, now: Time)
    requires cfg.cacheTTL.Some?
  {
    user in w.tables.users && now - cfg.cacheTTL.value <= w.clock
  }

  // ---- What the cache is filled with ----

  /**
    A request that answers with a user leaves the user's entry, except a completed profile, whose entry goes,
    and a login by an identity linked before, which does not touch the cache.
    */
  ghost predicate Fills(w: World, w': World, r: Request, reply: Reply) {
    reply.Issued? || reply.Profile? ==>
      if r.CompleteProfile? then reply.user.username !in w'.cache
      else if r.GoogleLogin? && w'.tables == w.tables then w'.cache == w.cache
      else reply.user.username in w'.cache && w'.cache[reply.user.username].user == reply.user
  }

  /** A read by name that finds a user leaves the user's entry. */
  lemma NameFills(cfg: Config, w: World, name: string)
    requires Inv(cfg, w) && cfg.cacheTTL.Some?
    ensures
      var (w', user) := LookupUsername(cfg, w, name);
      user.Some? ==> user.value.username in w'.cache && w'.cache[user.value.username].user == user.value
  {
    LookupUsernameKeeps(cfg, w, name);
  }

  lemma Issuing(cfg: Config, w: World, user: User, e: Entropy, source: Source, parent: Option<string>)
    ensures
      var (w', reply) := Issue(cfg, w, user, e, source, parent);
      w'.cache == w.cache && w'.tables == w.tables && !reply.Profile? && (reply.Issued? ==> reply.user == user)
  {
  }

  lemma SignupFills(cfg: Config, w: World, r: Request, e: Entropy)
    requires cfg.cacheTTL.Some? && r.VerifySignup?
    ensures Fills(w, DoVerifySignup(cfg, w, r, e).0, r, DoVerifySignup(cfg, w, r, e).1)
  {
    hide Mobile.Normalize, Text.TrimSpace, Register, Issue;
    var f := Mobile.Normalize(r.mobile, cfg.wideDigits);
    if f.Ok? && f.value in w.pending {
      var p := w.pending[f.value];
      var w1 := w.(messages := w.messages + [SignupApproved(f.value, w.clock)]);
      var made := Register(w1.tables, NewUser(p), p.passwordHash);
      if made.Ok? {
        var (t, user) := made.value;
        var w2 := Remember(cfg, w1.(tables := t, messages := w1.messages + [Registered(user, w.clock)]), user);
        Issuing(cfg, w2.(pending := w2.pending - {f.value}), user, e, BySignup, None);
      }
    }
  }

  lemma LoginFills(cfg: Config, w: World, r: Request, e: Entropy)
    requires cfg.cacheTTL.Some? && r.VerifyLogin?
    ensures Fills(w, DoVerifyLogin(cfg, w, r, e).0, r, DoVerifyLogin(cfg, w, r, e).1)
  {
    hide Mobile.Normalize, Text.TrimSpace, Find, Issue;
    var f := Mobile.Normalize(r.mobile, cfg.wideDigits);
    if f.Ok? {
      var (w1, user) := Lookup(cfg, w, ByMobile, f.value);
      if user.Some? {
        Issuing(cfg,
          w1.(messages := w1.messages + [LoginApproved(f.value, w1.clock)], logins := w1.logins - {LoginKey(f.value)}),
          user.value, e, ByOTP, None);
      }
    }
  }

  lemma SessionFills(cfg: Config, w: World, r: Request, e: Entropy)
    requires Inv(cfg, w) && cfg.cacheTTL.Some? && (r.PasswordLogin? || r.Refresh? || r.CurrentUser?)
    ensures Fills(w, Serve(cfg, w, r, e).0, r, Serve(cfg, w, r, e).1)
  {
    hide Inv, LookupUsername, Issue, Text.TrimSpace;
    var token := if r.Refresh? then Text.TrimSpace(r.token) else "";
    if !r.Refresh? || token in w.sessions {
      var name := if r.Refresh? then w.sessions[token].username else Text.TrimSpace(r.username);
      var (w1, user) := LookupUsername(cfg, w, name);
      NameFills(cfg, w, name);
      if user.Some? {
        Issuing(cfg, w1, user.value, e, ByPassword, None);
        Issuing(cfg, w1.(sessions := w1.sessions - {token}), user.value, e, ByRefresh, Some(token));
      }
    }
  }

  lemma GoogleFills(cfg: Config, w: World, r: Request, e: Entropy)
    requires cfg.cacheTTL.Some? && r.GoogleLogin?
    ensures Fills(w, DoGoogleLogin(cfg, w, r, e).0, r, DoGoogleLogin(cfg, w, r, e).1)
  {
    hide Issue, FindSSO, Find, CreateGoogle;
    LookupLeaves(cfg, w, ByEmail, r.email);
    CreateFills(cfg, Lookup(cfg, w, ByEmail, r.email).0, r.identity, r.email);
    var (w1, user) := ResolveGoogle(cfg, w, r.identity, r.email);
    assert FindSSO(w.tables, GOOGLE, r.identity).None? && user.Ok? ==> |w1.tables.sso| == |w.tables.sso| + 1;
    hide ResolveGoogle;
    if user.Ok? { Issuing(cfg, w1, user.value, e, ByGoogle, None); }
  }

  lemma CreateFills(cfg: Config, w: World, identity: string, email: string)
    requires cfg.cacheTTL.Some?
    ensures
      var (w', made) := CreateGoogle(cfg, w, identity, email);
      made.Ok? ==>
        && |w'.tables.sso| == |w.tables.sso| + 1
        && made.value.username in w'.cache && w'.cache[made.value.username].user == made.value
  {
    hide LookupUsername, Find, LocalPart, Fallback;
    LookupUsernameLeaves(cfg, w, LocalPart(email));
  }

  lemma ProfileFills(cfg: Config, w: World, r: Request, e: Entropy)
    requires r.CompleteProfile?
    ensures Fills(w, DoCompleteProfile(cfg, w, r, e).0, r, DoCompleteProfile(cfg, w, r, e).1)
  {
    hide Lookup, LookupUsername, Issue, Mobile.Normalize, Text.TrimSpace, Update;
    var found, name := ByID(w.tables.users, r.userID), Text.TrimSpace(r.username);
    var f := Mobile.Normalize(r.mobile, cfg.wideDigits);
    if found.Some? && f.Ok? {
      var w2 := Lookup(cfg, LookupUsername(cfg, w, name).0, ByMobile, f.value).0;
      var user := found.value.(username := name, mobile := f.value, profileComplete := true);
      var t := Update(w2.tables, user);
      if t.Some? {
        Issuing(cfg, w2.(tables := t.value, cache := w2.cache - {name}), user, e, ByProfile, None);
      }
    }
  }

  lemma ServeFills(cfg: Config, w: World, r: Request, e: Entropy)
    requires Inv(cfg, w) && cfg.cacheTTL.Some?
    ensures Fills(w, Serve(cfg, w, r, e).0, r, Serve(cfg, w, r, e).1)
  {
    hide Inv, Availability, Lookup, LookupUsername, Mobile.Normalize, Text.TrimSpace, DoVerifySignup, DoVerifyLogin,
      DoGoogleLogin, DoCompleteProfile, DoPasswordLogin, DoRefresh, DoCurrentUser;
    match r
    case VerifySignup(_, _, _) => SignupFills(cfg, w, r, e);
    case VerifyLogin(_, _, _) => LoginFills(cfg, w, r, e);
    case PasswordLogin(_, _, _) => SessionFills(cfg, w, r, e);
    case Refresh(_) => SessionFills(cfg, w, r, e);
    case CurrentUser(_) => SessionFills(cfg, w, r, e);
    case GoogleLogin(_, _) => GoogleFills(cfg, w, r, e);
    case CompleteProfile(_, _, _) => ProfileFills(cfg, w, r, e);
    case _ =>
  }

  /** So in every run the cache holds whom it was last asked for. */
  lemma AnsweredIsCached(cfg: Config, run: Run, i: nat)
    requires IsRun(cfg, run) && i < |run.inputs| && cfg.cacheTTL.Some?
    ensures Fills(Tick(run.states[i], run.inputs[i].at), run.states[i + 1], run.inputs[i].request, run.replies[i])
  {
    hide Inv, Grows, Admit, Serve, LiveCache, LivePending, LiveLogins, LiveSessions, LiveWindows;
    StepAt(cfg, run, i);
    var input := run.inputs[i];
    var w := Tick(run.states[i], input.at);
    TickKeeps(cfg, run.states[i], input.at);
    AdmitOnlyCounts(cfg, w, input);
    var (w1, ok) := Admit(cfg, w, input);
    if ok {
      LimiterApart(cfg, w, w1);
      ServeFills(cfg, w1, input.request, input.entropy);
    }
  }
}
