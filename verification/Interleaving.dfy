/**
  Requests interleaved at their store calls. A request touches the stores only through the
  calls below, so any interleaving of any requests is some sequence of these calls; what holds
  after every sequence holds under every interleaving. Users are read from the table.
  */
module Interleaving {
  import opened Auth
  import opened Machine
  import opened Tables
  import PI = PendingIndex

  datatype Call =
    | FindUser(col: Column, key: string)
    | ReadUser(id: nat)                                           // the record CompleteProfile starts from
    | RegisterUser(pending: PendingSignup)
    | CreateSSO(username: string, email: string, identity: string)
    | LinkSSO(userID: nat, identity: string)
    | UpdateUser(read: User, username: string, mobile: string)    // over a record read before
    | SavePending(signup: PendingSignup)
    | GetPending(mobile: string)
    | DeletePending(mobile: string)
    | LookupPending(col: Column, key: string)
    | SaveSession(token: string, session: RefreshSession)
    | GetSession(token: string)
    | DeleteSession(token: string)

  datatype Stores = Stores(
    tables: UserTables,
    pending: PI.Index,
    sessions: map<string, RefreshSession>,
    // history
    seen: set<User>,               // records that requests have read by id
    registered: set<User>,         // users that RegisterUser created
    used: set<string>,                     // refresh tokens drawn so far
    saved: map<string, RefreshSession>,    // of these, the ones a session was stored for
    dropped: set<string>)                  // of these, the ones whose session was deleted

  const START := Stores(EMPTY, PI.EMPTY_INDEX, map[], {}, {}, {}, map[], {})

  /** A profile is only completed over a record that was read as incomplete; tokens are drawn once. */
  predicate Enabled(s: Stores, c: Call) {
    match c
    case UpdateUser(read, _, _) => read in s.seen && !read.profileComplete
    case SaveSession(token, _) => token !in s.used
    case _ => true
  }

  function Apply(s: Stores, now: Time, c: Call): Stores {
    match c
    case FindUser(_, _) => s
    case ReadUser(id) =>
      var u := ByID(s.tables.users, id);
      if u.Some? then s.(seen := s.seen + {u.value}) else s
    case RegisterUser(p) =>
      (match Register(s.tables, NewUser(p), p.passwordHash)
       case Err(_) => s
       case Ok((t, user)) => s.(tables := t, registered := s.registered + {user}))
    case CreateSSO(username, email, identity) =>
      (match CreateSSOUser(s.tables, Newcomer(username, email), GOOGLE, identity)
       case Err(_) => s
       case Ok((t, _)) => s.(tables := t))
    case LinkSSO(userID, identity) => s.(tables := Link(s.tables, userID, GOOGLE, identity))
    case UpdateUser(read, username, mobile) =>
      var t := Update(s.tables, read.(username := username, mobile := mobile, profileComplete := true));
      if t.Some? then s.(tables := t.value) else s
    case SavePending(p) => s.(pending := PI.Save(s.pending, now, p).0)
    case GetPending(m) => s.(pending := PI.Get(s.pending, now, m).0)
    case DeletePending(m) => s.(pending := PI.Delete(s.pending, m))
    case LookupPending(col, key) => s.(pending := PI.LookupIndex(s.pending, now, col, key).0)
    case SaveSession(token, session) =>
      var s' := s.(used := s.used + {token});
      if session.expiresAt - now <= 0 then s'
      else s'.(sessions := s.sessions[token := session], saved := s.saved[token := session])
    case GetSession(token) =>
      if token in s.sessions && now > s.sessions[token].expiresAt then s.(sessions := s.sessions - {token}) else s
    case DeleteSession(token) =>
      s.(sessions := s.sessions - {token}, dropped := if token in s.used then s.dropped + {token} else s.dropped)
  }

  /** What GetSession answers. */
  function Redeem(s: Stores, now: Time, token: string): Option<RefreshSession> {
    if token in s.sessions && now <= s.sessions[token].expiresAt then Some(s.sessions[token]) else None
  }

  datatype Event = Event(at: Time, call: Call)

  /** A sequence of calls with the states before and after each. */
  datatype Trace = Trace(events: seq<Event>, states: seq<Stores>)

  ghost predicate Follows(t: Trace, i: nat)
    requires |t.states| == |t.events| + 1 && i < |t.events|
  {
    && Enabled(t.states[i], t.events[i].call)
    && t.states[i + 1] == Apply(t.states[i], t.events[i].at, t.events[i].call)
  }

  /** Calls each of which some request may make when it comes, from empty stores on. */
  ghost predicate IsTrace(t: Trace) {
    && |t.states| == |t.events| + 1 && t.states[0] == START
    && forall i :: 0 <= i < |t.events| ==> Follows(t, i)
  }

  ghost predicate Safe(s: Stores) {
    && Unique(s.tables.users)
    && PI.NoDangling(s.pending)
    && (forall r :: r in s.registered ==> r.profileComplete && ByID(s.tables.users, r.id) == Some(r))
    && (forall u :: u in s.seen ==> 1 <= u.id <= |s.tables.users|)
    && (forall u, r :: u in s.seen && !u.profileComplete && r in s.registered ==> u.id != r.id)
    && s.sessions.Keys <= s.used
    && s.dropped !! s.sessions.Keys
    && s.dropped <= s.used
  }

  lemma UserCallsSafe(s: Stores, now: Time, c: Call)
    requires Safe(s) && Enabled(s, c)
    requires c.FindUser? || c.ReadUser? || c.LinkSSO? || c.UpdateUser?
    ensures Safe(Apply(s, now, c))
  {
    hide PI.NoDangling, Clash;
    if c.UpdateUser? {
      var user := c.read.(username := c.username, mobile := c.mobile, profileComplete := true);
      UpdateKeepsUnique(s.tables, user);
    }
  }

  lemma RegisterSafe(s: Stores, now: Time, c: Call)
    requires Safe(s) && c.RegisterUser?
    ensures Safe(Apply(s, now, c))
  {
    hide PI.NoDangling, Clash, Unique;
    RegisterKeepsUnique(s.tables, NewUser(c.pending), c.pending.passwordHash);
  }

  lemma CreateSSOSafe(s: Stores, now: Time, c: Call)
    requires Safe(s) && c.CreateSSO?
    ensures Safe(Apply(s, now, c))
  {
    hide PI.NoDangling, Clash, Unique;
    RegisterKeepsUnique(s.tables, Newcomer(c.username, c.email), "");
  }

  lemma PendingCallsSafe(s: Stores, now: Time, c: Call)
    requires Safe(s) && (c.SavePending? || c.GetPending? || c.DeletePending? || c.LookupPending?)
    ensures Safe(Apply(s, now, c))
  {
    hide PI.NoDangling, Unique;
    match c
    case SavePending(p) => PI.SaveKeeps(s.pending, now, p);
    case GetPending(m) => PI.GetKeeps(s.pending, now, m);
    case DeletePending(m) => PI.DeleteKeeps(s.pending, m);
    case LookupPending(col, key) => PI.LookupKeepsIndex(s.pending, now, col, key);
  }

  lemma SessionCallsSafe(s: Stores, now: Time, c: Call)
    requires Safe(s) && Enabled(s, c) && (c.SaveSession? || c.GetSession? || c.DeleteSession?)
    ensures Safe(Apply(s, now, c))
  {
    hide PI.NoDangling, Unique;
  }

  lemma CallSafe(s: Stores, now: Time, c: Call)
    requires Safe(s) && Enabled(s, c)
    ensures Safe(Apply(s, now, c))
  {
    hide Safe, Apply, Enabled;
    if c.FindUser? || c.ReadUser? || c.LinkSSO? || c.UpdateUser? { UserCallsSafe(s, now, c); }
    else if c.RegisterUser? { RegisterSafe(s, now, c); }
    else if c.CreateSSO? { CreateSSOSafe(s, now, c); }
    else if c.SaveSession? || c.GetSession? || c.DeleteSession? { SessionCallsSafe(s, now, c); }
    else { PendingCallsSafe(s, now, c); }
  }

  lemma StartSafe()
    ensures Safe(START)
  {
  }

  lemma {:induction false} AlwaysSafe(t: Trace, i: nat)
    requires IsTrace(t) && i < |t.states|
    ensures Safe(t.states[i])
  {
    hide Safe, Apply, Enabled;
    if i == 0 {
      StartSafe();
    } else {
      AlwaysSafe(t, i - 1);
      assert Follows(t, i - 1);
      CallSafe(t.states[i - 1], t.events[i - 1].at, t.events[i - 1].call);
    }
  }

  /**
    Under every interleaving usernames, emails and mobiles of users stay distinct, and no pending
    index entry dangles.
    */
  lemma DistinctUnderInterleaving(t: Trace, i: nat)
    requires IsTrace(t) && i < |t.states|
    ensures Unique(t.states[i].tables.users) && PI.NoDangling(t.states[i].pending)
  {
    hide Unique, PI.NoDangling, IsTrace;
    AlwaysSafe(t, i);
  }

  lemma ApplyGrows(s: Stores, now: Time, c: Call)
    ensures s.registered <= Apply(s, now, c).registered && s.dropped <= Apply(s, now, c).dropped
  {
    hide Register, CreateSSOUser, Update, PI.Save, PI.Get, PI.Delete, PI.LookupIndex;
  }

  lemma {:induction false} HistoryGrows(t: Trace, i: nat, j: nat)
    requires IsTrace(t) && i <= j < |t.states|
    ensures t.states[i].registered <= t.states[j].registered
    ensures t.states[i].dropped <= t.states[j].dropped
  {
    hide Apply, Enabled;
    if i < j {
      HistoryGrows(t, i, j - 1);
      assert Follows(t, j - 1);
      ApplyGrows(t.states[j - 1], t.events[j - 1].at, t.events[j - 1].call);
    }
  }

  /**
    Of several pending signups that conflict in username, email or mobile at most one ever
    becomes a user, however their verifications interleave, and that user is never changed again.
    */
  lemma OneOfConflictingSignups(t: Trace, i: nat, j: nat, first: User, second: User)
    requires IsTrace(t) && i <= j < |t.states|
    requires first in t.states[i].registered && second in t.states[j].registered
    ensures first in t.states[j].tables.users
    ensures Clash(first, second) ==> first == second
  {
    hide IsTrace, PI.NoDangling;
    HistoryGrows(t, i, j);
    AlwaysSafe(t, j);
    var users := t.states[j].tables.users;
    assert ByID(users, first.id) == Some(first) && ByID(users, second.id) == Some(second);
    if first.id < second.id { assert !Clash(users[first.id - 1], users[second.id - 1]); }
    if second.id < first.id { assert !Clash(users[second.id - 1], users[first.id - 1]); }
  }

  /** A refresh token whose session was once deleted, by a refresh or a logout, is never accepted again. */
  lemma DroppedStaysDropped(t: Trace, i: nat, j: nat, now: Time, token: string)
    requires IsTrace(t) && i <= j < |t.states| && token in t.states[i].dropped
    ensures Redeem(t.states[j], now, token) == None
  {
    hide IsTrace, PI.NoDangling, Unique;
    HistoryGrows(t, i, j);
    AlwaysSafe(t, j);
  }

  // ---- When a refresh token is accepted ----

  /** Calls come in the order of their times. */
  ghost predicate Timely(t: Trace) {
    forall i :: 0 <= i < |t.events| - 1 ==> t.events[i].at <= t.events[i + 1].at
  }

  /** A stored session is there as it was saved, unless it was deleted or, being expired by now, purged. */
  ghost predicate Faithful(s: Stores, now: Time) {
    && (forall token :: token in s.sessions ==>
          token in s.saved && s.sessions[token] == s.saved[token] && token !in s.dropped)
    && (forall token :: token in s.saved && token !in s.dropped && token !in s.sessions ==>
        now > s.saved[token].expiresAt)
    && s.saved.Keys <= s.used && s.dropped <= s.used
  }

  lemma CallFaithful(s: Stores, before: Time, now: Time, c: Call)
    requires Faithful(s, before) && before <= now && Enabled(s, c)
    ensures Faithful(Apply(s, now, c), now)
  {
    hide Register, CreateSSOUser, Update, Link, PI.Save, PI.Get, PI.Delete, PI.LookupIndex;
  }

  lemma {:induction false} AlwaysFaithful(t: Trace, i: nat, now: Time)
    requires IsTrace(t) && Timely(t) && i < |t.states|
    requires i > 0 ==> t.events[i - 1].at <= now
    ensures Faithful(t.states[i], now)
  {
    hide Apply, Enabled;
    if i > 0 {
      var last := t.events[i - 1];
      AlwaysFaithful(t, i - 1, last.at);
      assert Follows(t, i - 1);
      CallFaithful(t.states[i - 1], last.at, last.at, last.call);
    }
  }

  /** A lookup of a token that a session was stored for fails exactly if the session was deleted or has expired. */
  lemma AcceptedIff(t: Trace, i: nat, now: Time, token: string)
    requires IsTrace(t) && Timely(t) && i < |t.states| && token in t.states[i].saved
    requires i > 0 ==> t.events[i - 1].at <= now
    ensures
      var s := t.states[i];
      Redeem(s, now, token) == if token in s.dropped || now > s.saved[token].expiresAt then None
        else Some(s.saved[token])
  {
    hide IsTrace;
    AlwaysFaithful(t, i, now);
  }

  /** What happened to a live token between two points of a trace. */
  lemma {:induction false} DroppedByDelete(t: Trace, i: nat, j: nat, token: string)
    requires IsTrace(t) && i <= j < |t.states|
    requires token in t.states[i].saved && token !in t.states[i].dropped && t.states[i].saved.Keys <= t.states[i].used
    ensures token in t.states[j].used && token in t.states[j].saved
      && t.states[j].saved[token] == t.states[i].saved[token]
    ensures token in t.states[j].dropped <==> exists k :: i <= k < j && t.events[k].call == DeleteSession(token)
  {
    hide Register, CreateSSOUser, Update, Link, PI.Save, PI.Get, PI.Delete, PI.LookupIndex;
    if i < j {
      DroppedByDelete(t, i, j - 1, token);
      assert Follows(t, j - 1);
      assert t.events[j - 1].call == DeleteSession(token) ==> token in t.states[j].dropped;
    }
  }

  /**
    Of two refreshes that present the same token, the second is let through exactly if no delete of the
    session came before its lookup and the session has not expired: served one at a time, the first
    one's delete always does; interleaved, it may not.
    */
  lemma SecondRefreshIff(t: Trace, i: nat, j: nat, token: string, session: RefreshSession)
    requires IsTrace(t) && Timely(t) && i < j < |t.events|
    requires t.events[i].call == GetSession(token) && t.events[j].call == GetSession(token)
    requires Redeem(t.states[i], t.events[i].at, token) == Some(session)
    ensures
      Redeem(t.states[j], t.events[j].at, token) == Some(session) <==>
        t.events[j].at <= session.expiresAt && forall k :: i <= k < j ==> t.events[k].call != DeleteSession(token)
  {
    TimelyPoints(t, i);
    TimelyPoints(t, j);
    AlwaysFaithful(t, i, t.events[i].at);
    DroppedByDelete(t, i, j, token);
    AcceptedIff(t, j, t.events[j].at, token);
  }

  lemma TimelyPoints(t: Trace, i: nat)
    requires Timely(t) && i < |t.events|
    ensures i > 0 ==> t.events[i - 1].at <= t.events[i].at
  {
  }
}
