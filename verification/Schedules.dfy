/**
  Which calls one request makes, and interleavings of whole requests: what a second refresh of a token
  needs to succeed, and two interleavings in which more happens than requests served one at a time allow.
  */
module Schedules {
  import opened Auth
  import opened Machine
  import opened Tables
  import opened Interleaving
  import PI = PendingIndex

  // ---- Requests as calls ----

  /** The calls of one request, in order, at the given places of a trace. */
  ghost predicate Makes(t: Trace, at: seq<nat>, calls: seq<Call>) {
    && |at| == |calls|
    && (forall k :: 0 <= k < |at| ==> at[k] < |t.events| && t.events[at[k]].call == calls[k])
    && (forall k :: 0 <= k < |at| - 1 ==> at[k] < at[k + 1])
  }

  /** What ensureSignupAvailability asks for. */
  function CheckCalls(p: PendingSignup): seq<Call> {
    [FindUser(ByUsername, p.username), FindUser(ByEmail, p.email), FindUser(ByMobile, p.mobile),
     LookupPending(ByUsername, p.username), LookupPending(ByEmail, p.email), LookupPending(ByMobile, p.mobile)]
  }

  /** The lookup finds nothing. */
  ghost predicate Misses(s: Stores, now: Time, c: Call) {
    match c
    case FindUser(col, key) => Find(s.tables.users, col, key).None?
    case LookupPending(col, key) => PI.LookupIndex(s.pending, now, col, key).1.None?
    case _ => false
  }

  /** A signup request that is accepted: all six lookups miss, then the record is saved. */
  ghost predicate IsSignup(t: Trace, at: seq<nat>, p: PendingSignup) {
    && IsTrace(t) && Makes(t, at, CheckCalls(p) + [SavePending(p)])
    && (forall k :: 0 <= k < 6 ==> Misses(t.states[at[k]], t.events[at[k]].at, t.events[at[k]].call))
    && t.events[at[6]].at < p.expiresAt
  }

  /** The session that is stored is the user's and has not expired. */
  ghost predicate IsSessionOf(session: RefreshSession, user: User, now: Time) {
    session.userID == user.id && session.username == user.username && now < session.expiresAt
  }

  /** A verification that succeeds: the record is found, its user created, the record deleted and a session stored. */
  ghost predicate IsVerification(t: Trace, at: seq<nat>, p: PendingSignup, token: string, session: RefreshSession) {
    && IsTrace(t)
    && Makes(t, at, [GetPending(p.mobile), RegisterUser(p), DeletePending(p.mobile), SaveSession(token, session)])
    && PI.Get(t.states[at[0]].pending, t.events[at[0]].at, p.mobile).1 == Some(p)
    && var made := Register(t.states[at[1]].tables, NewUser(p), p.passwordHash);
    && made.Ok? && IsSessionOf(session, made.value.1, t.events[at[3]].at)
  }

  /** A refresh that succeeds: the session and its user are found, the session deleted and a new one stored. */
  ghost predicate IsRefresh(t: Trace, at: seq<nat>, token: string, was: RefreshSession, next: string,
                            session: RefreshSession) {
    && IsTrace(t)
    && Makes(t, at, [GetSession(token), FindUser(ByUsername, was.username), DeleteSession(token),
                     SaveSession(next, session)])
    && Redeem(t.states[at[0]], t.events[at[0]].at, token) == Some(was)
    && var user := Find(t.states[at[1]].tables.users, ByUsername, was.username);
    && user.Some? && IsSessionOf(session, user.value, t.events[at[3]].at)
  }

  // ---- Two refreshes of one token ----

  /** Two refreshes of the same token can both succeed only if the later lookup comes before the earlier delete. */
  lemma RefreshesOverlap(t: Trace, at: seq<nat>, bt: seq<nat>, token: string, was: RefreshSession, was': RefreshSession,
                         a: string, session: RefreshSession, b: string, session': RefreshSession)
    requires Timely(t) && IsRefresh(t, at, token, was, a, session) && IsRefresh(t, bt, token, was', b, session')
    requires at[0] < bt[0]
    ensures bt[0] < at[2] && was == was'
  {
    var i, j := at[0], bt[0];
    assert at[0] < at[1] < at[2];
    assert t.events[i].call == GetSession(token) && t.events[j].call == GetSession(token);
    assert t.events[at[2]].call == DeleteSession(token);
    SecondRefreshIff(t, i, j, token, was);
    SameSession(t, i, j, token, was);
  }

  lemma SameSession(t: Trace, i: nat, j: nat, token: string, was: RefreshSession)
    requires IsTrace(t) && Timely(t) && i < j < |t.events|
    requires t.events[i].call == GetSession(token) && t.events[j].call == GetSession(token)
    requires Redeem(t.states[i], t.events[i].at, token) == Some(was)
    ensures
      var r := Redeem(t.states[j], t.events[j].at, token);
      r.Some? ==> r.value == was
  {
    TimelyPoints(t, i);
    TimelyPoints(t, j);
    AlwaysFaithful(t, i, t.events[i].at);
    DroppedByDelete(t, i, j, token);
    AcceptedIff(t, j, t.events[j].at, token);
  }

  // ---- Building traces ----

  /** One more call, at time 1. */
  lemma Then(t: Trace, c: Call) returns (u: Trace)
    requires IsTrace(t) && Enabled(t.states[|t.events|], c)
    ensures IsTrace(u) && u.events == t.events + [Event(1, c)]
    ensures u.states == t.states + [Apply(t.states[|t.events|], 1, c)]
  {
    hide Apply, Enabled;
    u := Trace(t.events + [Event(1, c)], t.states + [Apply(t.states[|t.events|], 1, c)]);
    forall i | 0 <= i < |u.events| ensures Interleaving.Follows(u, i) {
      if i < |t.events| { assert Interleaving.Follows(t, i); }
    }
  }

  /** A trace all of whose calls come at time 1. */
  ghost predicate AtOnce(t: Trace) {
    IsTrace(t) && forall i :: 0 <= i < |t.events| ==> t.events[i].at == 1
  }

  /** The later trace begins with the earlier one. */
  ghost predicate Extends(t: Trace, u: Trace) {
    IsTrace(t) && IsTrace(u) && t.events <= u.events && t.states <= u.states
  }

  lemma SignupStays(t: Trace, u: Trace, at: seq<nat>, p: PendingSignup)
    requires Extends(t, u) && IsSignup(t, at, p)
    ensures IsSignup(u, at, p)
  {
    hide Misses;
  }

  lemma VerificationStays(t: Trace, u: Trace, at: seq<nat>, p: PendingSignup, token: string, session: RefreshSession)
    requires Extends(t, u) && IsVerification(t, at, p, token, session)
    ensures IsVerification(u, at, p, token, session)
  {
    hide IsSessionOf, Register, PI.Get;
  }

  /** The six lookups of a signup stand at n and all miss. */
  ghost predicate Checked(t: Trace, n: nat, p: PendingSignup) {
    && n + 6 <= |t.events| < |t.states|
    && forall i :: n <= i < n + 6 ==>
        t.events[i] == Event(1, CheckCalls(p)[i - n]) && Misses(t.states[i], 1, CheckCalls(p)[i - n])
  }

  lemma CheckedStays(t: Trace, u: Trace, n: nat, p: PendingSignup)
    requires Extends(t, u) && Checked(t, n, p)
    ensures Checked(u, n, p)
  {
    hide Misses, CheckCalls;
  }

  lemma CheckedThenSaved(t: Trace, n: nat, m: nat, p: PendingSignup)
    requires IsTrace(t) && Checked(t, n, p) && n + 5 < m < |t.events|
    requires t.events[m] == Event(1, SavePending(p)) && p.expiresAt > 1
    ensures IsSignup(t, [n, n + 1, n + 2, n + 3, n + 4, n + 5, m], p)
  {
    hide Misses;
    var at, calls := [n, n + 1, n + 2, n + 3, n + 4, n + 5, m], CheckCalls(p) + [SavePending(p)];
    forall k | 0 <= k < 6 ensures t.events[at[k]] == Event(1, calls[k]) && Misses(t.states[at[k]], 1, calls[k]) {
      assert at[k] == n + k && calls[k] == CheckCalls(p)[k];
    }
  }

  /** Six lookups that miss leave the stores as they are. */
  lemma Check(t: Trace, p: PendingSignup) returns (u: Trace)
    requires AtOnce(t) && t.states[|t.events|].pending == PI.EMPTY_INDEX
    requires forall k :: 0 <= k < 3 ==> Misses(t.states[|t.events|], 1, CheckCalls(p)[k])
    ensures AtOnce(u) && Extends(t, u) && |u.events| == |t.events| + 6 && u.states[|u.events|] == t.states[|t.events|]
    ensures Checked(u, |t.events|, p)
  {
    hide Apply, Enabled, Misses;
    var n, s, calls := |t.events|, t.states[|t.events|], CheckCalls(p);
    u := t;
    var k := 0;
    while k < 6
      invariant 0 <= k <= 6 && AtOnce(u) && Extends(t, u) && |u.events| == |t.events| + k
      invariant u.states[|u.events|] == s
      invariant forall i :: n <= i < n + k ==>
        u.events[i] == Event(1, calls[i - n]) && u.states[i] == s && Misses(s, 1, calls[i - n])
    {
      MissLeaves(s, calls[k]);
      u := Then(u, calls[k]);
      k := k + 1;
    }
  }

  lemma MissLeaves(s: Stores, c: Call)
    requires s.pending == PI.EMPTY_INDEX && (c.LookupPending? || (c.FindUser? && Misses(s, 1, c)))
    ensures Apply(s, 1, c) == s && Enabled(s, c) && Misses(s, 1, c)
  {
  }

  function UserOf(p: PendingSignup): User { NewUser(p).(id := 1) }

  /** The first signup of a service: request and verification, one after the other. */
  lemma SignUp(p: PendingSignup, token: string, session: RefreshSession) returns (t: Trace)
    requires p.expiresAt > 1 && IsSessionOf(session, UserOf(p), 1)
    ensures AtOnce(t) && |t.events| == 11
    ensures IsSignup(t, [0, 1, 2, 3, 4, 5, 6], p) && IsVerification(t, [7, 8, 9, 10], p, token, session)
    ensures
      var s := t.states[11];
      s.tables.users == [UserOf(p)] && s.sessions == map[token := session] && s.used == {token}
  {
    hide Register, PI.Save, PI.Get, PI.Delete, Misses;
    t := Requested(p);
    var s := t.states[7];
    FirstSaved(p);
    var t1 := Then(t, GetPending(p.mobile));
    t1 := Then(t1, RegisterUser(p));
    t1 := Then(t1, DeletePending(p.mobile));
    t1 := Then(t1, SaveSession(token, session));
    SignupStays(t, t1, [0, 1, 2, 3, 4, 5, 6], p);
    t := t1;
  }

  /** A first signup request. */
  lemma Requested(p: PendingSignup) returns (t: Trace)
    requires p.expiresAt > 1
    ensures AtOnce(t) && |t.events| == 7 && IsSignup(t, [0, 1, 2, 3, 4, 5, 6], p)
    ensures t.states[7] == START.(pending := PI.Save(PI.EMPTY_INDEX, 1, p).0)
  {
    hide PI.Save, Misses;
    BeginTrace();
    NoUsers(p);
    var t0 := Trace([], [START]);
    var t1 := Check(t0, p);
    t := Then(t1, SavePending(p));
    CheckedStays(t1, t, 0, p);
    CheckedThenSaved(t, 0, 6, p);
  }

  lemma BeginTrace()
    ensures AtOnce(Trace([], [START]))
  {
  }

  lemma NoUsers(p: PendingSignup)
    ensures forall k :: 0 <= k < 3 ==> Misses(START, 1, CheckCalls(p)[k])
  {
  }

  /** A saved record is found, its user is the first, and deleting it empties the store. */
  lemma FirstSaved(p: PendingSignup)
    requires p.expiresAt > 1
    ensures PI.Get(PI.Save(PI.EMPTY_INDEX, 1, p).0, 1, p.mobile) == (PI.Save(PI.EMPTY_INDEX, 1, p).0, Some(p))
    ensures
      var made := Register(EMPTY, NewUser(p), p.passwordHash);
      made.Ok? && made.value.0.users == [UserOf(p)] && made.value.1 == UserOf(p)
  {
  }

  // ---- Two interleavings ----

  /**
    A user signs up, and two refreshes of its token run side by side: both look the token up before
    either deletes it, both succeed, and two sessions live that descend from one.
    */
  lemma InterleavedRefreshesBothSucceed(p: PendingSignup, token: string, was: RefreshSession,
                                        a: string, b: string, session: RefreshSession) returns (t: Trace)
    requires p.expiresAt > 1 && IsSessionOf(was, UserOf(p), 1) && IsSessionOf(session, UserOf(p), 1)
    requires token != a && token != b && a != b
    ensures AtOnce(t) && |t.events| == 19
    ensures IsSignup(t, [0, 1, 2, 3, 4, 5, 6], p) && IsVerification(t, [7, 8, 9, 10], p, token, was)
    ensures IsRefresh(t, [11, 13, 15, 16], token, was, a, session)
    ensures IsRefresh(t, [12, 14, 17, 18], token, was, b, session)
    ensures Redeem(t.states[19], 1, a) == Some(session) && Redeem(t.states[19], 1, b) == Some(session)
  {
    hide IsSignup, IsVerification, IsRefresh, Find, Apply, Enabled;
    var t0 := SignUp(p, token, was);
    FoundByName(p);
    var t1 := BothLookUp(t0, token, was);
    t := BothWrite(t1, token, a, b, session);
    SignupStays(t0, t, [0, 1, 2, 3, 4, 5, 6], p);
    VerificationStays(t0, t, [7, 8, 9, 10], p, token, was);
    assert forall i :: 11 <= i < 15 ==> t.events[i] == t1.events[i] && t.states[i] == t1.states[i];
    RefreshPlaced(t, 11, 13, 15, 16, token, was, a, session, UserOf(p));
    RefreshPlaced(t, 12, 14, 17, 18, token, was, b, session, UserOf(p));
  }

  lemma RefreshPlaced(t: Trace, i: nat, j: nat, k: nat, l: nat, token: string, was: RefreshSession, next: string,
                      session: RefreshSession, user: User)
    requires IsTrace(t) && i < j < k < l < |t.events|
    requires t.events[i] == Event(1, GetSession(token)) && Redeem(t.states[i], 1, token) == Some(was)
    requires t.events[j] == Event(1, FindUser(ByUsername, was.username))
    requires Find(t.states[j].tables.users, ByUsername, was.username) == Some(user)
    requires t.events[k] == Event(1, DeleteSession(token))
    requires t.events[l] == Event(1, SaveSession(next, session)) && IsSessionOf(session, user, 1)
    ensures IsRefresh(t, [i, j, k, l], token, was, next, session)
  {
    hide Find, Redeem, IsSessionOf;
  }

  /** Both refreshes find the session and then the user. */
  lemma BothLookUp(t: Trace, token: string, was: RefreshSession) returns (u: Trace)
    requires AtOnce(t) && t.states[|t.events|].sessions == map[token := was] && was.expiresAt > 1
    ensures AtOnce(u) && Extends(t, u) && u.events == t.events +
      [Event(1, GetSession(token)), Event(1, GetSession(token)),
       Event(1, FindUser(ByUsername, was.username)), Event(1, FindUser(ByUsername, was.username))]
    ensures forall i :: |t.events| <= i <= |t.events| + 4 ==> u.states[i] == t.states[|t.events|]
  {
    u := Then(t, GetSession(token));
    u := Then(u, GetSession(token));
    u := Then(u, FindUser(ByUsername, was.username));
    u := Then(u, FindUser(ByUsername, was.username));
  }

  /** Then each deletes the session and stores its own. */
  lemma BothWrite(t: Trace, token: string, a: string, b: string, session: RefreshSession) returns (u: Trace)
    requires AtOnce(t) && t.states[|t.events|].used == {token} && session.expiresAt > 1
    requires token != a && token != b && a != b
    ensures AtOnce(u) && Extends(t, u) && u.events == t.events +
      [Event(1, DeleteSession(token)), Event(1, SaveSession(a, session)),
       Event(1, DeleteSession(token)), Event(1, SaveSession(b, session))]
    ensures
      var s := u.states[|u.events|].sessions;
      a in s && b in s && s[a] == session && s[b] == session
  {
    u := Then(t, DeleteSession(token));
    u := Then(u, SaveSession(a, session));
    u := Then(u, DeleteSession(token));
    u := Then(u, SaveSession(b, session));
  }

  lemma FoundByName(p: PendingSignup)
    ensures Find([UserOf(p)], ByUsername, p.username) == Some(UserOf(p))
  {
  }

  /**
    Two signups for one username run side by side: both find all their values free before either saves,
    and the saves leave a record that its username no longer finds.
    */
  lemma InterleavedSignupsBreakExactness(p: PendingSignup, q: PendingSignup) returns (t: Trace)
    requires p.username == q.username && p.email != q.email && p.mobile != q.mobile
    requires p.expiresAt > 1 && q.expiresAt > 1
    ensures AtOnce(t) && |t.events| == 14
    ensures IsSignup(t, [0, 1, 2, 3, 4, 5, 12], p) && IsSignup(t, [6, 7, 8, 9, 10, 11, 13], q)
    ensures
      var s := t.states[14].pending;
      && p.mobile in s.signups && PI.LookupIndex(s, 1, ByUsername, p.username).1 == Some(q.mobile)
      && !PI.Exact(s)
  {
    hide PI.Save, Misses, Checked, CheckCalls, IsSignup;
    BeginTrace();
    NoUsers(p);
    NoUsers(q);
    var t0 := Trace([], [START]);
    var t1 := Check(t0, p);
    var t2 := Check(t1, q);
    t := Then(t2, SavePending(p));
    t := Then(t, SavePending(q));
    CheckedStays(t1, t, 0, p);
    CheckedStays(t2, t, 6, q);
    CheckedThenSaved(t, 0, 12, p);
    CheckedThenSaved(t, 6, 13, q);
    BothSaved(p, q);
  }

  lemma BothSaved(p: PendingSignup, q: PendingSignup)
    requires p.username == q.username && p.email != q.email && p.mobile != q.mobile
    requires p.expiresAt > 1 && q.expiresAt > 1
    ensures
      var s := PI.Save(PI.Save(PI.EMPTY_INDEX, 1, p).0, 1, q).0;
      && p.mobile in s.signups && PI.LookupIndex(s, 1, ByUsername, p.username).1 == Some(q.mobile)
      && !PI.Exact(s)
  {
    var s := PI.Save(PI.Save(PI.EMPTY_INDEX, 1, p).0, 1, q).0;
    assert s.signups[p.mobile] == p && s.byUsername[p.username] == q.mobile;
    assert !PI.Covers(s.byUsername, s.signups, ByUsername);
  }
}
