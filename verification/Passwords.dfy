/** Whose password is stored for a user who signed up (auth/service/service.go, dbase/userdao/postgres.go). */
module Passwords {
  import opened Auth
  import opened Tables
  import opened Machine
  import opened Invariants
  import opened Outcomes
  import Accounts
  import Mobile
  import RateLimit
  import SignupStatus
  import Text

  /** The k-th request was a signup for the number, and a code was sent for it. */
  ghost predicate SignupAccepted(cfg: Config, run: Run, k: nat, m: string)
    requires run.Shaped() && k < |run.inputs|
  {
    var r := run.inputs[k].request;
    r.RequestSignup? && run.replies[k] == Accepted && Mobile.Normalize(r.mobile, cfg.wideDigits) == Ok(m)
  }

  /** The k-th request was an accepted signup for this name, email and number, with this password hash. */
  ghost predicate Requested(cfg: Config, run: Run, k: nat, name: string, email: string, m: string, hash: string)
    requires run.Shaped() && k < |run.inputs|
  {
    var r := run.inputs[k].request;
    && SignupAccepted(cfg, run, k, m) && r.hash == Some(hash)
    && name == Text.TrimSpace(r.username) != "" && email == Text.ToLower(Text.TrimSpace(r.email))
  }

  /** The same, and no later signup for the number was accepted before the n-th request. */
  ghost predicate LastRequested(cfg: Config, run: Run, k: nat, n: nat, name: string, email: string, m: string,
                                hash: string)
    requires run.Shaped() && k < n <= |run.inputs|
  {
    Requested(cfg, run, k, name, email, m, hash) && forall l :: k < l < n ==> !SignupAccepted(cfg, run, l, m)
  }

  // ---- Where a pending signup comes from ----

  /** One request puts a record under a number only by a signup for it, and keeps what the signup chose. */
  lemma PendingStep(cfg: Config, w: World, w': World, r: Request, reply: Reply, m: string)
    requires Outcome(cfg, w, w', r, reply) && m in w'.pending
    ensures
      var p' := w'.pending[m];
      if r.RequestSignup? && reply == Accepted && Mobile.Normalize(r.mobile, cfg.wideDigits) == Ok(m) then
        && r.hash == Some(p'.passwordHash)
        && p'.username == Text.TrimSpace(r.username) != "" && p'.email == Text.ToLower(Text.TrimSpace(r.email))
      else
        m in w.pending &&
        var p := w.pending[m];
        p'.username == p.username && p'.email == p.email && p'.passwordHash == p.passwordHash
  {
    hide Mobile.Normalize, Text.TrimSpace, Text.ToLower, SignupRefusal, RowRefusal, NewRow, Has,
      SignupStatus.VerifiedHolder, LoginSendDue, LocalPart, Fallback, Linked, HasPassword, OthersMobile, NameBorne,
      Accounts.Bearer;
  }

  lemma {:induction false} PendingWasRequested(cfg: Config, run: Run, n: nat, m: string)
    requires IsRun(cfg, run) && n <= |run.inputs| && cfg.Valid() && m in run.states[n].pending
    ensures
      var p := run.states[n].pending[m];
      exists k :: 0 <= k < n && LastRequested(cfg, run, k, n, p.username, p.email, m, p.passwordHash)
  {
    hide Step, Outcome, Text.TrimSpace, Text.ToLower, Mobile.Normalize, RateLimit.Limited;
    assert n > 0 by { assert run.states[0] == INITIAL; }
    EveryRequest(cfg, run, n - 1);
    var w, w', r, p := Tick(run.states[n - 1], run.inputs[n - 1].at), run.states[n], run.inputs[n - 1].request,
      run.states[n].pending[m];
    if !RateLimit.Limited(cfg, run.inputs, n - 1) { PendingStep(cfg, w, w', r, run.replies[n - 1], m); }
    if SignupAccepted(cfg, run, n - 1, m) {
      assert LastRequested(cfg, run, n - 1, n, p.username, p.email, m, p.passwordHash);
    } else {
      PendingWasRequested(cfg, run, n - 1, m);
      var k :| 0 <= k < n - 1 && LastRequested(cfg, run, k, n - 1, p.username, p.email, m, p.passwordHash);
      assert LastRequested(cfg, run, k, n, p.username, p.email, m, p.passwordHash);
    }
  }

  // ---- From the pending signup to the user ----

  /** The k-th request chose the password that is stored for the user after n requests; the l-th created the user. */
  ghost predicate ChosenAt(cfg: Config, run: Run, k: nat, l: nat, n: nat, user: User)
    requires run.Shaped() && k < l < n <= |run.inputs|
  {
    var r, passwords := run.inputs[k].request, run.states[n].tables.passwords;
    && r.RequestSignup? && r.hash.Some?
    && LastRequested(cfg, run, k, l, user.username, user.email, user.mobile, r.hash.value)
    && Accounts.CreatedBy(cfg, run, l, user)
    && if r.hash.value == "" then user.id !in passwords
       else user.id in passwords && passwords[user.id] == r.hash.value
  }

  /** After n requests the user has the password that some request chose. */
  ghost predicate Chosen(cfg: Config, run: Run, n: nat, user: User)
    requires run.Shaped() && n <= |run.inputs|
  {
    exists k, l :: 0 <= k < l < n && ChosenAt(cfg, run, k, l, n, user)
  }

  /** Passwords of rows that are there already stay as they are. */
  lemma PasswordsStay(cfg: Config, w: World, w': World, r: Request, reply: Reply, id: nat)
    requires Outcome(cfg, w, w', r, reply) && id <= |w.tables.users|
    ensures id in w'.tables.passwords <==> id in w.tables.passwords
    ensures id in w.tables.passwords ==> w'.tables.passwords[id] == w.tables.passwords[id]
  {
    hide Mobile.Normalize, Text.TrimSpace, Text.ToLower, SignupRefusal, RowRefusal, Has, SignupStatus.VerifiedHolder,
      LoginSendDue, LocalPart, Fallback, Linked, HasPassword, OthersMobile, NameBorne, Accounts.Bearer;
  }

  /** A verified user that is new came from the pending signup of its number, with that signup's password. */
  lemma NewVerified(cfg: Config, w: World, w': World, r: Request, reply: Reply, user: User)
    requires Inv(cfg, w) && Outcome(cfg, w, w', r, reply)
    requires user in w'.tables.users && user !in w.tables.users && user.mobileVerified
    ensures r.VerifySignup? && r.verdict.Approved? && Mobile.Normalize(r.mobile, cfg.wideDigits) == Ok(user.mobile)
    ensures user.mobile in w.pending
    ensures
      var p := w.pending[user.mobile];
      user == SignedUp(w, p, user.mobile) && NewRow(w.tables, w'.tables, user, p.passwordHash)
    ensures user.id !in w.tables.passwords
  {
    hide Mobile.Normalize, Text.TrimSpace, Text.ToLower, SignupRefusal, RowRefusal, Has, SignupStatus.VerifiedHolder,
      LoginSendDue, LocalPart, Fallback, Linked, HasPassword, OthersMobile, NameBorne, Accounts.Bearer;
    hide CacheOk, PendingOk, SessionsOk, MintedOk, VouchedOk, Unique;
    assert forall i :: 0 <= i < |w.tables.users| ==> w.tables.users[i] in w.tables.users;
  }

  lemma StillChosen(cfg: Config, run: Run, n: nat, user: User)
    requires IsRun(cfg, run) && n < |run.inputs| && cfg.Valid() && user in run.states[n].tables.users
    requires Chosen(cfg, run, n, user)
    ensures Chosen(cfg, run, n + 1, user)
  {
    hide Inv, Step, Outcome, LastRequested, Accounts.CreatedBy, Tick, RateLimit.Limited;
    EveryRequest(cfg, run, n);
    StepAt(cfg, run, n);
    TickLeaves(run.states[n], run.inputs[n].at);
    var k, l :| 0 <= k < l < n && ChosenAt(cfg, run, k, l, n, user);
    RowIsKnown(cfg, run.states[n], user);
    if !RateLimit.Limited(cfg, run.inputs, n) {
      PasswordsStay(cfg, Tick(run.states[n], run.inputs[n].at), run.states[n + 1], run.inputs[n].request,
        run.replies[n], user.id);
    }
    assert ChosenAt(cfg, run, k, l, n + 1, user);
  }

  lemma NewlyChosen(cfg: Config, run: Run, n: nat, user: User)
    requires IsRun(cfg, run) && n < |run.inputs| && cfg.Valid() && user.mobileVerified
    requires user in run.states[n + 1].tables.users && user !in run.states[n].tables.users
    ensures Chosen(cfg, run, n + 1, user)
  {
    hide Inv, Grows, Step, Outcome, LastRequested, Accounts.CreatedBy, LiveCache, LiveLogins, LiveSessions, LiveWindows,
      RateLimit.Limited;
    EveryRequest(cfg, run, n);
    StepAt(cfg, run, n);
    var a, m := run.states[n], user.mobile;
    var w := Tick(a, run.inputs[n].at);
    TickKeeps(cfg, a, run.inputs[n].at);
    NewVerified(cfg, w, run.states[n + 1], run.inputs[n].request, run.replies[n], user);
    Created(cfg, run, n, user);
    PendingWasRequested(cfg, run, n, m);
    var p := a.pending[m];
    var k :| 0 <= k < n && LastRequested(cfg, run, k, n, p.username, p.email, m, p.passwordHash);
    HashOf(cfg, run, k, n, p.username, p.email, m, p.passwordHash);
    assert ChosenAt(cfg, run, k, n, n + 1, user);
  }

  /**
    The password stored for a verified user is, in every later state, the one chosen by the last signup
    accepted for its number before it was created, a signup for its very name, email and number.
    */
  lemma {:induction false} StoredIsChosen(cfg: Config, run: Run, n: nat, user: User)
    requires IsRun(cfg, run) && n <= |run.inputs| && cfg.Valid()
    requires user in run.states[n].tables.users && user.mobileVerified
    ensures Chosen(cfg, run, n, user)
  {
    hide Follows, Chosen;
    assert n > 0 by { assert run.states[0] == INITIAL; }
    if user in run.states[n - 1].tables.users {
      StoredIsChosen(cfg, run, n - 1, user);
      StillChosen(cfg, run, n - 1, user);
    } else {
      NewlyChosen(cfg, run, n - 1, user);
    }
  }

  lemma Created(cfg: Config, run: Run, l: nat, user: User)
    requires run.Shaped() && l < |run.inputs|
    requires user !in run.states[l].tables.users && user in run.states[l + 1].tables.users
    requires
      var r := run.inputs[l].request;
      r.VerifySignup? && r.verdict.Approved? && Mobile.Normalize(r.mobile, cfg.wideDigits) == Ok(user.mobile)
    ensures Accounts.CreatedBy(cfg, run, l, user)
  {
  }

  lemma HashOf(cfg: Config, run: Run, k: nat, n: nat, name: string, email: string, m: string, hash: string)
    requires run.Shaped() && k < n <= |run.inputs| && LastRequested(cfg, run, k, n, name, email, m, hash)
    ensures run.inputs[k].request.RequestSignup? && run.inputs[k].request.hash == Some(hash) && name != ""
  {
  }

  /**
    So, as bcrypt yields no empty hash, a user who signed up can log in by password at any later time: a login
    under its name with some password succeeds exactly if the password matches the stored hash.
    */
  lemma SignedUpLogsIn(cfg: Config, run: Run, n: nat, i: nat, user: User)
    requires IsRun(cfg, run) && n <= i < |run.inputs| && cfg.Valid()
    requires user in run.states[n].tables.users && user.mobileVerified
    requires forall k :: 0 <= k < i && run.inputs[k].request.RequestSignup? ==> run.inputs[k].request.hash != Some("")
    requires
      var r := run.inputs[i].request;
      r.PasswordLogin? && Text.TrimSpace(r.username) == user.username && r.password != ""
    ensures
      if run.inputs[i].request.matches then run.replies[i].Issued? && run.replies[i].user == user
      else run.replies[i] == Failed(InvalidCredentials)
  {
    hide Inv, Grows, Step, Text.TrimSpace, LastRequested, Accounts.CreatedBy;
    Reachable(cfg, run, n);
    Accounts.VerifiedIsVouched(cfg, run.states[n], user);
    RunGrows(cfg, run, n, i);
    CompleteStays(run.states[n], run.states[i], user);
    StoredIsChosen(cfg, run, i, user);
    var k, l :| 0 <= k < l < i && ChosenAt(cfg, run, k, l, i, user);
    HashOf(cfg, run, k, l, user.username, user.email, user.mobile, run.inputs[k].request.hash.value);
    PasswordLoginIff(cfg, run, i);
  }

  lemma CompleteStays(a: World, b: World, user: User)
    requires Grows(a, b) && user in a.tables.users && user.profileComplete
    ensures user in b.tables.users
  {
    var i :| 0 <= i < |a.tables.users| && a.tables.users[i] == user;
    assert RowKept(a.tables.users[i], b.tables.users[i]);
  }
}
