/** How long a refresh token lives, and when a refresh succeeds (auth/service/service.go, auth/token_manager.go). */
module Sessions {
  import opened Auth
  import opened Machine
  import opened Invariants
  import opened Accounts
  import Outcomes
  import RateLimit
  import Text

  /** The k-th request redeemed or revoked the token. */
  ghost predicate Ended(run: Run, k: nat, token: string)
    requires run.Shaped() && k < |run.inputs|
  {
    var r := run.inputs[k].request;
    && ((r.Refresh? && run.replies[k].Issued?) || r.Logout?)
    && Text.TrimSpace(r.token) == token
  }

  /** What one step does to the session of a token handed out before. */
  lemma SessionStep(cfg: Config, run: Run, k: nat, token: string)
    requires IsRun(cfg, run) && k < |run.inputs| && cfg.Valid() && token != "" && token in run.states[k].roots
    ensures token in run.states[k + 1].sessions <==>
      && token in run.states[k].sessions && run.inputs[k].at <= run.states[k].sessions[token].expiresAt
      && !Ended(run, k, token)
    ensures token in run.states[k + 1].sessions ==>
      run.states[k + 1].sessions[token] == run.states[k].sessions[token]
  {
    hide Inv, Grows, Step, LiveCache, LivePending, LiveLogins, LiveWindows, Text.TrimSpace;
    StepAt(cfg, run, k);
    StepDescends(cfg, run.states[k], run.inputs[k]);
  }

  /**
    A refresh token is live from the reply that handed it out until its lifetime has passed or a refresh or a
    logout has ended it, and at no other time.
    */
  lemma {:induction false} LivesIff(cfg: Config, run: Run, i: nat, j: nat)
    requires IsRun(cfg, run) && i < j <= |run.inputs| && cfg.Valid() && run.replies[i].Issued?
    ensures
      var token, until := run.replies[i].tokens.refreshToken, run.inputs[i].at + cfg.refreshTokenTTL;
      && (token in run.states[j].sessions <==>
            run.states[j].clock <= until && forall k :: i < k < j ==> !Ended(run, k, token))
      && (token in run.states[j].sessions ==>
            var session := run.states[j].sessions[token];
            session.expiresAt == until && BelongsTo(run.states[j].sessions, token, run.replies[i].user))
  {
    hide Inv, Grows, Step, LiveCache, LivePending, LiveLogins, LiveSessions, LiveWindows, Ended;
    var token := run.replies[i].tokens.refreshToken;
    StepAt(cfg, run, i);
    StepDescends(cfg, run.states[i], run.inputs[i]);
    if j == i + 1 {
      RateLimit.StepCounts(cfg, run, i);
    } else {
      hide Descends;
      LivesIff(cfg, run, i, j - 1);
      Rooted(cfg, run, i, j - 1);
      SessionStep(cfg, run, j - 1, token);
      RateLimit.StepCounts(cfg, run, j - 1);
    }
  }

  lemma Rooted(cfg: Config, run: Run, i: nat, j: nat)
    requires IsRun(cfg, run) && i < j <= |run.inputs| && run.replies[i].Issued?
    ensures run.replies[i].tokens.refreshToken in run.states[j].roots && run.replies[i].tokens.refreshToken != ""
  {
    hide Inv, Step;
    Lineage(cfg, run, i);
    IssuedTokens(cfg, run, i);
    RunGrows(cfg, run, i + 1, j);
  }

  /**
    A refresh with a token that was handed out succeeds if and only if the token is live and somebody bears
    the name it was made for; the tokens it yields are that bearer's.
    */
  lemma RefreshIff(cfg: Config, run: Run, i: nat, j: nat)
    requires IsRun(cfg, run) && i < j < |run.inputs| && cfg.Valid() && run.replies[i].Issued?
    requires run.inputs[j].request.Refresh?
    requires Text.TrimSpace(run.inputs[j].request.token) == run.replies[i].tokens.refreshToken
    ensures
      var Issued(user, tokens), at := run.replies[i], run.inputs[j].at;
      var bearer := Bearer(Tick(run.states[j], at), user.username);
      if run.inputs[i].at + cfg.refreshTokenTTL < at || exists k :: i < k < j && Ended(run, k, tokens.refreshToken) then
        run.replies[j] == Failed(InvalidRefreshToken)
      else if bearer.None? then run.replies[j] == Failed(UserNotFound)
      else run.replies[j].Issued? && run.replies[j].user == bearer.value
  {
    hide Inv, Grows, Step, LiveCache, LivePending, LiveLogins, LiveWindows, Text.TrimSpace, Bearer, Ended;
    LivesIff(cfg, run, i, j);
    Rooted(cfg, run, i, j);
    RateLimit.StepCounts(cfg, run, j);
    Outcomes.EveryRequest(cfg, run, j);
  }

  /** Only tokens that a reply handed out are on record. */
  lemma {:induction false} RootsWereHandedOut(cfg: Config, run: Run, j: nat, token: string)
    requires IsRun(cfg, run) && j <= |run.inputs| && token in run.states[j].roots
    ensures exists i :: 0 <= i < j && run.replies[i].Issued? && run.replies[i].tokens.refreshToken == token
  {
    hide Inv, Grows, Step, LiveCache, LivePending, LiveLogins, LiveSessions, LiveWindows, Text.TrimSpace;
    assert j > 0 by { assert run.states[0] == INITIAL; }
    StepAt(cfg, run, j - 1);
    StepDescends(cfg, run.states[j - 1], run.inputs[j - 1]);
    if token in run.states[j - 1].roots {
      hide Descends;
      RootsWereHandedOut(cfg, run, j - 1, token);
    }
  }

  /** A refresh with a token that no reply handed out is refused. */
  lemma UnknownIsRefused(cfg: Config, run: Run, j: nat)
    requires IsRun(cfg, run) && j < |run.inputs| && run.inputs[j].request.Refresh?
    requires forall i :: 0 <= i < j && run.replies[i].Issued? ==>
      run.replies[i].tokens.refreshToken != Text.TrimSpace(run.inputs[j].request.token)
    ensures run.replies[j] == Failed(InvalidRefreshToken)
  {
    hide Inv, Step, Text.TrimSpace;
    StepAt(cfg, run, j);
    LiveAreRooted(cfg, run.states[j]);
    var token := Text.TrimSpace(run.inputs[j].request.token);
    if token in run.states[j].sessions { RootsWereHandedOut(cfg, run, j, token); }
    SpentIsRefused(cfg, run.states[j], run.inputs[j]);
  }
}
