/**
  What the limiter in front of the OTP handlers lets through (auth/http/handler.go, cache/memory/stores.go):
  exactly which requests it refuses, and the bounds that follow on requests and on OTP messages.
  */
module RateLimit {
  import opened Auth
  import opened Tables
  import opened Machine
  import opened Invariants
  import opened FixedWindows
  import opened OTPEffects
  import Mobile
  import Text

  // ---- Counters ----

  datatype Purpose = Sending | Verifying

  /** Requests that send a code and requests that verify one are limited, each kind by itself. */
  function PurposeOf(r: Request): Option<Purpose> {
    match r
    case RequestSignup(_, _, _, _, _, _) => Some(Sending)
    case ResendSignup(_, _) => Some(Sending)
    case RequestLogin(_, _) => Some(Sending)
    case VerifySignup(_, _, _) => Some(Verifying)
    case VerifyLogin(_, _, _) => Some(Verifying)
    case _ => None
  }

  /** What requests are counted by: the address they come from, and the number they are about. */
  datatype Counter = OfAddress(purpose: Purpose, ip: string) | OfNumber(purpose: Purpose, mobile: string)

  predicate Concerns(cfg: Config, c: Counter, input: Input) {
    && PurposeOf(input.request) == Some(c.purpose)
    && match c
       case OfAddress(_, ip) => input.ip == ip
       case OfNumber(_, m) => Mobile.Normalize(input.request.mobile, cfg.wideDigits) == Ok(m)
  }

  function Rule(cfg: Config, c: Counter): RateLimitRule {
    match c
    case OfAddress(Sending, _) => cfg.requestIP
    case OfNumber(Sending, _) => cfg.requestMobile
    case OfAddress(Verifying, _) => cfg.verifyIP
    case OfNumber(Verifying, _) => cfg.verifyMobile
  }

  /** The requests that a counter counts: for a number only those that the limit of their address let pass. */
  ghost function Marks(cfg: Config, inputs: seq<Input>, c: Counter): (marks: seq<Mark>)
    ensures |marks| == |inputs| && forall i :: 0 <= i < |inputs| ==> marks[i].at == inputs[i].at
    decreases c.OfNumber?, 0
  {
    seq(|inputs|, i requires 0 <= i < |inputs| =>
      Mark(inputs[i].at,
           && Concerns(cfg, c, inputs[i])
           && (c.OfNumber? ==> !UsedUp(cfg, inputs, i, OfAddress(c.purpose, inputs[i].ip)))))
  }

  /** When the i-th request comes, the window of the counter is full. */
  ghost predicate UsedUp(cfg: Config, inputs: seq<Input>, i: nat, c: Counter)
    requires i < |inputs|
    decreases c.OfNumber?, 1
  {
    Full(Marks(cfg, inputs, c), Rule(cfg, c), i, inputs[i].at)
  }

  /** One of the counters that the i-th request concerns is used up. */
  ghost predicate Limited(cfg: Config, inputs: seq<Input>, i: nat)
    requires i < |inputs|
  {
    var input := inputs[i];
    PurposeOf(input.request).Some? &&
    var p := PurposeOf(input.request).value;
    || UsedUp(cfg, inputs, i, OfAddress(p, input.ip))
    || (Mobile.Normalize(input.request.mobile, cfg.wideDigits).Ok?
        && UsedUp(cfg, inputs, i, OfNumber(p, Mobile.Normalize(input.request.mobile, cfg.wideDigits).value)))
  }

  // ---- The limiter keeps the windows ----

  function Action(p: Purpose): string {
    match p case Sending => "request" case Verifying => "verify"
  }

  /** The key under which the limiter counts. */
  function Key(c: Counter): string {
    match c case OfAddress(p, ip) => IPKey(Action(p), ip) case OfNumber(p, m) => MobileKey(Action(p), m)
  }

  lemma KeysApart(c: Counter, d: Counter)
    ensures Key(c) == Key(d) ==> c == d
  {
    Prefix(c);
    Prefix(d);
  }

  lemma Prefix(c: Counter)
    ensures
      var k := Key(c);
      && |k| > 12
      && (c.purpose.Sending? <==> k[4] == 'r')
      && (c.OfAddress? <==> k[if c.purpose.Sending? then 12 else 11] == 'i')
      && (var n := (if c.purpose.Sending? then 12 else 11) + (if c.OfAddress? then 3 else 7);
          n <= |k| && k[n..] == if c.OfAddress? then c.ip else c.mobile)
  {
  }

  /** The limiter's map holds the window in force on a key, and nothing else on it. */
  ghost predicate Agrees(windows: map<string, RateLimitWindow>, key: string, length: Time,
                         marks: seq<Mark>, n: nat, now: Time)
    requires n <= |marks|
  {
    && (key in windows ==> exists o: nat :: Lasts(marks, length, o, n, now))
    && (forall o: nat :: Lasts(marks, length, o, n, now) ==>
          key in windows && windows[key] == RateLimitWindow(Tally(marks, o, n), marks[o].at + length))
  }

  lemma Elapse(windows: map<string, RateLimitWindow>, key: string, length: Time, marks: seq<Mark>, n: nat,
               clock: Time, now: Time)
    requires n <= |marks| && clock <= now && Agrees(windows, key, length, marks, n, clock)
    ensures Agrees(LiveWindows(windows, now), key, length, marks, n, now)
  {
    hide Opens, Tally;
    forall o | Lasts(marks, length, o, n, now) ensures Lasts(marks, length, o, n, clock) {
    }
    if key in LiveWindows(windows, now) {
      var o :| Lasts(marks, length, o, n, clock);
      assert Lasts(marks, length, o, n, now);
    }
  }

  /** Counting an event refuses it exactly if it finds a full window. */
  lemma Counting(windows: map<string, RateLimitWindow>, key: string, rule: RateLimitRule, marks: seq<Mark>, n: nat)
    requires rule.Enabled() && Ordered(marks) && n < |marks| && marks[n].counted
    requires Agrees(windows, key, rule.window, marks, n, marks[n].at)
    ensures
      var (windows', ok) := Allow(windows, marks[n].at, key, rule);
      && Agrees(windows', key, rule.window, marks, n + 1, marks[n].at)
      && (ok <==> !Full(marks, rule, n, marks[n].at))
  {
    var now, W := marks[n].at, rule.window;
    var (windows', ok) := Allow(windows, now, key, rule);
    if key in windows {
      var o :| Lasts(marks, W, o, n, now);
      assert Lasts(marks, W, o, n + 1, now) && !Opens(marks, W, n);
      forall p: nat | Lasts(marks, W, p, n + 1, now)
        ensures windows'[key] == RateLimitWindow(Tally(marks, p, n + 1), marks[p].at + W)
      {
        OneLasts(marks, W, o, p, n + 1, now);
      }
    } else {
      forall p | 0 <= p < n && Opens(marks, W, p) ensures marks[p].at + W < now {
        assert !Lasts(marks, W, p, n, now);
      }
      assert Opens(marks, W, n) && Lasts(marks, W, n, n + 1, now);
      forall p: nat | Lasts(marks, W, p, n + 1, now)
        ensures windows'[key] == RateLimitWindow(Tally(marks, p, n + 1), marks[p].at + W)
      {
        assert !Lasts(marks, W, p, n, now);
        assert Tally(marks, n, n) == 0;
      }
    }
  }

  lemma Skipping(windows: map<string, RateLimitWindow>, windows': map<string, RateLimitWindow>, key: string,
                 length: Time, marks: seq<Mark>, n: nat, now: Time)
    requires n < |marks| && !marks[n].counted && Agrees(windows, key, length, marks, n, now)
    requires key in windows <==> key in windows'
    requires key in windows ==> windows[key] == windows'[key]
    ensures Agrees(windows', key, length, marks, n + 1, now)
  {
    forall o | Lasts(marks, length, o, n + 1, now) ensures Lasts(marks, length, o, n, now) {
    }
    if key in windows {
      var o :| Lasts(marks, length, o, n, now);
      assert Lasts(marks, length, o, n + 1, now);
    }
  }

  ghost predicate Synced(cfg: Config, inputs: seq<Input>, n: nat, windows: map<string, RateLimitWindow>, now: Time,
                         c: Counter)
    requires n <= |inputs|
  {
    Rule(cfg, c).Enabled() ==> Agrees(windows, Key(c), Rule(cfg, c).window, Marks(cfg, inputs, c), n, now)
  }

  ghost predicate InOrder(inputs: seq<Input>) {
    forall i, j :: 0 <= i < j < |inputs| ==> inputs[i].at <= inputs[j].at
  }

  /** The check on a counter that counts the n-th request. */
  lemma Checked(cfg: Config, inputs: seq<Input>, n: nat, windows: map<string, RateLimitWindow>, c: Counter)
    requires InOrder(inputs) && n < |inputs| && Marks(cfg, inputs, c)[n].counted
    requires Synced(cfg, inputs, n, windows, inputs[n].at, c)
    ensures
      var (windows', ok) := Allow(windows, inputs[n].at, Key(c), Rule(cfg, c));
      Synced(cfg, inputs, n + 1, windows', inputs[n].at, c) && (ok <==> !UsedUp(cfg, inputs, n, c))
  {
    hide Agrees, Opens, Tally, Key, Marks, Concerns;
    if Rule(cfg, c).Enabled() {
      hide Full, Allow;
      Counting(windows, Key(c), Rule(cfg, c), Marks(cfg, inputs, c), n);
    }
  }

  /** A check on another counter, or none. */
  lemma Unchecked(cfg: Config, windows: map<string, RateLimitWindow>, now: Time, c: Counter, d: Counter)
    requires c != d
    ensures
      var windows' := Allow(windows, now, Key(d), Rule(cfg, d)).0;
      && (Key(c) in windows <==> Key(c) in windows')
      && (Key(c) in windows ==> windows[Key(c)] == windows'[Key(c)])
  {
    hide Key;
    KeysApart(c, d);
  }

  lemma NotCounted(cfg: Config, inputs: seq<Input>, n: nat, windows: map<string, RateLimitWindow>,
                   windows': map<string, RateLimitWindow>, c: Counter)
    requires n < |inputs| && !Marks(cfg, inputs, c)[n].counted && Synced(cfg, inputs, n, windows, inputs[n].at, c)
    requires Key(c) in windows <==> Key(c) in windows'
    requires Key(c) in windows ==> windows[Key(c)] == windows'[Key(c)]
    ensures Synced(cfg, inputs, n + 1, windows', inputs[n].at, c)
  {
    hide Agrees, Opens, Tally, Key, Marks, Concerns;
    if Rule(cfg, c).Enabled() {
      Skipping(windows, windows', Key(c), Rule(cfg, c).window, Marks(cfg, inputs, c), n, inputs[n].at);
    }
  }

  lemma Unmoved(cfg: Config, inputs: seq<Input>, n: nat, windows: map<string, RateLimitWindow>,
                windows': map<string, RateLimitWindow>, now: Time, c: Counter)
    requires n <= |inputs| && Synced(cfg, inputs, n, windows, now, c)
    requires Key(c) in windows <==> Key(c) in windows'
    requires Key(c) in windows ==> windows[Key(c)] == windows'[Key(c)]
    ensures Synced(cfg, inputs, n, windows', now, c)
  {
    hide Opens, Tally, Key, Marks, Concerns, Lasts;
  }

  lemma WhatCounts(cfg: Config, inputs: seq<Input>, n: nat, c: Counter)
    requires n < |inputs|
    ensures Marks(cfg, inputs, c)[n].counted <==>
      && Concerns(cfg, c, inputs[n])
      && (c.OfNumber? ==> !UsedUp(cfg, inputs, n, OfAddress(c.purpose, inputs[n].ip)))
  {
    hide UsedUp, Concerns;
  }

  /** The limit check, in terms of counters. */
  lemma AdmitChecks(cfg: Config, w: World, input: Input)
    ensures
      var p := PurposeOf(input.request);
      if p.None? then Admit(cfg, w, input) == (w, true)
      else
        var a := OfAddress(p.value, input.ip);
        var (windows1, ok1) := Allow(w.windows, w.clock, Key(a), Rule(cfg, a));
        if !ok1 then Admit(cfg, w, input) == (w.(windows := windows1), false)
        else match Mobile.Normalize(input.request.mobile, cfg.wideDigits)
          case Err(_) => Admit(cfg, w, input) == (w.(windows := windows1), true)
          case Ok(m) =>
            var b := OfNumber(p.value, m);
            var (windows2, ok2) := Allow(windows1, w.clock, Key(b), Rule(cfg, b));
            Admit(cfg, w, input) == (w.(windows := windows2), ok2)
  {
    hide Allow, IPKey, MobileKey, Mobile.Normalize;
  }

  /** A counter of the address, through one request. */
  lemma AddressStep(cfg: Config, inputs: seq<Input>, n: nat, w: World, c: Counter)
    requires InOrder(inputs) && n < |inputs| && w.clock == inputs[n].at && c.OfAddress?
    requires Synced(cfg, inputs, n, w.windows, w.clock, c)
    ensures Synced(cfg, inputs, n + 1, Admit(cfg, w, inputs[n]).0.windows, w.clock, c)
  {
    hide Allow, Key, Mobile.Normalize, Synced, Rule, Admit, UsedUp, Marks;
    AdmitChecks(cfg, w, inputs[n]);
    WhatCounts(cfg, inputs, n, c);
    var p := PurposeOf(inputs[n].request);
    if p.None? {
      NotCounted(cfg, inputs, n, w.windows, w.windows, c);
    } else {
      var a := OfAddress(p.value, inputs[n].ip);
      var windows1 := Allow(w.windows, w.clock, Key(a), Rule(cfg, a)).0;
      if c == a {
        Checked(cfg, inputs, n, w.windows, c);
      } else {
        Unchecked(cfg, w.windows, w.clock, c, a);
        NotCounted(cfg, inputs, n, w.windows, windows1, c);
      }
      var f := Mobile.Normalize(inputs[n].request.mobile, cfg.wideDigits);
      if f.Ok? {
        var b := OfNumber(p.value, f.value);
        Unchecked(cfg, windows1, w.clock, c, b);
        Unmoved(cfg, inputs, n + 1, windows1, Allow(windows1, w.clock, Key(b), Rule(cfg, b)).0, w.clock, c);
      }
    }
  }

  /** A counter of a number, through one request. */
  lemma NumberStep(cfg: Config, inputs: seq<Input>, n: nat, w: World, c: Counter)
    requires InOrder(inputs) && n < |inputs| && w.clock == inputs[n].at && c.OfNumber?
    requires Synced(cfg, inputs, n, w.windows, w.clock, c)
    requires Synced(cfg, inputs, n, w.windows, w.clock, OfAddress(c.purpose, inputs[n].ip))
    ensures Synced(cfg, inputs, n + 1, Admit(cfg, w, inputs[n]).0.windows, w.clock, c)
    ensures Concerns(cfg, c, inputs[n]) ==> (Admit(cfg, w, inputs[n]).1 <==> !Limited(cfg, inputs, n))
  {
    hide Allow, Key, Mobile.Normalize, Synced, Rule, Admit, UsedUp, Marks;
    AdmitChecks(cfg, w, inputs[n]);
    WhatCounts(cfg, inputs, n, c);
    var p := PurposeOf(inputs[n].request);
    if p.None? {
      NotCounted(cfg, inputs, n, w.windows, w.windows, c);
    } else {
      var a := OfAddress(p.value, inputs[n].ip);
      var (windows1, ok1) := Allow(w.windows, w.clock, Key(a), Rule(cfg, a));
      WhatCounts(cfg, inputs, n, a);
      Unchecked(cfg, w.windows, w.clock, c, a);
      if Concerns(cfg, c, inputs[n]) {
        Checked(cfg, inputs, n, w.windows, a);
        if ok1 {
          Unmoved(cfg, inputs, n, w.windows, windows1, w.clock, c);
          Checked(cfg, inputs, n, windows1, c);
        } else {
          NotCounted(cfg, inputs, n, w.windows, windows1, c);
        }
      } else {
        NotCounted(cfg, inputs, n, w.windows, windows1, c);
        var f := Mobile.Normalize(inputs[n].request.mobile, cfg.wideDigits);
        if f.Ok? {
          var b := OfNumber(p.value, f.value);
          Unchecked(cfg, windows1, w.clock, c, b);
          Unmoved(cfg, inputs, n + 1, windows1, Allow(windows1, w.clock, Key(b), Rule(cfg, b)).0, w.clock, c);
        }
      }
    }
  }

  /** A request that concerns no number. */
  lemma NumberlessVerdict(cfg: Config, inputs: seq<Input>, n: nat, w: World)
    requires InOrder(inputs) && n < |inputs| && w.clock == inputs[n].at
    requires PurposeOf(inputs[n].request).Some? ==>
      && Mobile.Normalize(inputs[n].request.mobile, cfg.wideDigits).Err?
      && Synced(cfg, inputs, n, w.windows, w.clock, OfAddress(PurposeOf(inputs[n].request).value, inputs[n].ip))
    ensures Admit(cfg, w, inputs[n]).1 <==> !Limited(cfg, inputs, n)
  {
    hide Allow, Key, Mobile.Normalize, Synced, Rule, Admit, UsedUp, Marks;
    AdmitChecks(cfg, w, inputs[n]);
    var p := PurposeOf(inputs[n].request);
    if p.Some? {
      WhatCounts(cfg, inputs, n, OfAddress(p.value, inputs[n].ip));
      Checked(cfg, inputs, n, w.windows, OfAddress(p.value, inputs[n].ip));
    }
  }

  // ---- Runs ----

  /** Serving a request leaves the limiter alone. */
  lemma StepCounts(cfg: Config, run: Run, n: nat)
    requires IsRun(cfg, run) && n < |run.inputs| && cfg.Valid()
    ensures run.states[n].clock <= run.inputs[n].at && run.states[n + 1].clock == run.inputs[n].at
    ensures run.states[n + 1].windows == Admit(cfg, Tick(run.states[n], run.inputs[n].at), run.inputs[n]).0.windows
  {
    hide Inv, Grows, Admit, Step, Quiet, FirstSend, Resend, SignupVerified, LoginSend, LoginVerified;
    StepAt(cfg, run, n);
    StepEffect(cfg, run.states[n], run.inputs[n]);
  }

  lemma RunInOrder(cfg: Config, run: Run)
    requires IsRun(cfg, run) && cfg.Valid()
    ensures InOrder(run.inputs)
  {
    hide Inv, Step;
    forall i, j | 0 <= i < j < |run.inputs| ensures run.inputs[i].at <= run.inputs[j].at {
      StepCounts(cfg, run, i);
      StepCounts(cfg, run, j);
      RunGrows(cfg, run, i + 1, j);
    }
  }

  /** In every state of a run the limiter holds, on each key, the window in force. */
  lemma {:induction false} RunSynced(cfg: Config, run: Run, n: nat, c: Counter)
    requires IsRun(cfg, run) && n <= |run.inputs| && cfg.Valid()
    ensures Synced(cfg, run.inputs, n, run.states[n].windows, run.states[n].clock, c)
    decreases n, 0
  {
    hide Step, Admit, Agrees, Key, Marks, Rule;
    if n == 0 {
      assert run.states[0] == INITIAL;
      NothingCounted(Key(c), Rule(cfg, c).window, Marks(cfg, run.inputs, c), 1);
    } else {
      hide Synced;
      StepCounts(cfg, run, n - 1);
      RunInOrder(cfg, run);
      TickSynced(cfg, run, n - 1, c);
      var w := Tick(run.states[n - 1], run.inputs[n - 1].at);
      if c.OfAddress? {
        AddressStep(cfg, run.inputs, n - 1, w, c);
      } else {
        TickSynced(cfg, run, n - 1, OfAddress(c.purpose, run.inputs[n - 1].ip));
        NumberStep(cfg, run.inputs, n - 1, w, c);
      }
    }
  }

  lemma NothingCounted(key: string, length: Time, marks: seq<Mark>, now: Time)
    ensures Agrees(map[], key, length, marks, 0, now)
  {
  }

  /** The same when the next request comes, before it is counted. */
  lemma {:induction false} TickSynced(cfg: Config, run: Run, n: nat, c: Counter)
    requires IsRun(cfg, run) && n < |run.inputs| && cfg.Valid()
    ensures
      var at := run.inputs[n].at;
      Synced(cfg, run.inputs, n, Tick(run.states[n], at).windows, at, c)
    decreases n, 1
  {
    hide Step, Admit, Agrees, Key, Marks, Rule, LiveWindows;
    RunSynced(cfg, run, n, c);
    StepCounts(cfg, run, n);
    if Rule(cfg, c).Enabled() {
      Elapse(run.states[n].windows, Key(c), Rule(cfg, c).window, Marks(cfg, run.inputs, c), n, run.states[n].clock,
        run.inputs[n].at);
    }
  }

  lemma Admitted(cfg: Config, run: Run, i: nat)
    requires IsRun(cfg, run) && i < |run.inputs| && cfg.Valid()
    ensures
      var input := run.inputs[i];
      Admit(cfg, Tick(run.states[i], input.at), input).1 <==> !Limited(cfg, run.inputs, i)
  {
    hide Step, Admit, Synced, Limited, Mobile.Normalize;
    var input := run.inputs[i];
    var w := Tick(run.states[i], input.at);
    RunInOrder(cfg, run);
    if PurposeOf(input.request).Some? {
      var p := PurposeOf(input.request).value;
      TickSynced(cfg, run, i, OfAddress(p, input.ip));
      var f := Mobile.Normalize(input.request.mobile, cfg.wideDigits);
      if f.Ok? {
        TickSynced(cfg, run, i, OfNumber(p, f.value));
        NumberStep(cfg, run.inputs, i, w, OfNumber(p, f.value));
      } else {
        NumberlessVerdict(cfg, run.inputs, i, w);
      }
    } else {
      NumberlessVerdict(cfg, run.inputs, i, w);
    }
  }

  /** The service itself never gives the limiter's answer. */
  lemma NeverLimits(cfg: Config, w: World, r: Request, e: Entropy)
    ensures Serve(cfg, w, r, e).1 != Failed(OTPTooManyRequests)
  {
    hide Lookup, LookupUsername, Find, FindSSO, Update, Link, Mobile.Normalize, FindPending, Remember,
      Text.TrimSpace, Text.ToLower, LocalPart, Fallback;
  }

  /**
    A request is refused by the limiter exactly if the window of its address, or else that of its number, has
    counted as many requests as allowed when it comes.
    */
  lemma RefusedIff(cfg: Config, run: Run, i: nat)
    requires IsRun(cfg, run) && i < |run.inputs| && cfg.Valid()
    ensures run.replies[i] == Failed(OTPTooManyRequests) <==> Limited(cfg, run.inputs, i)
  {
    hide Inv, Grows, Serve, Admit, Limited, Tick;
    StepAt(cfg, run, i);
    Admitted(cfg, run, i);
    var input := run.inputs[i];
    NeverLimits(cfg, Admit(cfg, Tick(run.states[i], input.at), input).0, input.request, input.entropy);
  }

  /** How many of the first n requests that concern the counter were let through from lo to hi. */
  ghost function LetThrough(cfg: Config, run: Run, c: Counter, n: nat, lo: Time, hi: Time): nat
    requires run.Shaped() && n <= |run.inputs|
  {
    if n == 0 then 0
    else
      LetThrough(cfg, run, c, n - 1, lo, hi)
        + if && Concerns(cfg, c, run.inputs[n - 1]) && lo <= run.inputs[n - 1].at <= hi
             && run.replies[n - 1] != Failed(OTPTooManyRequests) then 1 else 0
  }

  lemma {:induction false} LetThroughAreAllowed(cfg: Config, run: Run, c: Counter, n: nat, lo: Time, hi: Time)
    requires IsRun(cfg, run) && n <= |run.inputs| && cfg.Valid()
    ensures
      LetThrough(cfg, run, c, n, lo, hi) <= AllowedIn(Marks(cfg, run.inputs, c), Rule(cfg, c), n, lo, hi)
  {
    hide Follows, Mobile.Normalize, Marks, Full;
    if n > 0 {
      LetThroughAreAllowed(cfg, run, c, n - 1, lo, hi);
      RefusedIff(cfg, run, n - 1);
      WhatCounts(cfg, run.inputs, n - 1, c);
    }
  }

  /**
    With its rule enabled, no counter lets through more than twice its limit in a closed interval of one
    window's length: of sends and of verifications alike, by address and by number.
    */
  lemma LetThroughAtMostTwice(cfg: Config, run: Run, c: Counter, n: nat, lo: Time)
    requires IsRun(cfg, run) && n <= |run.inputs| && cfg.Valid() && Rule(cfg, c).Enabled()
    ensures LetThrough(cfg, run, c, n, lo, lo + Rule(cfg, c).window) <= 2 * Rule(cfg, c).limit
  {
    hide Follows, Marks, AllowedIn, LetThrough, Rule;
    RunInOrder(cfg, run);
    LetThroughAreAllowed(cfg, run, c, n, lo, lo + Rule(cfg, c).window);
    TwoWindows(Marks(cfg, run.inputs, c), Rule(cfg, c), n, lo);
  }

  /** How many of the first n requests concern the counter and came at lo or later. */
  ghost function Since(cfg: Config, inputs: seq<Input>, c: Counter, n: nat, lo: Time): nat
    requires n <= |inputs|
  {
    if n == 0 then 0
    else
      Since(cfg, inputs, c, n - 1, lo) + if Concerns(cfg, c, inputs[n - 1]) && lo <= inputs[n - 1].at then 1 else 0
  }

  lemma {:induction false} TallyIsSince(cfg: Config, inputs: seq<Input>, c: Counter, o: nat, n: nat, lo: Time)
    requires InOrder(inputs) && o <= n <= |inputs| && (o < n ==> lo <= inputs[o].at)
    ensures Tally(Marks(cfg, inputs, c), o, n) <= Since(cfg, inputs, c, n, lo)
  {
    hide Marks, Concerns;
    if o < n {
      TallyIsSince(cfg, inputs, c, o, n - 1, lo);
      WhatCounts(cfg, inputs, n - 1, c);
    }
  }

  /**
    Nobody is refused without cause: a refused request finds that, within one window's length back from it, as
    many earlier requests as the rule allows came from its address, or else were about its number.
    */
  lemma RefusedAreCrowded(cfg: Config, run: Run, i: nat)
    requires IsRun(cfg, run) && i < |run.inputs| && cfg.Valid() && run.replies[i] == Failed(OTPTooManyRequests)
    ensures exists c ::
      && Concerns(cfg, c, run.inputs[i]) && Rule(cfg, c).Enabled()
      && Since(cfg, run.inputs, c, i, run.inputs[i].at - Rule(cfg, c).window) >= Rule(cfg, c).limit
  {
    hide Follows, Mobile.Normalize, Marks, Tally, Since;
    RefusedIff(cfg, run, i);
    RunInOrder(cfg, run);
    var input := run.inputs[i];
    var p := PurposeOf(input.request).value;
    var f := Mobile.Normalize(input.request.mobile, cfg.wideDigits);
    var a := OfAddress(p, input.ip);
    var c := if UsedUp(cfg, run.inputs, i, a) then a else OfNumber(p, f.value);
    var W := Rule(cfg, c).window;
    var o: nat :| Lasts(Marks(cfg, run.inputs, c), W, o, i, input.at)
      && Tally(Marks(cfg, run.inputs, c), o, i) >= Rule(cfg, c).limit;
    TallyIsSince(cfg, run.inputs, c, o, i, input.at - W);
    assert Concerns(cfg, c, input);
  }

  // ---- Messages ----

  /** When the message is a code sent to the number, for signup or for login. */
  function SendTime(msg: Message, m: string): Option<Time> {
    match msg
    case SignupSent(n, at, _) => if n == m then Some(at) else None
    case LoginSent(n, at) => if n == m then Some(at) else None
    case _ => None
  }

  /** The number of codes sent to m from lo to hi, both included. */
  ghost function Sends(log: seq<Message>, m: string, lo: Time, hi: Time): nat {
    if log == [] then 0
    else
      var t := SendTime(log[|log| - 1], m);
      Sends(log[..|log| - 1], m, lo, hi) + if t.Some? && lo <= t.value <= hi then 1 else 0
  }

  ghost predicate Silent(more: seq<Message>, m: string) {
    |more| <= 2 && forall i :: 0 <= i < |more| ==> SendTime(more[i], m).None?
  }

  lemma SendsAppend(log: seq<Message>, msg: Message, m: string, lo: Time, hi: Time)
    ensures
      var t := SendTime(msg, m);
      Sends(log + [msg], m, lo, hi) == Sends(log, m, lo, hi) + if t.Some? && lo <= t.value <= hi then 1 else 0
  {
    assert (log + [msg])[..|log|] == log;
  }

  lemma {:induction false} SilentSends(log: seq<Message>, more: seq<Message>, m: string, lo: Time, hi: Time)
    requires Silent(more, m)
    ensures Sends(log + more, m, lo, hi) == Sends(log, m, lo, hi)
  {
    if more == [] {
      assert log + more == log;
    } else {
      var n := |more| - 1;
      assert log + more == log + more[..n] + [more[n]];
      SilentSends(log, more[..n], m, lo, hi);
      SendsAppend(log + more[..n], more[n], m, lo, hi);
    }
  }

  predicate Sender(r: Request) { PurposeOf(r) == Some(Sending) }

  /** What a request that does not send to m appends to the log. */
  lemma Appended(cfg: Config, a: World, b: World, r: Request, m: string) returns (more: seq<Message>)
    requires Effect(cfg, a, b, r) && (!Sender(r) || Number(cfg, r) != m || Quiet(a, b))
    ensures Silent(more, m) && b.messages == a.messages + more
  {
    more := b.messages[|a.messages|..];
    if Quiet(a, b) {
      assert a.messages + more == b.messages;
    } else if r.VerifySignup? && b.messages != a.messages + [SignupApproved(Number(cfg, r), a.clock)] {
      var u :| b.messages == a.messages + [SignupApproved(Number(cfg, r), a.clock), Registered(u, a.clock)];
    }
  }

  /** A sender that had an effect appended exactly one message: a code to its number, now. */
  lemma SenderSends(cfg: Config, a: World, b: World, r: Request)
    requires Effect(cfg, a, b, r) && Sender(r) && !Quiet(a, b)
    ensures Number(cfg, r) != ""
    ensures exists msg :: b.messages == a.messages + [msg] && SendTime(msg, Number(cfg, r)) == Some(a.clock)
  {
    hide Number;
    var m := Number(cfg, r);
    if r.RequestSignup? { assert SendTime(SignupSent(m, a.clock, true), m) == Some(a.clock); }
    if r.ResendSignup? { assert SendTime(SignupSent(m, a.clock, false), m) == Some(a.clock); }
    if r.RequestLogin? { assert SendTime(LoginSent(m, a.clock), m) == Some(a.clock); }
  }

  /** A step sends to m at most once, and then because of a request about m that was let through. */
  lemma StepSends(cfg: Config, run: Run, i: nat, m: string, lo: Time, hi: Time)
    requires IsRun(cfg, run) && i < |run.inputs| && cfg.Valid() && m != ""
    ensures
      var before, after := Sends(run.states[i].messages, m, lo, hi), Sends(run.states[i + 1].messages, m, lo, hi);
      || after == before
      || (after == before + 1 && lo <= run.inputs[i].at <= hi && run.replies[i] != Failed(OTPTooManyRequests)
          && Concerns(cfg, OfNumber(Sending, m), run.inputs[i]))
  {
    hide Inv, Grows, Admit, Step, Effect, Limited, LiveCache, LiveLogins, LiveSessions, LiveWindows, LivePending,
      Mobile.Normalize, Sends, Quiet;
    StepAt(cfg, run, i);
    StepEffect(cfg, run.states[i], run.inputs[i]);
    RefusedIff(cfg, run, i);
    Admitted(cfg, run, i);
    var input, w' := run.inputs[i], run.states[i + 1];
    var (w1, ok) := Admit(cfg, Tick(run.states[i], input.at), input);
    if ok {
      if Sender(input.request) && Number(cfg, input.request) == m && !Quiet(w1, w') {
        SenderSends(cfg, w1, w', input.request);
        var msg :| w'.messages == w1.messages + [msg] && SendTime(msg, m) == Some(w1.clock);
        SendsAppend(w1.messages, msg, m, lo, hi);
      } else {
        var more := Appended(cfg, w1, w', input.request, m);
        SilentSends(w1.messages, more, m, lo, hi);
      }
    }
  }

  lemma {:induction false} SendsWereLetThrough(cfg: Config, run: Run, n: nat, m: string, lo: Time, hi: Time)
    requires IsRun(cfg, run) && n <= |run.inputs| && cfg.Valid() && m != ""
    ensures Sends(run.states[n].messages, m, lo, hi) <= LetThrough(cfg, run, OfNumber(Sending, m), n, lo, hi)
  {
    hide Step, Concerns;
    if n == 0 {
      assert run.states[0] == INITIAL;
    } else {
      hide Follows, Sends;
      SendsWereLetThrough(cfg, run, n - 1, m, lo, hi);
      StepSends(cfg, run, n - 1, m, lo, hi);
    }
  }

  /**
    With the rule for mobiles enabled, no number gets more than twice the limit of OTP messages
    within any interval of the window's length, over signup requests, resends and login requests together.
    */
  lemma AtMostTwiceTheLimit(cfg: Config, run: Run, n: nat, m: string, a: Time)
    requires IsRun(cfg, run) && n <= |run.inputs| && cfg.Valid() && cfg.requestMobile.Enabled() && m != ""
    ensures Sends(run.states[n].messages, m, a, a + cfg.requestMobile.window) <= 2 * cfg.requestMobile.limit
  {
    hide Follows, LetThrough, Sends;
    SendsWereLetThrough(cfg, run, n, m, a, a + cfg.requestMobile.window);
    LetThroughAtMostTwice(cfg, run, OfNumber(Sending, m), n, a);
  }
}
