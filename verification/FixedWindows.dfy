/**
  Fixed windows over a sequence of events, told without a limiter: which events open a window, and when
  a window is full (auth/ratelimit.go, cache/memory/stores.go).
  */
module FixedWindows {
  import opened Auth

  /** An event, and whether it is one to be counted. */
  datatype Mark = Mark(at: Time, counted: bool)

  ghost predicate Ordered(marks: seq<Mark>) {
    forall i, j :: 0 <= i < j < |marks| ==> marks[i].at <= marks[j].at
  }

  /** The number of counted events from the o-th up to, but not including, the k-th. */
  function Tally(marks: seq<Mark>, o: nat, k: nat): nat
    requires o <= k <= |marks|
  {
    if o == k then 0 else Tally(marks, o, k - 1) + if marks[k - 1].counted then 1 else 0
  }

  /** A counted event opens a window unless one that was opened before still lasts. */
  ghost predicate Opens(marks: seq<Mark>, length: Time, o: nat)
    requires o < |marks|
  {
    marks[o].counted && forall p :: 0 <= p < o && Opens(marks, length, p) ==> marks[p].at + length < marks[o].at
  }

  /** The window opened by the o-th event is the one in force at a time after the first k events. */
  ghost predicate Lasts(marks: seq<Mark>, length: Time, o: nat, k: nat, now: Time)
    requires k <= |marks|
  {
    o < k && Opens(marks, length, o) && now <= marks[o].at + length
  }

  /** The window in force has counted as many events as the rule allows. */
  ghost predicate Full(marks: seq<Mark>, rule: RateLimitRule, k: nat, now: Time)
    requires k <= |marks|
  {
    rule.Enabled() && exists o :: Lasts(marks, rule.window, o, k, now) && Tally(marks, o, k) >= rule.limit
  }

  /** The event is counted and finds no full window. */
  ghost predicate Allowed(marks: seq<Mark>, rule: RateLimitRule, k: nat)
    requires k < |marks|
  {
    marks[k].counted && !Full(marks, rule, k, marks[k].at)
  }

  /** How many of the first n events are allowed from lo to hi, both included. */
  ghost function AllowedIn(marks: seq<Mark>, rule: RateLimitRule, n: nat, lo: Time, hi: Time): nat
    requires n <= |marks|
  {
    if n == 0 then 0
    else
      AllowedIn(marks, rule, n - 1, lo, hi)
        + if Allowed(marks, rule, n - 1) && lo <= marks[n - 1].at <= hi then 1 else 0
  }

  /** At most one window is in force at a time. */
  lemma OneLasts(marks: seq<Mark>, length: Time, o: nat, p: nat, k: nat, now: Time)
    requires k <= |marks| && Lasts(marks, length, o, k, now) && Lasts(marks, length, p, k, now)
    requires forall i :: 0 <= i < k ==> marks[i].at <= now
    ensures o == p
  {
  }

  /** Every counted event falls into the window of an event not after it. */
  lemma OpenerOf(marks: seq<Mark>, length: Time, k: nat) returns (o: nat)
    requires k < |marks| && marks[k].counted && length > 0
    ensures o <= k && Opens(marks, length, o) && marks[k].at <= marks[o].at + length
  {
    if Opens(marks, length, k) {
      o := k;
    } else {
      o :| 0 <= o < k && Opens(marks, length, o) && marks[k].at <= marks[o].at + length;
    }
  }

  /** No window allows more events than its limit. */
  lemma {:induction false} OneWindow(marks: seq<Mark>, rule: RateLimitRule, o: nat, n: nat, lo: Time, hi: Time)
    requires Ordered(marks) && rule.Enabled() && o < n <= |marks| && Opens(marks, rule.window, o)
    requires marks[n - 1].at <= marks[o].at + rule.window
    ensures AllowedIn(marks, rule, n, lo, hi) <= AllowedIn(marks, rule, o, lo, hi) + Tally(marks, o, n)
    ensures AllowedIn(marks, rule, n, lo, hi) <= AllowedIn(marks, rule, o, lo, hi) + rule.limit
  {
    if n - 1 > o {
      OneWindow(marks, rule, o, n - 1, lo, hi);
      if Allowed(marks, rule, n - 1) {
        assert Lasts(marks, rule.window, o, n - 1, marks[n - 1].at);
      }
    }
  }

  /** Nothing is allowed in an interval that starts after everything so far. */
  lemma {:induction false} NoneBefore(marks: seq<Mark>, rule: RateLimitRule, n: nat, lo: Time, hi: Time)
    requires n <= |marks| && forall k :: 0 <= k < n && marks[k].counted ==> marks[k].at < lo
    ensures AllowedIn(marks, rule, n, lo, hi) == 0
  {
    if n > 0 { NoneBefore(marks, rule, n - 1, lo, hi); }
  }

  /** Of the events before a window, an interval that reaches into it meets only those of the window before. */
  lemma {:induction false} WindowBefore(marks: seq<Mark>, rule: RateLimitRule, o: nat, n: nat, lo: Time, hi: Time)
    requires Ordered(marks) && rule.Enabled() && n <= o < |marks| && Opens(marks, rule.window, o)
    requires marks[o].at <= lo + rule.window
    ensures AllowedIn(marks, rule, n, lo, hi) <= rule.limit
  {
    if n > 0 {
      if marks[n - 1].counted {
        var p := OpenerOf(marks, rule.window, n - 1);
        OneWindow(marks, rule, p, n, lo, hi);
        forall k | 0 <= k < p && marks[k].counted ensures marks[k].at < lo {
          var q := OpenerOf(marks, rule.window, k);
          assert marks[q].at + rule.window < marks[p].at && marks[p].at + rule.window < marks[o].at;
        }
        NoneBefore(marks, rule, p, lo, hi);
      } else {
        WindowBefore(marks, rule, o, n - 1, lo, hi);
      }
    }
  }

  /** A closed interval of one window's length meets at most two windows, so at most twice the limit. */
  lemma {:induction false} TwoWindows(marks: seq<Mark>, rule: RateLimitRule, n: nat, lo: Time)
    requires Ordered(marks) && rule.Enabled() && n <= |marks|
    ensures AllowedIn(marks, rule, n, lo, lo + rule.window) <= 2 * rule.limit
  {
    if n > 0 {
      if marks[n - 1].counted && marks[n - 1].at <= lo + rule.window {
        var o := OpenerOf(marks, rule.window, n - 1);
        OneWindow(marks, rule, o, n, lo, lo + rule.window);
        WindowBefore(marks, rule, o, o, lo, lo + rule.window);
      } else {
        TwoWindows(marks, rule, n - 1, lo);
      }
    }
  }
}
