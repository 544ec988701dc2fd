/**
  The in-memory pending-signup store as a value: a primary map with three reverse indexes and
  lazy expiry (cache/memory/stores.go). The class in MemoryStores.dfy computes these functions
  in place; here is what they keep.
  */
module PendingIndex {
  import opened Auth
  import opened Machine
  import opened Tables
  import opened Invariants

  datatype Index = Index(
    signups: map<string, PendingSignup>,
    byUsername: map<string, string>,
    byEmail: map<string, string>,
    byMobile: map<string, string>)

  const EMPTY_INDEX := Index(map[], map[], map[], map[])

  /** deleteLocked: the record and the index entries of its own values. */
  function Delete(s: Index, mobile: string): Index {
    if mobile !in s.signups then s
    else
      var p := s.signups[mobile];
      Index(s.signups - {mobile}, s.byUsername - {p.username}, s.byEmail - {p.email}, s.byMobile - {p.mobile})
  }

  /** The store without the record that a save under this mobile replaces. */
  function Room(s: Index, mobile: string): Index {
    if mobile in s.signups then Delete(s, s.signups[mobile].mobile) else s
  }

  /** Save; a signup that has expired, to the instant, is refused. */
  function Save(s: Index, now: Time, p: PendingSignup): (Index, Option<Error>) {
    if p.expiresAt - now <= 0 then (s, Some(PendingSignupExpired))
    else
      var s1 := Room(s, p.mobile);
      (Index(s1.signups[p.mobile := p], s1.byUsername[p.username := p.mobile],
             s1.byEmail[p.email := p.mobile], s1.byMobile[p.mobile := p.mobile]), None)
  }

  /** getByMobileLocked: an expired record is deleted on sight. */
  function Get(s: Index, now: Time, mobile: string): (Index, Option<PendingSignup>) {
    if mobile !in s.signups then (s, None)
    else if now > s.signups[mobile].expiresAt then (Delete(s, mobile), None)
    else (s, Some(s.signups[mobile]))
  }

  function IndexOf(s: Index, col: Column): map<string, string> {
    match col case ByUsername => s.byUsername case ByEmail => s.byEmail case ByMobile => s.byMobile
  }

  /** getIndexLocked. */
  function LookupIndex(s: Index, now: Time, col: Column, key: string): (Index, Option<string>) {
    if key !in IndexOf(s, col) then (s, None)
    else
      var mobile := IndexOf(s, col)[key];
      var (s', found) := Get(s, now, mobile);
      (s', if found.Some? then Some(mobile) else None)
  }

  // ---- Any calls in any order ----

  function PendingCell(p: PendingSignup, col: Column): string {
    match col case ByUsername => p.username case ByEmail => p.email case ByMobile => p.mobile
  }

  /** Every entry of an index leads to a record with its key. */
  ghost predicate Points(index: map<string, string>, signups: map<string, PendingSignup>, col: Column) {
    forall k :: k in index ==> index[k] in signups && PendingCell(signups[index[k]], col) == k
  }

  /** Every record is found under its own value. */
  ghost predicate Covers(index: map<string, string>, signups: map<string, PendingSignup>, col: Column) {
    forall m :: m in signups ==> PendingCell(signups[m], col) in index && index[PendingCell(signups[m], col)] == m
  }

  ghost predicate Keyed(signups: map<string, PendingSignup>) {
    forall m :: m in signups ==> signups[m].mobile == m
  }

  /** No index entry dangles or points to a record with another key. */
  ghost predicate NoDangling(s: Index) {
    && Keyed(s.signups)
    && Points(s.byUsername, s.signups, ByUsername)
    && Points(s.byEmail, s.signups, ByEmail)
    && Points(s.byMobile, s.signups, ByMobile)
  }

  /** The indexes are exact inverses of the primary map. */
  ghost predicate Exact(s: Index) {
    && NoDangling(s)
    && Covers(s.byUsername, s.signups, ByUsername)
    && Covers(s.byEmail, s.signups, ByEmail)
    && Covers(s.byMobile, s.signups, ByMobile)
  }

  /** Removing a record and the entry of its value, in one index. */
  lemma Removed(index: map<string, string>, signups: map<string, PendingSignup>, col: Column, m: string)
    requires m in signups && Points(index, signups, col)
    ensures Points(index - {PendingCell(signups[m], col)}, signups - {m}, col)
    ensures Covers(index, signups, col) ==> Covers(index - {PendingCell(signups[m], col)}, signups - {m}, col)
  {
    var key := PendingCell(signups[m], col);
    forall k | k in index - {key} ensures index[k] in signups - {m} {
      assert PendingCell(signups[index[k]], col) == k;
    }
    if Covers(index, signups, col) {
      forall n | n in signups - {m} ensures PendingCell(signups[n], col) != key {
        assert index[PendingCell(signups[n], col)] == n;
      }
    }
  }

  /** Adding a record under a free mobile, in one index. */
  lemma Added(index: map<string, string>, signups: map<string, PendingSignup>, col: Column, p: PendingSignup)
    requires p.mobile !in signups && Points(index, signups, col)
    ensures Points(index[PendingCell(p, col) := p.mobile], signups[p.mobile := p], col)
    ensures Covers(index, signups, col) ==>
      (Covers(index[PendingCell(p, col) := p.mobile], signups[p.mobile := p], col) <==>
       forall m :: m in signups ==> PendingCell(signups[m], col) != PendingCell(p, col))
  {
    var key := PendingCell(p, col);
    var index', signups' := index[key := p.mobile], signups[p.mobile := p];
    if Covers(index, signups, col) && Covers(index', signups', col) {
      forall m | m in signups ensures PendingCell(signups[m], col) != key {
        assert m in signups' && signups'[m] == signups[m] && index'[PendingCell(signups'[m], col)] == m;
      }
    }
  }

  lemma DeleteKeeps(s: Index, mobile: string)
    requires NoDangling(s)
    ensures NoDangling(Delete(s, mobile))
    ensures Exact(s) ==> Exact(Delete(s, mobile))
    ensures Delete(s, mobile).signups == s.signups - {mobile}
  {
    hide Points, Covers;
    if mobile in s.signups {
      Removed(s.byUsername, s.signups, ByUsername, mobile);
      Removed(s.byEmail, s.signups, ByEmail, mobile);
      Removed(s.byMobile, s.signups, ByMobile, mobile);
    }
  }

  lemma SaveKeeps(s: Index, now: Time, p: PendingSignup)
    requires NoDangling(s)
    ensures NoDangling(Save(s, now, p).0)
  {
    hide Points, Covers, Delete;
    if p.expiresAt - now > 0 {
      DeleteKeeps(s, p.mobile);
      var s1 := Room(s, p.mobile);
      Added(s1.byUsername, s1.signups, ByUsername, p);
      Added(s1.byEmail, s1.signups, ByEmail, p);
      Added(s1.byMobile, s1.signups, ByMobile, p);
    }
  }

  lemma GetKeeps(s: Index, now: Time, mobile: string)
    requires NoDangling(s)
    ensures NoDangling(Get(s, now, mobile).0)
    ensures Exact(s) ==> Exact(Get(s, now, mobile).0)
    ensures Get(s, now, mobile).0.signups.Keys <= s.signups.Keys
    ensures forall m :: m in Get(s, now, mobile).0.signups ==> Get(s, now, mobile).0.signups[m] == s.signups[m]
  {
    DeleteKeeps(s, mobile);
  }

  lemma LookupKeepsIndex(s: Index, now: Time, col: Column, key: string)
    requires NoDangling(s)
    ensures NoDangling(LookupIndex(s, now, col, key).0)
    ensures Exact(s) ==> Exact(LookupIndex(s, now, col, key).0)
  {
    hide NoDangling, Exact, Get;
    if key in IndexOf(s, col) { GetKeeps(s, now, IndexOf(s, col)[key]); }
  }

  /** No record of another mobile has the username or the email. */
  ghost predicate Unclaimed(s: Index, p: PendingSignup) {
    forall m :: m in s.signups && m != p.mobile ==> s.signups[m].username != p.username && s.signups[m].email != p.email
  }

  /**
    A save keeps the indexes exact if and only if no other record, expired or not, claims the
    username or the email.
    */
  lemma SaveExactIff(s: Index, now: Time, p: PendingSignup)
    requires Exact(s) && now < p.expiresAt
    ensures Exact(Save(s, now, p).0) <==> Unclaimed(s, p)
  {
    hide Points, Covers, Delete;
    DeleteKeeps(s, p.mobile);
    var s1 := Room(s, p.mobile);
    Added(s1.byUsername, s1.signups, ByUsername, p);
    Added(s1.byEmail, s1.signups, ByEmail, p);
    Added(s1.byMobile, s1.signups, ByMobile, p);
    assert forall m :: m in s1.signups <==> m in s.signups && m != p.mobile;
    assert forall m :: m in s1.signups ==> s1.signups[m] == s.signups[m] && s1.signups[m].mobile == m;
    if !Unclaimed(s, p) {
      var m :| m in s.signups && m != p.mobile
        && (s.signups[m].username == p.username || s.signups[m].email == p.email);
      assert m in s1.signups;
    }
  }

  // ---- Exact indexes answer as the set of live records does ----

  lemma GetIsLive(s: Index, now: Time, mobile: string)
    requires NoDangling(s)
    ensures LivePending(Get(s, now, mobile).0.signups, now) == LivePending(s.signups, now)
    ensures
      var live := LivePending(s.signups, now);
      Get(s, now, mobile).1 == if mobile in live then Some(live[mobile]) else None
  {
    DeleteKeeps(s, mobile);
  }

  /**
    A lookup hits exactly when a live record has the key, and then names that record; a miss leaves
    no record with it.
    */
  lemma LookupIsLive(s: Index, now: Time, col: Column, key: string)
    requires Exact(s)
    ensures
      var (s', r) := LookupIndex(s, now, col, key);
      && Exact(s') && LivePending(s'.signups, now) == LivePending(s.signups, now)
      && (r.Some? ==> r.value in LivePending(s.signups, now) && PendingCell(s.signups[r.value], col) == key)
      && (r.None? ==> forall m :: m in s'.signups ==> PendingCell(s'.signups[m], col) != key)
      && s'.signups.Keys <= s.signups.Keys
      && (forall m :: m in s'.signups ==> s'.signups[m] == s.signups[m])
  {
    hide Delete, Exact, NoDangling;
    ExactIsSound(s);
    LookupKeepsIndex(s, now, col, key);
    if key in IndexOf(s, col) {
      var m := IndexOf(s, col)[key];
      GetIsLive(s, now, m);
      GetKeeps(s, now, m);
      OneColumn(s, col);
      OneColumn(LookupIndex(s, now, col, key).0, col);
      if Get(s, now, m).1.None? { Gone(s, now, m); }
    } else {
      OneColumn(s, col);
    }
  }

  lemma ExactIsSound(s: Index)
    requires Exact(s)
    ensures NoDangling(s)
  {
  }

  lemma OneColumn(s: Index, col: Column)
    requires Exact(s)
    ensures Points(IndexOf(s, col), s.signups, col) && Covers(IndexOf(s, col), s.signups, col)
  {
  }

  lemma Gone(s: Index, now: Time, m: string)
    requires Exact(s) && Get(s, now, m).1.None?
    ensures m !in Get(s, now, m).0.signups
  {
  }

  lemma DeleteIsLive(s: Index, now: Time, mobile: string)
    requires NoDangling(s)
    ensures LivePending(Delete(s, mobile).signups, now) == LivePending(s.signups, now) - {mobile}
  {
  }

  lemma SaveIsLive(s: Index, now: Time, p: PendingSignup)
    requires NoDangling(s) && now < p.expiresAt
    ensures LivePending(Save(s, now, p).0.signups, now) == LivePending(s.signups, now)[p.mobile := p]
  {
    DeleteKeeps(s, p.mobile);
  }
}
