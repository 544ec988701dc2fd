/**
  The user, password and SSO tables (dbase/userdao/postgres.go). Rows are never deleted and
  ids are handed out in order, so the row with id n is at index n - 1.
  */
module Tables {
  import opened Auth

  datatype SSORow = SSORow(userID: nat, provider: string, providerID: string)

  datatype UserTables = UserTables(users: seq<User>, passwords: map<nat, string>, sso: seq<SSORow>)

  const EMPTY := UserTables([], map[], [])

  datatype Column = ByUsername | ByEmail | ByMobile

  function Cell(u: User, col: Column): string {
    match col case ByUsername => u.username case ByEmail => u.email case ByMobile => u.mobile
  }

  /** Equality of SQL: a NULL mobile, stored here as "", equals nothing. */
  predicate Holds(u: User, col: Column, key: string) {
    Cell(u, col) == key && !(col.ByMobile? && key == "")
  }

  /** SELECT ... WHERE col = key ORDER BY id LIMIT 1. */
  function Find(users: seq<User>, col: Column, key: string): (r: Option<User>)
    ensures r.Some? ==> r.value in users && Holds(r.value, col, key)
    ensures r.None? ==> forall u :: u in users ==> !Holds(u, col, key)
  {
    if users == [] then None
    else if Holds(users[0], col, key) then Some(users[0])
    else Find(users[1..], col, key)
  }

  function ByID(users: seq<User>, id: nat): Option<User> {
    if 1 <= id <= |users| then Some(users[id - 1]) else None
  }

  predicate Clash(a: User, b: User) {
    a.username == b.username || a.email == b.email || (a.mobile != "" && a.mobile == b.mobile)
  }

  /** RegisterUser: one transaction, refused by a unique index; the error names the first clash found. */
  function Register(t: UserTables, user: User, hash: string): Result<(UserTables, User)> {
    if Find(t.users, ByUsername, user.username).Some? then Err(UsernameAlreadyExists)
    else if Find(t.users, ByEmail, user.email).Some? then Err(EmailAlreadyExists)
    else if Find(t.users, ByMobile, user.mobile).Some? then Err(MobileAlreadyExists)
    else
      var row := user.(id := |t.users| + 1);
      Ok((t.(users := t.users + [row],
             passwords := if hash == "" then t.passwords else t.passwords[row.id := hash]), row))
  }

  /** UpdateUser: no effect on an unknown id; refused when another row holds a unique value. */
  function Update(t: UserTables, user: User): Option<UserTables> {
    if ByID(t.users, user.id).None? then Some(t)
    else if exists j :: 0 <= j < |t.users| && j != user.id - 1 && Clash(user, t.users[j]) then None
    else Some(t.(users := t.users[user.id - 1 := user]))
  }

  /** GetSSOAccount: the first row of the identity, if its user exists. */
  function FindSSO(t: UserTables, provider: string, identity: string): Option<User> {
    match FirstRow(t.sso, provider, identity)
    case None => None
    case Some(row) => ByID(t.users, row.userID)
  }

  function FirstRow(sso: seq<SSORow>, provider: string, identity: string): (r: Option<SSORow>)
    ensures r.Some? ==> r.value in sso && r.value.provider == provider && r.value.providerID == identity
    ensures r.None? ==> forall row :: row in sso ==> !(row.provider == provider && row.providerID == identity)
  {
    if sso == [] then None
    else if sso[0].provider == provider && sso[0].providerID == identity then Some(sso[0])
    else FirstRow(sso[1..], provider, identity)
  }

  /** LinkSSOAccount. */
  function Link(t: UserTables, userID: nat, provider: string, identity: string): UserTables {
    t.(sso := t.sso + [SSORow(userID, provider, identity)])
  }

  /** CreateSSOUser: the user and its SSO row in one transaction. */
  function CreateSSOUser(t: UserTables, user: User, provider: string, identity: string): Result<(UserTables, User)> {
    match Register(t, user, "")
    case Err(_) => Err(DuplicateKey)
    case Ok((t', row)) => Ok((Link(t', row.id, provider, identity), row))
  }

  // ---- What the unique indexes keep ----

  /** Ids follow positions and no two rows share a username, an email or a mobile. */
  ghost predicate Unique(users: seq<User>) {
    && (forall i :: 0 <= i < |users| ==> users[i].id == i + 1)
    && (forall i, j :: 0 <= i < j < |users| ==> !Clash(users[i], users[j]))
  }

  /** With unique columns a row is found by any of its values. */
  lemma FindUnique(users: seq<User>, col: Column, u: User)
    requires Unique(users) && u in users && Holds(u, col, Cell(u, col))
    ensures Find(users, col, Cell(u, col)) == Some(u)
  {
    var r := Find(users, col, Cell(u, col));
    assert r.Some?;
    var i :| 0 <= i < |users| && users[i] == u;
    var j :| 0 <= j < |users| && users[j] == r.value;
    assert Clash(users[i], users[j]) && Clash(users[j], users[i]);
  }

  lemma RegisterKeepsUnique(t: UserTables, user: User, hash: string)
    requires Unique(t.users)
    ensures Register(t, user, hash).Ok? ==>
      var (t', row) := Register(t, user, hash).value;
      Unique(t'.users) && t'.users == t.users + [row] && row == user.(id := |t.users| + 1) && t'.sso == t.sso
      && t'.passwords == if hash == "" then t.passwords else t.passwords[row.id := hash]
    ensures Register(t, user, hash).Ok? <==> forall u :: u in t.users ==> !Clash(u, user)
  {
    if Register(t, user, hash).Ok? {
      var (t', row) := Register(t, user, hash).value;
      forall u | u in t.users ensures !Clash(u, user) {
        assert !Holds(u, ByUsername, user.username) && !Holds(u, ByEmail, user.email)
          && !Holds(u, ByMobile, user.mobile);
      }
      forall i, j | 0 <= i < j < |t'.users| ensures !Clash(t'.users[i], t'.users[j]) {
        if j == |t.users| { assert t'.users[i] in t.users; }
      }
    }
  }

  lemma UpdateKeepsUnique(t: UserTables, user: User)
    requires Unique(t.users)
    ensures Update(t, user).Some? ==> Unique(Update(t, user).value.users)
    ensures Update(t, user).Some? <==>
      (1 <= user.id <= |t.users| ==> forall u :: u in t.users && u.id != user.id ==> !Clash(user, u))
  {
    if 1 <= user.id <= |t.users| {
      if Update(t, user).Some? {
        forall u | u in t.users && u.id != user.id ensures !Clash(user, u) {
          var j :| 0 <= j < |t.users| && t.users[j] == u;
        }
        var users := Update(t, user).value.users;
        forall i, j | 0 <= i < j < |users| ensures !Clash(users[i], users[j]) {
          if i != user.id - 1 && j != user.id - 1 { assert !Clash(t.users[i], t.users[j]); }
        }
      } else {
        var j :| 0 <= j < |t.users| && j != user.id - 1 && Clash(user, t.users[j]);
        assert t.users[j] in t.users && t.users[j].id != user.id;
      }
    }
  }
}
