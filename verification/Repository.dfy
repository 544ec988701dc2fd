/**
  The user repository and the read-through cache in front of it (dbase/userdao/postgres.go,
  auth/cached_repository.go).
  */
module Repository {
  import opened Auth
  import opened Tables
  import opened Machine
  import R = RedisStores

  /** Each method is one transaction over the tables. */
  class PostgresRepository {
    var users: seq<User>
    var passwords: map<nat, string>
    var sso: seq<SSORow>

    constructor ()
      ensures Contents() == EMPTY
    {
      users, passwords, sso := [], map[], [];
    }

    ghost function Contents(): UserTables
      reads this
    {
      UserTables(users, passwords, sso)
    }

    method FindUser(col: Column, key: string) returns (r: Option<User>)
      ensures r == Find(users, col, key)
    {
      r := Find(users, col, key);
    }

    method GetUserByID(id: nat) returns (r: Option<User>)
      ensures r == ByID(users, id)
    {
      r := ByID(users, id);
    }

    /**
      The code inserts first and, when that fails, asks for the three values in this order; served as
      one atomic call that comes to the same as asking first.
      */
    method RegisterUser(user: User, hash: string) returns (r: Result<User>)
      modifies this
      ensures
        match Register(old(Contents()), user, hash)
        case Err(e) => r == Err(e) && Contents() == old(Contents())
        case Ok((t, row)) => r == Ok(row) && Contents() == t
    {
      var byName := FindUser(ByUsername, user.username);
      if byName.Some? { return Err(UsernameAlreadyExists); }
      var byEmail := FindUser(ByEmail, user.email);
      if byEmail.Some? { return Err(EmailAlreadyExists); }
      var byMobile := FindUser(ByMobile, user.mobile);
      if byMobile.Some? { return Err(MobileAlreadyExists); }
      var row := user.(id := |users| + 1);
      users := users + [row];
      if hash != "" {
        passwords := passwords[row.id := hash];
      }
      return Ok(row);
    }

    method UpdateUser(user: User) returns (err: Option<Error>)
      modifies this
      ensures
        match Update(old(Contents()), user)
        case None => err == Some(DuplicateKey) && Contents() == old(Contents())
        case Some(t) => err == None && Contents() == t
    {
      if user.id < 1 || user.id > |users| {
        return None;
      }
      if exists j :: 0 <= j < |users| && j != user.id - 1 && Clash(user, users[j]) {
        return Some(DuplicateKey);
      }
      users := users[user.id - 1 := user];
      return None;
    }

    method GetSSOAccount(provider: string, identity: string) returns (r: Option<User>)
      ensures r == FindSSO(Contents(), provider, identity)
    {
      var row := FirstRow(sso, provider, identity);
      if row.None? {
        return None;
      }
      r := GetUserByID(row.value.userID);
    }

    method CreateSSOUser(user: User, provider: string, identity: string) returns (r: Result<User>)
      modifies this
      ensures
        match Tables.CreateSSOUser(old(Contents()), user, provider, identity)
        case Err(e) => r == Err(e) && Contents() == old(Contents())
        case Ok((t, row)) => r == Ok(row) && Contents() == t
    {
      var made := RegisterUser(user, "");
      if made.Err? {
        return Err(DuplicateKey);
      }
      sso := sso + [SSORow(made.value.id, provider, identity)];
      return made;
    }

    method LinkSSOAccount(userID: nat, provider: string, identity: string)
      modifies this
      ensures Contents() == Link(old(Contents()), userID, provider, identity)
    {
      sso := sso + [SSORow(userID, provider, identity)];
    }
  }

  /** The repository the service sees; the cache may be absent. */
  class CachedUserRepository {
    const store: PostgresRepository
    const cache: R.UserCache?

    constructor (ttl: Option<Time>)
      ensures fresh(store) && store.Contents() == EMPTY
      ensures if ttl.Some? then cache != null && fresh(cache) && cache.ttl == ttl.value && cache.keys == map[]
        else cache == null
      ensures forall now :: Cached(now) == map[]
    {
      store := new PostgresRepository();
      if ttl.Some? {
        cache := new R.UserCache(ttl.value);
      } else {
        cache := null;
      }
    }

    ghost function Parts(): set<object> {
      if cache == null then {store} else {store, cache}
    }

    /** The configured lifetime is that of the cache, and there is one exactly if there is a cache. */
    ghost predicate Fits(cfg: Config) {
      if cache == null then cfg.cacheTTL == None else cfg.cacheTTL == Some(cache.ttl)
    }

    ghost function Cached(now: Time): map<string, CachedUser>
      reads Parts()
    {
      if cache == null then map[] else cache.Live(now)
    }

    /** What Remember does to the live cache. */
    ghost function Refreshed(cfg: Config, live: map<string, CachedUser>, now: Time, user: User):
      map<string, CachedUser> {
      if cfg.cacheTTL.None? then live else live[user.username := CachedUser(user, now + cfg.cacheTTL.value)]
    }

    method SetUser(now: Time, ghost cfg: Config, user: User)
      requires Fits(cfg) && (cfg.cacheTTL.Some? ==> cfg.cacheTTL.value > 0)
      modifies Parts() - {store}
      ensures Cached(now) == Refreshed(cfg, old(Cached(now)), now, user)
    {
      if cache != null {
        cache.SetUser(now, user);
      }
    }

    /** GetUserByEmail and GetUserByMobile. */
    method GetUserBy(now: Time, ghost cfg: Config, col: Column, key: string) returns (r: Option<User>)
      requires Fits(cfg) && (cfg.cacheTTL.Some? ==> cfg.cacheTTL.value > 0)
      modifies Parts() - {store}
      ensures r == Find(store.users, col, key)
      ensures Cached(now) == if r.None? then old(Cached(now)) else Refreshed(cfg, old(Cached(now)), now, r.value)
    {
      r := store.FindUser(col, key);
      if r.Some? {
        SetUser(now, cfg, r.value);
      }
    }

    method GetUserDetailsByUsername(now: Time, ghost cfg: Config, username: string) returns (r: Option<User>)
      requires Fits(cfg) && (cfg.cacheTTL.Some? ==> cfg.cacheTTL.value > 0)
      modifies Parts() - {store}
      ensures
        var live := old(Cached(now));
        if username in live then r == Some(live[username].user) && Cached(now) == live
        else
          && r == Find(store.users, ByUsername, username)
          && Cached(now) == if r.None? then live else Refreshed(cfg, live, now, r.value)
    {
      if cache != null {
        r := cache.GetUser(now, username);
        if r.Some? {
          return r;
        }
      }
      r := GetUserBy(now, cfg, ByUsername, username);
    }

    method RegisterUser(now: Time, ghost cfg: Config, user: User, hash: string) returns (r: Result<User>)
      requires Fits(cfg) && (cfg.cacheTTL.Some? ==> cfg.cacheTTL.value > 0)
      modifies Parts()
      ensures
        match Register(old(store.Contents()), user, hash)
        case Err(e) => r == Err(e) && store.Contents() == old(store.Contents()) && Cached(now) == old(Cached(now))
        case Ok((t, row)) =>
          r == Ok(row) && store.Contents() == t && Cached(now) == Refreshed(cfg, old(Cached(now)), now, row)
    {
      r := store.RegisterUser(user, hash);
      if r.Ok? {
        SetUser(now, cfg, r.value);
      }
    }

    /** Evicts the entry of the name that was written, not of the name the user had before. */
    method UpdateUser(now: Time, user: User) returns (err: Option<Error>)
      modifies Parts()
      ensures
        match Update(old(store.Contents()), user)
        case None =>
          err == Some(DuplicateKey) && store.Contents() == old(store.Contents()) && Cached(now) == old(Cached(now))
        case Some(t) => err == None && store.Contents() == t && Cached(now) == old(Cached(now)) - {user.username}
    {
      err := store.UpdateUser(user);
      if err.None? && cache != null {
        cache.DeleteUser(user.username);
      }
    }

    method CreateSSOUser(now: Time, ghost cfg: Config, user: User, provider: string, identity: string)
      returns (r: Result<User>)
      requires Fits(cfg) && (cfg.cacheTTL.Some? ==> cfg.cacheTTL.value > 0)
      modifies Parts()
      ensures
        match Tables.CreateSSOUser(old(store.Contents()), user, provider, identity)
        case Err(e) => r == Err(e) && store.Contents() == old(store.Contents()) && Cached(now) == old(Cached(now))
        case Ok((t, row)) =>
          r == Ok(row) && store.Contents() == t && Cached(now) == Refreshed(cfg, old(Cached(now)), now, row)
    {
      r := store.CreateSSOUser(user, provider, identity);
      if r.Ok? {
        SetUser(now, cfg, r.value);
      }
    }
  }
}
