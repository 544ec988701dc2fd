# Verified model of the authentication service

A Dafny model of the authentication core of the backend — OTP signup and login,
password login, Google sign-on, refresh sessions, profile completion, the stores behind them and
the rate limiter in front — with proofs of what holds over every run. A second, smaller part
covers catalog products and category paging.

`dafny verify dfyconfig.toml` checks the whole project.

## How it is built

- `Machine.dfy` is the service as a state machine. One step serves one request at one clock
  reading; its stores are ideal: an entry is gone once its expiry has passed. What the outside
  world answers (the OTP provider, bcrypt, Google, the random source) is part of the request.
  A `Run` is a sequence of requests with the states between them and the replies.
- `Invariants.dfy`, `Accounts.dfy`, `Sessions.dfy`, `Passwords.dfy`, `UserCache.dfy`, `SignupStatus.dfy`,
  `OTPEffects.dfy`, `LoginSends.dfy`, `SignupSends.dfy` and `RateLimit.dfy` prove properties of every run of it.
- `Outcomes.dfy` says of every request what it does and is answered, by the tables, pending signups and send
  states alone, and proves that every request of a run has its outcome.
- `FixedWindows.dfy` is the theory of fixed windows over a sequence of events, without a limiter.
- `MemoryStores.dfy` and `RedisStores.dfy` are the two families of stores as mutable classes,
  `Repository.dfy` the user tables and the cache in front of them, `Service.dfy` the service and
  `Handler.dfy` the handler, updating those objects step by step as the service does. Every
  method is proved to change the machine's state as the corresponding step does, so that all
  properties of runs carry over to either family, and the two families answer alike.
- `CacheTransparency.dfy` compares the service with the user cache to the service without it.
- `Witnesses.dfy` holds concrete runs for what turned out not to hold.
- `PendingIndex.dfy` is the indexed pending-signup store as a value, with the index invariants.
- `Interleaving.dfy` splits requests at their store calls and proves what survives every
  interleaving. `Schedules.dfy` says which calls one request makes and gives two interleavings of whole
  requests for what does not survive.
- `Mobile.dfy`, `Tables.dfy`, `Auth.dfy`, `Text.dfy` hold the number normaliser, the unique
  tables, the exchanged values and the string helpers; `Catalog.dfy` and `Paging.dfy` the catalog.

## Assumptions

- Each request reads the clock once, readings never decrease, and the first is positive. A key in
  Redis is visible up to and including its expiry, the same instant at which `time.Now().After`
  turns true for the memory stores; Redis' millisecond rounding is not modelled.
- No Redis, cache or database command fails, and every repository call is one transaction.
- Each Redis store has a key space of its own. The four prefixes within the pending-signup store
  are modelled and proved apart; the prefixes between stores are not part of this model.
- Whether a password matches is bcrypt's verdict on it against the hash stored for the user found; what
  matches what is not part of this model.
- The hash of a refresh token is taken to be the token, encryption to be the identity, and a fresh
  token is a string never drawn before in the run.
- `Config.Valid` holds the bounds of the start-up check (configs/configs.go:316-333); lemmas that
  need them say so.
- unicode.IsDigit beyond Latin-1 is a parameter (`wideDigits`); case mapping is that of ASCII.
- Users are never deleted, and a failed insert does not consume an id.
- gorm's error translation is not switched on anywhere, so `gorm.ErrDuplicatedKey` is never
  produced: `RegisterUser` finds out by asking for username, email and mobile in turn, while
  `UpdateUser`, `CreateSSOUser` and the catalog pass the driver's own error on (`DuplicateKey`,
  `SlugClash`, `CodeClash`), although the catalog's error mapping suggests otherwise.
- gorm creates the unique index on (provider, provider_id) from a tag on an unnamed field, which it
  skips; the model does not rely on that index and proves that no identity gets two rows.
- `Handler.BackendsAgree` gives both families of stores the same cache setting. The program itself puts
  the cache in front of the tables only when Redis is on (main.go:106-132);
  `Handler.DeploymentsAgreeIff` says when those two services agree.
- The project README says that pending signups live in Redis; the code also runs with the memory
  stores, and both are modelled.

## What turned out not to hold

- The bound on resends holds strictly before the expiry. At the very instant of expiry a record
  can still be read but no longer saved, so resends go out uncounted (`SignupSends.ResendAtExpiry`,
  with runs in `Witnesses.UnlimitedResendsAtExpiry`).
- A separator in front of or behind trimmed white space other than a blank makes an accepted
  number malformed (`Mobile.InsertSeparator` says exactly when, `Mobile.HyphenBeforeTab` shows it).
- Lengths are bytes, so a number with non-ASCII digits can pass with fewer than ten of them
  (`Mobile.WideDigitsPass`).
- The cache keeps the entry of a name its user has given up (`UserCache.OldNameLingers`), so a service
  with it and one without reply differently (`Witnesses.TwinsDiffer`), and only after a read of such
  an entry (`CacheTransparency.AgreeIffNoMisread`).
- A refresh need not log in the user of its session: the user is found by name, and the name may be
  another's by then (`Accounts.RefreshYieldsTheBearer` says when, `Witnesses.RefreshAsAnotherUser` shows it).
  The same holds of the user whose profile a partial token completes (`Accounts.PartialGateYieldsTheBearer`,
  `Witnesses.GateYieldsAnotherUser`).
- Interleaved requests can redeem a refresh token twice (`Schedules.InterleavedRefreshesBothSucceed`;
  `Interleaving.SecondRefreshIff` says exactly when) and leave a pending index inexact
  (`Schedules.InterleavedSignupsBreakExactness`; `PendingIndex.SaveExactIff` says exactly when).
- A product created with an inactive SKU stores an active one: the column has the default true, and
  gorm writes the default for a zero value (catalog/productdao/postgres.go:68-80). `Catalog.StoredFlag`
  says when the stored flag is the requested one, `Catalog.StoreInactive` shows a request.

## Model

| member | source | states |
|---|---|---|
| `Handler.BackendsAgree` | auth/service/service.go:102-566 | with one cache setting on both sides, every sequence of requests at non-decreasing times gets the same replies over the memory stores and over the Redis stores |
| `Handler.DeploymentsAgreeIff` | main.go:106-132 | the two services the program can start, memory stores without a user cache and Redis stores with one, reply alike in a run if and only if no request of it reads the lingering entry of a name nobody holds |
| `Handler.ServeAll` | auth/http/handler.go:260-566 | a service built over either kind of stores gives the replies of the state machine, request by request, and ends in its state; so they are the replies of every run with these requests |
| `Handler.IndexesStayExact` | cache/memory/stores.go:57-160 | after any sequence of requests the three in-memory indexes are exact inverses of the primary map, expired and unpurged records included, and the live records are the pending signups of the machine |
| `Handler.AuthHandler.Handle` | auth/http/handler.go:260-353 | a request is limited first and served only if admitted; reply and new state are those of one step of the machine |
| `Handler.AuthHandler.EnforceRateLimit` | auth/http/handler.go:775-816 | the address is counted first, the normalised number only if the address passed and the number is one; a bad number is let through |
| `Handler.AuthHandler.AdmitRequest` | auth/http/handler.go:767-773 | sends and resends share the "request" counters, verifications have the "verify" counters, other requests none; the check is that of the machine, of which `RateLimit.RefusedIff` says exactly whom it refuses |
| `Invariants.Reachable` | auth/service/service.go:102-562 | every state after any run keeps the whole invariant: distinct identities, one row per external identity, coherent cache, distinct pending signups and none for a verified number, one live token per login, true tokens, verified users vouched for |
| `Invariants.StepKeeps` | auth/service/service.go:102-562 | one request at any later time keeps the invariant, and users, messages, tokens and lineages only grow |
| `Invariants.RunGrows` | auth/service/service.go:102-562 | between any two points of a run complete users never change, incomplete ones only complete, and a refresh token that died stays dead |
| `Machine.RunExists` | auth/service/service.go:102-566 | requests make up a run exactly if the clock does not run backwards and every token drawn is new |
| `Machine.RunIsDetermined` | auth/service/service.go:102-566 | the states and the replies of a run are those that its requests lead to, one step at a time |
| `Outcomes.EveryRequest` | auth/service/service.go:59-566 | every request of every run is refused by the limiter with no effect but the count, or has its outcome: reply, users, passwords, identities, pending signups, send states and messages are told for each of the twelve kinds of request and each way it can end, by who has which value and not by the machine's steps |
| `Outcomes.PasswordLoginIff` | auth/service/service.go:59-100 | a password login succeeds if and only if name and password are given, the password matches and the table has a user of that name with a stored password; the tokens are that user's, and every other well-formed login gets the same error, whatever the cache shows |
| `Outcomes.GoogleLoginIff` | auth/service/service.go:443-520 | a linked identity logs in its user and changes no table; otherwise an email that a user has links the identity to that very user by one row; otherwise an incomplete customer is created and linked, and the login fails only, and exactly, if the wanted name is found held and its fallback is taken |
| `Outcomes.LocalPartMeans` | auth/service/service.go:493-496 | the wanted name is what stands before the first '@' of the email, and blank without one |
| `Passwords.StoredIsChosen` | auth/service/service.go:122-170 | in every state the password stored for a verified user is the one chosen by the last signup accepted for its number before the verification that created it, a signup for its very name, email and number; none is stored only if that hash was empty |
| `Passwords.SignedUpLogsIn` | auth/service/service.go:59-183 | so, no hash from bcrypt being empty, a user who signed up can log in by password at any later time: a login under its name succeeds if and only if the password matches |
| `Passwords.PendingWasRequested` | auth/service/service.go:102-210 | a pending signup holds name, email and password of the last signup accepted for its number, through any number of resends |
| `Accounts.CompleteTokensStayTrue` | auth/token_manager.go:34-43 | a token handed out for a complete profile names, in every later state, an existing complete user with the very username, email, mobile and role it was made from, whether that record came from the table or the cache |
| `Accounts.IssuedTokens` | auth/token_manager.go:34-75 | every token handed out names the user of the reply with its role and completeness, starts at the time of the request and ends one token lifetime later |
| `Accounts.GateAdmitsCompleteUsers` | auth/http/handler.go:573-591 | the gate of the protected endpoints lets a token through if and only if it was handed out for a complete profile and not more than one token lifetime has passed since; the name it sets is that of the user, whose record is in the table unchanged in every later state |
| `Accounts.IdentitiesDistinct` | dbase/userdao/postgres.go:14-18 | in every reachable state usernames, emails and non-empty mobiles of users are pairwise distinct, and so are usernames and emails of pending signups |
| `Accounts.CompleteProfileNeverClashes` | auth/service/service.go:522-562 | served one at a time, no profile completion ever meets a unique index |
| `Accounts.VerifiedWasApproved` | auth/service/service.go:133-183 | a user with a verified mobile was created by an earlier signup verification of the run, with a code the provider approved for exactly the mobile it still has; the log shows the approval right before the registration |
| `Accounts.OTPLoginIsVerified` | auth/service/service.go:287-324 | an OTP login issues tokens only after an approved code and only to the verified, vouched-for holder of that number |
| `Accounts.RedeemedOnce` | auth/service/service.go:343-384 | once a refresh token that was handed out is redeemed or logged out, every later refresh with it fails |
| `Accounts.OneLiveDescendant` | auth/service/service.go:326-375 | no two live refresh tokens descend from the same login |
| `Accounts.Lineage` | auth/service/service.go:326-375 | a login starts a lineage with a token never seen before; a refresh continues the lineage of the token it redeemed |
| `Accounts.RefreshYieldsTheBearer` | auth/service/service.go:356-375 | a refresh yields tokens for whoever bears the name in the session by then: for another user if and only if the name was usurped, and never so if the token was handed out to a complete user |
| `Sessions.LivesIff` | auth/service/service.go:326-384 | in every state of a run a refresh token that was handed out is live if and only if its lifetime has not passed and no refresh or logout has ended it, and its session is that of the user it was handed out to |
| `Sessions.RefreshIff` | auth/service/service.go:343-375 | a refresh with such a token succeeds if and only if the token is live and somebody bears the name in it, whose tokens it yields; otherwise its reply tells which of the two fails |
| `Sessions.UnknownIsRefused` | auth/service/service.go:349-355 | a refresh with a token that no reply handed out is refused |
| `Witnesses.RefreshAsAnotherUser` | auth/service/service.go:356-375 | a run of requests that pass the handler's validation in which it is another user: after a renaming a second user signs up under the old name, and the first user's token yields tokens for the second |
| `Accounts.PartialGateYieldsTheBearer` | auth/http/handler.go:236-258 | the gate of profile completion lets a token through if and only if its lifetime has not passed and somebody bears the name in it, and yields the id of that bearer: another user's if and only if the name was usurped |
| `Witnesses.GateYieldsAnotherUser` | auth/http/handler.go:236-258 | a run in which it is another user's: after a renaming a second Google user gets the old name |
| `Accounts.GoogleBinds` | auth/service/service.go:443-519 | on all three paths a successful Google login leaves the identity linked to the user it logged in |
| `Accounts.SameIdentitySameUser` | auth/service/service.go:443-519 | once an identity has logged in, every later login with it succeeds and yields the same user id, across profile completion too |
| `UserCache.CacheCoherent` | auth/cached_repository.go:20-119 | a cached entry of a name equals the user of that name whenever the table has one |
| `UserCache.AnsweredIsCached` | auth/cached_repository.go:20-119 | with a cache, a request answered with a user leaves that user's entry, except that a completed profile evicts it and a login by an identity linked before leaves the cache alone |
| `UserCache.OldNameLingers` | auth/cached_repository.go:87-98 | completing a profile under another name leaves the entry of the old name behind, though nobody holds that name any more |
| `UserCache.CachedWasStored` | cache/redis/user_cache.go:29-57 | every cached record was in the table exactly one lifetime before its entry ends |
| `UserCache.HitsAreRecent` | cache/redis/user_cache.go:29-57 | every hit shows a record that the table held under that name at most one cache lifetime ago |
| `CacheTransparency.AgreeIffNoMisread` | auth/cached_repository.go:20-119 | with and without the cache the replies to the same requests agree if and only if no request reads by username a live entry of a name nobody holds; a password login and a signup whose name is refused anyway are the only reads that show no difference |
| `CacheTransparency.SameUntilMisread` | auth/cached_repository.go:20-119 | until such a read the two services have the same tables, stores and history, too |
| `CacheTransparency.StepAlike` | auth/cached_repository.go:20-119 | one request does the same and gets the same reply with and without the cache unless it reads a lingering entry, and then the replies differ |
| `CacheTransparency.LingeringUser` | auth/cached_repository.go:87-98 | a lingering entry shows a user as it was before it completed its profile, and that user has no password |
| `Witnesses.RefreshAfterRenaming` | auth/service/service.go:343-375 | a run: Google login, completion under another name, refresh of the first token; with the cache the refresh yields tokens for the record before completion, without it it is refused |
| `Witnesses.TwinsDiffer` | auth/service/service.go:343-375 | so a service with the cache and one without do differ |
| `SignupStatus.CompletedMeans` | auth/service/service.go:212-235 | a number is reported completed if and only if a verified user holds it |
| `SignupStatus.StatusAutomaton` | auth/service/service.go:212-235 | time alone only lets a pending status lapse, and each request moves the status of a number only along a fixed automaton: completed for good; pending ends by time or by an approved verification; expired turns pending only by a signup request for that very number, and completed only by a verification at the last instant |
| `SignupStatus.CompletedForGood` | auth/service/service.go:212-235 | a number once reported completed is reported completed ever after, in whatever spelling it is asked for |
| `OTPEffects.StepEffect` | auth/service/service.go:102-324 | a step either leaves the OTP state alone or is one of five effects: first send, resend, approved signup, login send, approved login |
| `LoginSends.SendsAreBounded` | auth/service/service.go:237-281 | with maxResends > 0, among any maxResends + 2 successive login sends to a number with no approval between them, some neighbours are further apart than the lifetime of the state |
| `LoginSends.SendsAreSpaced` | auth/service/service.go:653-661 | successive login sends to a number are at least the cooldown apart unless the state expired between them; so always when the lifetime is at least the cooldown |
| `LoginSends.SentIff` | auth/service/service.go:237-281 | a login request sends a code if and only if the limiter admits it, a verified user has the number and the codes sent to it so far permit one more; the reply is the same whether or not a code is due, unless the provider fails |
| `SignupSends.ResendsAreBounded` | auth/service/service.go:185-210 | from one signup request to the next, at most maxResends codes are resent strictly before the expiry, each at least the cooldown after the send before it |
| `SignupSends.NoResendAfterExpiry` | auth/service/service.go:185-210 | no code is resent after the expiry, so a resend beyond maxResends happens exactly at the instant of expiry or not at all |
| `SignupSends.ResentIff` | auth/service/service.go:185-210 | a resend sends a code if and only if the limiter admits it, a signup is pending for the number, and quota and cooldown of the codes sent for it so far allow one more; each refusal is told from the others by its reply |
| `SignupSends.ExpiryIsFixed` | auth/service/service.go:185-210 | a pending signup expires one lifetime after the last signup request for its number; no resend ever moves that |
| `SignupSends.ResendAtExpiry` | auth/service/service.go:196-210 | at the very instant of expiry a resend goes out, fails, and leaves the store unchanged, so it can be repeated |
| `Witnesses.UnlimitedResendsAtExpiry` | auth/service/service.go:196-210 | runs that reach it: any accepted signup at time 1 followed by any number of resends at its expiry, with no rate rule enabled, sends one code for each request; the bound above holds strictly before the expiry only |
| `Witnesses.ThreeResendsAtExpiry` | auth/service/service.go:196-210 | such a run with four given requests, all of which pass the handler's validation |
| `RateLimit.AtMostTwiceTheLimit` | auth/http/handler.go:767-816 | with the mobile rule enabled, in any closed interval of one window at most twice the limit of OTP messages goes to a number, over signup requests, resends and login requests together |
| `RateLimit.RefusedIff` | auth/http/handler.go:767-816 | a request is answered with the limiter's error if and only if it sends or verifies a code and, when it comes, the fixed window of its address has counted as many such requests as allowed, or else the window of its number has, counting only requests that their address let pass |
| `RateLimit.LetThroughAtMostTwice` | auth/http/handler.go:767-816 | with its rule enabled, in any closed interval of one window at most twice the limit of sends, and of verifications, gets any other reply than the limiter's error, for each number and for each address |
| `RateLimit.RefusedAreCrowded` | auth/http/handler.go:767-816 | a refused request has at least as many earlier requests of its kind, from its address or about its number, within one window's length before it as the rule allows |
| `FixedWindows.TwoWindows` | cache/memory/stores.go:214-231 | a closed interval of one window's length meets at most two windows, so at most twice the limit of events is allowed in it |
| `PendingIndex.SaveExactIff` | cache/memory/stores.go:74-90 | a save keeps exact indexes exact if and only if no record of another mobile, live or not, has the same username or email |
| `PendingIndex.SaveKeeps` | cache/memory/stores.go:74-90 | any save at all leaves no index entry dangling or pointing to a record with another key |
| `PendingIndex.DeleteKeeps` | cache/memory/stores.go:146-155 | deleting a record removes it alone and keeps both the weak and the exact index invariant |
| `PendingIndex.LookupIsLive` | cache/memory/stores.go:123-144 | over exact indexes a lookup hits exactly the live record with the key, and a miss purges every record with the key |
| `PendingIndex.GetIsLive` | cache/memory/stores.go:134-144 | reading by mobile answers from the live records and changes none of them |
| `PendingIndex.SaveIsLive` | cache/memory/stores.go:74-90 | a save sets just its own record among the live ones |
| `Interleaving.DistinctUnderInterleaving` | dbase/userdao/postgres.go:109-191 | under every interleaving of store calls identities of users stay distinct and no pending index entry dangles |
| `Interleaving.OneOfConflictingSignups` | auth/service/service.go:163-173 | of several conflicting pending signups at most one ever becomes a user, and that user is never changed again |
| `Interleaving.DroppedStaysDropped` | cache/memory/stores.go:22-55 | a refresh token once deleted, by a refresh or a logout, is never accepted by a later lookup |
| `Interleaving.AcceptedIff` | cache/memory/stores.go:22-55 | at non-decreasing times a lookup of a token that a session was stored for fails if and only if the session was deleted or has expired, and otherwise answers the session as stored |
| `Interleaving.SecondRefreshIff` | auth/service/service.go:343-375 | of two refreshes that present the same token the second is let through if and only if no delete of the session came between the two lookups and the session has not expired |
| `Schedules.RefreshesOverlap` | auth/service/service.go:343-375 | two whole refreshes of one token both succeed only if the later one looks the token up before the earlier one deletes it |
| `Schedules.InterleavedRefreshesBothSucceed` | auth/service/service.go:343-375 | an interleaving of whole requests, a signup, its verification and two refreshes, in which both refreshes find session and user and succeed, so that two sessions descend from one |
| `Schedules.InterleavedSignupsBreakExactness` | auth/service/service.go:102-131 | an interleaving of two whole signup requests for one username: all lookups of both miss, and the saves leave a record that its username no longer finds |
| `MemoryStores.RefreshStore.Get` | cache/memory/stores.go:33-48 | lazy purging answers as a map whose entries vanish at expiry |
| `MemoryStores.RefreshStore.Save` | cache/memory/stores.go:22-31 | an expired session is refused, any other is live under its token and nothing else changes |
| `MemoryStores.OTPStateStore.Get` | cache/memory/stores.go:177-191 | lazy purging answers as a map whose entries vanish at expiry |
| `MemoryStores.OTPStateStore.Save` | cache/memory/stores.go:166-175 | an expired state is refused, any other is live under its key and nothing else changes |
| `MemoryStores.RateLimiter.Allow` | cache/memory/stores.go:214-231 | the decision and the live windows are those of a map whose windows vanish at expiry |
| `MemoryStores.PendingSignupStore.Save` | cache/memory/stores.go:74-90 | the three indexes and the primary map change as the index specification says; exactness survives if and only if the values are unclaimed |
| `MemoryStores.PendingSignupStore.GetByMobile` | cache/memory/stores.go:92-96 | an expired record is deleted with its index entries on sight, a live one is returned |
| `MemoryStores.PendingSignupStore.GetIndexLocked` | cache/memory/stores.go:123-132 | an index read follows its entry to a live record or purges an expired one |
| `MemoryStores.PendingSignupStore.DeleteLocked` | cache/memory/stores.go:146-155 | the record and the index entries of its own values go, nothing else |
| `RedisStores.RefreshStore.Save` | cache/redis/refresh_store.go:29-41 | the same live sessions as the memory store after the same save |
| `RedisStores.OTPStateStore.Save` | cache/redis/otp_state_store.go:27-39 | the same live states as the memory store after the same save |
| `RedisStores.RateLimiter.Allow` | cache/redis/rate_limiter.go:24-41 | INCR and EXPIRE on first use decide and count exactly as the fixed windows of the memory limiter |
| `RedisStores.KeysApart` | cache/redis/pending_signup_store.go:108-122 | the four key builders are injective and never produce the same key |
| `RedisStores.SaveRepresents` | cache/redis/pending_signup_store.go:27-46 | four SETs without cleanup keep the key space an exact image of the live records, if a save only overwrites a record with its username and email and claims none of another record |
| `RedisStores.DeleteRepresents` | cache/redis/pending_signup_store.go:65-82 | deleting the four keys of a record removes that record alone |
| `RedisStores.TimePasses` | cache/redis/pending_signup_store.go:27-46 | as time passes the four keys of a record and the record vanish together |
| `RedisStores.PendingSignupStore.Save` | cache/redis/pending_signup_store.go:27-46 | for a client of that discipline the live records change as in the memory store |
| `RedisStores.PendingSignupStore.GetByMobile` | cache/redis/pending_signup_store.go:48-63 | a read answers from the live records |
| `RedisStores.PendingSignupStore.DeleteByMobile` | cache/redis/pending_signup_store.go:65-82 | the record is gone and all others are untouched; a miss is no error |
| `RedisStores.PendingSignupStore.GetMobileByUsername` | cache/redis/pending_signup_store.go:84-86 | an index read names the live record with the username, and misses only if there is none |
| `Repository.PostgresRepository.RegisterUser` | dbase/userdao/postgres.go:109-164 | the new row gets the next id, or the first of username, email and mobile that is taken is reported and nothing changes |
| `Repository.PostgresRepository.UpdateUser` | dbase/userdao/postgres.go:166-191 | the row is replaced unless another row holds a unique value; an unknown id changes nothing |
| `Repository.PostgresRepository.GetSSOAccount` | dbase/userdao/postgres.go:202-222 | the user of the first row of an identity |
| `Repository.PostgresRepository.CreateSSOUser` | dbase/userdao/postgres.go:224-263 | user and identity are created together or not at all |
| `Tables.RegisterKeepsUnique` | dbase/userdao/postgres.go:109-164 | an insert succeeds if and only if the user clashes with no row, and keeps all rows distinct |
| `Tables.UpdateKeepsUnique` | dbase/userdao/postgres.go:166-191 | an update succeeds if and only if the user clashes with no other row, and keeps all rows distinct |
| `Repository.CachedUserRepository.GetUserDetailsByUsername` | auth/cached_repository.go:20-41 | a hit is returned without asking the table; a miss reads the table and remembers what it found |
| `Repository.CachedUserRepository.GetUserBy` | auth/cached_repository.go:43-67 | reads by email and by mobile always ask the table and refresh the entry of the name found |
| `Repository.CachedUserRepository.RegisterUser` | auth/cached_repository.go:74-85 | a new user is written through, a failure leaves table and cache alone |
| `Repository.CachedUserRepository.UpdateUser` | auth/cached_repository.go:87-98 | a successful update evicts the entry of the new name only |
| `Service.AuthService.IssueTokenPair` | auth/service/service.go:326-341 | the session is stored before the pair is handed out, with claims and session made from the user |
| `Service.AuthService.EnsureSignupAvailability` | auth/service/service.go:588-628 | users are asked before pending signups, each by username, email and mobile, and the first hit decides; after a success no store record claims any of the three values |
| `Service.AuthService.ConflictWithPending` | auth/service/service.go:630-651 | the conflict found is the one reported; the branch for a vanished record cannot be reached |
| `Service.AuthService.RequestSignupOTP` | auth/service/service.go:102-131 | send first, save after; state and reply are those of the machine |
| `Service.AuthService.VerifySignupOTP` | auth/service/service.go:133-183 | the user is created with the password of the pending signup, then the pending record removed, then tokens issued; state and reply are those of the machine, of which `Passwords.StoredIsChosen` says whose password is stored |
| `Service.AuthService.ResendSignupOTP` | auth/service/service.go:185-210 | the window is checked, the code sent, the counter saved; state and reply are those of the machine |
| `Service.AuthService.SignupStatus` | auth/service/service.go:212-235 | a record counts as pending only before its expiry; state and reply are those of the machine |
| `Service.AuthService.RequestLoginOTP` | auth/service/service.go:237-285 | unknown, unverified and throttled numbers get the answer of a successful send; state and reply are those of the machine |
| `Service.AuthService.VerifyLoginOTP` | auth/service/service.go:287-324 | the send state is cleared only by an approved code; state and reply are those of the machine |
| `Service.AuthService.PasswordLogin` | auth/service/service.go:59-100 | an unknown user, a missing hash and a wrong password get the same error; state and reply are those of the machine, of which `Outcomes.PasswordLoginIff` says when it succeeds |
| `Service.AuthService.RefreshTokens` | auth/service/service.go:343-375 | the user is found by the session's username and the token deleted before new ones are issued; state and reply are those of the machine |
| `Service.AuthService.Logout` | auth/service/service.go:377-384 | deleting an unknown token is no error; state and reply are those of the machine |
| `Service.AuthService.GoogleLogin` | auth/service/service.go:406-520 | linked, linked by email, or created; state and reply are those of the machine, of which `Outcomes.GoogleLoginIff` says which |
| `Service.AuthService.CompleteProfile` | auth/service/service.go:522-562 | name and mobile are checked against other users before the write; state and reply are those of the machine |
| `Service.AuthService.ValidateCurrentUser` | auth/service/service.go:564-566 | the current record of the name, cached or stored; state and reply are those of the machine |
| `Mobile.NormalizeIndianMobile` | auth/mobile.go:8-45 | the scan computes the specification, error by error |
| `Mobile.AcceptedExactly` | auth/mobile.go:8-45 | an input yields +91 and n if and only if it is a well-formed spelling of the national number n, bare or behind 0 or 91 |
| `Mobile.OnlyNumber` | auth/mobile.go:8-45 | an accepted input denotes exactly one number, a refused one none; only blank input is reported as missing |
| `Mobile.SameNumber` | auth/mobile.go:8-45 | two accepted inputs give the same result if and only if they denote the same national number |
| `Mobile.Idempotent` | auth/mobile.go:8-45 | normalising a result gives it back |
| `Mobile.E164IffAsciiDigits` | auth/mobile.go:21-43 | a result is +91 and ten ASCII digits, the first 6 to 9, if and only if all digits of the input are ASCII |
| `Mobile.WideDigitsPass` | auth/mobile.go:21-43 | four characters can pass as ten digits, since lengths are counted in bytes |
| `Mobile.InsertSeparator` | auth/mobile.go:9-26 | inserting a separator anywhere leaves an accepted number alone if and only if it is a blank or encloses nothing but blanks |
| `Mobile.HyphenBeforeTab` | auth/mobile.go:9-26 | the inputs for which it does not: a hyphen put before a tab that used to be trimmed |
| `Catalog.ValidateSKUs` | catalog/service/service.go:355-376 | accepts exactly the legal lists and otherwise reports the offence of the first offending SKU |
| `Catalog.OneFirstOffence` | catalog/service/service.go:355-376 | the first offence is unique and only illegal lists have one |
| `Catalog.CreateProduct` | catalog/service/service.go:125-169 | which of the checks, in order, refuses a request, what is stored otherwise, and that no other product's SKUs change |
| `Catalog.UpdateProduct` | catalog/service/service.go:178-244 | which of the checks, in order, refuses a patch, what is stored otherwise; a patch without SKUs passes every check on them, a code clash can only come from another product, and nothing of another product changes |
| `Catalog.PatchFields` | catalog/service/service.go:188-224 | the fields are checked and replaced one by one, with the error of the first that fails |
| `Catalog.MapSKURequests` | catalog/service/service.go:305-330 | texts are trimmed, the currency upper-cased with INR by default, active by default |
| `Catalog.StoredFlag` | catalog/productdao/postgres.go:68-80 | every SKU row is stored active, so its flag is the requested one if and only if the request did not ask for an inactive SKU |
| `Catalog.StoreInactive` | catalog/productdao/postgres.go:226-274 | a request that meets this: an accepted product with one inactive SKU, stored active |
| `Catalog.CatalogRepository.constructor` | dbase/migrations/000001_create_catalog_tables.up.sql:54-68 | an empty catalog satisfies what every run keeps: legal statuses, legal SKU lists, unique codes, active rows |
| `Catalog.CatalogRepository.Insert` | catalog/productdao/postgres.go:226-274 | product and SKUs are inserted together or not at all, refused exactly for a taken slug or a taken code |
| `Catalog.CatalogRepository.Replace` | catalog/productdao/postgres.go:298-369 | the product's rows become the new list, refused exactly for an unknown id, a slug or a code of another product; other products' rows stay |
| `Catalog.OthersClash` | catalog/productdao/postgres.go:327-340 | once a product's own rows are deleted, a new code clashes if and only if another product has it |
| `Catalog.OthersKept` | catalog/productdao/postgres.go:327-329 | deleting a product's rows leaves the rows of every other product as they were |
| `Paging.NormalizePagination` | catalog/productdao/postgres.go:614-626 | any request is clamped to page 1 or more and 1 to 100 rows; requests within the bounds stay |
| `Paging.OrderByOrders` | catalog/productdao/postgres.go:214-215 | the listing is the same rows, each as often, strictly ordered by sort order and id |
| `Paging.PagesArePrefix` | catalog/productdao/postgres.go:193-224 | pages 1 to n put together are a prefix of the ordered listing |
| `Paging.PagesCoverTheList` | catalog/productdao/postgres.go:193-224 | enough pages put together are the filtered rows in order, each once, as many as the reported total; every further page is empty |

## Left out

- Twilio calls, Google's code exchange, JWE encryption, bcrypt, JSON: only their results enter the model.
- Routing, request decoding and validation tags, cookies, CSRF, error-to-status mapping, logging: the model accepts every request those would let through, and more.
- A nil rate limiter: the same as two disabled rules, which are modelled.
- Failing Redis or database commands, and interleavings inside one cached-repository call: the code passes these errors on or ignores them.
- Creation and update times of users and products, the email and data columns of an SSO row, the expires-in fields of a token pair.
- Product images and attributes, fabric, wash-care and durability texts: copied without checks, inside the same transactions.
- Product and category deletion, SKU operations of their own, bulk-upload jobs, availability counts: no rule spans them.
- ListProducts: its meaning rests on SQL joins and DISTINCT that the code does not show.
- Paging.PagesCoverTheList: the category filter is any predicate on rows; what ILIKE matches is not modelled.
- The column widths of the database (a SKU code over 100 bytes, say) and 64-bit overflow of amounts and clock readings.
- Collation and case rules of the database: equality of columns is equality of strings.
