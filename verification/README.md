# App Gateway: verified model

A Dafny model of the stateful core of the App Gateway Service, an Express gateway that issues tokens
and proxies requests, and proofs about every run of it. The pure values of the source are datatypes
and functions. Code that updates state is written as classes whose methods change their fields, each
proved against a function of the old state; concurrent code is also a state machine whose steps are
the source's awaits. Anything random or external (tokens, UUIDs, IVs, the clock, a database's choice
among equal answers, a lost Redis reply, the upstream's answer) is an input of a step, so every
theorem holds for all of them.

`dafny verify dfyconfig.toml` verifies the whole project.

## Modules

- **Refresh tokens.** `RefreshTokenTable` is the `refresh_tokens` table with the SQL run against it
  and its lineage: each row hangs below the row it was rotated from. `RefreshHandlers` takes every
  handler as one indivisible step, `RefreshTokenService` is the service as a class proved against
  it, `RefreshProtocol` is the same system with one step per SELECT, UPDATE, INSERT and Redis
  command (each SET of a family revocation too) of any number of interleaved requests, where
  requests may crash anywhere and Redis keys lapse. `RefreshSafety` and `RefreshTheorems` prove what
  all those interleavings keep, `RefreshAtomicity` that an uninterrupted request is the atomic
  handler from its claim to its answer, `RefreshMoments` what a request had seen when, `RefreshRaces`
  exactly when a token is rotated twice and when a family comes back to life after a reuse answer,
  `RefreshLogout` when a logout ends its session, `RefreshMirror` which revoked rows have their Redis
  key, `RefreshOwnership` whose session each row and each answer is; `RefreshClaim` proves what the idempotency claim buys and `RefreshClaimLimits` that each of
  its conditions is needed; `AuthRouter` is the end of `/login` and the `/refresh` handler with its
  poll loop.
- **Tenant keys.** `BoundedLru` is the hand-written cache as a class over an ordered store.
  `Base64` and `Envelope` are the byte formats. `TenantKeys` is a machine of any number of replicas,
  each with its own two caches, over one key table, with racing provisioners, rotations and
  restarts; `TenantKeySafety` and `TenantKeyTheorems` are its invariants, `TenantKeyDecryption` what
  decryptions answer, `TenantKeyVersions` which version new values are sealed under,
  `TenantKeyProgress` that every request is answered, `TenantIsolation` that tenants do not meet,
  and `TenantKeyService` the service as a class over two `BoundedLru` objects.
- **Access tokens.** `Time` and `AccessTokens` are TTL arithmetic, signing, verification and
  revocation; `Revocation` follows revocations over time; `KeyRollover` is the fleet of
  `docs/runbooks/jwt-key-rotation.md`, rotating again and again with rollbacks and restarts.
- **Rate limiting.** `Text` is the counter key, `RateLimiter` the middleware and a machine with
  clock reading, INCR, PEXPIRE and decision as separate steps, `RateLimiterBounds` how many
  requests it admits.
- **Proxy.** `ProxyDispatch` is the event-driven dispatch with its map of pending callbacks,
  `Scopes` the scope claim, `ProxyPipeline` the router, `ProxyTrace` the router over any sequence
  of requests, `RouteQuotas` whose requests count against whom.

## Where the code does not do what one would expect

Each of these is kept as the code has it, with an input that shows it and the exact extent of it
proved.

- The rotation UPDATE names the row by id alone, so two keyless rotations that both read the row
  live both succeed and leave two live tokens in the family (`OverlapMakesTwoLive`, reached from a
  fresh start by `OverlapIsReachable`). A row is rotated twice if and only if two requests that
  presented its token both got past their INSERT, and any two such requests overlapped
  (`RotatedTwiceIff`). An uninterrupted request cannot cause it, and requests sharing an idempotency
  key in a calm run cannot either (`ClaimedRefreshIsOneRotation`).
- A request answered with "reuse" has not always ended the session: if the token is submitted twice
  without a key, one request can find the row revoked and its family without a live row, and the
  other inserts its new row after that (`ReuseAnswerCanLeaveALiveRow`, from a fresh start). At the
  moment of the answering request's last look the family has no live row; it has one again at some
  later moment if and only if a refresh request that had read one of its tokens live before that
  moment inserts its row after it (`ReuseLeavesStragglers`, `ReuseWithoutRaceEndsTheFamily`).
- A logout does not always end the session: with a token that has been rotated it changes nothing
  (`LogoutWithARotatedToken`, `LogoutEndsTheFamily`), and a refresh of the same token
  that had read it before the logout's UPDATE inserts its row after it (`LogoutCanLeaveALiveRow`,
  from a fresh start). From its UPDATE on the family is dead if and only if no other row of it was
  live then and no such refresh inserts afterwards (`LogoutEndsTheSession`).
- A waiter that spends its five polls while the owner of the claim is slow rotates without a claim:
  the owner is answered with a new pair, then the waiter with a reuse error, and the pair is dead
  (`SpentPollsEndTheSession`, from a fresh start). Every condition of a calm run is needed: for each
  there is a run that breaks only that one, and the guarantee with it (`EachConditionIsNeeded`).
- A row that is inserted between the SELECT and the UPDATE of a family revocation is revoked, but
  never gets its Redis key (`KeyCanBeMissing`, from a fresh start, with nothing failing). Once all
  requests are answered, an unexpired row has its key if and only if some request had taken it into
  its own UPDATE of that row or its own SELECT of the family (`MirrorOnceAnswered`).
- A revocation entry lives until the token's `exp`, rounded up to a second, but `exp` is accepted
  with a tolerance of 30 seconds. A revoked token is therefore accepted again from the lapse of its
  entry until the tolerance is over, and exactly then (`AcceptedAgainExactlyInTheTolerance`; a run
  of it is `RevokedTokenPasses`).
- A window's quota can be exceeded without any error if an INCR reaches Redis only after its
  window's counter has expired (`LateIncrBreaksTheBound`). Without errors a window admits exactly
  min(requests, max) for each life of its counter, so it exceeds its quota if and only if its
  counter was started over and more than `max` requests came (`ExactAdmission`); only late INCRs
  start one over (`OnlyLateIncrsStartOver`), and runs without them keep the bound (`AdmissionBound`).
- A rotation does not reach the active-version caches of other replicas, which go on sealing under
  the retired version (`RetiredVersionIsUsed`, from a fresh start). A value is sealed under the
  active version if and only if no rotation of the tenant has been committed since the sealing
  replica learned the version it uses (`SealIsActiveIff`). Nothing becomes unreadable by it.
- A refresh whose user is gone neither completes nor releases its claim, and neither does one whose
  INSERT fails; the protocol keeps these exits and `AuthRouter.Router.Refresh` states them.

## Model

| member | source | states |
|---|---|---|
| RefreshTokenTable.SelectMostRecent | src/services/refreshToken.service.ts:188-197 | the answer is a live row of the user that no other live row of theirs was issued after; no answer exactly if there is none |
| RefreshTokenTable.SelectLive | src/services/refreshToken.service.ts:75-83 | exactly the family's rows that are not revoked |
| RefreshTokenTable.FamilyIsOneTree | src/services/refreshToken.service.ts:48-67 | two rows of one session family hang below the same root and belong to the same user |
| RefreshTokenTable.AboveIsRevoked | src/services/refreshToken.service.ts:148-156 | every proper ancestor of a row is revoked, so a live row is a leaf |
| RefreshTokenTable.TwoLiveNeedFork | src/services/refreshToken.service.ts:144-156 | two live rows in one family exhibit a row of that family that was rotated twice |
| RefreshTokenTable.UpdateFamilyKeepsForest | src/services/refreshToken.service.ts:87-95 | the family UPDATE revives and rewrites nothing, keeps the tree and leaves the family without a live row |
| RefreshTokenTable.InsertKeepsForest | src/services/refreshToken.service.ts:57-65 | a row with an unused token, put below a revoked row of its user and family or into a new family, keeps the forest |
| RefreshHandlers.EveryRun | src/services/refreshToken.service.ts:48-204 | after any run of atomic logins, rotations and logouts every family is a chain with at most one live row, and for every unexpired row the Redis mirror key is present if and only if the row is revoked |
| RefreshHandlers.RotatesAtMostOnce | src/services/refreshToken.service.ts:132-156 | a token that rotated once is answered as reuse of its family whenever it is presented again, whatever happened in between |
| RefreshHandlers.ReuseEndsTheFamily | src/services/refreshToken.service.ts:132-142 | with indivisible handlers: once a revoked token is presented its family has no live row in any later state and every later rotation of any of its tokens is answered as reuse; what interleaving changes is RefreshRaces.ReuseLeavesStragglers |
| RefreshHandlers.LogoutEndsTheFamily | src/services/refreshToken.service.ts:160-177 | with indivisible handlers: a logout leaves the family without a live row if and only if the presented row was live (then in all later states too) or the family was dead already; with a revoked token it changes nothing |
| RefreshHandlers.UserLogoutEndsTheFamily | src/services/refreshToken.service.ts:184-204 | a logout without a token ends, for good, the family of a most recently issued live row of the user, and touches no other row |
| RefreshHandlers.LogoutWithARotatedToken | src/services/refreshToken.service.ts:170-171 | a login, a rotation and a logout with the first token after which the session goes on |
| RefreshHandlers.RevokeRowKeeps | src/services/refreshToken.service.ts:148-152 | revoking one live row keeps chains, rotation reasons and the exact mirror |
| RefreshHandlers.FamilyMirror | src/services/refreshToken.service.ts:97-101 | the mirror keys written for a revoked family are those of exactly its unexpired rows that were live, each with its own TTL; all other keys stay |
| RefreshTokenService.Service.CacheRefreshTokenRevocation | src/services/token.service.ts:89-96 | the key is written unless it would be born expired, and lasts until the row's expiry |
| RefreshTokenService.Service.IssueRefreshToken | src/services/refreshToken.service.ts:48-68 | appends the row of the given user, family and parent with the minted token, issued now for the TTL, and changes nothing exactly if the token is taken |
| RefreshTokenService.Service.RevokeSessionFamily | src/services/refreshToken.service.ts:71-102 | the loop over the selected rows leaves the stores as the atomic handler does: every live row of the family revoked now for the reason, every other row as it was, and the family dead |
| RefreshTokenService.Service.RotateRefreshToken | src/services/refreshToken.service.ts:115-157 | the service is the atomic rotation: an unknown, revoked, expired or live row decides the answer; on success the presented row is revoked for rotation now and one row of its user and family, with the new token and TTL, hangs below it; the answer names that user; a taken token leaves the row revoked |
| RefreshTokenService.Service.RevokeRefreshTokenByHash | src/services/refreshToken.service.ts:160-177 | the service is the atomic logout and touches no row but the presented token's |
| RefreshTokenService.Service.RevokeMostRecentRefreshTokenForUser | src/services/refreshToken.service.ts:184-204 | revokes one most recently issued live row of the user, and does nothing if there is none |
| RefreshSafety.NextKeeps | src/services/refreshToken.service.ts:48-204 | every single SELECT, UPDATE, INSERT, SET, GET, crash or lapse of any request keeps the invariant of the interleaved protocol |
| RefreshTheorems.LineageForest | src/services/refreshToken.service.ts:48-157 | under every interleaving of logins, rotations, family revocations and logouts, families are trees of one user, parents are revoked, and revoked rows stay so in all later states |
| RefreshOwnership.EveryRowIsOwned | src/services/refreshToken.service.ts:57-65 | over any run of atomic handlers each row belongs to the user whose login opened its family, and lives for the TTL from its issue |
| RefreshOwnership.RotationNamesTheUser | src/services/refreshToken.service.ts:148-156 | a rotation hands out the minted token and names the user whose login opened the presented token's family |
| RefreshOwnership.RowsAreOfTheirLogin | src/services/refreshToken.service.ts:48-157 | the same under every interleaving, for every row and the very login request that opened its family |
| RefreshOwnership.AnswersNameTheUser | src/routes/auth.router.ts:142-269 | under every interleaving, every pair answered to a login, a rotation or from the cache names the user who logged in when the family of its refresh token was opened |
| RefreshTheorems.CachedPairProvenance | src/routes/auth.router.ts:72-87 | a pair answered from the cache to a request with token h and key k was answered to a request with the same h and k that had itself rotated h into that pair's token, lapsed claims and overwritten slots included |
| RefreshTheorems.TwoLiveNeedOverlap | src/services/refreshToken.service.ts:121-151 | a family with two live rows proves that two refresh requests both read one of its rows before either wrote it |
| RefreshTheorems.OverlapMakesTwoLive | src/services/refreshToken.service.ts:148-154 | two requests that both read the row live both rotate it, and the family has two live rows |
| RefreshTheorems.OverlapIsReachable | src/services/refreshToken.service.ts:121-151 | one login and two presentations of its token reach that situation |
| RefreshTheorems.RotationGoesThrough | src/services/refreshToken.service.ts:148-156 | from its UPDATE on a rotation succeeds whatever has happened to the row since it was read |
| RefreshAtomicity.UninterruptedRefreshIsAtomic | src/routes/auth.router.ts:210-269 | from its SELECT on, a refresh that no one interrupts, however many rows its family has, leaves both stores, and is answered, exactly as the atomic handler says; a claim it owns is completed with the pair, released on a denial, left pending otherwise |
| RefreshAtomicity.WonClaimIsAtomic | src/routes/auth.router.ts:183-269 | the same of a request with a key from the moment it wins its claim to its answer, with the slot it ends in |
| RefreshAtomicity.LostClaimIsAtomic | src/routes/auth.router.ts:191-208 | a request that does not win it is handed a result for its token without any write, and otherwise rotates without a claim after at most five reads, leaving the slot alone |
| RefreshAtomicity.UninterruptedLoginIsAtomic | src/routes/auth.router.ts:142-168 | a login that no one interrupts issues one row of its user in a new family and names both in its answer, or changes nothing if the minted token is taken |
| RefreshAtomicity.UninterruptedLogoutIsAtomic | src/services/refreshToken.service.ts:160-177 | a logout with a token that no one interrupts leaves both stores as the atomic handler says |
| RefreshAtomicity.UninterruptedUserLogoutIsAtomic | src/services/refreshToken.service.ts:184-204 | one without a token revokes a most recently issued live row of the user, or does nothing if there is none |
| RefreshRaces.RotatedTwiceIff | src/services/refreshToken.service.ts:121-156 | a row is rotated twice if and only if two requests that presented its token both got past their INSERT, and any two such requests both read it before either wrote |
| RefreshRaces.AnsweredTwiceOverlapped | src/routes/auth.router.ts:210-269 | two requests answered with a new pair for one token overlapped |
| RefreshMoments.EndWasSeen | src/services/refreshToken.service.ts:71-95 | a request answered as reuse had, at the step of its family SELECT or UPDATE, found or left its family without a live row |
| RefreshMoments.RotatedWasReadLive | src/services/refreshToken.service.ts:121-156 | whoever rotated a row had found it live, by its token, at the moment of its SELECT |
| RefreshRaces.OverFamilyRevives | src/services/refreshToken.service.ts:121-156 | a family without a live row after step m has one at a later moment if and only if a refresh that had found one of its rows live before m inserts its new row below that row after m |
| RefreshRaces.ReuseLeavesStragglers | src/services/refreshToken.service.ts:132-156 | after the answering request's family SELECT or UPDATE, at step m, its family has no live row; it has one at a later moment if and only if a refresh that had found one of its rows live before m inserts its new row after m; every row that is live at the end hangs below such a row |
| RefreshRaces.ReuseWithoutRaceEndsTheFamily | src/services/refreshToken.service.ts:132-142 | so if every request of the family that had read its token before m has done its insert by m, the family is dead at every later moment |
| RefreshRaces.ReuseAnswerCanLeaveALiveRow | src/services/refreshToken.service.ts:75-85 | from a fresh start, a double submit without a key in which one request is answered as reuse and the family stays alive |
| RefreshLogout.LogoutEndsTheSession | src/services/refreshToken.service.ts:160-204 | interleaved, with a token or without: the family has a live row at some moment after the logout's UPDATE if and only if another row of it was live then, or a refresh that had found one of its rows live before inserts its new row after |
| RefreshLogout.LogoutCanLeaveALiveRow | src/routes/auth.router.ts:276-307 | from a fresh start, a refresh and a logout of one token after which the logout is answered, the token revoked and the session alive |
| RefreshMirror.MirrorNextKeeps | src/services/refreshToken.service.ts:75-101 | every step of every request keeps each undertaken key written, owed, lapsed with its row or abandoned by a crash |
| RefreshMirror.KeysStandForRevokedRows | src/services/token.service.ts:89-96 | at every moment of every run a key stands for a revoked row and lapses less than a second after the row expires |
| RefreshMirror.MirrorOnceAnswered | src/services/refreshToken.service.ts:75-101 | once all requests are answered, an unexpired row has its key if and only if a request took it upon itself; a revoked row without one was swept away by a family UPDATE whose SELECT had not seen it |
| RefreshMirror.KeyCanBeMissing | src/services/refreshToken.service.ts:75-101 | from a fresh start, a run in which that happens with every request answered and no crash |
| RefreshClaim.ClaimedRefreshIsOneRotation | src/routes/auth.router.ts:183-269 | in every calm run (defined below) of any number of requests with one key and one live token, at most one enters rotation, all that finish hold the same pair, and the family's only live row is that pair's, rotated from the shared token |
| RefreshClaim.ExactlyOneRotated | src/services/token.service.ts:147-190 | once all of them are done exactly one rotated and every other one was answered from its cached result |
| RefreshClaim.CalmRunKeeps | src/routes/auth.router.ts:183-207 | the invariant behind it: one owner of the claim, waiters that only poll, and a slot that mirrors the owner's progress |
| RefreshClaimLimits.CalmMeansAll | src/routes/auth.router.ts:183-269 | a step is calm exactly if it meets seven conditions: the claim lasts, the token lasts, no crash, polls left, the user exists, a fresh token, no one else |
| RefreshClaimLimits.EachConditionIsNeeded | src/routes/auth.router.ts:72-87 | from a fresh start, for each of the seven: a run that meets all the others at every step and in which some request is done without the pair of the family's live row |
| RefreshClaimLimits.SpentPollsEndTheSession | src/routes/auth.router.ts:86 | from a fresh start, a run in which a waiter spends its polls, the owner is answered with a pair, the waiter as reuse, and the pair's family is dead |
| AuthRouter.WaitForIdempotentResult | src/routes/auth.router.ts:72-87 | hands over a result exactly if, within five reads, pending ones only are followed by that result for the same token |
| AuthRouter.Router.ClaimIdempotencyKey | src/services/token.service.ts:147-159 | claims the slot if and only if it is free or lapsed, for 30 seconds, and otherwise leaves it alone |
| AuthRouter.Router.Login | src/routes/auth.router.ts:142-168 | one live row of this user in the new family, for the TTL, and the pair naming them; nothing exactly if the minted token is taken |
| AuthRouter.Router.Refresh | src/routes/auth.router.ts:176-269 | the handler as a whole: with a slot that is taken it answers from the cache, without rotating or writing, if and only if the wait is resolved for its token, and otherwise rotates; which answer each outcome of the rotation gives, what it does to the token stores, and the slot: completed with the new pair, released on a denial, left pending when the INSERT fails or the user is gone |
| BoundedLru.Lru.Get | src/services/tenantKey.service.ts:50-58 | answers the stored value, makes the key the newest, and keeps the set of keys |
| BoundedLru.Lru.Set | src/services/tenantKey.service.ts:60-67 | the key is newest with the new value, and at most the oldest entry is dropped |
| BoundedLru.RecencyMeaning | src/services/tenantKey.service.ts:45-68 | the recency list holds each touched key once, ordered by its last touch |
| BoundedLru.HoldsTheMostRecent | src/services/tenantKey.service.ts:45-68 | after any calls the cache holds exactly the `maxSize` most recently touched keys, in recency order, each with its last value |
| BoundedLru.LargerCacheHoldsMore | src/services/tenantKey.service.ts:45-68 | fed the same calls, a smaller cache's entries are a subsequence of a larger one's |
| Base64.DecodeEncode | src/utils/crypto.ts:103-108 | decoding inverts encoding for every byte string, padding included |
| Base64.EncodeMeaning | src/utils/crypto.ts:103-108 | section 4 of RFC 4648: each group of three bytes is written as the four base-64 digits of its 24-bit number, the last group padded |
| Base64.StandardAlphabet | src/utils/crypto.ts:103-108 | table 1 of RFC 4648 |
| Envelope.Aead.KeyRoundTrip | src/utils/crypto.ts:98-119 | the iv, tag and ciphertext split undoes their concatenation, through base64 |
| Envelope.Aead.KeyLayout | src/utils/crypto.ts:98-108 | what is written are the given iv, then the tag and the ciphertext of sealing with it under the given key |
| Envelope.Aead.KeyReads | src/utils/crypto.ts:107-119 | what is read are twelve bytes of iv, sixteen of tag and the rest, opened under the given key; short texts have shorter parts |
| Envelope.Aead.DekRoundTrip | src/utils/crypto.ts:164-191 | encryption fails exactly for versions beyond 65535; otherwise parsing returns the version and decrypting the plaintext |
| Envelope.Aead.DekLayout | src/utils/crypto.ts:164-179 | an email's bytes are its version, high byte first, then iv, tag and ciphertext under the data key |
| Envelope.ParseLosesNothing | src/utils/crypto.ts:181-185 | parsing fails exactly below two bytes, and version and body put together again are the envelope's bytes |
| Envelope.ParseReads | src/utils/crypto.ts:181-185 | the version an envelope names is its first two bytes, high one first, and the body is the rest |
| Text.KeyedInjective | src/services/tenantKey.service.ts:79-81 | a `prefix:number` key determines both parts, whatever colons the prefix holds |
| Text.DecimalMeaning | src/middleware/rateLimiter.ts:31 | the number in a key is written in decimal digits without a leading zero |
| TenantKeySafety.UnwrapAndCacheKeeps | src/services/tenantKey.service.ts:150-162 | from the cache or not, the result is what the row unwraps to, and the caches stay right |
| TenantKeySafety.SuccessorKeeps | src/services/tenantKey.service.ts:246-269 | retiring the active version and inserting the next keeps versions gapless with the last alone active |
| TenantKeyTheorems.NextKeeps | src/services/tenantKey.service.ts:96-275 | every step of every request on every replica keeps table, caches and requests right, and no wrapped key changes |
| TenantKeyTheorems.KeyTableShape | src/db/schema.ts:119-125 | in every state a tenant's versions are 1 to n with n alone active, n never shrinks and wrapped keys never change, races included |
| TenantKeyTheorems.NoKeyFailures | src/services/tenantKey.service.ts:121-126 | no request ever fails to provision or resolve a key, to unwrap one, or meets the one-active-row constraint |
| TenantKeyTheorems.CachesAgreeWithTable | src/services/tenantKey.service.ts:71-81 | on every replica a cached key is what its row unwraps to and a cached active version names an existing row |
| TenantKeyDecryption.DecryptionIsDirect | src/services/tenantKey.service.ts:195-221 | on every replica and in every run, a decryption answers what the table alone said, errors included, at a moment after it had begun and before it was done |
| TenantKeyDecryption.MissWasReal | src/services/tenantKey.service.ts:203-217 | if it fails for want of a row, that moment is its own lookup of the version its envelope names, and the row was not there |
| TenantKeyTheorems.SealedVersionExists | src/services/tenantKey.service.ts:168-188 | the version a new value is sealed under exists and is never above the active one |
| TenantKeyDecryption.EveryStoredEmailStaysDecryptable | src/utils/crypto.ts:214-234 | a ciphertext of p for tenant t made on any replica opens to p for t on every replica in every later state, after any provisions, rotations, evictions and restarts |
| TenantKeyDecryption.DecryptionFinishes | src/utils/crypto.ts:227-234 | whatever others do, a decryption whose process does not restart is done after at most three steps of its own |
| TenantKeyDecryption.StoredEmailIsOpened | src/utils/crypto.ts:227-234 | so a request to open a stored email, given three steps of its own, has opened it to its plaintext |
| TenantKeyProgress.RequestFinishes | src/services/tenantKey.service.ts:96-275 | whatever others do, every request, one that loses a race included, is answered after at most seven steps of its own if its process does not restart |
| TenantKeyProgress.AlwaysAnAnswer | src/services/tenantKey.service.ts:131-148 | in every state of every run the SELECT of the active row has an answer |
| TenantIsolation.RequestsWriteOwnRows | src/services/tenantKey.service.ts:83-85 | a request of tenant t changes rows of t only, one without a tenant those of the default id only |
| TenantIsolation.RowsAreOfTheirTenant | src/services/tenantKey.service.ts:83-85 | in every run a tenant has rows only if one of its own requests asked for them |
| TenantIsolation.SealedUnderOwnRow | src/services/tenantKey.service.ts:168-188 | on every replica in every run a value is sealed, version, iv, tag and ciphertext, with the key in its own tenant's row of that version |
| TenantIsolation.OpenedFromOwnRow | src/services/tenantKey.service.ts:195-221 | whoever sealed a value, opening it is answered from the asking tenant's row of the version it names alone, as it was while the request ran |
| TenantIsolation.StrangersHaveNoKey | src/services/tenantKey.service.ts:213-217 | so a tenant that has no row is told there is no key, for any value |
| TenantKeyVersions.ActiveAfter | src/services/tenantKey.service.ts:246-275 | after any run the active version is what it was plus the number of rotations committed in it |
| TenantKeyVersions.KnowledgeWasLearned | src/services/tenantKey.service.ts:168-188 | a version that a replica has cached as active, or that a request carries, was read, inserted or committed as active by a request of the same process |
| TenantKeyVersions.SealIsActiveIff | src/services/tenantKey.service.ts:168-188 | a value is sealed under the cached version (warm) or the one just read or inserted (cold), and that version is active if and only if no rotation of the tenant was committed since the replica learned it |
| TenantKeyVersions.RotationElsewhereLeavesPointer | src/services/tenantKey.service.ts:171-180 | after a rotation on another replica a warm replica seals under the version it knew, which is no longer active |
| TenantKeyVersions.RetiredVersionIsUsed | src/services/tenantKey.service.ts:171-180 | from a fresh start, a run of two replicas and one rotation that ends with a value sealed under the retired version |
| TenantKeyService.Service.FindActiveRow | src/services/tenantKey.service.ts:131-148 | an active row of the tenant; none exactly if it has none |
| TenantKeyService.Service.UnwrapAndCache | src/services/tenantKey.service.ts:150-162 | the row's key, opened under the key-encrypting key from its iv, tag and ciphertext; the caches as the shared definition leaves them, this key among them |
| TenantKeyService.Service.GetActiveDek | src/services/tenantKey.service.ts:168-188 | on one replica with uninterrupted calls: exactly the version active for this tenant, or for the default id without one, and its key, both cached afterwards; version 1 is provisioned if and only if there was none, and nothing else changes |
| TenantKeyService.Service.ProvisionActiveKey | src/services/tenantKey.service.ts:96-129 | the active version and its key, whether the insert won or lost its race: version 1 with the new key exactly if the tenant had no row, otherwise the row that is active now and an unchanged table |
| TenantKeyService.Service.InsertFirst | src/services/tenantKey.service.ts:100-117 | the won race: version 1 is active under the new key, wrapped with the given iv under the key-encrypting key, no other row changes, and both caches know it |
| TenantKeyService.Service.GetDekForVersion | src/services/tenantKey.service.ts:195-221 | the key of a version of this tenant (the default id without one), active or retired; fails exactly if that row does not exist |
| TenantKeyService.Service.RotateTenantKey | src/services/tenantKey.service.ts:232-275 | the tenant's next version is active with the new key, wrapped and cached, the one before is retired, every other row, all those of other tenants included, is untouched |
| TenantKeyService.Service.EncryptEmail | src/utils/crypto.ts:214-220 | the bytes of version, given iv, tag and ciphertext under the key in the active row of this tenant (the default id without one); fails exactly when that version is beyond 65535, and changes no row except that a first value provisions the tenant's version 1 |
| TenantKeyService.Service.DecryptEmail | src/utils/crypto.ts:227-234 | malformed below two bytes, no key exactly if this tenant has no row of the version named, otherwise what the AEAD makes of iv, tag and ciphertext under that row's key |
| Time.TtlSecondsUntil | src/utils/time.ts:15-17 | the least whole number of seconds that reaches the date; zero exactly if it has passed |
| Time.TtlOvershoot | src/utils/time.ts:15-17 | a key with that TTL outlives the date by less than a second |
| AccessTokens.ExpiryCheckBoundary | src/services/token.service.ts:300-305 | a token counts as expired exactly from 30 seconds after its `exp`, for every millisecond clock |
| AccessTokens.Service.LoadSigningKeys | src/utils/crypto.ts:40-70 | the process answers with the keys it was started with, for good |
| AccessTokens.Service.GetJwksDocument | src/services/token.service.ts:222-234 | the active key, then the previous one exactly if its kid, not empty, and key are both set |
| AccessTokens.Service.SignAccessToken | src/services/token.service.ts:261-287 | kid, key and jti of a new token; iat and nbf are the second it was signed in, exp is the TTL later |
| AccessTokens.Service.RevokeToken | src/services/token.service.ts:71-76 | writes nothing for an expired token; otherwise an entry that lasts until `exp` and less than a second plus the write delay longer |
| AccessTokens.Service.VerifyAccessToken | src/services/token.service.ts:293-320 | an iff for each verdict: invalid unless the token is signed with the one key the process publishes under its kid and nbf is at most 30 seconds ahead; then expired from 30 seconds after exp; then revoked while its entry lives; valid otherwise |
| Revocation.RevocationCoversLifetime | src/services/token.service.ts:71-81 | once a revocation is written, every verification before `exp` fails in every later state, and the entry is gone less than a second and the write delay after `exp` |
| Revocation.AcceptedAgainExactlyInTheTolerance | src/services/token.service.ts:300-317 | after any run of delayed, repeated and overlapping revocations, a token with an entry is accepted if and only if the time lies between its entry's lapse and the end of the 30 second tolerance, and the lapse is within a second and the write delay of `exp` |
| Revocation.RevokedTokenPasses | src/services/token.service.ts:71-81 | a run in which it is: a token revoked half a second before `exp` is valid half a second after it |
| KeyRollover.KnownGenerationSelects | src/services/token.service.ts:198-220 | a configuration's key set has exactly one key under the kid of each generation it knows |
| KeyRollover.NoValidTokenIsRejected | docs/runbooks/jwt-key-rotation.md:37-89 | over any number of rotations, rollbacks and restarts, every replica accepts every token any replica signed until the expiry check rejects it |
| KeyRollover.SignedIsAccepted | src/services/token.service.ts:261-287 | at any moment of any run what a replica signs, with its own key and kid and for the TTL, every replica accepts at once |
| KeyRollover.UnknownKeyIsRejected | src/services/token.service.ts:293-313 | in any run a token signed with a key of no generation a replica knows is invalid there, whatever its kid |
| KeyRollover.OldKeysAreDead | docs/runbooks/jwt-key-rotation.md:74-89 | in any run only tokens of the rotation's two generations are accepted, and once it is finished only those of the new one |
| KeyRollover.RotationCompletes | docs/runbooks/jwt-key-rotation.md:37-89 | from a fleet of any size that runs one generation there are steps after which every replica runs the next one and knows no other |
| KeyRollover.RetireWaitIsExact | docs/runbooks/jwt-key-rotation.md:74-79 | a wait outlasts every token signed before it if and only if it is at least TTL + 30 seconds |
| KeyRollover.SingleSwapRejects | docs/runbooks/jwt-key-rotation.md:37-52 | without pre-publishing, a replica not yet restarted rejects what a restarted one signs |
| RateLimiter.Middleware.Increment | src/middleware/rateLimiter.ts:36 | the key has a live counter, one higher than the live one before and with the same expiry, or at one without expiry if none was live; every other counter is as live as before; a lost command changes nothing, a lost reply only hides the count |
| RateLimiter.Middleware.Expire | src/middleware/rateLimiter.ts:37-39 | a live counter keeps its count and is live from now on exactly until one window has passed; it revives no lapsed counter and touches no other at any time |
| RateLimiter.Middleware.Handle | src/middleware/rateLimiter.ts:28-64 | the counter is that of prefix, client and window index as the source spells the key; the request is the n-th it has seen and passes exactly if n is within the limit; only the first sets the expiry; headers fit, Retry-After is the least whole number of seconds, at least one, that reaches the window's end; no headers exactly if it failed open; no other counter moves |
| RateLimiterBounds.AloneIsMiddleware | src/middleware/rateLimiter.ts:28-64 | the steps of one request that nothing interrupts leave the counters, and answer, as the middleware does |
| RateLimiter.Limiter.KeysApart | src/middleware/rateLimiter.ts:29-31 | no two clients and no two windows share a counter |
| RateLimiter.Limiter.SharedExactly | src/middleware/rateLimiter.ts:31 | two limiters share a counter exactly if prefix and client, put together, read the same, in the same window |
| RateLimiter.Limiter.LimitersApart | src/services/proxy.service.ts:170-176 | for one client, limiters share a counter only if their prefixes are the same |
| RateLimiter.Limiter.RetryAfterSuffices | src/middleware/rateLimiter.ts:53-58 | waiting as long as told reaches a later window with a counter of its own, and a longer-than-a-second wait is not a second too long |
| RateLimiterBounds.CounterOutlivesWindow | src/middleware/rateLimiter.ts:36-39 | in any run a counter that exists is alive until its own window is over |
| RateLimiterBounds.AdmittedPerStart | src/middleware/rateLimiter.ts:34-63 | in any run at all a window admits at most `max` per start of its counter, and those that failed open |
| RateLimiterBounds.ExactAdmission | src/middleware/rateLimiter.ts:34-63 | in any run, once a window's requests are settled without an error, it has admitted exactly min(requests, max) for each life of its counter; it exceeds its quota if and only if the counter was started over and more than `max` requests came |
| RateLimiterBounds.AdmissionBound | src/middleware/rateLimiter.ts:34-63 | if every INCR arrives before its window is over, a window admits at most `max` plus those that failed open, and without errors exactly min(requests, max) |
| RateLimiterBounds.IntervalBound | src/middleware/rateLimiter.ts:28-63 | then any interval as long as a window admits at most twice the limit, plus those that failed open |
| RateLimiterBounds.DeniedClientsCanReturn | src/middleware/rateLimiter.ts:53-61 | every denied request of any run that waits as told gets a later window and its own counter |
| RateLimiterBounds.OnlyLateIncrsStartOver | src/middleware/rateLimiter.ts:36 | an INCR that starts an existing counter over comes after that counter's window |
| RateLimiterBounds.LateIncrBreaksTheBound | src/middleware/rateLimiter.ts:29-39 | a run with a limit of one in which a late INCR lets two requests of one window through without an error |
| ProxyDispatch.SettledOnceByItsOwnEvent | src/services/proxy.service.ts:321-370 | whatever else is in flight, a dispatched request is settled exactly once, by the first event of its own that settles it |
| ProxyDispatch.FirstSettlingMeaning | src/services/proxy.service.ts:335-365 | that event is the first of the trace, and there is none exactly if no event settles the request |
| ProxyDispatch.OthersDoNotMatter | src/services/proxy.service.ts:288-296 | two runs that agree on a request's own events settle it alike |
| ProxyDispatch.PendingIsUnsettled | src/services/proxy.service.ts:266 | at every moment the pending map holds exactly the responses whose promise is unsettled |
| ProxyDispatch.UrlRestored | src/services/proxy.service.ts:327-369 | `req.url` is the forward path in flight and the original again once the call returns, which it can as soon as it is settled |
| ProxyDispatch.Dispatcher.DispatchToUpstream | src/services/proxy.service.ts:321-338 | registers the callback, rewrites the URL, keeps the invariant |
| ProxyDispatch.Dispatcher.SettlePromise | src/services/proxy.service.ts:336-339 | whenever it runs, afterwards the promise has had exactly one call, this one if the callback was still registered and the earlier one if not; the callback is gone and no other request is touched |
| ProxyDispatch.Dispatcher.HandleProxyError | src/services/proxy.service.ts:290-295 | the callback shared by a route reaches only the request the error belongs to: its promise is rejected as a timeout for ETIMEDOUT and ECONNRESET and as an upstream error with the message otherwise; an error of a settled or unknown response does nothing |
| ProxyDispatch.Dispatcher.HandleFinish | src/services/proxy.service.ts:342-347 | the promise has then had exactly one call: resolve, if it was unsettled |
| ProxyDispatch.Dispatcher.HandleClose | src/services/proxy.service.ts:353-358 | the same when the client is gone |
| ProxyDispatch.Dispatcher.HandleNext | src/services/proxy.service.ts:360-365 | rejects an unsettled request with the error or the text it is given, and ignores a next() without one |
| ProxyDispatch.Dispatcher.Continue | src/services/proxy.service.ts:367-369 | restores the URL and returns the one settled outcome |
| Scopes.SplitMeaning | src/services/proxy.service.ts:223-224 | the scopes a claim grants are exactly the stretches between its spaces |
| ProxyPipeline.HttpRequest.StripSpoofedHeaders | src/services/proxy.service.ts:95-99 | the loop removes the five identity headers and nothing else |
| ProxyPipeline.InjectedHeader | src/services/proxy.service.ts:108-123 | after stripping and injecting, each header is the claims' for the five, the gateway's for the request id, the client's for all others |
| ProxyPipeline.Router.Enforce | src/services/proxy.service.ts:206-238 | role, scope and quota are decided in that order, each denial audited once |
| ProxyPipeline.Router.Admit | src/routes/proxy.router.ts:52-69 | a stripped request is let through exactly if token, role, scope and quota pass, with the claims of its accepted bearer token or none; a refused bearer token is denied with its code on every route, a missing one on a route that requires it, with one entry and no quota used |
| ProxyPipeline.Router.Forward | src/routes/proxy.router.ts:71-80 | the request is sent on with the right headers, and an allowed entry written exactly on flagged routes when the upstream answered |
| ProxyPipeline.Router.Handle | src/routes/proxy.router.ts:33-81 | one request: the response, the counters, the audit entries and the upstream call each are what the outcome of the checks calls for, the token's spelled out by header and verification result alone |
| ProxyPipeline.TokenDecidesFirst | src/middleware/authenticate.ts:21-42 | a refused bearer token is denied with its code on every route, a missing one where it is required, with one entry, no quota and nothing sent on; if verification throws, a 500 and no entry |
| ProxyPipeline.ReachesWithItsIdentity | src/services/proxy.service.ts:108-123 | who reaches the upstream came with an accepted bearer token, whose claims its headers carry one by one, or without one on a route that does not require it and without any identity; all other headers are the client's |
| ProxyPipeline.DenialsNameTheCaller | src/services/proxy.service.ts:130-258 | the audit entries of a request past its token: code or allowance, and the caller its token is for |
| ProxyPipeline.JoinMeaning | src/services/proxy.service.ts:115 | roles are joined with a comma between any two |
| ProxyTrace.UpstreamNeedsEveryCheck | src/routes/proxy.router.ts:33-76 | the upstream is contacted if and only if route, token, role, scope and quota all pass |
| ProxyTrace.FirstFailureIsNamed | src/services/proxy.service.ts:206-238 | past the token, role, scope and quota are decided in this order and the first that fails names the denial |
| ProxyTrace.UpstreamTrace | src/routes/proxy.router.ts:71-76 | over any sequence of requests the upstream is sent exactly those it answered, in order, each with headers as above |
| ProxyTrace.IdentityFromClaimsAlone | src/services/proxy.service.ts:86-123 | take any request the upstream was sent in one run of the router and any in another, whatever else the runs hold: if their claims agree, so do their identity headers; without claims there are none |
| ProxyTrace.SpoofingChangesNothing | src/services/proxy.service.ts:95-99 | two runs whose requests differ only in the identity headers their clients sent have the same responses, counters, audit log and upstream calls |
| ProxyTrace.AuditTrace | src/services/proxy.service.ts:153-258 | the log's denial codes are, in order, those of the denied responses, one each, and there is one allowed entry per proxied request on a flagged route |
| ProxyTrace.DenialsCostNothing | src/services/proxy.service.ts:212-236 | leaving out all requests denied on token, role or scope changes neither the counters nor any other response |
| RouteQuotas.LimiterOfRoute | src/services/proxy.service.ts:165-181 | a route's limiter counts by its own path and the client, with its own limit if it sets one and the configured window |
| RouteQuotas.ClientQuotasApart | src/services/proxy.service.ts:170-176 | a client's quotas on two routes are the same only if the routes' paths are |
| RouteQuotas.AnsweredAsIfAlone | src/services/proxy.service.ts:170-176 | in any run the requests of one client to one route are answered as if there were no others |
| RouteQuotas.OtherRoutesDoNotMatter | src/services/proxy.service.ts:170-176 | leaving out the requests a client sends to other routes changes none of the responses it gets on this one |

## Left out

- Cryptography: AES-GCM is assumed only to invert itself and to have 16-byte tags, a signature is the key it was made with, and a refresh token is identified with its hash; UTF-8 is left out, plaintexts are bytes.
- RefreshProtocol: audit writes, password verification and `markLastLogin` are not steps; deleting a user, which cascades to its rows, is not one either, and a login that would reuse a family UUID does nothing.
- RefreshProtocol: the 50 ms between two polls is not enforced; any time, also none, may pass. Replicas, Redis and Postgres share one clock, and an empty idempotency key counts as none.
- RefreshHandlers.EveryRun: the mirror agrees with the table between indivisible handlers; for interleaved ones it is RefreshMirror.MirrorOnceAnswered.
- RefreshMirror: a key's lifetime is computed when its SET runs; the SETs of one family run in order, and a SET that fails is a crash of its request.
- RefreshHandlers.ReuseEndsTheFamily: says nothing about interleaved requests; the exact condition for those is RefreshRaces.ReuseLeavesStragglers.
- RefreshClaim.ClaimedRefreshIsOneRotation: a run is calm if the claim does not lapse, no waiter spends its five polls, no request with the key crashes or mints a taken token, the user exists, the shared token does not expire before the first of them has passed its expiry check, and nobody else writes the family's rows or the key's slot; other requests may do anything else.
- RefreshTokenTable: client id, IP address and user agent of a row; ties in `issued_at` are broken by the run.
- TenantKeys: a rotation's UPDATE, INSERT, commit and cache writes are one step, and the commit succeeds if the insert does. Tampered ciphertexts may open to anything the AEAD makes of them.
- Base64.DecodeEncode: reading skips characters outside the alphabets, but malformed text is otherwise not compared with Node's decoder.
- KeyRollover: issuer, audience and the publication of the key set; a replica starts with the configuration of the deploy under way.
- RateLimiterBounds.AdmissionBound: one limiter's counters; for the counters of several see RouteQuotas. Floating-point rounding in `Math.ceil` is not either.
- ProxyPipeline: route matching, `strip_prefix`, the trimming of the bearer token, IP address and user agent of audit entries, and a failing audit insert, which the service swallows; a token check that throws because Redis is down ends the request with a 500 and no entry.
- ProxyDispatch: streaming, timeouts and retries of `http-proxy-middleware`; only the four events it ends in.
- OAuth and SAML stubs, sessions and user storage, schemas, environment loading, logging, health probes and graceful shutdown: plumbing without an invariant of its own.
