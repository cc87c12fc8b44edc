# Verified models of the sign-on server and its contract tools

The server keeps refresh tokens, one-time codes, counters and login locks in PostgreSQL and Redis and lets any number
of requests work on them at once. The contract tools beside it judge whether a replacement behaves alike. This project
models the parts of both whose correctness depends on interleaving, on whole runs or on structure, and proves what they
are for. `dafny verify dfyconfig.toml` checks everything.

**Refresh tokens.** `RefreshLedger` says what each request does to the committed rows when it is one atomic step:
issue, rotate, logout, status change, role assignment and removal, session revocation, password reset. `AuthDatabase` is the service
code, statement by statement, as a class over the tables; each method is proved to be that atomic step.
`LedgerTransactions` is the concurrent system: transactions with pending writes, row locks held to the end, statements
that see the latest committed rows and look again when a lock is granted, and aborts at any point. Retention cleanups
are transactions of it too. Its main result is that every interleaving has the effect, and gives the answers, of the
requests done one at a time. `LedgerRuns` draws the consequences for whole runs, `LogoutAnswers` says when the one
answer left open by that result is right, `LedgerProgress` that requests never deadlock while cleanups can,
`OneTimeClaims` that a reset token is redeemed once and every role removal undoes an assignment of its own,
`TokenChains` that the tokens of a login form one chain, and `TokenCleanup` that deleting old rows changes no decision.

**One-time codes, limiter, login lock.** `RedisStore` is the timed key store with its atomic scripts. `AuthHandoff` has
the store as a class and, beside it, any number of exchanges interleaving between the store's steps. `OAuthFlow` joins
OAuth state, callback, handoff code and token pair; the exchange check is that of section 4.6 of RFC 7636 with the S256
transform of section 4.2. `RateLimit` and `PasswordLogin` bound what the counter and the lock let through.

**Performance evaluator.** `PerformancePlan`, `PerformanceSamples`, `PerformanceSweep` and `PerformanceMetrics` are
plan generation, sample validation, the in-flight sweep and the comparison of percentiles and rates. The fixed sizes of
the source (10 epochs, 100 trials, 16 in flight, 20 warm-ups) are fields of the profile.

**Contract matcher and wire format.** `PythonJson`, `ContractMatch`, `ContractMeaning`, `ContractRoundTrip` and
`ContractComparison` are the matcher with captures, what its success means, what its comparison form keeps, and when two
responses compare equal. `RespCodec` is the hand-written
RESP encoder and decoder.

Some conventions hold throughout. Clock reads, drawn codes and minted digests are parameters of the operations, and a
minted digest is new: it was never stored before, not even by a token deleted since. A digest is written as the text it
digests, because SHA-256 is taken to be injective. The rows a cleanup's DELETE selects when it starts are a parameter of
the cleanup, and the statement only goes ahead when they are the ones it finds. `purged` is the history of deleted
tokens; nothing the server does depends on it.

Where documentation and code differ the code is modelled:

- `contracts/README.md:42-43` says that the predicates never make two different values equivalent, and
  `contracts/README.md:50` that reusing a capture asserts equality. The code compares with Python's `==`, for which
  `True`, `1` and `1.0` are one value. Two runtimes that answer `1` and `true` where `any` is expected, or `1700000000`
  and `1700000000.0` where a timestamp is, are reported equivalent: `ContractComparison.MixedNumbersCompareEqual`.
  `ContractComparison.PatternsThatCompareExactly` says for which expectations the promise holds: precisely those without
  `any` or timestamp outside captures. A captured `1` accepts `true` as well:
  `ContractRoundTrip.MixedNumbersAreNotRestored` gives the input and `ContractRoundTrip.RoundTripIsExactExactlyWhen` the
  condition under which the captures give every value back.
- The in-flight limit of `contracts/bin/performance.py:491-496` is not quite "at most that many requests at any
  instant": a request without duration is counted although it runs at no instant. `PerformanceSweep.LimitIsExact`
  gives the exact meaning.
- Logout returns the user it read, not the user whose token it revoked; `LedgerRuns.LogoutUserIdIsNoEvidence` gives
  two overlapping logouts that both report the user, and `LogoutAnswers.LogoutAnswersExactly` when the answer is right.

## Model

| member | source | states |
|---|---|---|
| AuthDatabase.Database.LockActiveUserForTokenIssue | auth-server/src/services/token.service.ts:126-153 | succeeds exactly for an existing active user |
| AuthDatabase.Database.PersistRefreshTokenForUser | auth-server/src/services/token.service.ts:155-183 | with a new digest the user gains exactly that one live token, nobody else's change, and every stored token keeps its holder and its revocation |
| AuthDatabase.Database.IssueTokenPair | auth-server/src/services/token.service.ts:185-201 | the two statements together are the atomic issue, denials included |
| AuthDatabase.Database.RotateRefreshToken | auth-server/src/services/token.service.ts:236-268 | read, user lock, conditional update and insert together are the atomic rotation; every refusal leaves all rows as they were |
| AuthDatabase.Database.RevokeWhereSpendable | auth-server/src/services/token.service.ts:250-257 | updates one row exactly when the token is unrevoked and unexpired, and then only its revocation date |
| AuthDatabase.Database.RevokeRefreshToken | auth-server/src/services/token.service.ts:276-287 | an undisturbed logout revokes the token and reports its user, or does nothing and reports nobody |
| RefreshLedger.ReactivationRestoresSessions | auth-server/src/services/admin-user.store.ts:35-41 | after a status and a return to active a token rotates exactly when it could before and the status was not suspension or deletion; meanwhile only an active user's tokens rotate |
| AuthDatabase.Database.RevokeAllRefreshTokensForUser | auth-server/src/services/admin-user.store.ts:16-56 | revokes exactly the unrevoked tokens of an existing user, re-dates none, and returns their number |
| AuthDatabase.Database.SetUserStatus | auth-server/src/services/admin-user.service.ts:90-154 | only suspension and deletion revoke; for a pending or active status no token changes |
| AuthDatabase.Database.AssignRole | auth-server/src/services/admin-user.service.ts:155-187 | creating the role, inserting the assignment and the rollback for a missing user together are the atomic assignment, which reports whether the user lacked the role |
| OneTimeClaims.RoleBooksBalance | auth-server/src/services/admin-user.store.ts:80-98 | in every interleaving the assignments reported, and the one at the start, are as many as the removals reported and the one at the end |
| OneTimeClaims.EveryRemovalHasItsOwnAssignment | auth-server/src/services/admin-user.store.ts:80-98 | each removal undoes an earlier assignment that no other removal undoes; only the first one may undo an assignment there was at the start |
| AuthDatabase.Database.RemoveRole | auth-server/src/services/admin-user.service.ts:188-235 | sessions are revoked exactly when a role was removed |
| AuthDatabase.Database.RevokeSessions | auth-server/src/services/admin-user.service.ts:237-255 | the whole request is the atomic revocation of all of the user's tokens |
| AuthDatabase.Database.ResetPasswordWithToken | auth-server/src/services/password-reset.store.ts:50-106 | a null result after the claim keeps the token used, a thrown error keeps nothing, success replaces the credential, clears the lock and revokes all tokens |
| AuthDatabase.Database.CleanupRefreshTokens | auth-server/src/services/token-cleanup.service.ts:30-71 | an actual cleanup is the atomic deletion of all rows expired or revoked before the cutoff, a dry run changes nothing, and both report the same count |
| RefreshLedger.ApplyAdvances | auth-server/src/services/token.service.ts:239-287 | no operation removes a user, changes a token's user, audience or expiry, undoes or re-dates a revocation, or brings back a deleted token |
| RefreshLedger.LiveTokensAreAccountedFor | auth-server/src/services/token.service.ts:155-287 | for every operation and user, the live tokens afterwards are those before, less those it rotated, revoked or deleted, and with the one it minted for that user |
| RefreshLedger.ApplyKeepsBarredUsersEmpty | auth-server/src/services/admin-user.service.ts:121-154 | every operation keeps suspended and deleted users without unrevoked tokens |
| RefreshLedger.SweepEmptiesUser | auth-server/src/services/admin-user.store.ts:42-56 | after a revoke-all its user has no unrevoked token |
| LedgerTransactions.CommitIsAtomic | auth-server/src/services/token.service.ts:239-268 | the pending writes of a transaction ready to commit, merged into rows that others changed or deleted meanwhile, are the atomic operation on those rows |
| LedgerTransactions.FinishIsAtomic | auth-server/src/services/token.service.ts:244-260 | a request that ends without writing gives the answer the atomic operation gives on the rows committed at that moment |
| LedgerTransactions.CommitChangesOnlyLocked | auth-server/src/services/admin-user.store.ts:16-56 | a commit changes only rows whose lock it holds, and mints only for a user whose row it holds |
| LedgerTransactions.TxOkAfterOthersCommit | auth-server/src/services/token.service.ts:126-153 | what a transaction has established under its locks survives every commit of another |
| LedgerTransactions.StepKeepsInv | auth-server/src/services/admin-user.store.ts:114-117 | every step of every transaction keeps the invariant that ties pending writes and locks to the committed rows |
| LedgerTransactions.StepIsAtomic | auth-server/src/services/password-reset.store.ts:50-106 | each step either leaves the committed rows alone or ends one request with its whole atomic effect |
| LedgerTransactions.InterleavingsAreSerial | auth-server/src/services/token.service.ts:185-287 | any interleaving of any number of requests and cleanups has the committed rows and the answers of the same requests one at a time |
| LedgerRuns.LockOrderIsSerialOrder | auth-server/src/services/admin-user.store.ts:16-24 | for every user, token, reset-token and role-assignment row the serial order of its holders is the order in which its lock was granted |
| LedgerRuns.ReachableStatesAreSafe | auth-server/src/services/admin-user.service.ts:121-153 | in every reachable committed state a suspended or deleted user has no unrevoked token |
| LedgerRuns.LiveTokensWereMintedUnderLaterLock | auth-server/src/services/token.service.ts:126-183 | once a user has no live token, each later one was minted under a later grant of the user's row lock |
| LedgerRuns.RevokeAllSeparatesSessions | auth-server/src/services/admin-user.service.ts:193-215 | after any revoke-all commits, every live token of that user comes from a request that was granted the row afterwards |
| LedgerRuns.LogoutUserIdIsNoEvidence | auth-server/src/services/token.service.ts:276-287 | two overlapping logouts can both report the user although one revoked the token |
| LedgerProgress.ReachableLocksFit | auth-server/src/services/password-reset.store.ts:50-105 | locks are taken role or reset row first, then user row, then token rows: in every reachable state each lock fits the point its holder is at |
| LedgerProgress.RequestsNeverDeadlock | auth-server/src/services/admin-user.store.ts:16-56 | in every reachable state with requests and no cleanup in flight some request's next statement or row visit is not blocked |
| LedgerProgress.RequestsCanFinish | auth-server/src/services/admin-user.store.ts:16-56 | from every such state all requests in flight can end, without an abort, a new request or any lock left behind |
| LedgerProgress.CleanupsCanDeadlock | auth-server/src/services/token-cleanup.service.ts:49-52 | two cleanups that find the same two rows can each lock one and wait for the other, until one of them is aborted |
| LogoutAnswers.LogoutAnswersExactly | auth-server/src/services/token.service.ts:276-287 | whatever runs between its read and its end, a logout gives its atomic answer exactly when the token is unrevoked at both moments or at neither |
| LogoutAnswers.UndisputedLogoutReportsItsRevocation | auth-server/src/services/token.service.ts:278-286 | a logout whose token nobody else revokes or deletes in between reports the user whose token it revoked |
| OneTimeClaims.ResetTokensAreRedeemedOnce | auth-server/src/services/password-reset.store.ts:52-73 | of all resets that race for one reset token at most one succeeds |
| TokenChains.HistoriesFormChains | auth-server/src/services/token.service.ts:155-183 | at every point of any history the tokens of each login, deleted ones included, form one chain with one user and one audience in which only the newest can be unrevoked |
| TokenChains.ReachableTokensFormChains | auth-server/src/services/token.service.ts:239-268 | the same in every reachable state of the concurrent system |
| TokenChains.OneLiveTokenPerLogin | auth-server/src/services/token.service.ts:250-260 | two unrevoked tokens of one login are the same token |
| TokenChains.RevocationsAreFinal | auth-server/src/services/token.service.ts:276-287 | from any point of a history to any later one no revocation is undone or re-dated and no deleted token returns |
| TokenChains.NoTokenHasTwoSuccessors | auth-server/src/services/token.service.ts:250-268 | of all rotations that present one token at most one succeeds |
| TokenChains.ConcurrentRefreshesHaveOneWinner | auth-server/src/services/token.service.ts:239-268 | when only refreshes of one live token race, the first to end succeeds and all others are denied |
| TokenCleanup.CleanupIsInvisible | auth-server/src/services/token-cleanup.service.ts:30-53 | every other request of a history decides as it would have without any of the cleanups, by a simulation between the full and the trimmed ledger |
| TokenCleanup.CleanupsNeverChangeRefresh | auth-server/src/services/token-cleanup.service.ts:55-71 | the same in every interleaving, also when a cleanup deletes a token between a rotation's read and its update |
| TokenCleanup.CleanupChangesRotationExactly | auth-server/src/services/token.service.ts:250-260 | a cleanup changes a rotation exactly when it deletes a spendable token because its cutoff runs ahead of the rotation's clock past the token's expiry |
| RedisStore.Redis.SetIfAbsent | auth-server/src/services/redis.client.ts:65-68 | stores with a deadline exactly when no live value is there, and otherwise keeps it |
| RedisStore.Redis.Consume | auth-server/src/services/redis.client.ts:4-8 | returns the live value and removes it in one step |
| RedisStore.Redis.ConsumeIfValue | auth-server/src/services/redis.client.ts:9-14 | removes the key exactly when the live value is the expected one |
| RedisStore.IncrementWithTtl | auth-server/src/services/redis.client.ts:15-21 | counts on from a live counter keeping its deadline, and starts at one with a new deadline otherwise |
| AuthHandoff.AuthHandoffStore.Create | auth-server/src/services/auth-handoff.store.ts:116-144 | stores under the first drawn code not in use, with the expiry stamp and the lifetime of two minutes, and nothing when all are in use |
| AuthHandoff.AuthHandoffStore.Consume | auth-server/src/services/auth-handoff.store.ts:145-167 | grants exactly the stored metadata to the right binding in time; removes a granted, expired or unreadable code; a wrong binding changes nothing |
| AuthHandoff.UndisturbedExchangeConsumes | auth-server/src/services/auth-handoff.store.ts:145-167 | the interleaved steps of one exchange, undisturbed, do what the store's method does |
| AuthHandoff.EveryExchangeHasItsOwnCreate | auth-server/src/services/auth-handoff.store.ts:150-166 | in any interleaving, also when a code is consumed and created again between GET and compare-and-delete, each success is charged to its own create and returns that create's metadata |
| AuthHandoff.RacingExchangesHaveOneWinner | auth-server/src/services/auth-handoff.store.ts:156-166 | through any race for a live code: no grant and the code still there before a right binding has ended, exactly one grant after |
| AuthHandoff.ExactlyOneExchangeWins | contracts/bin/shared_state.py:546-558 | of any exchanges of a live code, once one with the right binding has ended, exactly one was granted |
| AuthHandoff.WrongBindingsNeverRemoveTheCode | auth-server/src/services/auth-handoff.store.ts:161-163 | any number of wrong bindings grants nothing and leaves the code stored |
| OAuthFlow.ResolveStateMetadata | auth-server/src/services/oauth.service.ts:89-112 | succeeds exactly for a known client with an allowed redirect URI, the first allowed one by default, and carries state and challenge over |
| OAuthFlow.OAuthStateStore.Create | auth-server/src/services/oauth-state.store.ts:52-64 | stores under the first drawn state not in use, or nothing |
| OAuthFlow.OAuthStateStore.Consume | auth-server/src/services/oauth-state.store.ts:65-83 | the state is gone afterwards even for the wrong provider, which is told nothing |
| OAuthFlow.StepKeepsInv | auth-server/src/services/oauth.service.ts:225-258 | each start is in the custody of one state, callback or handoff code, whatever step any caller takes |
| OAuthFlow.IssuedPairsTraceToDistinctStarts | auth-server/src/controllers/oauth.controller.ts:71-169 | every token pair from a provider login traces to its own start: same client and redirect URI, the client policy's audience, and a verifier whose S256 transform is the start's challenge |
| RateLimit.RateLimiter.Admit | auth-server/src/middlewares/rateLimit.middleware.ts:21-34 | admits while the count with this request is within the limit; the counter moves for refused requests too |
| RateLimit.RepairNeverTriggers | auth-server/src/services/redis.client.ts:15-21 | from a store whose counters all expire no traffic leaves one without a deadline |
| RateLimit.AtMostTwiceTheLimit | auth-server/src/middlewares/rateLimit.middleware.ts:21-34 | in any interval no longer than the window one key is admitted at most twice the limit, under any arrivals |
| RateLimit.LifetimeAdmitsExactlyTheLimit | auth-server/src/middlewares/rateLimit.middleware.ts:25-34 | within one counter's lifetime exactly the smaller of arrivals and limit is admitted |
| PasswordLogin.CredentialStore.MarkLoginFailure | auth-server/src/services/password-auth.store.ts:93-109 | one more failure; from the fifth on each failure locks again |
| PasswordLogin.SuccessForgetsFailures | auth-server/src/services/password-auth.store.ts:87-92 | a success leaves the account unlocked and with all of its guesses: it locks again with the fifth failure from then on, for a period after the latest |
| PasswordLogin.CredentialStore.LoginWithPassword | auth-server/src/services/password-auth.service.ts:141-174 | which of five outcomes a login has, and that only an active unlocked account with a wrong password counts a failure |
| PasswordLogin.RacingFailuresAreCounted | auth-server/src/services/password-auth.service.ts:145-165 | N racing wrong passwords: the count is the number that read "unlocked", between 5 and N with a lock when N is at least 5, else N without one |
| PasswordLogin.LockedBound | auth-server/src/services/password-auth.service.ts:102-103 | with the count at the threshold and a lock set, at most 1 + T / 15 min wrong passwords are evaluated |
| PasswordLogin.GuessesAreBounded | auth-server/src/services/password-auth.service.ts:156-165 | from a count below the threshold at most what is left of it plus T / 15 min wrong passwords are evaluated over a span T |
| PasswordLogin.GuessBoundIsReached | auth-server/src/services/password-auth.store.ts:93-109 | from every count below the threshold, and over any number of periods, some sequence of attempts reaches that bound |
| PerformancePlan.GeneratePlan | contracts/bin/performance.py:266-294 | the four nested loops list epochs, runtimes, flows and trials in that order |
| PerformancePlan.PlanHasNoDuplicates | contracts/bin/performance.py:266-285 | every identity is planned once |
| PerformancePlan.PlanSize | contracts/bin/performance.py:398-400 | the plan has one request for each epoch, runtime, flow and trial, which for the fixed sizes are the 20000 samples asked for |
| PerformancePlan.EpochsPlanTheirBlocks | contracts/bin/performance.py:471-475 | every block of the block order has planned requests, so none is missing or empty after the identity check |
| PerformanceSamples.ValidateEpochs | contracts/bin/performance.py:326-381 | the resets by block or the first failing check, in the order of the checks, identifier and hash formats included |
| PerformanceSamples.AcceptedEpochsProveEveryBlock | contracts/bin/performance.py:326-381 | accepted epochs give every block of the plan a reset with a non-negative boundary and a safe identifier of its own |
| PerformanceSamples.CheckAndGroup | contracts/bin/performance.py:406-466 | one pass finds the first faulty sample, or all identities in order and every block's intervals |
| PerformanceSamples.ChainBlocks | contracts/bin/performance.py:476-490 | the first faulty block, or all intervals in block order |
| PerformanceSamples.ValidateSamples | contracts/bin/performance.py:393-497 | refuses for the first failing check, and never for a duplicate sample: that check cannot fire |
| PerformanceSamples.AcceptedBlocksAreChained | contracts/bin/performance.py:476-490 | accepted blocks are progressions from their boundaries, each over before the next starts |
| PerformanceSamples.AcceptedSamplesAreWellPaced | contracts/bin/performance.py:463-497 | in an accepted list every identity occurs once, every block is an arithmetic progression from its reset boundary, every request of a block is over when a later block starts, and each block alone is within the limit |
| PerformanceSamples.BlockEndIsLatest | contracts/bin/performance.py:487-489 | a block has ended by a time exactly when its last nominal slot and every one of its requests have |
| PerformanceSamples.BlockChecksAreExact | contracts/bin/performance.py:476-490 | the block checks pass exactly when every block is a progression from its reset boundary whose slots and requests are all over by the boundary of each later block |
| PerformanceSweep.Sweep | contracts/bin/performance.py:491-496 | accepts a schedule-ordered list exactly when each request, counting itself, finds at most the limit unfinished at its start |
| PerformanceSweep.SweepCountsUnfinished | contracts/bin/performance.py:493-494 | dropping ended requests at every step loses none that a later start would find unfinished |
| PerformanceSweep.LimitHoldsAtEveryInstant | contracts/bin/performance.py:491-496 | acceptance bounds the requests running at every instant |
| PerformanceSweep.LimitIsExact | contracts/bin/performance.py:491-496 | acceptance means that bound plus room for every request without duration, and nothing else |
| PerformanceSweep.LimitIsExactForPositiveLatencies | contracts/bin/performance.py:491-496 | when every request takes time acceptance is that bound |
| PerformanceSweep.ZeroLatencyIsCounted | contracts/bin/performance.py:494-495 | for every limit, boundary, spacing and larger number of requests there is a full block, one request per slot, that never exceeds the limit at any instant and is refused |
| PerformanceSweep.BlocksSweepAlone | contracts/bin/performance.py:490-496 | sweeping chained blocks together accepts exactly when sweeping each alone does |
| PerformanceMetrics.PercentileIsThreshold | contracts/bin/performance.py:500-504 | the nearest-rank percentile is at most x exactly when at least p percent of the samples are |
| PerformanceMetrics.PercentileIsLeastSample | contracts/bin/performance.py:500-504 | it is the least sample value with at least p percent of the samples at or below it |
| PerformanceMetrics.PercentileIsMonotone | contracts/bin/performance.py:500-504 | raising samples never lowers it |
| PerformanceMetrics.GroupReasonsAreExceededBounds | contracts/bin/performance.py:535-561 | a group's reasons are exactly the bounds it exceeds, error counts against the maximum, latencies as ratios and errors as rates |
| PerformanceMetrics.ComputeReasons | contracts/bin/performance.py:507-592 | all reasons in order, or none when some group of some runtime has no rows |
| PerformanceMetrics.SlowingNeverRemovesFailures | contracts/bin/performance.py:514-551 | slowing candidate requests, outcomes unchanged, removes no reason |
| PerformanceMetrics.PassMeansContractAndRatios | contracts/bin/performance.py:521-561 | with no unexpected outcome allowed there is no reason exactly when every row has its contract outcome and every group's latency ratios hold |
| PerformanceMetrics.ErrorThresholdIsRateDifference | contracts/bin/performance.py:552-561 | the cross-multiplied integer test is the comparison of error rates |
| PerformanceMetrics.LoginThresholdIsRateDifference | contracts/bin/performance.py:581-590 | the cross-multiplied integer test is the comparison of login success rates |
| ContractMatch.Captures.Apply | contracts/bin/differential.py:164-236 | the matcher that updates its captures in place gives the result, and leaves the captures, of the recursive definition, also on failure |
| ContractMatch.Captures.ApplyFields | contracts/bin/differential.py:223-226 | fields are visited in key order, each with the captures of those before it |
| ContractMatch.Captures.ApplyItems | contracts/bin/differential.py:228-233 | likewise for array items |
| ContractMatch.Captures.NormalizeResponse | contracts/bin/differential.py:239-250 | status first, then headers with extra ones allowed, then the JSON or else the plain body, sharing captures |
| ContractMatch.CapturesOnlyGrow | contracts/bin/differential.py:188-206 | no run forgets a capture or rebinds it to a different value |
| ContractMeaning.MatchBindsNames | contracts/bin/differential.py:188-206 | a successful match compares only with names captured before and binds exactly the names of the pattern |
| ContractMeaning.MatchIsSound | contracts/bin/differential.py:123-236 | after a success the value satisfies the order-free reading of the pattern under the final captures and any extension of them |
| ContractMeaning.MatchIsComplete | contracts/bin/differential.py:123-236 | a value that satisfies the pattern under some assignment in keeping with the captures is matched |
| ContractMeaning.MatchSucceedsExactlyWhenSatisfiable | contracts/bin/differential.py:164-236 | a match succeeds exactly when names are captured before use and one assignment of values to names satisfies the pattern |
| ContractRoundTrip.RebuildUndoesMatch | contracts/README.md:42-50 | rebuilding the comparison form with the final captures or any extension gives a value equal to the original, and the original itself exactly when each captured position holds the very value of its name |
| ContractRoundTrip.CapturesAreFinalBindings | contracts/bin/differential.py:188-206 | the captures a match leaves are, name by name, the value at the last position captured under it, or else the earlier capture |
| ContractRoundTrip.RoundTripIsExactExactlyWhen | contracts/README.md:42-50 | an accepted value comes back from its form exactly when each captured position holds the very value of the last position captured under its name |
| ContractRoundTrip.PlainRoundTripIsExact | contracts/README.md:42-50 | for values and captures without booleans and floats the rebuilt value is the original |
| ContractRoundTrip.PlainInputsAreRestored | contracts/README.md:42-50 | the same from a condition on the inputs alone: plain value, plain captures so far, plain token contents |
| ContractRoundTrip.MixedNumbersAreNotRestored | contracts/bin/differential.py:192-193 | a captured 1 accepts true, which comes back as 1 |
| ContractComparison.FormIgnoresCaptures | contracts/bin/differential.py:194-206 | the comparison form depends on the value alone, whatever was captured before |
| ContractComparison.EqualFormsMeanAgreement | contracts/bin/differential.py:764 | the forms of two accepted values are `==` exactly when the values are `==` at every expected position that is not captured |
| ContractComparison.PatternsThatCompareExactly | contracts/README.md:42-43 | a pattern that accepts anything never makes different values equivalent exactly when it has no `any` or timestamp outside captures |
| ContractComparison.MixedNumbersCompareEqual | contracts/bin/differential.py:125-147 | 1 and true under `any`, and 1700000000 and 1700000000.0 as timestamps, are accepted, different, and compare equal |
| ContractMatch.Captures.NormalizeSteps | contracts/bin/differential.py:635-655 | the responses of a scenario are normalised step by step over one set of captures, up to the first failure |
| ContractComparison.EqualResponsesMeanAgreement | contracts/bin/differential.py:239-250 | the comparison dictionaries of two accepted responses are `==` exactly when expected headers and body are, captured positions aside |
| ContractComparison.PlainResponsesCompareExactly | contracts/README.md:42-43 | for bodies without booleans and floats that is identity at every such position |
| ContractComparison.EqualScenariosMeanAgreement | contracts/bin/differential.py:763-765 | two runtimes that pass a scenario are reported equivalent exactly when they agree in this sense at every step |
| RespCodec.Encode | contracts/adapters/express_fixture.py:327-333 | the joined chunks are the protocol's array of bulk strings |
| RespCodec.Stream.ReadReply | contracts/adapters/express_fixture.py:335-365 | the reader that advances its stream returns, and leaves, what the decoding function says, failures included |
| RespCodec.Stream.ReadMany | contracts/adapters/express_fixture.py:364 | an array is that many replies one after another, stopping at the first failure; a negative count other than -1 is an empty array |
| RespCodec.DecodeIsStable | contracts/adapters/express_fixture.py:335-365 | bytes that arrive later change neither a decoded reply nor where it ended |
| RespCodec.DecodeUndoesSerialize | contracts/adapters/express_fixture.py:335-365 | every reply of any nesting decodes from its own serialisation and leaves exactly the bytes after it |
| RespCodec.CommandsAreFramed | contracts/adapters/express_fixture.py:327-365 | any command of byte strings, line ends included, decodes to those strings with exact framing, and no strict prefix of it decodes |

## Left out

- LedgerTransactions.InterleavingsAreSerial: makes no claim about the user id in a logout's answer, which is read before the update; LogoutAnswers.LogoutAnswersExactly says exactly when it is right.
- LedgerTransactions.CommitIsAtomic: likewise leaves a logout's user id to LogoutAnswers.LogoutAnswersExactly.
- LedgerTransactions.FinishIsAtomic: likewise leaves a logout's user id to LogoutAnswers.LogoutAnswersExactly.
- LedgerTransactions.StepIsAtomic: likewise leaves a logout's user id to LogoutAnswers.LogoutAnswersExactly.
- TokenCleanup.CleanupIsInvisible: makes no claim about revocation counts and the user id a logout returns, which do change when rows are gone.
- TokenCleanup.CleanupsNeverChangeRefresh: makes the same exception for revocation counts and the user id of a logout.
- AuthDatabase.Database.AssignRole: the statement that finds or creates the role does not return the role's id, because a role is its name here.
- LedgerProgress.RequestsNeverDeadlock: the shared locks that foreign keys put on referenced user and role rows are not modelled.
- PerformancePlan.GeneratePlan: the plan's heading (schema version, suite, hashes, row count) is not built, only its samples.
- RateLimit.AtMostTwiceTheLimit: asks for a window of at least one second; with a window of zero no counter survives its own request.
- ContractComparison.EqualScenariosMeanAgreement: both runtimes' expectations are the same; the values that fixtures and earlier captures put into them are taken as filled in already.
- ContractMatch.Captures.Apply: `$url` expectations are not modelled, and a failure carries its kind but not the path and wording of its message; what the standard library decides (UUID, date and URL syntax, base64url JSON) is a parameter.
- PerformanceMetrics.ComputeReasons: the metrics dictionary that accompanies the reasons is not built, and the aggregate is told apart from a flow that bears its name.
- RespCodec.Encode: parts are byte strings; turning other values into text is not modelled.
- RespCodec.Stream.ReadReply: simple text stays bytes instead of being decoded as UTF-8, and Python's limit on the digits of an integer is not modelled.
- JSON floats are real numbers: NaN, infinities and negative zero have no counterpart.
- JWT signing and verification, argon2 and SHA-256 internals: a presented refresh token is its digest with the audience it claims, and a password check is its outcome.
- HTTP, routing, zod schemas, provider calls, mail, JSON text: requests arrive parsed, and blank identifiers, unknown status names and malformed bodies are refused before the model begins.
- Audit rows, granting the first administrator, email verification, identity merging, user creation and deletion: they write other rows or depend on a schema that is not part of this model.
- Redis and PostgreSQL outages; a lost transaction is an abort, which may happen at any point.
- The type checks of the evaluator's documents, its provenance and profile checks: records are typed, and a profile is one that loading accepts.
- Flow drivers, launchers, fixtures beyond the wire format, environment parsing, browser scripts and static pages: sequences of independent checks.
