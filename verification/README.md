# BlockRemote server: verified model

A Dafny model of the state machines behind a device-security backend: refresh tokens with rotation
and revocation, the adaptive trust engine and its worker, kill-switch delivery over WebSockets, the
billing webhook with its subscription cache, the subscription guard with its rate limiter, the
bounded signal history, and the EDR risk scorer.

Handlers that update state are classes and methods with the source's control flow
(`Tokens.TokenService`, `KillSwitch.KillSwitchHub`, `Billing.BillingService`, `Worker.AnalysisWorker`,
`Edr.EdrEndpoint`, `Guard.Dispatch`, the loops of `Threat`, `Trust` and `Percentile`). Each is proved
equal to a function on values, and the properties of whole runs are lemmas about machines built from
those functions (`TokenRuns`, `Guard`, `KillSwitchRuns`, `Billing`, `Limiter`, `SignalHistory`,
`Baseline`).

| file | models |
|---|---|
| `RedisStore.dfy` | keys with deadlines, counters, SCAN, one pub/sub channel, a clock |
| `Numbers.dfy`, `Sequences.dfy` | minimum and maximum; multisets of sequences |
| `Glob.dfy` | SCAN MATCH patterns and colon-separated keys |
| `Limiter.dfy` | the fixed-window limiter, INCR and EXPIRE as separate steps |
| `Tokens.dfy`, `TokenRuns.dfy`, `HonestClients.dfy`, `RefreshBudget.dfy` | token issue, rotation, reuse detection, revocation; whole runs; when honest clients are served; how many presentations a device gets |
| `Guard.dfy`, `Charging.dfy` | the subscription guard; what a flag bars, what a plan buys and which tier is charged, over whole runs |
| `Algebra.dfy`, `Series.dfy` | real arithmetic, sums, deviations, Cauchy-Schwarz |
| `Trust.dfy`, `TrustLaws.dfy` | EMA, z-scores, correlation, the global score; what raises and lowers it |
| `Baseline.dfy`, `Percentile.dfy`, `Worker.dfy` | Welford baseline, adaptive threshold, p95 breaker, one analysis |
| `KillSwitch.dfy`, `KillSwitchRuns.dfy` | the hub object; delivery at await granularity |
| `SignalHistory.dfy` | the signal list under interleaved push and trim |
| `Billing.dfy` | webhook, tables, cache, overlapping deliveries |
| `Threat.dfy`, `Edr.dfy` | the risk scorer and the EDR endpoint |

## Results about the code that a reader may not expect

- A logout or heartbeat breach publishes before it sets the overlay flag, so a client that connects in
  between gets neither (`KillSwitchRuns.RevokeAloneCanMiss`). Worker blocks and critical EDR reports
  publish once more after the flag, and every client of the device is told anew each time, except that
  a worker block can miss clients whose device id has an inner colon
  (`KillSwitchRuns.WorkerBlockNeverMissed`). Texts from before the handler started do not count.
- The revoke pattern is built from raw ids. A glob character in an id can select other devices' keys or
  miss the device's own (`Tokens.GlobCharactersBreakRevocation`); the pattern alone decides
  (`TokenRuns.RevocationDecides`).
- Cache keys of two pairs can coincide when a user id holds a colon; the cache is transparent exactly
  when they do not (`Billing.CacheTransparency`).
- When the base lifetime exceeds the cap, an honest client can be refused and its device flagged: log in,
  rotate once, wait past the cap, present (`HonestClients.LowCapFails`). Every honest use is served
  exactly when it does not (`HonestClients.HonouredExactlyWhen`).
- With a window of zero or less the limiter admits any number of requests in one millisecond, unless
  the limit is zero (`Limiter.BurstsBoundedExactlyWhen`).
- Nothing keeps a pair to one subscription row when first events overlap: the table is the fold over the
  commits exactly when no two transactions that saw no row for one pair both commit
  (`Billing.OverlapIsFoldExactlyWhen`), and two first events of a new pair can leave two rows, so that
  its table reads raise, and its reads fail once the cache entry has lapsed
  (`Billing.TwoFirstEventsLeaveTwoRows`).
- The guard never refreshes the cache it reads, so fifteen minutes after the last applied webhook or
  cache-missing subscription read a paid pair is charged as trial (`Charging.OwnTierExactlyWhen`).

Where code and documentation disagree the code is followed: the plan limiter is a fixed window, not the
token bucket of README.md:25; detecting a reused refresh token sets `revoked:device` and does not
publish `CRITICAL_LOCK` (README.md:118); the webhook has no timestamp check (README.md:150); and
touch entropy of an all-true series is 0, not positive as tests/test_trust.py:42 expects.

## Assumptions

- Time is an integer number of milliseconds; a key is live until the clock is past its deadline; TTL
  is rounded to whole seconds, so a live key may report 0; SET refuses a non-positive expiry. The
  application clock and the Redis clock are the same.
- A key prefix is used with one Redis type only.
- JWTs are unforgeable claim records: a token verifies only if the service signed it. Fresh uuids are
  globally new and hold no colon. The keyed fingerprint hash is a parameter whose digests hold no colon; where a
  row says so it is injective. The webhook's keyed hash is a parameter too, and the payload it parses from
  the body is an input.
- Token, worker, billing and guard handlers are atomic steps, unless the lemma's machine splits them
  (limiter, kill switch, signal list, overlapping webhooks).
- A full SCAN iteration visits every key that is present throughout, possibly repeatedly, and returns to
  cursor 0; a call yields the live matching keys it visits and drops the lapsed ones.
- Floats are reals, and a square root is any non-negative real with the right square. Touch entropy is
  an input in [0, 1]. The signals, square roots and runtimes the worker reads are inputs.
- In a delivery run the relay is subscribed throughout and overlay flags do not lapse.
- Other handlers stay out of the `refresh:` keys and plan counters, and never lift a device flag.

## Model

| member | source | states |
|---|---|---|
| `Limiter.CheckRateLimit` | app/core/subscription.py:24-28 | the new store and the verdict are those of one INCR, then EXPIRE on count 1 |
| `Limiter.CheckIsRequestThenExpiry` | app/core/subscription.py:24-28 | one call is one request step of the interleaved machine plus its expiry step |
| `Limiter.FixedWindowBound` | app/core/subscription.py:24-28 | in any interleaved run, any half-open k windows admit at most (k+1) times the limit, less one for a positive limit, whatever the window |
| `Limiter.FixedWindowBoundIsAttained` | app/core/subscription.py:24-28 | for a positive window and limit, and every k from 1 to less than the window's milliseconds, some run admits exactly that many |
| `Limiter.InvRun` | app/services/tokens.py:25-31 | windows start more than a window apart, each admits its opener and at most the limit, each ends before the next |
| `Limiter.Burst` | app/core/subscription.py:24-28 | without a positive window and with a limit of at least 1, any n requests pass in one millisecond of some run |
| `Limiter.BurstsBoundedExactlyWhen` | app/core/subscription.py:24-28 | the admissions of any one millisecond have a finite bound over all runs iff the window is positive or the limit is 0 |
| `Glob.PlainPrefix` | app/services/tokens.py:79-82 | a glob-free literal and a star match exactly the strings with that prefix |
| `Glob.OwnPrefix` | app/services/tokens.py:79-82 | a literal without bracket and backslash matches all its extensions |
| `Tokens.TokenService.IssueTokens` | app/services/tokens.py:34-43 | tokens, key and lifetime of a login; no secret, or a refused SET, grants nothing |
| `Tokens.TokenService.RefreshTokens` | app/services/tokens.py:46-75 | the whole exchange: verify, count, key check, reuse flag, delete, sliding lifetime, new key |
| `Tokens.SecretMissingExactlyWhen` | app/services/tokens.py:35-36 | both handlers fail for want of a secret iff it is absent or empty, and then do nothing |
| `Tokens.UnauthorizedExactlyWhen` | app/core/security.py:100-128 | a refresh is unauthorised iff its token was never signed, is of the other type, is past exp by more than the skew, or is from the future by more than it |
| `Tokens.TooManyExactlyWhen` | app/services/tokens.py:25-31 | an authorised presentation is refused for its number iff the device's live counter stands at ten; each one counts, the first opens sixty seconds |
| `RefreshBudget.RefreshAttemptsBounded` | app/services/tokens.py:25-53 | in any k minutes of any run at most 10(k+1)-1 presentations for a device get past the counter |
| `Tokens.TokenService.RevokeDeviceTokens` | app/services/tokens.py:78-86 | the SCAN loop ends, and the store is the sweep of the visited slots, whatever other tasks do to the keys before each call |
| `Tokens.SurvivorsExactly` | app/services/tokens.py:78-86 | a matching key survives the sweep iff it was there from the start or written meanwhile, and neither visited nor removed after |
| `Tokens.PresentKeysAreDeleted` | app/services/tokens.py:78-86 | a full iteration deletes every matching key that no other task writes meanwhile |
| `Tokens.SweptSparesOthers` | app/services/tokens.py:78-86 | keys the pattern does not match, counters and channel are untouched |
| `Tokens.SweptQuietly` | app/services/tokens.py:78-86 | without interference exactly the matching keys the iteration met are gone |
| `Tokens.TokenService.RevokeAndBlock` | app/services/tokens.py:89-95 | keys gone, then the optional publish, then three one-hour flags, in that order |
| `Tokens.RevokeFlagsItsDevice` | app/services/tokens.py:89-95 | the three flags with their values and their hour, the message, and every other key not matched as it was |
| `Tokens.KeyFields` | app/services/tokens.py:17-18 | equal keys have equal jti, hash and pair prefix, whatever the ids contain |
| `Tokens.PairFields` | app/services/tokens.py:17-18 | with a colon-free user the prefix determines user and device |
| `Tokens.PatternSelectsExactlyThePair` | app/services/tokens.py:78-84 | for plain ids the revoke pattern matches a key iff it is a key of that pair |
| `Tokens.PatternSelectsOwnKeys` | app/services/tokens.py:78-84 | without bracket and backslash in the ids it matches all keys of its own pair |
| `Tokens.GlobCharactersBreakRevocation` | app/services/tokens.py:78-84 | a star selects another device's key; a backslash misses the device's own |
| `Tokens.RotatedKeyOutlivesToken` | app/services/tokens.py:66-74 | every rotated key lives to its token's exp iff base lifetime <= cap |
| `Tokens.SlidingTtlBounds` | app/services/tokens.py:66-70 | the new lifetime in every case: what was left plus the extension, raised to the base, cut at the cap |
| `TokenRuns.InvStep` | app/services/tokens.py:34-95 | every step keeps: keys belong to tokens, one per login, spent tokens have none, deadlines reach exp |
| `TokenRuns.RefreshCases` | app/services/tokens.py:46-75 | a refresh leaves the refresh keys alone, or presents a live key, deletes it and writes one new key |
| `TokenRuns.Lineage` | app/services/tokens.py:34-75 | each live key carries the user, device and hash of the login it descends from, and that login has no other live key |
| `TokenRuns.LiveKeysAtMostLogins` | app/services/tokens.py:34-75 | live refresh keys never outnumber logins |
| `TokenRuns.OldKeysNotRewritten` | app/services/tokens.py:46-75 | no step writes the key of an existing token again |
| `TokenRuns.SigningNeedsOwnUnspentToken` | app/services/tokens.py:55-63 | only an unspent token with its login's fingerprint is exchanged, and its key is gone afterwards |
| `TokenRuns.SigningNeedsOwnFingerprint` | app/services/tokens.py:50-60 | with an injective keyed hash, every refresh that signs presents the fingerprint its token's login was made with |
| `TokenRuns.FingerprintDecides` | app/services/tokens.py:50-60 | a token with a live key is exchanged under its login's fingerprint, and under any other refused as reuse, flagging the device for an hour |
| `TokenRuns.DeadStaysDead` | app/services/tokens.py:55-75 | a token without a key never gets one back and is never accepted again |
| `TokenRuns.SingleUse` | app/services/tokens.py:55-63 | after one acceptance no later presentation, in any run, signs anything |
| `TokenRuns.NoResurrection` | app/services/tokens.py:78-95 | a token whose key the revoke pattern matches is never accepted again in any run after the revocation, flags lapsed or not |
| `TokenRuns.PairIsRevokedForGood` | app/services/tokens.py:78-95 | for ids without bracket and backslash those are all tokens minted for the pair |
| `TokenRuns.RevocationDecides` | app/services/tokens.py:78-95 | a token exchangeable just before a revocation is never accepted in any later run iff the pattern matches its key |
| `TokenRuns.ReuseFlagsDevice` | app/services/tokens.py:57-60 | an accepted token presented again in time is refused and flags its device for an hour |
| `TokenRuns.GrantedTokenHasKey` | app/services/tokens.py:42-43 | what a handler grants has its key in the store |
| `TokenRuns.HonestClientSucceeds` | app/services/tokens.py:46-75 | base <= cap: an unspent, unrevoked token before its exp, own fingerprint, within the limit, is exchanged and no flag written |
| `TokenRuns.GrantedTokenIsHonoured` | app/services/tokens.py:46-75 | the same from grant to use, in terms of what the client holds |
| `HonestClients.HonouredExactlyWhen` | app/services/tokens.py:55-74 | every honest use in every run is served iff base <= cap, or nothing is ever granted (no secret, or base <= 0) |
| `HonestClients.LowCapFails` | app/services/tokens.py:66-74 | the failing run for a positive cap below the base: log in, rotate, wait past the cap, present |
| `HonestClients.NoCapFails` | app/services/tokens.py:62-74 | with a cap of 0 or less the first rotation itself is refused |
| `Guard.CheckSubscription` | app/core/subscription.py:61-97 | which plan tier to charge, or which refusal, in the order of the checks |
| `Guard.Dispatch` | app/core/subscription.py:32-112 | store and verdict of one request, refusals in order, the tier's counter charged |
| `Guard.GuardedPaths` | app/core/subscription.py:11-21 | the guarded routes are exactly those under the two prefixes |
| `Guard.InvalidTokenExactlyWhen` | app/core/subscription.py:36-45 | a bearer token is refused as invalid iff it was never signed, is not an access token, is past exp by more than the skew, or is from the future by more than it |
| `Guard.ExpiredTokenIsRefused` | app/core/security.py:83-97 | past exp and skew no guarded request gets further, whatever the rest of the state |
| `Guard.AccessTokenWorks` | app/core/security.py:143-166 | in any run, a granted access token is never refused as missing, invalid or for the wrong device until its exp, `accessMinutes` after minting |
| `Guard.ForwardedExactlyWhen` | app/core/subscription.py:32-109 | a guarded request passes iff token, times, device, flags, entitlement and counter all allow it, in terms of the stored values; an earlier refusal changes nothing |
| `Guard.PlanTable` | app/core/subscription.py:12-17 | the limit of every tier, and the tier each request is charged at |
| `Guard.CountersAreSeparate` | app/core/subscription.py:101-104 | for colon-free tiers and subjects two requests share a counter iff they agree on tier, subject and device (an empty id counting as `na`) |
| `Guard.ChargesOwnCounter` | app/core/subscription.py:101-104 | a request changes no other pair's counter |
| `Guard.RevokedDeviceIsShutOut` | app/core/subscription.py:53-56 | after a revocation no guarded request of the device passes for an hour, in any run |
| `Guard.ReuseShutsDeviceOut` | app/services/tokens.py:57-60 | nor after the detection of a reused refresh token |
| `Guard.PlanBudget` | app/core/subscription.py:101-107 | in any k minutes of any run at most (k+1) times the tier's limit, less one, is forwarded for a pair |
| `Charging.CachedEntry` | app/api/v1/billing.py:89-144 | in every run a pair's cache entry dates from its last applied event or missed read, and holds its row |
| `Charging.TierCharged` | app/core/subscription.py:58-86 | the guard charges the tier of the pair's row while that entry is at most 900 s old, and trial otherwise |
| `Charging.OwnTierExactlyWhen` | app/core/subscription.py:58-86 | a subscriber is charged its own tier iff the entry is recent or that tier is trial |
| `Charging.PaidChargedAsTrial` | app/core/subscription.py:58-86 | any plan but trial, delivered once, is charged as trial fifteen minutes later |
| `Guard.RevokeSparesFlags` | app/services/tokens.py:79-84 | a revocation never deletes a key outside `refresh:`, whatever the ids |
| `Trust.ComputeEma` | app/services/trust.py:15-21 | the loop computes the recursive average, which lies between two readings |
| `Trust.EmaWithinBounds` | app/services/trust.py:15-21 | the average stays within any bounds of the series |
| `Trust.LastNearEma` | app/services/trust.py:15-21 | the last reading is within 1.28 times the deviation (around any point) of the average, squared |
| `Trust.ZScoreBound` | app/services/trust.py:60-68 | z squared <= 1.28 n, and zero deviation gives z = 0 |
| `Trust.ZeroStdMeansNoGap` | app/services/trust.py:64-65 | with zero deviation the last reading equals the average |
| `TrustLaws.MagnitudeAdds` | app/services/trust.py:11-12 | the magnitude of a reading is the sum of the absolute values of its axes |
| `TrustLaws.ZScoreIsGapInDeviations` | app/services/trust.py:58-68 | z times the deviation is the gap between last reading and average |
| `TrustLaws.ScoreFormula` | app/services/trust.py:73-85 | the score is the blend of the two z-scores, entropy and motion delta in whole points: forty, thirty, fifteen and fifteen, each in proportion to what its part keeps |
| `TrustLaws.BlendMonotone` | app/services/trust.py:73-85 | larger deviations and more touch entropy never raise it, a larger motion delta never lowers it |
| `TrustLaws.SteadyDeviceScoresFull` | app/services/trust.py:73-85 | two flat series, no entropy and a motion delta of at least 1 score 100 |
| `TrustLaws.ShareOfEachSensor` | app/services/trust.py:73-85 | five deviations in one series cost exactly forty or thirty points before truncation |
| `TrustLaws.BlendExtremes` | app/services/trust.py:73-85 | no deviation, no entropy and a motion delta of at least 1 give 100; five deviations in both, one bit of entropy and no motion delta give 7 |
| `Trust.ScoreRange` | app/services/trust.py:73-85 | the global score lies in [7, 100] |
| `Trust.ShiftInvariant` | app/services/trust.py:58-75 | adding a constant to a series changes neither z nor component score |
| `Trust.ScaleInvariant` | app/services/trust.py:58-75 | nor does a positive scale |
| `Trust.ScoreIgnoresAccelUnit` | app/services/trust.py:49-85 | rescaling every accelerometer reading leaves the global score unchanged |
| `Trust.CorrelationBounded` | app/services/trust.py:37-46 | correlation stays in [-1, 1] |
| `TrustLaws.CorrelationIs` | app/services/trust.py:40-46 | it is the sum of the products of the deviations from the means, in units of the root |
| `TrustLaws.SelfCorrelation` | app/services/trust.py:37-46 | a series that varies correlates with itself exactly |
| `Series.CauchySchwarz` | app/services/trust.py:42-43 | the squared covariance sum is at most the product of the squared sums |
| `Baseline.WelfordStep` | app/workers/celery_app.py:101-104 | one online step turns the batch statistics of xs into those of xs and the new score |
| `Baseline.OnlineEqualsBatch` | app/workers/celery_app.py:96-107 | stored mean, m2 and count are the mean, squared deviations and length since the last 7-day gap |
| `Baseline.BaselineSane` | app/workers/celery_app.py:98-105 | m2 >= 0, and the mean lies between the bounds of the segment |
| `Baseline.Cantelli` | app/workers/celery_app.py:105-109 | fewer than n/5 values lie more than two deviations below the mean |
| `Baseline.FewScoresBelowThreshold` | app/workers/celery_app.py:98-117 | at every reachable baseline of ten or more, fewer than a fifth of the scores are in [30, threshold) |
| `Baseline.BestScoreNeverBlocked` | app/workers/celery_app.py:98-117 | a score of at least 50 that is the best of its segment is never below the threshold |
| `Baseline.StdIsTheSegments` | app/workers/celery_app.py:105 | the worker's deviation is the population standard deviation of the segment |
| `Baseline.BelowThresholdExactlyWhen` | app/workers/celery_app.py:109-117 | with fewer than ten scores, below the threshold means below 50; from ten on, below 30 or more than two deviations below the segment's mean |
| `Baseline.SegmentExtends` | app/workers/celery_app.py:107 | a score extends the segment up to seven days after the one before, and later starts it anew |
| `Percentile.P95Exceeds` | app/workers/celery_app.py:62-69 | the percentile exceeds a limit iff more than floor(n/20) samples do |
| `Percentile.P95OrderIndependent` | app/workers/celery_app.py:65-68 | it depends on the multiset of samples only |
| `Percentile.RuntimeP95` | app/workers/celery_app.py:62-68 | returns a sample with that rank among the digit entries, none for no samples |
| `Percentile.NonNegativeKeeps` | app/workers/celery_app.py:63 | every digit entry is kept as often as it occurs, zeros included, and no other |
| `Worker.ScoreOf` | app/workers/celery_app.py:85 | the score the worker uses lies in [7, 100] |
| `Worker.AnalysisWorker.Breaker` | app/workers/celery_app.py:57-73 | skips iff the queue is over 1000, or over a twentieth of the runtimes exceed 500 while a decision stands |
| `Worker.WelfordUpdate` | app/workers/celery_app.py:101-104 | the in-place update computes one Welford step |
| `Worker.AnalysisWorker.AbsorbScore` | app/workers/celery_app.py:96-107 | rewrites one baseline and keeps every baseline equal to what its history of scores in [7, 100] leads to |
| `Worker.AnalysisWorker.Decide` | app/workers/celery_app.py:110-131 | the device's decision stands for 300 s and no other changes, history recorded; a low score has its audit row and block effect |
| `Worker.AnalysisWorker.AnalyzeSignal` | app/workers/celery_app.py:57-131 | skipped, or one score absorbed and decided: blocked iff below 50 (fewer than ten scores), or below 30 or two deviations under the segment's mean; audit row, block effect and the order of its commands |
| `Worker.BlockFollowsWorkerOps` | app/workers/celery_app.py:129-131 | the commands of a block, in the order they run, are the delivery model's worker program |
| `Worker.DecimalReadsBack` | app/workers/celery_app.py:131 | the digits in the score message read back as the score |
| `KillSwitch.KillSwitchHub.Register` | app/services/kill_switch.py:12-23 | the connection is added, and the overlay text sent iff the flag is set |
| `KillSwitch.KillSwitchHub.Unregister` | app/services/kill_switch.py:25-26 | removes exactly the connections of one socket |
| `KillSwitch.KillSwitchHub.Broadcast` | app/services/kill_switch.py:28-41 | sends once to exactly the addressed connections of the snapshot; the set is the old one under the interleaving of others' joins and leaves with the removals of failed sends |
| `KillSwitch.BlockTargetsItsDevice` | app/services/kill_switch.py:29-37 | a block message for a non-empty colon-free id addresses that device only |
| `KillSwitch.BlockReachesItsDevice` | app/services/kill_switch.py:29-37 | it reaches its device iff the id has no colon or starts with one |
| `KillSwitch.OtherMessagesGoToAll` | app/services/kill_switch.py:29-37 | a message that is not a block, or a block that names no device, goes to everybody |
| `KillSwitch.ConnectedExactly` | app/services/kill_switch.py:12-41 | after any events the set holds exactly the connections that were there or joined and did not leave later |
| `KillSwitch.SnapshotKept` | app/services/kill_switch.py:35-41 | a snapshot connection that nothing removes is there after the broadcast |
| `KillSwitch.NoJoinIsLost` | app/services/kill_switch.py:35-41 | a connection that joins during a send and that nothing removes later is there after the broadcast |
| `KillSwitchRuns.RelayedExactly` | app/services/kill_switch.py:35-52 | each message is relayed in order and attempted on exactly the addressed connections of its snapshot |
| `KillSwitchRuns.ConnectionsAreTheHubs` | app/services/kill_switch.py:12-41 | in any run the machine's connections are the hub's set under the run's joins, closes and failed sends |
| `KillSwitchRuns.TakeTargetsTheHubs` | app/services/kill_switch.py:28-37 | a broadcast of the machine starts with the sends the hub attempts on its set |
| `KillSwitchRuns.StaysOpen` | app/services/kill_switch.py:12-41 | a client that is open or joins, and has no close, failed send or raised `register` later, stays open |
| `KillSwitchRuns.ConnectedAreTold` | app/services/kill_switch.py:12-41 | a publish after the flag: once it is relayed, a connected client of the device that was in the set at the publish has received the message since, and a later one the overlay text |
| `KillSwitchRuns.NoMissedKill` | app/services/kill_switch.py:12-41 | the same in steps: a client that stays open with its sends succeeding has received, after the publish, the message if it was open then, and the overlay text if it joined later |
| `KillSwitchRuns.OrderDecidesDelivery` | app/services/kill_switch.py:12-41 | a handler tells every client of the device after its own start, whatever came before and in any interleaving, iff it sets the flag before some publish to the device |
| `KillSwitchRuns.WorkerBlockNeverMissed` | app/workers/celery_app.py:129-131 | every worker block is told anew to every client of the device iff the id has no colon or starts with one |
| `KillSwitchRuns.QuarantineNeverMissed` | app/api/v1/edr.py:43-45 | every critical report is told anew to every client of the device, whatever the id |
| `KillSwitchRuns.RevokeAloneCanMiss` | app/services/tokens.py:89-95 | revoke_and_block alone can miss a client |
| `KillSwitchRuns.RevokeFollowsOps` | app/services/tokens.py:89-95 | the commands of revoke_and_block, in the order they run, are its delivery program |
| `SignalHistory.SignalList.LPush` | app/api/v1/signals.py:54 | pushes to the front and keeps the list's invariant |
| `SignalHistory.SignalList.LTrim` | app/api/v1/signals.py:55 | trims to one hundred and keeps the invariant |
| `SignalHistory.SignalList.Newest` | app/workers/celery_app.py:77 | the read is exactly the newest hundred pushes |
| `SignalHistory.BoundedHistory` | app/api/v1/signals.py:51-56 | in every interleaving a prefix of the push log, between min(100, pushes) and 100 plus pending trims |
| `Billing.BillingService.Select` | app/api/v1/billing.py:58-59 | how many rows a pair has, and the first |
| `Billing.BillingService.BillingWebhook` | app/api/v1/billing.py:30-103 | unauthorised iff the header is absent, empty or not the keyed hash of the body, and then nothing changes; otherwise duplicate check, event insert, upsert, cache write, answer |
| `Billing.BillingService.ReadSubscription` | app/api/v1/billing.py:106-144 | cache answer, or row answer with cache refresh, or not found |
| `Billing.WebhookExactlyOnce` | app/api/v1/billing.py:41-87 | the tables are the fold over the first authentic delivery of each event id at its own time; one row per pair |
| `Billing.AnswerIsLatestEvent` | app/api/v1/billing.py:58-87 | the table answers with the last first-delivered event of the pair and its expiry or seven days |
| `Billing.EveryEventWasSigned` | app/api/v1/billing.py:18-55 | in any run every event in the table came by a post whose signature is the keyed hash of its own body |
| `Billing.EverySignedPostCounts` | app/api/v1/billing.py:39-56 | and every post so signed has its event recorded |
| `Billing.WebhookAnswersTheTable` | app/api/v1/billing.py:41-48 | an accepted post is answered with what the table gives for its pair right after it |
| `Billing.FirstDeliveryIsAnswered` | app/api/v1/billing.py:60-103 | a first delivery is answered with its own plan, and a read right after gets the same |
| `Billing.ReadRefreshes` | app/api/v1/billing.py:115-144 | a read leaves a live entry with a plan tier alone, and otherwise replaces it by the row for 900 seconds |
| `Billing.FoldRow` | app/api/v1/billing.py:58-85 | the row of a pair is the one of the last applied event for it |
| `Billing.UpsertThenFind` | app/api/v1/billing.py:62-85 | an upsert changes the row of its own pair and no other answer |
| `Billing.CacheTransparency` | app/api/v1/billing.py:89-144 | cache and table answers agree in every reachable state iff the pairs' cache keys differ |
| `Billing.ColonFreeUsersAreTransparent` | app/api/v1/billing.py:115-127 | colon-free user ids are enough |
| `Billing.CollidingKeysDisagree` | app/api/v1/billing.py:90-99 | two pairs with one key have a run with a wrong answer |
| `Billing.OverlapAppliesOnce` | app/models/subscription.py:38 | in every interleaving of check, row select and commit the event table is the commits in order, each id once, and a pair has one row per commit whose select saw none |
| `Billing.OverlapIsFoldExactlyWhen` | app/api/v1/billing.py:58-87 | the tables are the fold over the commits, with one row per pair, iff no two transactions that saw no row for one pair both committed |
| `Billing.TwoFirstEventsLeaveTwoRows` | app/models/subscription.py:20-35 | any two overlapping first events of one new pair have a run that leaves two rows and no answer |
| `Threat.ScoreApps` | app/services/threat.py:26-32 | score and actions of the app pass |
| `Threat.ScoreLogs` | app/services/threat.py:47-54 | score, detection and actions of the DNS pass |
| `Threat.ComputeRisk` | app/services/threat.py:20-68 | the level is the 25/50/80 function of the returned capped score, RAT contact included; the actions in order |
| `Threat.MoreEvidenceNeverLowersRisk` | app/services/threat.py:20-68 | adding apps, permissions or logs never lowers score or level |
| `Threat.OrderIrrelevant` | app/services/threat.py:20-68 | reordering changes nothing |
| `Threat.DecisiveEvidence` | app/services/threat.py:42-58 | a blacklisted hash or the combination is at least high, RAT contact critical, permissions alone at most 35 |
| `Threat.RiskFormula` | app/services/threat.py:20-68 | the score as a formula of how many blacklisted, sideloaded and contacting entries there are, the three permissions and the combination, with the floor and the cap |
| `Threat.Indicators` | app/services/threat.py:5-18 | which hashes, domains and addresses count |
| `Edr.EdrEndpoint.Report` | app/api/v1/edr.py:26-47 | score and actions, audit row from 50, block and quarantine from 80, in that order |
| `Edr.ReasonLists` | app/api/v1/edr.py:36 | the audit reason lists the actions with semicolons, or is the default |
| `Edr.QuarantineFollowsEdrOps` | app/api/v1/edr.py:42-45 | the commands of a quarantine, in the order they run, are the delivery model's EDR program |
| `Edr.RatContactShutsDeviceOut` | app/api/v1/edr.py:26-45 | a report with RAT contact keeps the device out of guarded routes for an hour, in any run |

## Left out

- TokenRuns.SingleUse: claimed for handlers that do not overlap; `refresh_tokens` split at its awaits (ttl, delete, set) is not modelled.
- KillSwitchRuns.NoMissedKill: promises nothing to a client whose `register` raised after it joined the set.
- Billing.OverlapIsFoldExactlyWhen: the cache writes of overlapping webhooks are not part of it.
- Worker.AnalysisWorker.AnalyzeSignal: the history it scores is an input (SignalHistory says which signals it holds), and `trust_diag` and the metrics lists and histograms (`_record_hist`) are not kept.
- Guard.Dispatch: the header and query plumbing is an input, and an unparsable cached expiry is not modelled.
- JWT signatures, JWKS fetching, PEM conversion, audience and issuer.
- Attestation providers, device registration and the paywall query.
- `math.log2` entropy; float rounding; number and date strings in Redis.
- `relay_kill_switch` start and stop, resubscription and lost pub/sub messages.
- The `hb:` counter, which is incremented and never enforced, and the rest of `ingest_signal`.
- The checks of revoked devices outside the guard (app/core/auth.py) and the gRPC server.
- Non-ASCII letters in `str.lower`.
