# Palæstra MCP bridge: a verified model

This project models the stateful engines of the Palæstra MCP bridge and proves what each of them keeps over whole runs.

| file | module | what it models |
|---|---|---|
| `common.dfy` | `Common` | Go's string prefix and search functions, truncating division, bytes |
| `ratelimit.dfy` | `RateLimit` | one token bucket: truncating refills, debits, runs of events |
| `bucketmanager.dfy` | `Buckets` | the table of buckets, two per user and backend |
| `types.dfy`, `celengine.dfy` | `Types`, `CelEngine` | the fold over policies in map order, and the disposition index |
| `heuristics.dfy`, `resolver.dfy` | `Heuristics`, `Resolver` | inferred profiles, and the four tiers a profile is resolved from |
| `enforcer.dfy` | `Enforcement` | the gate pipeline of a tool call |
| `admission.dfy` | `Admission` | the pipeline and the limiter together, over whole histories |
| `correlation.dfy` | `Correlation` | pending requests, their channels, and the racing timers |
| `spawn.dfy` | `Spawning` | spawn retries, backoff, circuit breaker |
| `warmpool.dfy` | `WarmPool` | who owns each process of a pool |
| `poolmanager.dfy` | `PoolManagement` | the canonical environment text, and pools keyed by backend and user |
| `framing.dfy` | `Framing` | Content-Length packets and newline framing |
| `envelope.dfy` | `Envelope` | the encrypted envelope, and the key arrays that are shared and wiped |
| `tokens.dfy` | `Tokens` | stored user tokens, password change, migration |
| `sessions.dfy` | `Sessions` | the web sessions, the keys they hold and wipe, and what becomes of saved tokens over whole runs |
| `approvals.dfy` | `Approvals` | the approval table under interleaved handlers and cleanup |
| `routing.dfy` | `Routing` | tool name prefixes: publishing, routing, stripping |

Classes carry the fields that the Go structs update; their methods are proved against functions on the abstract value
(`Value()`, `Levels()`, the `rows` and `tokens` tables), and the lemmas about those functions are the main results.
Protocols with concurrent steps (`Correlation`, `Spawning`, `WarmPool`, `Approvals`) are state machines whose steps are
the critical sections or SQL statements of the code, and the results hold for every interleaving.  Where the code visits a
Go map, the methods pick keys in an arbitrary order.

Clock readings, random bytes, store answers and process liveness are parameters.  A CEL expression is an arbitrary
function of the decision context (`Cel`).  AES-256-GCM (NIST SP 800-38D, section 7) and HKDF are arbitrary functions with
the laws of `Envelope.Lawful`: opening a sealed text gives it back, a seal is 16 bytes longer than its text, derived keys
have 32 bytes.  `Sessions` further assumes that the keys in play, the wiped key among them, do not open each other's seals
(`Envelope.Distinguishes`).  `LawsCanBeMet` shows functions that satisfy all of it.

## Where the code keeps less than one might expect

Each of these is settled by a condition that is proved exact, or by a concrete counterexample.

- Two users share buckets exactly when one id continues the other past a colon (`UsersCollideIffNested`).
- Priorities break ties independently of the map order exactly when nothing of known rank matched, or all contenders have
  positive priorities, or all have the same one (`PriorityOrderIndependence`).
- A request id can be reused safely exactly when no timer that carries it is still live: a timer that has fired closes
  whatever channel is registered under its id by then (`ReuseIsHarmlessIffQuiet`).
- Newline framing carries a message unchanged exactly when it is not empty, holds no line feed and does not end in a
  carriage return (`LineRoundTrip`).
- Published tool names route home exactly when no prefix starts with another one and a separator (`PublishedRoutesHome`);
  the muxer gives a name back exactly when it does not start with "prefix/" (`StripRoundTrip`).
- The handlers wipe the session's key in place, so it serves once: a saved token is readable by its owner's key exactly when
  the session still held the key of the current password (`SaveReadsBackIffUnwiped`, with the two saves of one session in
  `SecondSaveIsUnreadable`).  The master key, which backends are spawned with, always reads it (`TokensSurviveEveryRun`),
  and the next password change makes it readable again (`PasswordChangeRestores`).
- A policy that replaces the decision drops the violations noted before it, so what is reported depends on the map order:
  everything is reported exactly when nothing was noted before the winner (`AllReportedIffNothingBeforeTheWinner`).
- A call that an exhausted bucket's disposition lets through is not paid for: every ALLOW is paid in full exactly when
  neither bucket context has ALLOW for its disposition (`AllowIsPaidIffNoneAllowsExhausted`).
- A password change keeps the value a backend is spawned with exactly when the two encrypted layers of the row agree
  (`ValueSurvivesIffLayersAgree`).
- Spawn retries are bounded only for a positive limit (`UnlimitedRetries`).
- Approvals have no status guard: any row can be approved and executed again (`AnyRowCanExecuteAgain`).
- A deleted, disabled or broken policy row never leaves the engine on a reload (`UnloadableStays`).
- An environment shares its hash with other entries exactly when it has two or more entries, or one that can be cut at a
  vertical bar into two parts in order (`CollidesIffSplittable`, with an example in `VariablesCollide`); among entries
  without bars there is no collision (`HashIsCanonical`).
- Risk multipliers know "low", "med" and "high", so "medium" and "critical" cost as little as "low": a level costs more
  exactly when it is "med" or "high" (`OnlyMedAndHighCostMore`), and of two levels the worse one costs no less except
  between "high" and "critical" (`WorseCostsNoLess`).
- The action for an exhausted bucket depends on the map order exactly when declaring policies of minimal priority number
  disagree on it (`DispositionOrderIndependence`).
- Stopping a timer leaves the id safe to reuse exactly when the timer had not fired yet (`UnregisterQuietsUnlessFired`).
- An active kill switch stops a call exactly when its query succeeds (`KillSwitchNeedsItsQuery`).

## Model

| member | source | states |
|---|---|---|
| RateLimit.BucketState.Refill | ratelimit/ratelimit.go:160-167 | a refill credits the truncated whole-second accrual, clamps it at the capacity, and restamps only when it credits something |
| RateLimit.BucketState.CanConsume | ratelimit/ratelimit.go:169-172 | answers whether the refilled bucket affords the cost |
| RateLimit.BucketState.Consume | ratelimit/ratelimit.go:174-180 | debits exactly the cost when affordable; a refusal only refills |
| RateLimit.Bucket.RefillForElapsed | ratelimit/ratelimit.go:92-102 | the free-standing bucket refills by the same function |
| RateLimit.Bucket.Consume | ratelimit/ratelimit.go:104-113 | debits exactly when the level suffices |
| RateLimit.Bucket.NextFullIn | ratelimit/ratelimit.go:125-136 | the predicted seconds; a non-full bucket of rate 0 divides by zero |
| RateLimit.RefillWithinAccrual | ratelimit/ratelimit.go:160-167 | a refill never credits more than rate times the time between its stamps |
| RateLimit.RefillAddsWholeTokens | ratelimit/ratelimit.go:160-167 | a refill adds exactly the whole tokens in the whole seconds since the last one, up to the capacity, with the second reading for its stamp; without a whole token it changes nothing |
| RateLimit.CreditShare | ratelimit/ratelimit.go:92-102 | a credit exceeds a quarter of the accrual it discards, and half on a whole-second clock |
| RateLimit.FillsExactly | ratelimit/ratelimit.go:160-167 | a refill fills the bucket if and only if whole seconds times rate cover 60 times the deficit |
| RateLimit.NextFullInIsTight | ratelimit/ratelimit.go:125-136 | the prediction is never late, at most one second early, and exact if and only if the division is |
| RateLimit.LevelAndTotal | ratelimit/ratelimit.go:160-180 | over any run, resets included, the level stays within 0 and the capacity, and level plus consumption stays within start, accrual and a capacity for each reset |
| RateLimit.Throughput | ratelimit/ratelimit.go:160-180 | total consumption of any run is at most the starting level, rate times elapsed time over 60, and a capacity for each reset |
| RateLimit.AffordableIsGranted | ratelimit/ratelimit.go:169-180 | a run that asks for no more than the starting level, with ticks and resets in between, gets all it asks for |
| RateLimit.NotStarved | ratelimit/ratelimit.go:92-102 | up to the last stamp an unclamped run of any polling grants at least a quarter of the accrual, half on a whole-second clock, less the gaps inside its refills |
| RateLimit.NothingOutstanding | ratelimit/ratelimit.go:160-167 | after any event less than one token of whole-second accrual is outstanding |
| RateLimit.PollingIsRepaid | ratelimit/ratelimit.go:92-102 | the same shares over the whole time up to the last event, less at most one token and, on a finer clock, one second |
| Buckets.BucketManager.SetConfig | ratelimit/ratelimit.go:453-463 | a new configuration leaves existing buckets alone |
| Buckets.BucketManager.GetOrCreate | ratelimit/ratelimit.go:479-505 | returns the bucket of the key, creating a full one from the configuration or the defaults |
| Buckets.BucketManager.CheckAndConsume | ratelimit/ratelimit.go:507-515 | refills both buckets and debits each exactly when it affords its own cost |
| Buckets.BucketManager.RefillAll | ratelimit/ratelimit.go:527-538 | refills every bucket once |
| Buckets.BucketManager.ResetUserBuckets | ratelimit/ratelimit.go:606-621 | fills exactly the buckets whose key starts with the reset prefix |
| Buckets.BucketManager.GetBucketStatus | ratelimit/ratelimit.go:413-430 | reads level, capacity and rate of both buckets, zeros for a missing one |
| Buckets.KeyInjective | ratelimit/ratelimit.go:449-451 | for colon-free users and types, equal keys mean equal user, backend and type |
| Buckets.UsersCollideIffNested | ratelimit/ratelimit.go:449-451 | two users can share a bucket if and only if one id continues the other past a colon |
| Buckets.ResetReachesUser | ratelimit/ratelimit.go:606-621 | a reset without backend reaches exactly the named user's buckets |
| Buckets.ResetReachesBackend | ratelimit/ratelimit.go:606-621 | a reset with backend reaches exactly that user's buckets of that backend |
| Buckets.DebitIsExact | ratelimit/ratelimit.go:507-515 | a call adds at most the two named keys, leaves other buckets alone, and each debit is its own cost or nothing |
| Buckets.GrantedIffCovered | ratelimit/ratelimit.go:169-180 | each bucket grants a call if and only if its level after the refill covers its own cost |
| Buckets.FirstBucketIsAsConfigured | ratelimit/ratelimit.go:479-505 | a new bucket is full, as set for its backend and type, else 100 tokens at 20 a minute |
| Buckets.SettingIsForOne | ratelimit/ratelimit.go:453-492 | a setting holds for its backend and type and for no other |
| Buckets.ResetFillsWhatItReaches | ratelimit/ratelimit.go:606-621 | a reset leaves the buckets it reaches full and stamped, and the others as they were |
| Buckets.Isolation | ratelimit/ratelimit.go:507-621 | a call, tick or reset is, for each bucket, its own single event or nothing |
| Buckets.CallTouchesOnlyItsOwn | ratelimit/ratelimit.go:449-515 | a call is an event of exactly the two buckets of its user and backend |
| Buckets.TableRunProjects | ratelimit/ratelimit.go:507-538 | any run of the whole table is, seen from one bucket, the run of that bucket's events |
| Buckets.CreationIsSilent | ratelimit/ratelimit.go:479-515 | a call does to a bucket that it creates what it would have done had the full bucket been there |
| Buckets.TableRunFromNothing | ratelimit/ratelimit.go:479-538 | any run is, seen from any key, the run of its own events from its first value on, and a key no call names stays without a bucket |
| Buckets.TableThroughput | ratelimit/ratelimit.go:479-621 | the throughput and level bounds hold for every key, its bucket existing or yet to be created, whatever other users, the ticker and administrators interleave; each reset reaching the key adds at most a capacity |
| CelEngine.FoldIsBest | enforcer/cel_engine.go:144-205 | the fold ends with a matching policy's decision or the start, ranked at least as high as every matching policy |
| CelEngine.StrictestActionWins | enforcer/cel_engine.go:289-308 | DENY, else an administrator or legacy approval, else a user approval, else WARN, else ALLOW, by name and for every order |
| CelEngine.WorstSeverityWins | enforcer/cel_engine.go:307-313 | among the policies of the winning action CRITICAL, HIGH, MEDIUM, LOW, by name |
| CelEngine.ReportsSinceTheWinner | enforcer/cel_engine.go:165-202 | the violations are those noted from the last replacement of the decision on |
| CelEngine.AllReportedIffNothingBeforeTheWinner | enforcer/cel_engine.go:165-202 | every match and failure is reported if and only if none was noted before the winner |
| CelEngine.RankIsOrderIndependent | enforcer/cel_engine.go:288-323 | action rank and severity rank are the same for every iteration order, for all policies |
| CelEngine.MorePoliciesNeverLower | enforcer/cel_engine.go:144-205 | adding policies never lowers the rank, whatever the orders |
| CelEngine.BestTriple | enforcer/cel_engine.go:288-323 | with known actions and positive priorities the result speaks for a lexicographically best matching policy |
| CelEngine.PriorityOrderIndependence | enforcer/cel_engine.go:288-323 | the result's priority is order independent if and only if the policies are decisive: nothing of known rank matched, or all unoutranked matches have positive priorities, or all have the same one |
| CelEngine.CELEngine.AddPolicy | enforcer/cel_engine.go:92-119 | adds or replaces an enabled, compiling policy and reindexes; otherwise changes nothing |
| CelEngine.CELEngine.LoadDispositions | enforcer/cel_engine.go:121-135 | the index holds, per context, exactly the entries that the policies declare, in the order they were visited |
| CelEngine.CELEngine.RemovePolicy | enforcer/cel_engine.go:137-141 | drops the policy and leaves the index of the earlier policies in force |
| CelEngine.CELEngine.Evaluate | enforcer/cel_engine.go:144-205 | the decision is the fold over some enumeration of all policies |
| CelEngine.CELEngine.LookupDisposition | enforcer/cel_engine.go:364-376 | answers with the earliest entry of minimal priority number |
| CelEngine.DispositionIsLeast | enforcer/cel_engine.go:121-135 | for every order the answer is that of a declaring policy of minimal priority number, and is missing if and only if none declares the context |
| CelEngine.DispositionOrderIndependence | enforcer/cel_engine.go:364-376 | the action for a context is the same for every order if and only if all declaring policies of minimal priority number agree on it |
| CelEngine.LastLoadableWins | enforcer/enforcer.go:988-1003 | after a load the last enabled, compiling row of an id is the engine's policy |
| CelEngine.UnloadableStays | enforcer/enforcer.go:979-1003 | an id without a loadable row keeps the policy the engine had |
| Heuristics.ContainsWordOrPrefix | enforcer/heuristics.go:136-156 | terminates, and is true if and only if some underscore-delimited occurrence exists, overlapping ones included |
| Heuristics.HeuristicProfile | enforcer/heuristics.go:165-266 | the profile is that of the first rule with a word in the name, then promoted |
| Heuristics.MoreContextIsNeverLaxer | enforcer/heuristics.go:165-266 | description and schema never make risk, approval, cost, idempotence or PII laxer; the impact is equal |
| Heuristics.NameIsClassified | enforcer/heuristics.go:31-131 | the eight classes in order, the profile of each by value, and the strict one of a name in none |
| Heuristics.PromotionsBite | enforcer/heuristics.go:249-264 | exactly what irreversible, bulk and personal-data hints change in risk, approval, cost, idempotence and PII |
| Heuristics.EveryHintIsNoticed | enforcer/heuristics.go:165-214 | a listed word in a schema key, the description or the name has its effect |
| Resolver.MetadataResolver.RegisterOverride | enforcer/resolver.go:189-203 | stores the override under tool and backend, or rejects an incomplete profile |
| Resolver.MetadataResolver.ResolveForUser | enforcer/resolver.go:114-171 | the whole profile: of the admin override exactly when one is registered, else of a personal one exactly when the user has one, else stored, else inferred; always for the tool and backend asked for |
| Resolver.StoredRowIsTakenAsItStands | enforcer/resolver.go:144-180 | the fields of a stored profile, inferred if and only if its raw profile carries the marker |
| Resolver.PersonalRowIsTakenAsItStands | enforcer/resolver.go:126-141 | the fields of a personal override |
| Resolver.UnknownToolIsInferredFromItsName | enforcer/resolver.go:165-187 | a tool nobody described has the profile of its name |
| Enforcement.Enforcer.LoadPolicies | enforcer/enforcer.go:988-1003 | loads the stored rows in order, skipping broken ones, and leaves the index in step with the policies |
| Enforcement.Enforcer.Evaluate | enforcer/enforcer.go:452-472 | no decision exactly when a kill switch is on, otherwise that of the policies |
| Enforcement.Enforcer.ResolveDisposition | enforcer/enforcer.go:733-739 | the action of a declaring policy of minimal priority number, and DENY when none declares the context |
| Enforcement.Enforcer.HandleToolCall | enforcer/enforcer.go:475-634 | failure, decision and all bucket levels, in terms of the request, the resolved profile and the verdicts in some order |
| Enforcement.AllowIsEarned | enforcer/enforcer.go:506-607 | tokens are spent exactly for an ALLOW ruling, and only if every gate passed and no matching policy denies, warns or asks for approval |
| Enforcement.PipelineIsSound | enforcer/enforcer.go:475-634 | ALLOW without match context means every gate passed, nothing restrictive matched, and both buckets paid exactly the cost; any other decision without one leaves all levels unchanged |
| Enforcement.AdmittedExactlyWhen | enforcer/enforcer.go:475-634 | with known policy actions a call comes out as ALLOW without match context if and only if every gate lets it through and each bucket covers its cost |
| Enforcement.SpendsIffPermissible | enforcer/enforcer.go:506-610 | it reaches the buckets if and only if its justification is long enough, no active switch is found, policies permit it or are silent on a trusted profile, and no override demands a human |
| Enforcement.JustificationGate | enforcer/enforcer.go:506-527 | a justification that is too short in bytes is a denied violation, any other leaves no trace |
| Enforcement.KillSwitchGate | enforcer/enforcer.go:452-460 | a call is stopped if and only if switches are enabled and one is active for the backend or for all |
| Enforcement.UnmatchedIsRuledBySource | enforcer/enforcer.go:550-595 | with no policy: administrator approval for inferred, denied violation for unknown, paid ALLOW for trusted profiles, user approval if an override demands it |
| Enforcement.MatchedIsRuledByPolicy | enforcer/enforcer.go:597-610 | a policy's decision stands, unless an override that demands a human turns it into user approval |
| Enforcement.ExhaustionNamesItsContext | enforcer/enforcer.go:611-630 | the resource bucket's context first, then the risk bucket's, with the disposition of that context |
| Enforcement.PoliciesSeeTheUser | enforcer/enforcer.go:485-498 | role, email and trust of a known user, nothing of an unknown one |
| Enforcement.PoliciesSeeTheCall | enforcer/enforcer.go:476-545 | the call, its profile, its rate when counted, and both buckets before anything is spent |
| Enforcement.EveryPolicyIsAsked | enforcer/cel_engine.go:165-180 | the verdict of a policy is that of its own expression in the context of the call |
| Enforcement.StricterPolicyStands | enforcer/enforcer.go:545-595 | a matching policy is never ruled below its rank: DENY denies, a required approval is never waived, and neither spends tokens |
| Enforcement.RulingIsOrderIndependent | enforcer/enforcer.go:545-607 | action rank, failure and spending of the gates are the same for every iteration order, given known actions |
| Enforcement.FinalActionIsOrderIndependent | enforcer/enforcer.go:609-634 | so is the final action rank, exhausted buckets included, if the first declarers of both contexts agree |
| Enforcement.KillSwitchNeedsItsQuery | enforcer/enforcer.go:1047-1054 | an active kill switch stops a call if and only if its query succeeds; otherwise the call is ruled as if it were off |
| Enforcement.InferredCostsMore | enforcer/enforcer.go:531-539 | inferred profiles cost their multiple in both buckets, others the plain cost; only writes and deletes cost risk |
| Enforcement.RiskCostByName | ratelimit/ratelimit.go:9-45 | four times for "high", twice for "med", once for any other level of a write or deletion, nothing otherwise |
| Enforcement.WorseCostsNoLess | ratelimit/ratelimit.go:9-45 | for any two levels, the worse one costs no less risk if and only if the cost is zero, the impact is not risk scoped, or the pair is not "high" and "critical" (for a negative cost, the worse one is not "high") |
| Enforcement.OnlyMedAndHighCostMore | ratelimit/ratelimit.go:9-25 | whatever text stands for a level, it costs more risk than "low" if and only if it is "med" or "high" |
| Admission.EntryProjects | enforcer/enforcer.go:475-634 | a handled call or tick is, for each existing bucket, one event of it or none |
| Admission.AdmittedIsPaid | enforcer/enforcer.go:609-632 | an admitted call took its whole cost from both of its buckets |
| Admission.BirthIsSilent | enforcer/enforcer.go:609-632 | a call that creates a bucket is handled as if the full bucket had been there |
| Admission.AdmittedFromNothing | enforcer/enforcer.go:475-634 | the cost admitted over any history is at most what each bucket paid out since it exists |
| Admission.AdmissionIsBounded | enforcer/enforcer.go:475-634 | over any history of calls of all users, policy edits, ticks and resets, the cost a user gets admitted to a backend (ALLOW, not as the disposition of an exhausted bucket) is bounded by first level, accrual and resets of each bucket, from before the bucket exists |
| Enforcement.AllowIsPaidIffNoneAllowsExhausted | enforcer/enforcer.go:609-632 | every ALLOW is paid in full if and only if neither bucket context has ALLOW for its disposition |
| Admission.EveryAllowIsBounded | enforcer/enforcer.go:475-634 | under that condition the same bound holds for the cost of every call that goes through as ALLOW |
| Correlation.PendingTable.RegisterRequest | poolmgr/pool.go:618-639 | a new channel and armed timer are registered under the id |
| Correlation.PendingTable.UnregisterRequest | poolmgr/pool.go:641-648 | stops an armed timer and removes the entry, without closing the channel |
| Correlation.PendingTable.DispatchResponse | poolmgr/pool.go:201-233 | sends to the channel of the id unless there is none or it is full |
| Correlation.PendingTable.TimerCallback | poolmgr/pool.go:623-635 | closes and removes whatever is registered under the timer's id |
| Correlation.StepKeepsSafe | poolmgr/pool.go:201-233 | each step keeps pending channels open and under their own id, buffers at one response of the right id |
| Correlation.RunIsSafe | poolmgr/pool.go:618-648 | in every interleaving no send meets a closed channel and none is closed twice |
| Correlation.OneEntryPerChannel | poolmgr/pool.go:618-639 | a pending channel sits in exactly one entry |
| Correlation.OwnTimersOnly | poolmgr/pool.go:623-635 | if ids are reused only when quiet, only a request's own timer ever closes its channel |
| Correlation.EveryRun | poolmgr/pool.go:618-648 | from the empty table every run is safe, and with ids never reused only own timers close |
| Correlation.ReuseIsHarmlessIffQuiet | poolmgr/pool.go:618-648 | a registration is safe from other timers in every continuation, further registrations included, if and only if no timer of its id is live |
| Correlation.UnregisterQuietsUnlessFired | poolmgr/pool.go:641-648 | after unregistering, no timer of the id is live if and only if its own had not fired |
| Correlation.FirstResponseWins | poolmgr/pool.go:201-233 | the first response reaches its own channel and nothing else; a second one is dropped |
| Correlation.RegistrationIsReady | poolmgr/pool.go:618-639 | an open, empty channel of its own and an armed timer, and nothing else changed |
| Correlation.UnregisterForgets | poolmgr/pool.go:641-648 | the id is forgotten, an armed timer stopped, the channel left open |
| Correlation.StrayResponsesAreDropped | poolmgr/pool.go:201-233 | notifications and responses nobody waits for change nothing |
| Correlation.ReceivingDrainsTheChannel | poolmgr/pool.go:618-639 | a waiter takes what its channel buffers, and nothing else changes |
| Correlation.TimeoutClosesTheChannel | poolmgr/pool.go:623-630 | an unanswered registration is closed and forgotten by its own timer |
| Spawning.Spawner.SpawnAndHandshake | poolmgr/pool.go:266-397 | attempts, backoff, goroutines and delays after each way a spawn can end |
| Spawning.Spawner.ResetSpawnAttempts | poolmgr/pool.go:175-186 | zeroes the attempts and launches a goroutine if the limit had been reached |
| Spawning.AttemptsAreBounded | poolmgr/pool.go:235-397 | spawn attempts of any run are bounded by budget, launches, resets and successes |
| Spawning.FailuresAreCounted | poolmgr/pool.go:266-292 | without success or reset, attempts made and attempts left add up exactly |
| Spawning.FreshPoolGivesUp | poolmgr/pool.go:235-385 | n initial goroutines and limit M cause at most n + M - 1 attempts |
| Spawning.QuiescentPoolIsUnavailable | poolmgr/pool.go:164-172 | when all attempts are counted failures and no goroutine is left, the breaker is open after exactly n + M - 1 attempts |
| Spawning.OutcomesByName | poolmgr/pool.go:266-397 | which outcomes count as failures, end the goroutine, schedule a delay and restore it |
| Spawning.ResetRelaunchesAtTheLimit | poolmgr/pool.go:175-187 | a reset starts a goroutine if and only if the attempts had reached the limit |
| Spawning.UnlimitedRetries | poolmgr/pool.go:266-292 | with limit 0 any number of attempts can occur |
| Spawning.DelaysStayInRange | poolmgr/process.go:430-435 | in every run each delay lies between 100 ms and 5 s |
| Spawning.DelaysDouble | poolmgr/pool.go:266-385 | over a stretch without reset the k-th delay is the smaller of 100 ms times 2^(k-1) and 5 s |
| WarmPool.Pool.AddSpawned | poolmgr/pool.go:295-314 | a spawned process is counted and queued |
| WarmPool.Pool.TryAcquireWarm | poolmgr/pool.go:688-703 | hands out the head if alive; a dead head is discarded and stays counted |
| WarmPool.Pool.ReleaseWarm | poolmgr/pool.go:705-718 | requeues the process, or kills it when the queue is full, counting it either way |
| WarmPool.Pool.WaitForWarmWithMax | poolmgr/pool.go:527-573 | turn by turn up to the deadline, with whole methods of others in between: gives up at an open breaker, hands out a live head, discards a dead one |
| WarmPool.WaitingIsSound | poolmgr/pool.go:527-573 | whatever others do, processes are conserved, the one handed out was alive and is held, and "unavailable" and timeout mean what the breaker showed |
| WarmPool.StepConserves | poolmgr/pool.go:688-725 | each atomic step keeps every process in exactly one place, the queue within its capacity, and the size accounted for |
| WarmPool.EveryRunConserves | poolmgr/pool.go:295-314 | every interleaving from an empty pool conserves processes |
| WarmPool.OwnershipIsExclusive | poolmgr/pool.go:688-725 | between methods a process is warm, held or discarded, once, and the size is warm plus discarded |
| WarmPool.AcquireIsTwoSteps | poolmgr/pool.go:688-703 | a whole acquire is two of the atomic steps |
| WarmPool.ReleaseIsTwoSteps | poolmgr/pool.go:705-718 | a whole release is two of the atomic steps |
| WarmPool.ReleaseRequeuesWhileThereIsRoom | poolmgr/pool.go:705-718 | a released process is requeued at the end while there is room, and killed only when there is none |
| WarmPool.AcquireTakesTheHead | poolmgr/pool.go:688-703 | the head is held and uncounted when alive, discarded and still counted when dead |
| WarmPool.QueueIsFirstInFirstOut | poolmgr/pool.go:494-573 | every method takes from the front of the queue and puts at its end |
| WarmPool.WaitingDiscardsTheDead | poolmgr/pool.go:527-573 | left alone with enough turns, waiting hands out the first live process and discards exactly the dead ones before it |
| PoolManagement.SortInPlace | poolmgr/pool.go:69-75 | the exchange sort yields a sorted permutation |
| PoolManagement.HashEnv | poolmgr/pool.go:65-82 | the hash is the joined text of the sorted entries |
| PoolManagement.HashIgnoresOrder | poolmgr/pool.go:65-82 | reordering never changes the hash |
| PoolManagement.HashIsCanonical | poolmgr/pool.go:65-82 | for entries without a vertical bar, equal hashes if and only if equal multisets |
| PoolManagement.CollidesIffSplittable | poolmgr/pool.go:65-82 | other entries have the hash of an environment if and only if it has two or more entries, or one that can be cut at a bar into two parts in order |
| PoolManagement.VariablesCollide | poolmgr/pool.go:65-82 | A=1 and B=2 as two variables, and A with the value "1, bar, B=2", have the same hash |
| PoolManagement.UserPool.EnvMatches | poolmgr/pool.go:195-199 | compares the stored hash with that of the given environment |
| PoolManagement.PoolManager.GetOrCreateUserPool | poolmgr/manager.go:97-169 | the old pool if and only if it serves the environment and secrets, else a new one with the old shut down; other keys untouched |
| PoolManagement.PoolManager.AskTwice | poolmgr/manager.go:97-169 | two requests with reordered environments return the same pool |
| PoolManagement.PoolManager.AskWithSecrets | poolmgr/manager.go:97-169 | a pool without secrets is replaced for a request with secrets, and the new one serves both kinds |
| PoolManagement.PoolManager.RemovePoolsByBackend | poolmgr/manager.go:185-199 | shuts down, removes and counts exactly the pools of the backend |
| PoolManagement.PoolManager.CollectIdlePools | poolmgr/manager.go:239-254 | shuts down and removes exactly the dedicated pools idle past the timeout |
| PoolManagement.RemovalIsExact | poolmgr/manager.go:185-199 | for colon-free backend ids the key test is exact |
| PoolManagement.PoolKeyInjective | poolmgr/manager.go:97-169 | for colon-free backends no two users or backends share a pool |
| Framing.ReadTurn | poolmgr/process.go:341-386 | one turn of the packet loop does what Turn says of the unread bytes |
| Framing.CaptureContentLength | poolmgr/process.go:333-395 | the packet loop delivers exactly what the stream means |
| Framing.HeaderAnnounces | poolmgr/process.go:276-278 | a printed header announces the length of its body |
| Framing.HeaderSpells | poolmgr/process.go:276-278 | the header's bytes |
| Framing.PacketOnTheWire | poolmgr/process.go:276-278 | the bytes of a whole packet |
| Framing.OnlyHeadersAnnounce | poolmgr/process.go:351-355 | a line that does not start with the header announces nothing |
| Framing.BlanksAreIgnored | poolmgr/process.go:357-362 | blanks around the announced number do not matter |
| Framing.SignsByName | poolmgr/process.go:357-362 | a plus sign is accepted and a minus sign makes the number negative |
| Framing.RoundTrip | poolmgr/process.go:333-395 | packets and noise lines parse back to exactly the non-empty bodies, in order, whatever follows |
| Framing.CutStream | poolmgr/process.go:333-395 | a stream cut anywhere delivers exactly the packets that arrived whole |
| Framing.TruncationIsPrefix | poolmgr/process.go:333-395 | for any bytes, a truncation delivers a prefix of what the stream delivers |
| Framing.CaptureLines | poolmgr/process.go:280-328 | the line loop delivers exactly what the stream means |
| Framing.LinesRoundTrip | poolmgr/process.go:280-328 | line-safe messages come back unchanged and in order |
| Framing.LineRoundTrip | poolmgr/process.go:280-328 | a message survives newline framing if and only if it is line safe |
| Envelope.SplitOfLayout | internal/crypto/crypto.go:239-260 | a laid-out envelope splits into the same parts |
| Envelope.SplitIffLaidOut | internal/crypto/crypto.go:262-296 | exactly the layouts with a complete sealed text are split |
| Envelope.LayoutByPosition | internal/crypto/crypto.go:244-257 | the length with its most significant byte first, then sealed key, both nonces and sealed text |
| Envelope.Split | internal/crypto/crypto.go:262-296 | any byte string is split within bounds into parts that lay out to it, or is too short |
| Envelope.EnvelopeRoundTrip | internal/crypto/crypto.go:214-315 | decrypting an encryption gives the plaintext, for every key, text and random bytes |
| Envelope.MasterKeyOpensDataKey | internal/crypto/crypto.go:214-260 | the configured 32-byte key itself, or the one derived from it, opens the data key, and that opens the text |
| Envelope.WrongMasterKeyFails | internal/crypto/crypto.go:262-315 | under another master key decryption fails at the data key |
| Envelope.WrapRoundTrip | internal/crypto/crypto.go:368-417 | the user layer opens to what was wrapped, exactly for 32-byte keys |
| Envelope.Zeroize | internal/crypto/crypto.go:529-533 | every byte becomes zero |
| Envelope.EnvVarProvider.GetKey | internal/crypto/crypto.go:53-104 | hands out the configured key: the cache itself on the call that fills it, a copy later |
| Envelope.EnvVarProvider.Close | internal/crypto/crypto.go:114-124 | wipes and forgets the cache |
| Envelope.EnvelopeEncryptor.DeriveKey | internal/crypto/crypto.go:542-555 | always a new array holding the 32-byte key |
| Envelope.EnvelopeEncryptor.Encrypt | internal/crypto/crypto.go:214-260 | the envelope under the configured key, which decrypts to the plaintext; the cached key survives the wiping |
| Envelope.EnvelopeEncryptor.DecryptNoClose | internal/crypto/crypto.go:317-366 | decryption under the configured key; the cached key survives |
| Envelope.EnvelopeEncryptor.Decrypt | internal/crypto/crypto.go:262-315 | the same result, with the cache wiped |
| Envelope.EnvelopeEncryptor.RunCalls | internal/crypto/crypto.go:214-366 | after any sequence of calls every ciphertext made decrypts to its plaintext |
| Tokens.Store.SetUserToken | store/user.go:153-160 | stores the plain value and clears both encrypted layers |
| Tokens.Store.SetUserTokenWithUserDEK | store/user.go:407-431 | stores both layers and no plain value, or nothing for a key of the wrong size |
| Tokens.Store.GetUserTokenDecrypted | store/user.go:222-250 | the value by the master key, or the plain one |
| Tokens.Store.GetUserTokenDecryptedWithUserDEK | store/user.go:443-481 | the value by the user key, then the master key |
| Tokens.Store.MigrateSecrets | store/user.go:295-330 | encrypts exactly the rows that are still plain |
| Tokens.Store.ReencryptTokens | web/user.go:291-325 | rewrites every token of the user and no other |
| Tokens.LayeredReadsBack | store/user.go:407-481 | a freshly written row reads back on both paths |
| Tokens.ReencryptionReadsBack | web/user.go:291-325 | every recoverable token reads back on both paths under the new key |
| Tokens.ValueSurvivesIffLayersAgree | web/user.go:291-325 | the spawned value survives a password change if and only if the layers agree |
| Tokens.WrittenRowsAgree | store/user.go:153-160 | rows written by the setters and the migration have agreeing layers |
| Tokens.MigrationPreserves | store/user.go:295-330 | migration changes no token's value on either path |
| Tokens.MigrationEncryptsWhatIsPlain | store/user.go:295-330 | no value is left without a master ciphertext, and rows that had one are untouched |
| Tokens.OthersAreUntouched | web/user.go:291-325 | a password change leaves the tokens of other users alone, and no rewriting adds or drops one |
| Tokens.CiphertextBeatsPlain | store/user.go:222-250 | with a master ciphertext the plain column is never read, without one it is all there is |
| Tokens.LayeredKeepsNoPlain | store/user.go:407-431 | a row with a user layer keeps no plain value |
| Sessions.WebHandler.GetSessionDEK | web/auth.go:218-227 | hands out the very array that the session holds |
| Sessions.WebHandler.LoginPost | web/auth.go:162-168 | the session gets the key that the password derives, in an array of its own |
| Sessions.WebHandler.TokensHandler | web/user.go:145-165 | shows each token by the session's key or plain, and wipes that key |
| Sessions.WebHandler.TokensSaveHandler | web/user.go:193-225 | writes the token under the session's key and wipes it; refuses empty fields and sessions without a key |
| Sessions.WebHandler.PasswordHandler | web/user.go:267-358 | rewrites the user's tokens under the new key, and leaves the session that key wiped |
| Sessions.WebHandler.LogoutHandler | web/auth.go:198-207 | wipes and drops the session's key |
| Sessions.StepKeepsSound | web/user.go:193-358 | each operation keeps every token readable by the master key and by exactly the key its user layer was written under |
| Sessions.TokensSurviveEveryRun | web/user.go:145-358 | after any run every token reads back by the master key as what it was last set to, and by its owner's current key if and only if its user layer was last written under that key |
| Sessions.SaveReadsBackIffUnwiped | web/user.go:207-219 | a saved token is readable by its owner's key if and only if the saving session still held that key |
| Sessions.PasswordChangeRestores | web/user.go:291-325 | a password change makes every non-empty token of the user readable by the new key |
| Sessions.HandlersSpendTheKey | web/user.go:145-358 | viewing, saving and changing the password wipe the session's key |
| Sessions.SpentStaysSpent | web/auth.go:162-168 | a wiped session holds no other key until a new login |
| Sessions.SecondSaveIsUnreadable | web/user.go:207-219 | of two saves of one session the second is not readable by its owner's key; both are by the master key |
| Sessions.PageShowsWhatTheKeyOpens | web/user.go:145-165 | the page shows a token with a user layer if and only if the session holds the key that layer was written under |
| Sessions.SavesAreForOneToken | web/user.go:193-225 | a save that lacks a field or a session key changes nothing, any other leaves the other tokens alone |
| Approvals.EnforcerStore.CreateApprovalRequest | store/enforcer_store.go:106-112 | inserts the row with all persisted columns unless its id is taken |
| Approvals.EnforcerStore.RequestApproval | enforcer/enforcer.go:637-683 | files a pending row that expires after the timeout of its queue, with the defaults |
| Approvals.EnforcerStore.ApproveRequest | store/enforcer_store.go:195-199 | approves the row of the id, whatever its status |
| Approvals.EnforcerStore.DenyRequest | store/enforcer_store.go:202-206 | denies the row of the id, whatever its status |
| Approvals.EnforcerStore.CleanupExpiredApprovals | store/enforcer_store.go:209-212 | expires exactly the overdue pending rows |
| Approvals.EnforcerStore.CleanupOldApprovals | store/enforcer_store.go:215-219 | deletes exactly the old finished rows |
| Approvals.EnforcerStore.ExecuteApprovedRequest | enforcer/enforcer.go:895-946 | an undisturbed handler executes what the row recorded and files the answer, or stops after the approval without an executor, touching no other row |
| Approvals.StepKeepsRecorded | enforcer/enforcer.go:637-683 | every row, handler and execution carries the request recorded at creation |
| Approvals.StepKeepsVouched | store/enforcer_store.go:175-199 | executing and finished rows name an approver |
| Approvals.StepBalances | enforcer/enforcer.go:895-946 | no step makes more executions, done or ready, than approvals of existing rows |
| Approvals.EveryRunIsSound | enforcer/enforcer.go:895-946 | in every interleaving executions match creation, never outnumber approvals, and finished rows have an approver |
| Approvals.RowsChangeLawfully | store/enforcer_store.go:175-219 | only overdue pending rows expire, only old finished rows are deleted, requests are never rewritten |
| Approvals.StatusChangesByName | store/enforcer_store.go:175-212 | over every step: APPROVED only by an approval of the row, DENIED only by a denial of it, and likewise executing, completing, failing and expiring; nothing else changes a status |
| Approvals.VerdictsAreFiled | store/enforcer_store.go:195-206 | an approval and a denial by status, name, time and reason, with everything else left |
| Approvals.OutcomesAreFiled | store/enforcer_store.go:175-192 | what executing, completing and failing file |
| Approvals.StatementsAreForOneRow | store/enforcer_store.go:175-206 | a statement leaves other rows alone and does nothing to a missing one |
| Approvals.CleanupByName | store/enforcer_store.go:209-219 | which rows expire and which go, by status and time |
| Approvals.TimeoutsByName | enforcer/enforcer.go:643-655 | the timeouts of the queues and their defaults |
| Approvals.NewRowsArePending | enforcer/enforcer.go:657-676 | a new row is pending and holds the request and its times |
| Approvals.AnyRowCanExecuteAgain | store/enforcer_store.go:195-199 | a further approval executes a row again, whatever its status |
| Routing.ToolMuxer.RefreshPrefixes | muxer/muxer.go:495-517 | the map is rebuilt from the listed backends with a prefix |
| Routing.LastListedWins | muxer/muxer.go:495-517 | of the backends that share a prefix the last one listed has it |
| Routing.ToolMuxer.FindBackendForTool | muxer/muxer.go:317-334 | a carried prefix and its backend, else the only backend, else none |
| Routing.ToolMuxer.GetPrefixForBackend | muxer/muxer.go:389-399 | a prefix of the backend, or "" exactly when it has none |
| Routing.ToolMuxer.RoundTrip | muxer/muxer.go:317-387 | a published name returns to its backend and loses exactly its prefix |
| Routing.PublishedRoutesHome | muxer/muxer.go:317-334 | names route home for every map order if and only if the prefixes are unnested |
| Routing.StripRoundTrip | muxer/muxer.go:368-387 | muxer and executor give the name back if and only if it does not start with "prefix/" |
| Routing.ResolverStripRoundTrip | enforcer/resolver.go:12-25 | the resolver gives back every name published under the stored prefix |
| Routing.ResolverDefaultStrip | enforcer/resolver.go:12-25 | without a stored prefix it gives back exactly the names that start with no underscore |
| Routing.StrippersAgree | web/approval_executor.go:48-55 | all three strip alike if and only if the name does not start with "prefix/" |
| Routing.BodiesAgree | web/approval_executor.go:106-129 | both body editors make the same decoded body and change nothing in it but the name |

## Left out

- Floating point rounding of elapsed seconds, and 64-bit overflow of seconds times rate.
- Concurrent access to bucket fields and to the pool map: the limiter and the pool manager are sequential, and the second lookup after the pool manager's lock upgrade is not modelled.
- Persistence of bucket states, per-user limit overrides and their cost multiplier.
- The call-rate counter of the store: its answer is a parameter of a request.
- The audit log, timestamps and message texts of gate decisions, and a failure to build the CEL activation.
- Tool arguments are a map of strings, since only CEL expressions look into them.
- What callers of HandleToolCall do with its result; some continue on an empty action with an error.
- Non-ASCII white space and letter case: trimming and lower-casing are those of ASCII.
- Correlation.PendingTable.DispatchResponse: ids are compared as printed text, and the printing of decoded JSON ids is not modelled.
- Messages dropped after parsing when a channel is full, the broadcast to event streams, closed pools and shutdown.
- A header that announces more memory than the process has: allocation always succeeds.
- Closed pools end a spawning goroutine early; the spawning machine is that of an open pool.
- WarmPool.Pool.WaitForWarmWithMax: others act between turns, in whole methods, and the deadline is a number of turns; finer interleavings are those of the step machine.
- Handlers that put a process into the warm channel directly: the process counts cover the pool's own methods.
- The key parser, the Kubernetes secret provider, password hashing, PBKDF2, the second factor, its re-encryption and the login steps that carry a key through it.
- Store errors other than missing rows; the fallback to the configuration file when the store lists no backend.
- Approvals.EnforcerStore.CreateApprovalRequest: the match context is no part of a row, since the insert does not store it; ids are fresh, as random UUIDs are.
- Routing.BodiesAgree: the text of a body. Decoding turns numbers into 64-bit floats, so re-encoding can change a large integer argument, and the executor leaves the text of an unchanged name untouched.
- The legacy `params.tools` form of stripping, and prefixing of tool lists.
- HTTP handlers, templates, OAuth, seed data and display queries.
