# sing-box: DNS rule engine, DNS client and daemon, verified

A Dafny model of the state machines at the centre of this repository, with proofs about
every input, every schedule and every interleaving:

- the **DNS rule walk** (`dns/router.go`): rules are read in order, `evaluate` rules start
  exchanges that complete at any time, `race` rules wait for the responses they bind while
  the walk goes on, a one-slot wake channel carries completions, and fallback and
  fallthrough follow the decision;
- the **DNS client** (`dns/client.go`, `dns/extension_edns0_subnet.go`): one exchange in
  flight per key, the response cache with round-robin addresses, TTLs and client subnets;
- the **daemon** (`daemon/`): starting, reloading and closing under two locks, the
  connection event stream, and the receiving side of a Taildrop transfer;
- the **stored binary** format (`adapter/experimental.go`), and the legacy DNS exchange.

`dafny verify dfyconfig.toml` checks everything. The `.dfy` files follow the program:

| file | what it holds |
|---|---|
| `Dns.dfy`, `Messages.dfy` | records, messages and options as values; messages as objects that are copied and edited |
| `RuleWalk.dfy`, `RuleDriver.dfy` | the walk, the sweep and the resume loop as functions of a state and a schedule |
| `RuleOrder.dfy`, `RuleAgreement.dfy` | the sequential evaluator, and the proof that the walk agrees with it |
| `RuleReading.dfy`, `RuleQuery.dfy`, `RuleCounts.dfy` | what decisions, whole queries and counts mean, told by rules, servers and answers alone |
| `RuleSafety.dfy`, `RuleRestart.dfy`, `Fallback.dfy`, `RuleLimits.dfy` | race safety and hit accounting; termination of fallthrough; fallback; where the law stops |
| `RuleWalker.dfy` | the walk as the program runs it: an object updated in place, method by method equal to the functions |
| `ClientExchange.dfy`, `Legacy.dfy`, `Alias.dfy` | the client's two forms of exchange; the legacy exchange; alias following |
| `SingleFlight.dfy`, `Cache.dfy`, `RoundRobin.dfy`, `TimeToLive.dfy`, `Subnet.dfy` | the DNS client |
| `Lifecycle.dfy`, `LifecycleRuns.dfy`, `Connections.dfy`, `Taildrop.dfy` | the daemon |
| `SavedBinary.dfy` | the stored binary |

## How time and concurrency are modelled

The rule walk sees completions by reading a channel. Its schedule is a parameter: `delay`
and `lag` say when each exchange is done and when its signal reaches the wake channel, and
`live` lets the clock advance before every group of reads, so that an exchange may complete
between any two of them. `torn` adds the one window that matters: from recording the finished
exchanges to the reads that take the record to be complete. What servers answer (`answer`), whether rules match (`matches`)
and whether they are switched off (`disabled`) are parameters too; a theorem over all
worlds is a theorem over all schedules and all servers. The lifecycle and the table of
exchanges in flight are transition systems whose steps are the critical sections and the
atomic map and channel operations; their theorems range over all finite histories. Clocks,
randomness and the network enter as parameters only. Integers are unbounded except where a
width matters (the 64-bit numbers and lengths of the stored binary).

## What the proofs found

- **Server speed.** `docs/configuration/dns/rule_action.md:56-58` promises that the result
  depends on server speed only among race rules. This holds for every schedule in which no
  exchange completes between recording the finished ones (`dns/router.go:711-732`) and reading
  whether a rule has to wait (`dns/router.go:786-834`), and for every schedule at all if rules
  bind anonymous responses only. With completions in that window it fails for every rule list
  in which a rule that shows in the result binds a tagged response
  (`RuleLimits.TornReadsBreakTheLaw`, `RuleLimits.LawfulExactlyWithoutTags`).
- **Accepting a result.** A fallback rule with `accept_result` logs that the primary
  response is accepted (`dns/router.go:475-480`). After an earlier fallback attempt has
  failed, what is returned is that attempt's result (`Fallback.AcceptedResponseIsLost`); the
  primary is returned exactly when nothing was tried before
  (`Fallback.AcceptKeepsPrimaryExactlyWhen`).
- **Lost options.** In legacy mode the options gathered before a rule whose response is
  rejected are forgotten, since each round starts from the caller's options
  (`dns/router.go:1410-1412`). `Legacy.OptionIsLost` is an input, and
  `Legacy.ForgetsExactlyWhen` says exactly when it makes a difference.
- **Status left at starting.** A start that is interrupted leaves its status to the caller
  that interrupted it. If that caller finds the service shut down, the status stays at
  STARTING with nothing in progress. This happens only after shutdown.
- **Mislabelled records.** Round-robin order removes records by header type and puts them
  back by payload (`dns/client.go:45-92`), so a record whose header names another type may
  be lost or doubled. The proof says exactly which.
- **Announced totals.** A new connection is announced with totals loaded separately from the
  snapshot the deltas start from (`daemon/started_service.go:895-903`), so a subscriber's sum
  is off by what passed in between; `Connections.SubscriberIsRight` says exactly when it is not.
- **IPv4-mapped subnets.** A demanded client subnet written as an IPv4-mapped IPv6 prefix is
  read back from the message as an IPv4 prefix, so cache key and query differ. It is the
  only such case.

## Model

| member | source | states |
|---|---|---|
| RuleAgreement.SpeedMattersOnlyAmongRaceRules | dns/router.go:768-1131 | for every schedule the run ends with the sequential evaluator's decision, or both decisions are made by race rules, each in its own place and none before the sequential one |
| RuleAgreement.Confluence | dns/router.go:768-1022 | without race rules every completion order gives exactly the decision of the sequential evaluator; RuleReading.RunReads says what that decision means |
| RuleReading.RunReads | dns/router.go:439-453 | for every schedule there are scopes, one per rule, in which the decision can be read off the rules: the rules before it do not fire, set options, evaluate or have no usable server (or are race rules overtaken by one); a route has asked the server it names, which exists and is not a fake one unless allowed, with each option the rule's where it sets one and the scope's otherwise, and returns that server's answer; a rejection has the rule's code, else the configured one, else REFUSED, and a drop has no response; a respond rule gives the bound response and its server; no rule deciding means the default server's answer |
| RuleReading.SendsExactlyWhen | dns/router.go:859-979 | a matched rule sends a query ahead exactly if it is an evaluate rule that is speculative or has no race rule pending, or a speculative route with race rules pending and no such query yet; the query goes to the server it names; and the walk waits for the race rules exactly when one of them could still decide first |
| RuleCounts.CountsAreTrue | dns/router.go:839-851 | for every schedule, a rule is counted as hit if and only if it is on and matches in its place of the sequential reading |
| RuleAgreement.WalkFollows | dns/router.go:768-985 | every stretch of the walk keeps the invariant that ties options, bindings, armed rules and the terminal future to the sequential reading |
| RuleAgreement.DriveFollows | dns/router.go:992-1022 | from any suspension in step with the sequential reading, the resume loop ends in a verdict of that reading |
| RuleAgreement.JudgeSame | dns/router.go:1040-1128 | an armed rule whose futures are in is judged and fires exactly as the sequential reading of that rule |
| RuleOrder.VerdictInOrder | docs/configuration/dns/rule_action.md:56-58 | a verdict is the sequential decision up to a choice among race rules, the sequential one being the earliest |
| RuleOrder.VerdictExclusive | dns/router.go:405-429 | no decision of any schedule has a client subnet both set and removed |
| RuleLimits.LawfulExactlyWithoutTags | docs/configuration/dns/rule_action.md:56-58 | unless tagged responses are bound only by rules that do not show in the result by themselves, the law holds for every schedule, completions between settling and reading included, if and only if no rule binds a tagged response |
| RuleLimits.TornReadsBreakTheLaw | dns/router.go:711-838 | for every well-formed rule list with a rule that shows and binds the response of an evaluate rule, a world and a schedule in which the run is neither the sequential decision nor a choice among race rules |
| RuleDriver.NoLostWakeUp | dns/router.go:992-1022 | the resume loop reaches a decision from every suspension: whenever it blocks there is a signal still to be received |
| RuleDriver.BlockedHasSignal | dns/router.go:1007-1013 | blocking implies a future whose signal no receive has used up |
| RuleDriver.NextSignalIsLeast | dns/router.go:686-709 | the next signal is the earliest of those sent since the last receive or still to be sent, and there is one if any is outstanding |
| RuleDriver.SlotHoldsNextSignal | dns/router.go:686-709 | the one slot of the wake channel, filled by a send and left full by further ones, holds a token exactly when the next signal has been sent |
| RuleDriver.ReceiveEmptiesSlot | dns/router.go:1008-1013 | one receive uses up every signal sent up to now; what can still be received is sent later |
| RuleDriver.WalkSound | dns/router.go:768-985 | the walk refers only to futures it launched, and what it suspends on is there: an unresolved future, an armed rule, or nothing armed for a pending exchange |
| RuleDriver.DriveCancelsAll | dns/router.go:734-738 | every future has been cancelled when the resume loop returns |
| RuleDriver.RunFinishes | dns/router.go:540-552 | every run ends with a decision and with all its futures cancelled |
| RuleDriver.GivenUpNeverWaits | dns/router.go:1007-1013 | a run whose caller has given up is not made to wait for a completion signal |
| RuleDriver.GivingUpKeepsTheRule | dns/router.go:1139-1163 | a speculative exchange that is given up ends in an error with its rule and options kept, and otherwise in what its future holds |
| RuleDriver.AsyncEqualsSync | dns/router.go:1175-1213 | the asynchronous driver makes the same decision and cancels the same futures as the synchronous one |
| RuleSafety.RunSafe | dns/router.go:540-552 | in every state a run passes through, those within a sweep included: armed rules in increasing order, only speculative queries sent past pending race rules, no rule counted twice; and a rule that is not a race rule decides only with nothing armed |
| RuleSafety.SweepTakesLowest | dns/router.go:1024-1131 | a sweep commits the lowest-index armed rule that is ready, matches and can act, and passes over only rules that do not |
| RuleSafety.WalkSafe | dns/router.go:768-985 | each stretch of the walk keeps the armed list ordered and behind the cursor, and never lets a non-race rule overtake a pending one |
| RuleSafety.DriveSafe | dns/router.go:992-1022 | the resume loop keeps the same invariants up to its decision |
| RuleSafety.CountSafe | dns/router.go:844-851 | counting at the cursor happens once per rule even when a rule is matched again after a drain; RuleCounts.CountsAreTrue says that it is right |
| RuleSafety.JudgeCounts | dns/router.go:1040-1059 | an armed rule is counted once when judged, exactly unless it is disabled, and judging changes nothing else |
| RuleRestart.FallthroughEnds | dns/router.go:515-534 | the fallthrough loop ends after at most three to the number of remaining rules runs, with a result that falls no further |
| RuleRestart.ContinueEnds | dns/router.go:515-534 | from any state the number of runs is bounded by a potential of cursor and armed rules |
| RuleRestart.RestartLowers | dns/router.go:521-533 | a restart spends the cursor or an armed rule and can re-arm only larger indices, so the potential falls |
| RuleRestart.RunSpends | dns/router.go:540-552 | every run that decides by a rule spends that rule |
| RuleRestart.DecisionFallsNoFurther | dns/router.go:547-551 | the answer has an address, or its rule does not allow falling through or is the last |
| RuleQuery.QueryReads | dns/router.go:540-552 | the answer of every query: the first run's decision, read off the rules, leads through fallback to a first result; if that has no address and may fall through, the answer is the last result of a sequence of runs, the first behind the deciding rule with that result's options and nothing else, each next one behind the rule of the result before, all results but the last without an address and allowed to fall through |
| RuleQuery.DecisionReads | dns/router.go:547-551 | the same from any decision on |
| RuleQuery.ContinueReads | dns/router.go:515-534 | the restart loop makes such a sequence of runs from any state and answers with the result of the last |
| RuleQuery.RestartReads | dns/router.go:516-527 | the first run behind rule k is read off the rules from k + 1 on; without race rules it decides as the sequential evaluator does from there |
| RuleQuery.FallsThroughMeans | dns/router.go:529-538 | a result falls through if and only if it has an error, no response, a code other than success or no address, its rule allows it, and a rule stands behind it |
| RuleWalker.ExchangeWithRules | dns/router.go:987-990 | the synchronous exchange: its result is what the decision of the first run comes to, as read in RuleQuery.QueryReads |
| RuleWalker.ExchangeWithRulesAsync | dns/router.go:1175-1213 | over its three branches the asynchronous exchange calls back exactly once, with the synchronous result, since the client calls back once |
| ClientExchange.ExchangeAsync | dns/client.go:497-528 | calls back exactly once, with what the synchronous exchange returns: at once, after waiting, or when the transport is done |
| ClientExchange.Exchange | dns/client.go:479-495 | an early result, or the transport's answer finished |
| ClientExchange.ExchangeToTransportAsync | dns/client.go:864-878 | calls back once for each call of the transport, with the response its code error stands for |
| Fallback.FallbackAttempts | dns/router.go:560-588 | attempts go in strictly increasing order through the candidates, each determined by the primary alone; all but the last fail; with none the primary stands; which rules are candidates is said by Fallback.CandidatesExactly |
| Fallback.CandidatesExactly | dns/router.go:469-489 | for every primary, a fallback rule is a candidate if and only if it matches the primary response, is no accepting rule, names a server that exists and is allowed, and no matching accepting rule stands before it with a good primary |
| Fallback.AttemptAsks | dns/router.go:493-510 | an attempt asks the server its rule names, with caching, TTL and subnet the rule's where it sets them and the primary's otherwise, the rest the primary's, and keeps the rule of the primary |
| Fallback.FallbackReads | dns/router.go:560-588 | what a primary result leads to: itself if it was rejected or names no rule; otherwise the last of the attempts made in order by exactly the rules to be tried, up to the first success with an address, or itself if there are none |
| Fallback.ApplyFallback | dns/router.go:560-588 | the loop returns the result of that reading, for every primary result |
| Fallback.ResolveFallback | dns/router.go:455-513 | one search finds the first rule to be tried from the given place on, or none if there is none, asks the server it names with options built from the primary's alone, and reports where to go on |
| Fallback.AfterFallback | dns/router.go:560-588 | fallback never changes which rule a result belongs to nor whether it was a rejection |
| Fallback.TriedInTurn | dns/router.go:577-587 | each candidate is tried once and in turn, and the search stops early only at a success with an address |
| Fallback.AcceptKeepsPrimaryExactlyWhen | dns/router.go:475-480 | a search that reaches a rule accepting a good primary returns the primary if and only if nothing was tried before that rule, or the last attempt equals the primary |
| Fallback.AcceptEndsSearch | dns/router.go:469-511 | an accepting rule ends the search: the candidates are exactly the usable matching rules before it |
| Fallback.AcceptedResponseIsLost | dns/router.go:577-587 | a primary with an address, accepted after a failed attempt, whose result is that attempt's error |
| Dns.SomeAddress | adapter/inbound.go:195-234 | records have an address if and only if one of them holds a valid A or AAAA address or a valid HTTPS hint |
| Dns.RouteOptionsWin | dns/router.go:405-429 | a rule's options win over those in effect, are idempotent, and never leave a subnet both set and removed |
| RuleWalker.WalkState.constructor | dns/router.go:987-989 | a fresh walk state |
| RuleWalker.WalkState.SettleFutures | dns/router.go:711-732 | records each finished future once, the responses and transports of tagged ones with it |
| RuleWalker.WalkState.CancelFutures | dns/router.go:734-738 | cancels every future of the state |
| RuleWalker.WalkState.IsReady | dns/router.go:1028-1034 | ready exactly when every awaited future is done |
| RuleWalker.WalkState.JudgeArmed | dns/router.go:1040-1059 | one armed rule judged and counted as specified |
| RuleWalker.WalkState.SweepArmed | dns/router.go:1024-1131 | the in-place removal loop equals the specified sweep |
| RuleWalker.WalkState.PendingFutures | dns/router.go:786-798 | the unresolved futures a rule binds, in order |
| RuleWalker.WalkState.ArmCurrent | dns/router.go:781-821 | a race rule is armed, and swept at once if it waits for nothing |
| RuleWalker.WalkState.EvaluateCurrent | dns/router.go:862-884 | an evaluate rule drains, clears or launches as specified |
| RuleWalker.WalkState.RespondCurrent | dns/router.go:885-921 | a respond rule drains, waits, or answers with the bound response |
| RuleWalker.WalkState.RouteCurrent | dns/router.go:922-944 | a route rule is skipped, drains with at most one speculative query, or suspends on its exchange; RuleReading.RunReads and RuleReading.SendsExactlyWhen say which server is asked and when |
| RuleWalker.WalkState.ActOnCurrent | dns/router.go:859-979 | every action as specified |
| RuleWalker.WalkState.MatchCurrent | dns/router.go:839-854 | matching and counting of the current rule as specified |
| RuleWalker.WalkState.StepCurrent | dns/router.go:774-838 | one rule of the walk as specified |
| RuleWalker.WalkState.WalkRules | dns/router.go:773-985 | the loop over the rules as specified |
| RuleWalker.WalkState.FinishExchange | dns/router.go:1133-1173 | a pending exchange is finished and all other futures are cancelled |
| RuleWalker.WalkState.Resume | dns/router.go:992-1022 | the loop over suspensions equals the specified driver |
| RuleWalker.WalkState.RunRules | dns/router.go:540-547 | one run as specified |
| RuleWalker.WalkState.ContinueAfterFallthrough | dns/router.go:515-534 | the restart loop as specified, on the state it shares between runs |
| Legacy.CountsExactlyTheEvaluated | dns/router.go:307-400 | the rules counted are exactly those evaluated up to the deciding one, each once and in order |
| Legacy.FirstToDecide | dns/router.go:307-400 | the verdict is that of the first rule that fires and does not just set options, lack a usable server or fail its address limit: the reply the rule prescribes, or the answer of the server it names, asked with its changes laid over the options; else the default server's |
| Legacy.ApplyOverlays | dns/router.go:350-369 | each option is the change's where it sets one and as before otherwise; a fake server's answer is not cached |
| Legacy.CountsAreFair | dns/router.go:1444-1454 | a hit means a match; a matched rule is missed only if the response to its query, asked with the changes gathered since some rule, was rejected by its address limit |
| Legacy.ForgetsExactlyWhen | dns/router.go:1410-1413 | the options of the verdict are the caller's with exactly the changes made after the last rejected response, and those of a pass that forgets nothing if and only if every option was as given before that rejection or is set again after it |
| Legacy.SinceIsLastRejection | dns/router.go:1444-1450 | where gathering starts again: behind the last rule missed although it matched |
| Legacy.OptionIsLost | dns/router.go:1410-1413 | a rule list in which caching is switched off, a response is rejected, and the next route is asked with the cache |
| Legacy.Router.MatchDNS | dns/router.go:298-403 | finds the next rule that decides or asks, with the counts made so far and an address-limited route left uncounted |
| Legacy.Router.ExchangeLegacy | dns/router.go:1403-1457 | the two nested loops with deferred counting give the verdict and the counts of one pass over the rules |
| Alias.FindLastCNAMETarget | dns/router.go:1675-1715 | ends, and returns the end of the whole alias path; nothing on a cycle, without an alias, or where a wanted address is present |
| Alias.WholePathIsUnique | dns/router.go:1678-1695 | the alias path from a name is determined by the records |
| Alias.FindTarget | dns/router.go:1680-1691 | the scan returns the target so described |
| Alias.TargetExactly | dns/router.go:1680-1691 | a name has a target if and only if some alias record has that name, and it is the target of the first |
| Alias.ContextWithAliasResolution | dns/client.go:886-907 | a follow is refused exactly when it leads to its own source or to a name being followed, and otherwise adds both names |
| Alias.LeftIsTarget | dns/router.go:1675-1715 | what is left to follow is the canonical target of one of the alias records |
| Alias.FollowsAreDistinct | dns/router.go:1717-1784 | follows in progress at once, any of several predefined answers followed at each level, go to pairwise different predefined targets, none of them already followed |
| Alias.FollowsAreBounded | dns/router.go:1717-1784 | follows nest no deeper than there are targets in the predefined answers |
| SingleFlight.ExactlyOneOwner | dns/client.go:377-384 | over all interleavings a key is in the table if and only if some caller owns it, and only one does |
| SingleFlight.NothingLeftAtReturn | dns/client.go:337-436 | at every return site of an exchange, those that call release and those that do not, `releaseCond` is nil |
| SingleFlight.EveryExitReleases | dns/client.go:479-528 | so a caller that has returned has closed every channel it stored and left no entry of it |
| SingleFlight.SecondReleaseDoesNothing | dns/client.go:330-335 | a release called once more deletes nothing and closes nothing |
| SingleFlight.ClosedOnceByOwner | dns/client.go:379-384 | whoever is about to close a channel has stored it, finds it open, and no entry refers to it |
| SingleFlight.OnlyCloseCloses | dns/client.go:380-383 | no other step closes a channel |
| SingleFlight.WaiterIsServed | dns/client.go:404-418 | a waiting caller's channel is closed or still to be closed by an owner that has not waited |
| SingleFlight.WaitsAtMostOnce | dns/client.go:385-419 | a caller that starts to wait has not waited before, because a wait leaves `loaded` unset |
| SingleFlight.OneAsksAtATime | dns/client.go:377-436 | of the callers for a key that went through the table, at most one at a time is asking without having waited for another |
| SingleFlight.LooksBeforeAsking | dns/client.go:385-419 | a caller that has waited looks into the cache again before it asks |
| SingleFlight.EntersTable | dns/client.go:377-384 | a caller that does not bypass the table finds the stored channel of its key, or stores one and owns it |
| SingleFlight.OnlyWaitersAreHeldUp | dns/client.go:404-411 | only a caller waiting for an open channel is held up, and it goes on once the channel is closed |
| SingleFlight.WaitsLoaded | dns/client.go:401-408 | the only way into the wait is past a cache miss with a loaded entry |
| SingleFlight.LoopSane | dns/client.go:385-419 | the loop keeps what its variables say: a loaded entry is somebody else's to release |
| SingleFlight.HappenKeeps | dns/client.go:337-528 | the ownership invariant is kept by every step of every caller |
| Cache.Client.constructor | dns/client.go:139-166 | a constructed client's upper TTL bound is not below its lower one |
| Cache.Client.StoreCache | dns/client.go:595-615 | a private copy is stored with the lifetime given, its addresses at their first turn; a lifetime of 0 is not stored; other keys may only be evicted |
| Cache.Client.LoadResponse | dns/client.go:687-715 | what is served is the last response stored under the key, presented in fresh objects, and classified by expiry; the turn of its addresses moves on by one and nothing else in the cache changes; an entry too old is removed |
| Cache.Client.LoadTwice | dns/client.go:666-672 | two loads of an entry one after the other are served one turn and two turns on from where it stood |
| Cache.ServedLifetimes | dns/client.go:701-714 | every record served but OPT shows the seconds left of a fresh entry and one second of a stale one; without expiry the TTLs are those stored |
| Cache.LivesItsLifetime | dns/client.go:701-714 | a stored response is fresh to the end of its lifetime with the whole seconds left as TTL, then stale for the optimistic time, then gone; without expiry it is always fresh |
| Cache.Client.LoadPersistentResponse | dns/client.go:717-745 | the persistent loader classifies the same expiry and clock the same way; bytes that do not unpack are missing and to be deleted |
| Cache.Client.LoadStored | dns/client.go:675-686 | an entry of the persistent store is presented as one in memory would be, one turn on from the turn kept for its key |
| Cache.Client.Serve | dns/client.go:701-714 | a served response shares no object with the cache |
| Cache.Client.GetRoundRobin | dns/client.go:666-672 | a copy of the cached message with its addresses one turn on from the stored turn |
| Cache.Client.Bound | dns/client.go:764-767 | a TTL within the bounds is kept, one outside becomes the bound it exceeds |
| Cache.Client.ApplyResponseOptions | dns/client.go:747-773 | the lifetime is the records' own brought within bounds, or the rewritten one, and is written to every record but OPT |
| Cache.Client.KeepResponse | dns/client.go:457-463 | the TTL written to the response is the lifetime its copy is stored with, within the bounds unless rewritten |
| Cache.Client.FinishExchange | dns/client.go:438-477 | a response that fails its rule's check is passed on unchanged and not stored; any other is stored exactly if it is a success or a name error, has a lifetime, caching is on, and the environment is the one the key was made for or the key was made for none; it is stored under the key of the current environment, and given the query's ID without unasked OPT records |
| Cache.StripOPT | dns/client.go:465-474 | OPT records of a version the query did not ask for are removed, and replaced by a plain one if the query has any |
| Cache.StrippedAnswers | dns/client.go:465-474 | all but OPT records stay; a query without OPT gets none; a query of a lower version gets one of version 0 at the end, with the DNSSEC bit and without options |
| Cache.TransparentExactlyWhen | dns/client.go:666-715 | a served response is the stored one up to TTLs and the order of answers if and only if rotation is off or serves every answer once |
| Messages.Message.Copy | dns/client.go:94-98 | a copy has the same value and shares no object |
| RoundRobin.PermutesExactlyWhen | dns/client.go:37-92 | rotation serves a permutation of the answers if and only if no header disagrees with its payload in the way computed by `Copies` |
| RoundRobin.AgreeingHeadersPermute | dns/client.go:37-92 | with agreeing headers nothing is lost or doubled |
| RoundRobin.MislabelledIsLost | dns/client.go:45-53 | a concrete answer that is lost |
| RoundRobin.FamilyServed | dns/client.go:61-92 | with agreeing headers each family of addresses is served in its stored order, rotated by its index |
| RoundRobin.EveryAddressLeadsOnce | dns/client.go:74-91 | among as many successive responses as a family has addresses, each address is the first of its family in exactly one |
| RoundRobin.LeaderLeads | dns/client.go:37-43 | which address leads at an index |
| RoundRobin.ApplyRoundRobin | dns/client.go:61-92 | the loops serve the specified order and move each index on by one |
| RoundRobin.RemoveAnswersOfType | dns/client.go:45-53 | removes exactly the records whose header names the type |
| TimeToLive.ComputeTimeToLive | dns/client.go:279-297 | the least positive TTL of all records but OPT, 0 if none; for an empty answer with an SOA the lesser of its TTL and minimum |
| TimeToLive.LifetimeIsUnique | dns/client.go:265-297 | that description determines the number |
| TimeToLive.ExtractNegativeTTL | dns/client.go:265-277 | the first SOA decides, and there is none if none is reported |
| TimeToLive.NormalizeTTL | dns/client.go:299-308 | writes the TTL to every record but OPT and changes nothing else, even with shared records |
| Subnet.KeyIsCarriedExactlyWhen | dns/client.go:191-208 | the subnet in the cache key is the one carried by the query sent, for all options, clients and messages, except exactly for IPv4-mapped demanded prefixes |
| Subnet.WhatIsCarried | dns/client.go:191-208 | removal wins over everything, a valid subnet of the options over the client's, a valid one of the client over the message's own; so do the query sent and its key |
| Subnet.ProbeUsesSameKey | dns/client.go:646-664 | a cache-only probe, made before the message is prepared, uses the same subnet in its key |
| Subnet.SurvivesExactlyWhen | dns/extension_edns0_subnet.go:27-31 | a prefix read back from the option written for it is the same if and only if its address is not IPv4-mapped |
| Subnet.SubnetsAfter | dns/extension_edns0_subnet.go:62-106 | the demanded subnet becomes the first of the message's subnets; further ones stay |
| Subnet.OnlySubnetsChange | dns/extension_edns0_subnet.go:62-106 | setting a subnet changes nothing but subnets, up to a new OPT record |
| Subnet.NoneLeftAnywhere | dns/extension_edns0_subnet.go:37-60 | after removal no subnet is left |
| Subnet.OthersAreKept | dns/extension_edns0_subnet.go:37-60 | removal keeps exactly the other options, in their order |
| Subnet.ClientSubnetFromMessage | dns/extension_edns0_subnet.go:16-35 | the loops return the prefix of the first subnet option |
| Subnet.RemoveClientSubnet | dns/extension_edns0_subnet.go:37-60 | removes the options from a copy, or passes the message on; the message passed in is not modified |
| Subnet.FindSubnet | dns/extension_edns0_subnet.go:67-79 | finds the first subnet option, or the last record if it is an OPT |
| Subnet.EditClientSubnet | dns/extension_edns0_subnet.go:93-105 | edits exactly one option in place |
| Subnet.SetClientSubnet | dns/extension_edns0_subnet.go:62-106 | a message with the subnet set; the message passed in is not modified |
| Subnet.PrepareExchangeMessage | dns/client.go:825-837 | the message sent for a query; the caller's message is not modified |
| Lifecycle.EveryInterleaving | daemon/started_service.go:257-365 | at most one instance is open, STARTED implies the current instance, an interrupted instance is never published, and while the lifecycle lock is free no interruption is pending and the status is that of a service started, stopped or failed; what calls achieve is said by LifecycleRuns |
| Lifecycle.RestingIsNotStarting | daemon/started_service.go:257-323 | with no call in progress the status is not STARTING unless the service was shut down |
| Lifecycle.ShutDownLeavesStarting | daemon/started_service.go:262-265 | a history that ends with nothing in progress and the status at STARTING |
| Lifecycle.HappenKeeps | daemon/started_service.go:167-365 | the lifecycle invariant is kept by every step of every caller |
| LifecycleRuns.StartAchieves | daemon/started_service.go:257-323 | over every interleaving, a start that is let in closes the instance before it, creates one, and ends: with that instance the only one open, current, published and STARTED if creating and starting it succeeded and it was not interrupted; otherwise with nothing open, and failed unless interrupted |
| LifecycleRuns.PublishedExactlyWhen | daemon/started_service.go:300-322 | over every interleaving, an instance whose start is over is published if and only if that start returned without error and it was not interrupted |
| LifecycleRuns.CloseAchieves | daemon/started_service.go:336-358 | over every interleaving, a close that finds something to close ends with the service IDLE and nothing open |
| LifecycleRuns.CallsInterrupt | daemon/started_service.go:167-174 | over every interleaving, a start or close called while an instance is starting keeps that instance from ever being published |
| LifecycleRuns.RefusedWhenShut | daemon/started_service.go:262-265 | a start that finds the service shut down changes nothing |
| LifecycleRuns.StepsRunOut | daemon/started_service.go:257-358 | every call comes nearer to its return by each of its steps, and by no other caller's is it moved |
| LifecycleRuns.SomeoneCanGoOn | daemon/started_service.go:257-260 | no deadlock: while calls are under way the holder of the lifecycle lock can go on, and anyone can when it is free |
| LifecycleService.StartedService.InterruptStart | daemon/started_service.go:167-174 | this critical section is that step of the protocol |
| LifecycleService.StartedService.EnterStart | daemon/started_service.go:261-285 | refuses, takes the current instance away, or begins |
| LifecycleService.StartedService.BeginStart | daemon/started_service.go:280-285 | clears the mark and sets the status |
| LifecycleService.StartedService.PublishInstance | daemon/started_service.go:297-299 | makes the new instance current |
| LifecycleService.StartedService.FinishStart | daemon/started_service.go:301-322 | interrupted, failed or started, as the protocol has it; LifecycleRuns.StartAchieves says what each comes to |
| LifecycleService.StartedService.EnterClose | daemon/started_service.go:340-348 | nothing to close, or takes the instance away |
| Connections.Subscription.BuildTrafficUpdates | daemon/started_service.go:960-1056 | for active connections with distinct ids: each has a snapshot of its current counters; the events of a tracked one are exactly one update with what it grew by if it grew, else a zero update if it had traffic at the last tick, else none; those of an untracked one its announcement; those of a tracked one no longer active its closing; no other connection has any |
| Connections.Subscription.CloseInactive | daemon/started_service.go:1026-1053 | exactly the tracked connections that are not active are closed and forgotten |
| Connections.Subscription.BuildInitialConnectionState | daemon/started_service.go:892-918 | announces exactly the active connections, in order and with a snapshot of their counters each, and lists the past ones |
| Connections.Subscription.ApplyConnectionEvent | daemon/started_service.go:920-958 | a connection is announced once, with a snapshot of its counters, and forgotten when closed; any other notification changes nothing |
| Connections.Subscription.ObserveConnection | daemon/started_service.go:966-1023 | the events of one connection at a tick and its new snapshot, by whether it is tracked, grew, fell, or had traffic before |
| Connections.ObserveKeeps | daemon/started_service.go:966-1023 | every observation keeps snapshots, sums of deltas and traffic flags in agreement with the log |
| Connections.DeltasAddUp | daemon/started_service.go:982-1011 | the deltas of a connection sum to last minus first snapshot if and only if its counters have lost nothing by falling |
| Connections.SubscriberIsRight | daemon/started_service.go:895-903 | the announced totals plus the deltas are the counters last seen if and only if the totals announced exceed those first seen by what was lost by falling; so, if nothing fell, if and only if the two loads agreed |
| Connections.TrackingLoads | daemon/started_service.go:970-980 | both loads are those made when the connection was tracked; later ticks change neither |
| Connections.GrowingHasNoJumps | daemon/started_service.go:982-998 | counters that never decrease lose nothing |
| Connections.NoTwoSilences | daemon/started_service.go:984-1023 | between two zero updates of a connection there is one that is not zero |
| Connections.UpdatesAreTracked | daemon/started_service.go:969-1023 | every update is for a connection announced and not closed |
| Taildrop.SendTaildropFiles | daemon/started_service_taildrop.go:210-238 | if every file goes through, the peer was given exactly the files of the stream, each of its declared size |
| Taildrop.TransferFile | daemon/started_service_taildrop.go:210-231 | what the peer was given of one file is what the stream holds up to its FileDone |
| Taildrop.FileExactly | daemon/started_service_taildrop.go:257-276 | the stream holds a file exactly when chunks and a FileDone follow, and its bytes are those of the chunks, joined |
| Taildrop.ChunkReader.Read | daemon/started_service_taildrop.go:257-284 | a read continues the file byte by byte, returns nothing only at its end, and keeps received minus acknowledged below 1 MiB |
| Taildrop.ChunkReader.FinishFile | daemon/started_service_taildrop.go:286-311 | accepts if and only if the stream completes the file, all of it was read and its size is the declared one |
| Taildrop.ChunkReader.BeginFile | daemon/started_service_taildrop.go:252-255 | the next file starts where the last one ended |
| Taildrop.ChunkReader.Account | daemon/started_service_taildrop.go:277-282 | acknowledgements keep up with the bytes and are at least an interval apart |
| SavedBinary.RoundTrip | adapter/experimental.go:65-181 | decoding an encoding gives back every field, the time to the second, whatever follows |
| SavedBinary.OlderFilesDecode | adapter/experimental.go:165-167 | a file of a version before 2 decodes to every field it has; the hash of the URL is kept and what follows is not read |
| SavedBinary.BigEndianDigits | adapter/experimental.go:91-94 | the time is stored as its bytes, the highest first |
| SavedBinary.UvarintDigits | adapter/experimental.go:75-78 | a length is stored in groups of seven bits, the lowest first, the top bit set on all but the last |
| SavedBinary.NoPrefixDecodes | adapter/experimental.go:114-181 | no strict prefix of an encoding decodes |
| SavedBinary.EncodingIsPrefixFree | adapter/experimental.go:65-112 | no encoding is the start of another's |
| SavedBinary.SavedFile.MarshalBinary | adapter/experimental.go:65-112 | writes the encoding |
| SavedBinary.SavedFile.UnmarshalBinary | adapter/experimental.go:114-181 | assigns the fields read before an error and keeps the others |
| SavedBinary.Reader.Uvarint | adapter/experimental.go:121-124 | reads a base 128 number of at most ten bytes and 64 bits |
| SavedBinary.WriteUvarint | adapter/experimental.go:75-78 | writes a base 128 number |

## Left out

- Matching: what a rule matches (`route/rule`) is a parameter; so are the configuration checks that give rule lists the shape assumed in `RuleOrder.WellFormed` (`route/rule/rule_dns.go:79-107`, `dns/rule_legacy.go:146-250`).
- RuleAgreement.SpeedMattersOnlyAmongRaceRules: assumes that no rule is switched on or off while a query is walked, that the caller does not give up, and, for tagged responses only, that none completes between recording and reading, since with that it is false; the safety, termination and wake-up theorems assume none of this.
- RuleAgreement.Confluence: under the same assumptions.
- RuleLimits.LawfulExactlyWithoutTags: rule lists in which tagged responses are bound by other evaluate rules and by rules that change no option only are not classified: whether such a rule shows depends on the rules after it.
- Lookup: the address lookups built on the same walk (`dns/router.go:1215-1650`, `dns/client.go:530-593`) would only repeat the exchange.
- Padding of responses, reverse mapping, logging and the rejected-domain cache: no state that the theorems speak of.
- Cache.Client.LoadResponse: models the cache as a map from which any key may be evicted; concurrent loads of one entry, whose round-robin index is updated without a lock, are not interleaved.
- Cache.Client.LoadStored: does not model packing, asynchronous saving, the names under which entries are kept, or eviction of the turns kept for them.
- Cache.Client.ApplyResponseOptions: does not filter the address hints of HTTPS answers, which changes no TTL.
- Cache.StripOPT: a new OPT record's UDP size is not modelled.
- ClientExchange.ExchangeAsync: that a transport calls back once is taken from the transports.
- Background refresh of stale entries: it stores through the same operation as an exchange.
- Subnet.EditClientSubnet: the options of an OPT record are values of the record, not objects of their own; a copy in the program copies them too.
- SavedBinary.SavedFile.UnmarshalBinary: an allocation that fails for an absurd declared length is read as a decoding error.
- Taildrop.ChunkReader.Read: byte counts are unbounded integers.
- Lifecycle: instances are numbers; what creating, starting and closing one does, memory accounting, and the subscribers' channels are left out.
- Connections: how a connection is described to subscribers is reduced to its counters.
- Alias.FollowsAreDistinct: which predefined answers the rules give within a follow is a parameter; merging the followed answer into the response is not modelled.
- Generated protocol code, transports, the network quality, STUN, SSH and USB/IP handlers, and wiring of services: no logic of their own or input and output only.
