# Verified model of the multi-egress proxy

A Dafny model of the two stateful engines of the proxy, and proofs about them.

**Scheduling and failover.** `Config` has the identities every cache is keyed by. `SmoothWrr`, `Routing` and
`SchedulerRuns` are the scheduler: one weighted round, the object with its table of rotation states, and whole runs of
plans, reloads and prunes; `PlanOrder` is the order of one plan, `RotationRuns` one route's fairness and failover order
amid all other traffic. `Health` is the registry of failure streaks, cooldowns and pins. `Router` is the server's
per-generation maintenance and head selection, `Generations` the interleaving of requests, configuration swaps and that
maintenance, step by step under the locks. `Slots` is the concurrency gate with the slots interleaved attempts hold,
`SlotRuns` the executor seen from there. `Upstream` is one egress attempt (retry matrix, evidence recorder), `Failover`
and `FailoverRuns` the walk over a plan; `Attempts`, `Executions` and `EvidenceRows` say in full what an attempt, a walk
and its evidence come to. `Requests` is the path from eligible heads to the verdict. `Redirect` is the redirect walk of
one dial and `ScanLines` the reader and consumer that cut a body into lines.

**Stream translation.** `ChatToResp` and `ChatToRespState` turn chat chunks into Responses events, and `StepEffects`
says what each step does to log and state. `EventLifecycle`, `ItemIds`, `CallArguments` and `CallDeltas` say what every
such stream looks like; `LostCalls` and `LostTexts` when it tells its client all it was sent, and `AfterCompletion` what
may still follow its completion. `ChatReference` says which events every stream is made of, `CallPieces` what its calls
carry. `NonStream` and `FoldedCalls` fold the same chunks for clients that do not stream, and `Agreement`,
`TextAgreement` and `CallAgreement` prove when both clients are shown the same. `RespToChat` is the opposite translator,
`RespReference` the chunks it sends, and `Prenorm` the tool-call repair that every request passes through. `Basics` and
`JsValues` are shared vocabulary.

How it is built: an object whose methods update fields in place is a class whose methods are proved equal to a
specification function on values (`Plan` to `PlanOn`, `Convert` to `ConvertOn`, `ExecuteObserved` to `ExecFrom`), and
the main results are lemmas over all inputs, runs or interleavings of those functions. What such a function returns is
in turn proved equal to a reading of the inputs alone, without the state and the steps it goes through: the script of a
stream (`ChatReference.StreamIsScript`), the replay of an event sequence (`RespReference.LogIsReplay`), the walk of an
execution (`Executions.ExecutionExactly`), the hops of a dial (`Redirect.WalkGoesWhereItIsSent`), the order of a plan
(`PlanOrder`), each with the constants and rules of the source written out. Goroutines and concurrent requests are state
machines over their atomic steps. Dial outcomes, the answers of the limiter, clocks, the JSON marshaller, glob matching
and header canonicalisation are parameters.

## Where the code does less than its promise

Each of these is proved: the exact condition for all inputs, and inputs that fail.

- Slots. `Acquire` does not count uncapped traffic but `Release` always decrements. The count equals the slots held
  exactly when no uncounted slot is given back while others of its egress are taken
  (`Slots.ConservedExactlyWhenHarmless`); a reload that turns a cap on breaks it (`Slots.CapTurnedOnOvershoots`).
- Tool calls that are sent but not reported. `Convert` returns before it looks at tool calls when a chunk ends inside
  a thinking span with text to show, a call without id is never reported, and a fragment after its slot's close is
  buffered for nobody. The stream tells its client every call whole exactly when every slot with an id or arguments
  gets its id in time for a report and what misses the report changes nothing of it
  (`LostCalls.NothingLostExactlyWhenHeard`; inputs that fail: `CallsInsideThinkingAreLost`, `CallsWithoutIdAreLost`,
  `LateArgumentsAreLost`).
- Text and reasoning that are sent but not in their done event. Nothing stops a delta for an item that is done: text
  after a finish, text after a tool call of its choice, reasoning after a closing tag or a finish. The done text of a
  message is all its text exactly when the message, once it has text, is closed and no text of it follows
  (`LostTexts.TextWholeExactly`, `ReasonWholeExactly`; inputs that fail: `LateTextIsLost`, `TextAfterCallIsLost`,
  `LateReasoningIsLost`).
- Events after the completion. Chunks after a finish are translated like any others. Events follow the completion
  exactly when a chunk after the first seen finish has something to say (`AfterCompletion.EmitsLate` lists what) or to
  close (`AfterCompletion.NothingFollowsExactlyWhenQuiet`; input: `LateTextFollowsCompletion`).
- Closing think tag without an opening one. Text before it goes out as a reasoning delta of an item without an id. All
  other response, message and reasoning events name theirs, so all do exactly when no chunk is of that kind
  (`ItemIds.EventsNameTheirItems`, `ItemIds.StrayCloseHappens`).
- Streaming against folding. The stream reports only calls with an id, under their last name, and trims white space
  before it unwraps custom input; the fold reports every slot, under all its names joined, and does not trim. The
  lists agree exactly when every call has an id, its name in one piece, and arguments both sides unwrap alike
  (`CallAgreement.CallsAgree`; inputs that fail: `SplitNameDiffers`, `UnidentifiedCallDiffers`, `WhiteSpaceDiffers`).
- Streaming against folding, texts. The stream takes think tags out of the content and other vendor shapes into the
  reasoning; the fold joins content and reasoning_content as they are. In a stream of one choice the texts agree exactly
  when there are no tags and no text is late (`TextAgreement.TextsAgreeExactly`); the reasoning agrees exactly when what
  the stream reports is the joined reasoning_content (`ReasonsAgreeExactly`, `WholeReasonsAgreeExactly`; inputs that
  fail: `TaggedTextDiffers`, `LateTextDiffers`, `VendorReasoningDiffers`).
- Tool-call repair. An id without any legal character is replaced by one made of its own place, so a call and the tool
  message that answers it by that id part, exactly then (`Prenorm.AnswerSurvivesExactly`).

## Model

| member | source | states |
|---|---|---|
| `Config.HasControlByte` | internal/config/file.go:131-138 | true exactly when some character is an ASCII control character |
| `Config.SchedulerFingerprint` | internal/routing/routing.go:301-321 | the string the loop builds is the NUL-joined list of normalized strategy, route id, member count and members, with each weight under weighted round robin |
| `Config.JoinNulInjective` | internal/routing/routing.go:301-321 | a list of NUL-free fields can be read back from its join: equal joins come from equal lists |
| `Config.FingerprintDecodes` | internal/routing/routing.go:301-321 | two validated routes have the same fingerprint exactly when normalized strategy, id, ordered members and (weighted only) all weights agree |
| `Config.SignatureDecodes` | internal/config/file.go:104-109 | two transport signatures are equal exactly when the proxies are equal |
| `Config.HealthKeyDecodes` | internal/config/file.go:123-125 | two health keys are equal exactly when egress id and proxy are both equal |
| `SmoothWrr.RoundElectsFirstMaximum` | internal/routing/routing.go:160-177 | one round elects the first candidate whose total plus weight is maximal and charges it the pool's total; everyone else just gains their weight |
| `SmoothWrr.RoundConserves` | internal/routing/routing.go:162-177 | a round never moves the sum of the totals |
| `SmoothWrr.RoundFrame` | internal/routing/routing.go:162-177 | totals of ids outside the pool are untouched and no key but a pool member's appears |
| `SmoothWrr.Accounting` | internal/routing/routing.go:162-177 | after t rounds a total is its start plus t times its weight minus the pool total times its wins |
| `SmoothWrr.FreshBounds` | internal/routing/routing.go:162-177 | from fresh state totals sum to 0 and each stays at least 1 minus the pool total |
| `SmoothWrr.PrefixShare` | internal/routing/routing.go:162-177 | among the first t rounds a member wins at most the rounded-up t*w/T |
| `SmoothWrr.WithinShareIsCeiling` | internal/routing/routing.go:162-177 | the bound used is the one by the rounded-up quotient, both ways |
| `SmoothWrr.FullCycle` | internal/routing/routing.go:162-177 | after T rounds every member won exactly its weight and every total reads 0 again |
| `SmoothWrr.EveryWindowIsExact` | internal/routing/routing.go:162-177 | any T consecutive rounds, wherever they start, elect each member exactly its weight many times |
| `Routing.PickWeighted` | internal/routing/routing.go:160-177 | the in-place selection loop returns the totals and the winner of one round |
| `Routing.PositivePool` | internal/routing/routing.go:142-148 | the pool is the heads of positive weight, in order |
| `Routing.DropFrom` | internal/routing/routing.go:369-377 | the heads without the winner, in order |
| `Routing.ResolveEgresses` | internal/routing/routing.go:351-359 | each attempt is resolved against the snapshot, a missing one stays empty |
| `Routing.Scheduler.RotationFor` | internal/routing/routing.go:232-246 | returns the stored state when the shape matches, an unstored fresh one when a newer generation wrote another shape, else stores a fresh one tagged with the generation |
| `Routing.Scheduler.Plan` | internal/routing/routing.go:129-186 | table and plan after the call are those of PlanOn; what that plan is, order and all, is PlanOrder.WeightedPlanIsLed, TurnPlanIsInTurn, LeaderlessPlanIsEmpty, PlanStores and PlanResolves |
| `Routing.Scheduler.PruneRoutes` | internal/routing/routing.go:333-344 | keeps exactly the kept routes and counts the dropped ones |
| `PlanOrder.WeightedPlanIsLed` | internal/routing/routing.go:142-178 | a weighted plan starts with the first head of positive weight whose total plus weight is highest; the other heads follow in head order, weightless ones too; the stored totals charge the leader the weights' sum and give each weighted head its weight |
| `PlanOrder.TurnPlanIsInTurn` | internal/routing/routing.go:179-183 | any other plan is the heads in turn: entry k is the head at cursor + k modulo their number, with cursor 0 where the rotation is fresh |
| `PlanOrder.LeaderlessPlanIsEmpty` | internal/routing/routing.go:132-150 | without heads, or without a positive weight under weighting, the plan is empty and the table stays |
| `PlanOrder.PlanStores` | internal/routing/routing.go:232-246 | otherwise exactly the route's entry is written: shape and generation of the snapshot, cursor one further under round robin; an overtaken snapshot writes nothing |
| `PlanOrder.PlanResolves` | internal/routing/routing.go:351-359 | a plan pairs each attempt with the snapshot's egress of that id, or with nothing when the snapshot lacks it |
| `PlanOrder.PruneExactly` | internal/routing/routing.go:333-344 | pruning leaves exactly the entries named, unchanged |
| `SchedulerRuns.PlanIsPermutation` | internal/routing/routing.go:129-186 | every non-empty plan is a duplicate-free reordering of its heads, a weighted one never leads with weight 0 or less; it is empty exactly when there is nothing to schedule |
| `SchedulerRuns.TotalsStayBalanced` | internal/routing/routing.go:129-186 | after any run of plans, reloads, eligibility changes and prunes, a weighted state read by a matching snapshot holds only that snapshot's positive-weight members and sums to 0 |
| `SchedulerRuns.StaleCallsDoNotInterfere` | internal/routing/routing.go:232-246 | deleting every overtaken plan call from a run changes neither the final table nor any other plan |
| `SchedulerRuns.StaleCallPlansFromFreshState` | internal/routing/routing.go:238-240 | an overtaken call is planned as from an empty table |
| `SchedulerRuns.StoredGenerationNeverDecreases` | internal/routing/routing.go:232-246 | while a route keeps its entry its stored generation only grows |
| `SchedulerRuns.WeightedSharesAreExact` | internal/routing/routing.go:142-178 | at the scheduler: any T consecutive plans of a rotation lead with each head exactly its weight many times, with a weightless one never |
| `SchedulerRuns.WeightedPrefixIsSmooth` | internal/routing/routing.go:142-178 | the first t plans of a rotation lead with a head at most the rounded-up t*w/T times |
| `SchedulerRuns.RoundRobinIsEven` | internal/routing/routing.go:179-183 | any n consecutive round-robin plans over n heads lead with n different egresses |
| `RotationRuns.SharesAreExactInTraffic` | internal/routing/routing.go:142-178 | with other routes, overtaken calls, policy-only reloads, idle calls and prunes in between, any T consecutive plans of one shape and pool lead with each member exactly its weight many times |
| `RotationRuns.PrefixIsSmoothInTraffic` | internal/routing/routing.go:142-178 | in the same traffic the first t of them lead with a member at most the rounded-up t*w/T times |
| `RotationRuns.TurnsInTraffic` | internal/routing/routing.go:179-183 | in the same traffic the t-th own round-robin plan of a rotation that began fresh has entry k equal to head (t + k) modulo the number of heads, for every k: failover goes to the next head, and around |
| `Health.Registry.Pin` | internal/health/health.go:101-106 | one more reference per listed key |
| `Health.Registry.Release` | internal/health/health.go:107-118 | takes back what is still held, deletes counts that reach zero |
| `Health.Registry.Reclaim` | internal/health/health.go:131-146 | keeps exactly the active and the pinned states and counts the rest |
| `Health.Registry.Observe` | internal/health/health.go:173-198 | the key's state becomes that of ObserveOn, all others stay; a policy that records nothing writes nothing |
| `Health.Registry.Healthy` | internal/health/health.go:204-215 | a disabled policy and an unknown identity are healthy, else no cooldown runs |
| `Health.PinCounts` | internal/health/health.go:101-106 | pinning adds exactly the occurrences of each key |
| `Health.ReleaseUndoesPin` | internal/health/health.go:101-118 | release after pin restores the reference counts exactly |
| `Health.ReclaimExactly` | internal/health/health.go:131-146 | a state is dropped exactly when its identity is neither active nor pinned; every other entry stays as it was |
| `Health.StateIsRead` | internal/health/health.go:173-215 | the stored counter and the running cooldown are, after every observation, those that the observations alone give: a failure counts when no uncleared cooldown covers it, and arms when it brings the streak to its observer's threshold |
| `Health.WithheldExactlyWhileCovered` | internal/health/health.go:173-215 | over any clocked history under mixed policies an identity is withheld exactly while the asking policy is on and a cooldown armed by one of the observations still runs with no effective success since |
| `Health.NoArmingWhileCovered` | internal/health/health.go:189-197 | while an uncleared cooldown runs no later failure arms another |
| `Health.CooldownIsNeverExtended` | internal/health/health.go:189-191 | failures observed while a cooldown runs leave it, and the streak, as they are |
| `Health.CounterIsStreak` | internal/health/health.go:183-197 | the stored counter is the streak read off the observations: counted failures since the last success or arming |
| `Health.ArmsWhereArming` | internal/health/health.go:192-197 | the registry arms a cooldown exactly where the observations alone say so |
| `Health.ArmingsArePaidFor` | internal/health/health.go:192-197 | the thresholds of all armings plus the open streak are at most the effective failures observed |
| `Health.CoolsAtTheThreshold` | internal/health/health.go:192-197 | under one policy the threshold-th failure in a row, and no earlier one, arms exactly one cooldown from its own clock reading |
| `Health.IneffectiveObservationsVanish` | internal/health/health.go:174-176 | observations under disabled or never-cooling policies can be struck from any history |
| `Router.GenerationKeepSets` | internal/router/server.go:167-183 | the three keep sets are the signatures and health keys of route-referenced egresses and the ids of all routes |
| `Router.RoutedEgressIsKept` | internal/router/server.go:167-183 | any egress of any route of the snapshot has its transport, identity and route kept |
| `Router.KeepsExactly` | internal/router/server.go:167-183 | the three keep sets, both ways: a signature or identity is kept exactly when some egress the snapshot resolves for some route has it, a route id exactly when some route has it |
| `Router.MaintenanceLeaves` | internal/router/server.go:135-158 | what is left of clients, health states and rotations after a generation's maintenance, entry by entry, without the keep sets: what some route of the snapshot uses, or, of health states, what is pinned |
| `Router.Server.PruneClients` | internal/router/server.go:188-195 | keeps exactly the transports named by the keep set |
| `Router.Server.OnGeneration` | internal/router/server.go:135-158 | a snapshot newer than the last serviced one prunes all three caches against its own keep sets and becomes the serviced one; any other changes nothing |
| `Router.Server.ClientForEgress` | internal/router/server.go:94-109 | one client per transport signature, built on a miss, nothing cached when building fails |
| `Router.Server.RouteHeads` | internal/router/server.go:203-228 | the heads are HeadsOf the snapshot, route, health states and occupancy |
| `Router.HeadsAreTheEligible` | internal/router/server.go:203-228 | for distinct members the heads are exactly the eligible ones, each once and in route order |
| `Router.HeldBackExactly` | internal/router/server.go:203-228 | a member is no head exactly when the snapshot lacks it, it is disabled, cannot stream a streaming request, does not take the model or a body of that size, its cooldown runs while the policy is on, or its occupancy has reached its cap |
| `Router.PinsExactly` | internal/router/server.go:233-241 | an identity is pinned exactly when some listed egress that the snapshot knows has it |
| `Router.RouteHealthKeys` | internal/router/server.go:233-241 | the pinned keys are those of the members the snapshot resolves |
| `Generations.EveryRunIsSafe` | internal/router/server.go:135-158 | in every interleaving: the lock has one holder, whoever prunes does so for the newest serviced generation, reference counts equal the pins of requests in flight, and the serviced generation never decreases nor outruns the store |
| `Generations.BootInv` | internal/router/server.go:60-66 | a server that just started satisfies those invariants |
| `Generations.StepInv` | internal/router/handler.go:272-300 | each single step of that interleaving keeps those invariants |
| `Generations.PinKept` | internal/health/health.go:101-120 | reference counts stay the sum of the pins of requests in flight |
| `Generations.LockExcludes` | internal/router/handler.go:272-300 | while one request holds the client lock nobody else prunes, reclaims, drops, pins or changes the serviced generation |
| `Generations.MaintenanceIsOnGeneration` | internal/router/server.go:144-156 | the four steps under the lock, left alone, have the effect stated for Server.OnGeneration |
| `Generations.NewestServicedSurvives` | internal/router/server.go:135-195 | transports, health states and rotation states named by the newest serviced generation are dropped only once a strictly newer one is serviced |
| `Generations.ServicedAtMostOnce` | internal/router/server.go:144-156 | no generation is serviced twice, however many requests carry it |
| `Generations.PrunedAtMostOnce` | internal/router/server.go:144-156 | in any interleaving a generation's maintenance prunes at most once, and never after a newer one was serviced |
| `Generations.PinnedHistorySurvives` | internal/health/health.go:131-146 | while anybody holds a pin on an identity its state is exactly the fold of all observations of it, across swaps and reclaims |
| `Generations.RequestKeepsItsHistory` | internal/router/handler.go:272-300 | between its pin and its release a request's identities are never reclaimed under it |
| `Slots.Limiter.Peek` | internal/upstream/limits.go:20-27 | free exactly when uncapped or below the cap |
| `Slots.Limiter.Acquire` | internal/upstream/limits.go:30-41 | admits exactly when Peek would, counting only capped traffic |
| `Slots.Limiter.Release` | internal/upstream/limits.go:45-51 | one less, never below zero |
| `Slots.OccupancyIncludesTheDial` | internal/upstream/limits.go:53-61 | the occupancy right after a capped attempt was admitted is that attempt plus those held before it, within the cap |
| `Slots.ConservedExactlyWhenHarmless` | internal/upstream/limits.go:30-51 | over any interleaving the count equals the slots held at every moment, exactly when no uncounted slot is given back while others of its egress are taken |
| `Slots.StepConserves` | internal/upstream/limits.go:45-51 | a step keeps the count exactly when it is harmless in that sense |
| `Slots.SlotsAreConserved` | internal/upstream/fallback.go:84-94 | while no cap turns on or off, every run keeps the count equal to running attempts plus bodies not yet freed |
| `Slots.CapBoundsConnections` | internal/upstream/fallback.go:84-94 | an admitted attempt finds fewer open connections than its cap, and leaves at most the cap |
| `Slots.GivenBackOnce` | internal/upstream/fallback.go:84-94 | in any run, whatever interleaves, each slot is given back at most once, exactly when its hold ends freed and did not start so; a freed hold stays freed |
| `Slots.FreedForGood` | internal/upstream/fallback.go:90-94 | closing a freed body again, in any order of halves, changes nothing |
| `SlotRuns.ExecutionIsASlotRun` | internal/upstream/fallback.go:155-213 | the executor's acquires, releases, hand-overs and the closes of its body, interleaved with other requests in any fair way, are a run of the limiter, so its count stays the slots held |
| `SlotRuns.ReturnedHoldsAreFreed` | internal/upstream/fallback.go:174-213 | when an execution has returned, every slot it took is given back but the winner's, which its body has |
| `Slots.CapTurnedOnOvershoots` | internal/upstream/limits.go:30-51 | a concrete run in which a cap is turned on under an uncounted attempt ends with two connections under a cap of one |
| `Upstream.OnlyRateLimitsFallBackUnmarked` | internal/upstream/failure.go:85-108 | 429 is the only class that falls back without marking health, and every marking class falls back |
| `Upstream.Recorder.Append` | internal/upstream/evidence.go:154-165 | stores the row, or counts it as dropped at the cap |
| `Upstream.Recorder.Annotate` | internal/upstream/evidence.go:181-196 | edits exactly the rows from the given index on |
| `Upstream.Recorder.AnnotateAt` | internal/upstream/evidence.go:202-212 | edits exactly that row, or nothing when out of range |
| `Upstream.TryRetry` | internal/upstream/client.go:488-501 | another dial exactly when the context lives, the outcome fires a rule, and the shared counter is below that rule's cap |
| `Upstream.DoClassifiedObserved` | internal/upstream/client.go:169-255 | class, error, dials, sleep and evidence rows are those of AttemptOn, which Attempts.AttemptExactly says in full |
| `Upstream.StandsFirst` | internal/upstream/client.go:179-255 | the verdict is that of the first dial whose outcome is not retried |
| `Upstream.AttemptBounds` | internal/upstream/client.go:169-255 | at most four dials and nine seconds of retry sleep, whatever the upstream does |
| `Upstream.BoundsAreReached` | internal/config/config.go:141-146 | an upstream that keeps answering 502 reaches both bounds |
| `Upstream.DrawsAreShared` | internal/upstream/client.go:488-501 | one counter serves all statuses: whatever the dials before it met, an answer is dialled past exactly when it is a 502 or 503 among the first three dials or a 504 among the first two; a 504 on the third dial stands even if it is the first 504 |
| `Upstream.VerdictIsHonest` | internal/upstream/client.go:192-254 | success exactly without an error, exactly when the last dial was answered below 400 |
| `Upstream.TerminalOutcomes` | internal/upstream/client.go:203-209 | a refused proxy login or a cancelled request ends the attempt at that very dial |
| `Upstream.FailedDialsAreRecorded` | internal/upstream/evidence.go:494-570 | stored plus dropped rows grow by one per failed dial, by none for the serving dial |
| `Attempts.RetriesExactly` | internal/upstream/client.go:488-501 | a dial is repeated exactly when the context lives and it is a transport failure or a 502 or 503 among the first three dials, or a 504 among the first two, but never a refused proxy login; with the pause of its rule |
| `Attempts.AttemptExactly` | internal/upstream/client.go:169-255 | for every upstream: class and error of the first dial that is not repeated, the number of dials up to it, the pauses between them, and one row per failed dial, with its status, class, marks and decision, in dial order |
| `Attempts.AppendsAreKept` | internal/upstream/evidence.go:154-165 | of all rows ever appended the first sixteen are stored, in order, and the others counted |
| `Failover.ExecuteObserved` | internal/upstream/fallback.go:114-259 | result, call sequence and evidence are those of ExecFrom; what those are is Executions.ExecutionExactly and EvidenceRows.RowsTellTheWalk and DecisionsAreRuled |
| `Failover.DialOne` | internal/upstream/fallback.go:160-213 | one admitted entry: dial, annotate, release or hand over the slot, observe, decide |
| `Failover.AnnotateDecision` | internal/upstream/fallback.go:277-287 | stamps the last stored row of the attempt and returns its index, or does nothing when the cap dropped all of them |
| `FailoverRuns.FailoverIsHonest` | internal/upstream/fallback.go:114-259 | every execution keeps the call protocol, dials at most Budget egresses, holds and owes nothing at the end, stops early only where it must, and returns the last dial's verdict, the synthetic 502 exactly when nothing was dialled |
| `FailoverRuns.EgressesDialledOnce` | internal/upstream/fallback.go:127-213 | entries are dialled in plan order, none twice, at most Budget of them |
| `FailoverRuns.SlotsAndMarksBalance` | internal/upstream/fallback.go:174-213 | every slot taken is released once or handed to the winner's body; failures of marking classes and the winner's success are each reported once, nothing else is |
| `FailoverRuns.EvidenceIsHonest` | internal/upstream/fallback.go:241-252 | on return every stored row marked fallback has an attempt below the returned count, even past the row cap, and no skip row carries a decision |
| `FailoverRuns.EveryFailureIsAccountedFor` | internal/upstream/evidence.go:154-165 | stored plus dropped rows are one per skipped entry and one per failed dial |
| `Executions.ExecutionExactly` | internal/upstream/fallback.go:114-259 | for every plan, policy and world, with all rules written out: which entries are touched, the calls each leads to in order (acquire, dial, release or hand over, health report), and the verdict: that of the last dial, or the synthetic 502 without one |
| `Executions.NoFallbackTouchesOne` | internal/upstream/fallback.go:49-54 | with fallback disabled only the first entry is ever touched, and it is dialled at most once, whatever the attempt limit says |
| `Executions.FallbackDialsWithinLimit` | internal/upstream/fallback.go:49-54 | with fallback at most max(1, maxAttempts) egresses are dialled, without it at most one |
| `Executions.FailingFallbackDialsItsLimit` | internal/upstream/fallback.go:114-259 | when every dial fails with a class that allows fallback, the smaller of max(1, maxAttempts) and the number of dialable entries is dialled, exactly |
| `EvidenceRows.RowsTellTheWalk` | internal/upstream/evidence.go:154-196 | but for decisions, the stored rows are those of the touched entries' dials and skips in order, the first sixteen of the request, the rest counted |
| `EvidenceRows.DecisionsAreRuled` | internal/upstream/fallback.go:241-287 | on return every row of a failed attempt's last stored dial says whether its egress was blamed, and fallback exactly when another attempt followed; no other row carries such a decision |
| `Requests.RequestDialsEligibleEgressesOnce` | internal/router/handler.go:300-341 | from heads over plan to verdict: a request dials only egresses of its route that were eligible, each once, as its own snapshot defines them, at most its budget of them |
| `Redirect.Attempt` | internal/upstream/client.go:310-400 | the requests sent and the result are those of WalkFrom; where those go is Redirect.WalkGoesWhereItIsSent |
| `Redirect.WalkGoesWhereItIsSent` | internal/upstream/client.go:310-400 | for every upstream: the first request goes to the URL dialled, request j + 1 to the target of answer j, and the walk ends exactly at the first answer that is none of 301, 302, 303, 307, 308 or names no target, with its status, or fails at an unusable target or the 21st redirect |
| `Redirect.LeavesExactly` | internal/upstream/client.go:473-481 | a hop stays in the domain exactly when host or host name is the first one's or some labels and a dot stand before that name, outside IPv6 literals |
| `Redirect.EveryRequestIsProper` | internal/upstream/client.go:310-427 | at most 21 requests; in each a sensitive header is missing exactly when some request so far left the first domain, it is a body-less GET without body headers exactly when a 301, 302 or 303 came before, and it is tunnelled exactly when https and a tunnel exists |
| `Redirect.StrippedForGood` | internal/upstream/client.go:320-343 | once outside the first domain no later request carries one of the credential headers, each written out |
| `Redirect.SwitchedForGood` | internal/upstream/client.go:383-390 | once switched every later request is a GET without body and body headers |
| `Redirect.EndlessRedirectsFail` | internal/config/config.go:159 | any upstream whose every answer redirects to an http or https URL with a host, by whatever statuses, gets exactly 21 requests and the dial fails |
| `Redirect.SubdomainHasDot` | internal/upstream/client.go:473-481 | a host counts as a child of the domain only at a label boundary |
| `ScanLines.CuttingIsUnique` | internal/upstream/client.go:630-643 | segments and residual are the only way to write a text as newline-free lines, each ended by a newline, and a newline-free rest |
| `ScanLines.DeliversTheLines` | internal/upstream/client.go:600-717 | for any reads and any interleaving the lines handed on are an initial piece of the body's lines; on return all of them, with the non-empty residual after a clean end, and after a broken one only the error |
| `ScanLines.ChunkingDoesNotMatter` | internal/upstream/client.go:600-717 | two runs over differently chunked reads of one body hand on the same lines, tail and error |
| `ScanLines.EveryScheduleReturns` | internal/upstream/client.go:601-717 | no schedule runs forever or gets stuck: when nobody can move, ScanLines has returned |
| `ChatToRespState.ChatToRespState.EmitEvent` | internal/translate/stream_chat2resp.go:74-78 | numbers the event and appends it |
| `ChatToRespState.ChatToRespState.EndMessage` | internal/translate/stream_chat2resp.go:190-222 | closes an added, unfinished message with its buffered text; else nothing |
| `ChatToRespState.ChatToRespState.ToolCallFragment` | internal/translate/stream_chat2resp.go:243-310 | records id and name, announces once both are known, buffers and forwards the fragment; what it announces and forwards, by the chunks alone, is CallPieces.CallPiecesAreTheirs |
| `ChatToRespState.ChatToRespState.EndToolCall` | internal/translate/stream_chat2resp.go:312-367 | closes an identified, unfinished call with its buffered arguments; else nothing |
| `ChatToRespState.ChatToRespState.FlushEvents` | internal/translate/stream_chat2resp.go:388-404 | closes everything in index order and completes, once |
| `ChatToRespState.ChatToRespState.Convert` | internal/translate/stream_chat2resp.go:416-539 | fields, sequence and events after the call are those of ConvertOn; the events of a whole stream, without it, are ChatReference.StreamIsScript |
| `ChatToRespState.Translate` | internal/translate/stream_chat2resp.go:416-539 | a whole stream through the object yields the events of Stream |
| `ChatReference.StreamIsScript` | internal/translate/stream_chat2resp.go:74-539 | for any chunks the whole log is a script of the chunks alone, read off each chunk and those before it without any state of the translator: every event in order with every field |
| `CallPieces.CallPiecesAreTheirs` | internal/translate/stream_chat2resp.go:243-310 | for any chunks, each announced call of slot i carries the last id and the last name given to slot i by the fragment that made it go out, item id ctc_ or fc_ plus that id, custom exactly for a declared name, no payload; each argument piece carries that fragment's arguments under that item id |
| `EventLifecycle.StreamLifecycle` | internal/translate/stream_chat2resp.go:74-539 | for any chunks: sequence numbers 1..n, one completion, every item added and done at most once, and each event keeps its promise given all before it: done follows added, done texts are the joined deltas, every added message, opened reasoning and announced call is done at completion (calls that have only an id: CallArguments.DoneCallsAreJoined; deltas after a done event: LostTexts.TextWholeExactly; events after the completion: AfterCompletion.NothingFollowsExactlyWhenQuiet) |
| `EventLifecycle.SplitLosesOnlyTags` | internal/translate/stream_chat2resp.go:482-508 | a chunk's reasoning part followed by its text part is its content without one opening and then one closing tag |
| `EventLifecycle.SplitExactly` | internal/translate/stream_chat2resp.go:482-508 | the split of one content by the position of its first opening and first closing tag, with the tags written out |
| `EventLifecycle.ReasoningExactly` | internal/translate/chunk.go:68-97 | a delta's reasoning is its reasoning_content, else its reasoning, else its joined reasoning_details, each kind of detail read its own way |
| `EventLifecycle.ContentIsSplit` | internal/translate/stream_chat2resp.go:482-508 | exactly those two parts go out, as reasoning and as message text, across the thinking state |
| `CallArguments.DoneCallsAreJoined` | internal/translate/stream_chat2resp.go:243-367 | for any chunks and any event of the stream: an item, arguments or custom-input event that closes slot i carries the last id, last name and joined arguments of slot i among the fragments taken in by the chunk being converted, {} for none; and when the response completes, the slots reported before are exactly those with an id by then |
| `CallArguments.ReportedExactly` | internal/translate/stream_chat2resp.go:312-404 | for any chunks and slot: one report, from the fragments taken in at the first finish (or the flush of an unfinished stream) that finds an id for it, and none if there is no such moment |
| `LostCalls.NothingLostExactlyWhenHeard` | internal/translate/stream_chat2resp.go:416-539 | every call sent is reported whole exactly when every slot with an id or arguments gets its id in time for a report and the fragments that miss the report change neither its id, its name nor its arguments |
| `LostCalls.ArgumentsWholeExactly` | internal/translate/stream_chat2resp.go:282-310 | a reported call's arguments are all that was sent exactly when no fragment inside a thinking span or after the close had any |
| `LostCalls.OrdinaryStreamsLoseNothing` | internal/translate/stream_chat2resp.go:416-539 | a stream whose calls are all reported and whose missed fragments are empty loses nothing |
| `LostCalls.CallsInsideThinkingAreLost` | internal/translate/stream_chat2resp.go:501-504 | a chunk that brings any call beside text of an unfinished thinking span: the stream names no call |
| `LostCalls.CallsWithoutIdAreLost` | internal/translate/stream_chat2resp.go:312-316 | a call without id: the stream names no call |
| `LostCalls.LateArgumentsAreLost` | internal/translate/stream_chat2resp.go:312-316 | arguments that follow the finish: the report reads {} |
| `StepEffects.ContentDoes` | internal/translate/stream_chat2resp.go:482-508 | what one content does to the state and to the log, read off its reasoning part and text part: buffers, the thinking state, the kinds of events, the report of a closed reasoning item, silence exactly for nothing to say, and the early return exactly for content that ends inside a thinking span |
| `LostTexts.TextReportedExactly` | internal/translate/stream_chat2resp.go:155-222 | for any chunks and message: one done event, with the text sent up to the first chunk that closes the message once it has text (tool calls of its choice, or a seen finish) or else to the flush of an unfinished stream; none if there is no such moment |
| `LostTexts.ReasonReportedExactly` | internal/translate/stream_chat2resp.go:118-145 | likewise the reasoning item, which a closing tag, a seen finish or the flush closes |
| `LostTexts.TextWholeExactly` | internal/translate/stream_chat2resp.go:155-222 | the done text of a message is all text sent for it exactly when the message, once it has text, is closed and no text of it follows that close |
| `LostTexts.ReasonWholeExactly` | internal/translate/stream_chat2resp.go:118-145 | the done reasoning is all reasoning sent exactly when the item is open and closed, or nothing was sent, and no reasoning follows that close |
| `LostTexts.AllGoesOut` | internal/translate/stream_chat2resp.go:103-188 | all text and all reasoning sent goes out as deltas, also what misses the done events |
| `LostTexts.LateTextIsLost` | internal/translate/stream_chat2resp.go:190-193 | text that follows a finish: it goes out as a delta, and the done text is without it |
| `LostTexts.TextAfterCallIsLost` | internal/translate/stream_chat2resp.go:510-521 | text that follows a tool call in an unfinished stream: likewise |
| `LostTexts.LateReasoningIsLost` | internal/translate/stream_chat2resp.go:118-121 | reasoning that follows a finish: likewise |
| `AfterCompletion.NothingFollowsExactlyWhenQuiet` | internal/translate/stream_chat2resp.go:369-539 | some event follows the completion exactly when some chunk after the first seen finish sends reasoning or text, opens the reasoning item, announces a call, carries arguments of an announced plain call, or finishes again with an id that came too late |
| `AfterCompletion.LateChunk` | internal/translate/stream_chat2resp.go:416-539 | a chunk on a completed stream with everything closed emits nothing exactly when it is none of those, and then leaves everything closed |
| `AfterCompletion.LateTextFollowsCompletion` | internal/translate/stream_chat2resp.go:369-385 | text that follows a finish: its delta comes after the completion |
| `CallDeltas.DeltasAreSentOn` | internal/translate/stream_chat2resp.go:282-310 | when a call is reported, the argument deltas sent for its slot are exactly the fragments that came once its id and name were known, while its name was not a custom tool's |
| `CallDeltas.DeltasEndTheArguments` | internal/translate/stream_chat2resp.go:282-367 | the reported arguments of a plain call are the fragments that came before it was known followed by its deltas, {} for none; the deltas are all of them exactly when nothing came before |
| `ItemIds.EventsNameTheirItems` | internal/translate/stream_chat2resp.go:80-222 | every response, message and reasoning event of a flushed stream names its own by the id in force, exactly when no chunk closes a thinking span, with text before the tag, that nothing opened |
| `ItemIds.StrayCloseHappens` | internal/translate/stream_chat2resp.go:487-500 | the stream of one such chunk holds a reasoning delta of an item without id |
| `NonStream.ParseChatStream` | internal/relay/nonstream.go:22-163 | the loops return Parse: the last error, or the fold of all chunks, or nothing |
| `NonStream.CompletionToResponses` | internal/relay/nonstream.go:369-446 | reasoning, message, then the calls in slot order |
| `NonStream.ParseExactly` | internal/relay/nonstream.go:22-63 | a stream parses to its last error if it has one, to nothing if it is empty, else to its fold |
| `NonStream.FinishIsLast` | internal/relay/nonstream.go:85-110 | the finish reason is the last one given, stop without any |
| `NonStream.CallReads` | internal/relay/nonstream.go:404-446 | a folded call reads as item id fc_ or ctc_ plus its id, its name, and its arguments, unwrapped for a custom tool when they unwrap |
| `NonStream.OutputExactly` | internal/relay/nonstream.go:369-446 | item by item: reasoning if any, message if any text, then call k of the slots in order |
| `FoldedCalls.FoldedExactly` | internal/relay/nonstream.go:63-140 | for any chunks and slot: a call exactly when some fragment is for it, with the last id, the joined names and the joined arguments of its fragments |
| `Agreement.FoldJoins` | internal/relay/nonstream.go:63-128 | the fold's texts and calls are the joins over all chunks |
| `Agreement.CalmParses` | internal/relay/nonstream.go:22-63 | an error-free non-empty stream parses to its fold |
| `Agreement.TextsAgree` | internal/translate/stream_chat2resp.go:416-539 | streaming and folding deliver the same message text and the same reasoning, the joined contents of the chunks |
| `TextAgreement.FoldedExactlyWithoutError` | internal/relay/nonstream.go:22-63 | the folding client is given a completion, the fold, exactly for a non-empty stream without an error |
| `TextAgreement.TextsAgreeExactly` | internal/translate/stream_chat2resp.go:416-539 | in a stream of one choice both clients read the same text exactly when no content has a thinking tag and the message, once it has text, is closed with no text to come |
| `TextAgreement.ReasonsAgreeExactly` | internal/relay/nonstream.go:63-128 | for any chunks they read the same reasoning exactly when what the stream reports is the joined reasoning_content |
| `TextAgreement.WholeReasonsAgreeExactly` | internal/translate/chunk.go:68-97 | where no reasoning is lost they do exactly when every chunk's reasoning is its reasoning_content, and some came if the item was opened |
| `TextAgreement.TaggedTextDiffers` | internal/translate/stream_chat2resp.go:482-508 | any stream of one choice with a tag in some content: the texts differ |
| `TextAgreement.LateTextDiffers` | internal/translate/stream_chat2resp.go:190-193 | text after a finish: the stream reports the first piece, the fold both |
| `TextAgreement.VendorReasoningDiffers` | internal/translate/chunk.go:68-97 | reasoning of another vendor shape: the stream reports it, the fold does not |
| `CallAgreement.CallsAgree` | internal/relay/nonstream.go:404-446 | streaming and folding deliver the same list of id, name, kind and payload, but for {} in place of empty plain arguments, exactly when every call has an id, a name in at most one piece, and arguments that both packages unwrap alike if its tool is custom |
| `CallAgreement.CallsAgreeVerbatim` | internal/relay/nonstream.go:404-446 | the lists are the very same exactly when, besides, every plain call has arguments |
| `CallAgreement.NamedInOnePiece` | internal/relay/nonstream.go:126-138 | the joined names equal the last name exactly when at most one fragment names the call |
| `CallAgreement.SplitNameDiffers` | internal/relay/nonstream.go:126-138 | a calm stream that names one call in two pieces: the lists differ |
| `CallAgreement.UnidentifiedCallDiffers` | internal/translate/stream_chat2resp.go:312-316 | a calm stream with a call without id: the lists differ |
| `CallAgreement.WhiteSpaceDiffers` | internal/relay/nonstream.go:521-532 | a calm stream with one identified call of a custom tool whose arguments are a no-break space and JSON text: the lists differ, since the stream trims and unwraps and the fold does not |
| `RespToChat.MapKeyDecodes` | internal/translate/chunk.go:213-229 | two values share a key exactly when they are the same value |
| `RespToChat.RespToChatState.Convert` | internal/translate/stream_resp2chat.go:85-330 | fields and chunk after the call are those of ConvertOn; the chunks of a whole run, without it, are RespReference.LogIsReplay |
| `RespToChat.Translate` | internal/translate/stream_resp2chat.go:85-330 | a whole run through the object yields the chunks of Flushed |
| `RespToChat.CallIndicesAreBijective` | internal/translate/stream_resp2chat.go:149-193 | over any events the index map is a bijection from the known item keys onto 0..n-1 |
| `RespToChat.IndexedExactlyAnnounced` | internal/translate/stream_resp2chat.go:168-183 | the numbered keys are exactly the announced ones |
| `RespToChat.IndicesAreStable` | internal/translate/stream_resp2chat.go:177-183 | a key keeps its index for good |
| `RespToChat.FullArgsOnlyWhenNoneSent` | internal/translate/stream_resp2chat.go:223-265 | a done event sends its arguments exactly when it has some and none went out for its index before |
| `RespToChat.ExactlyOneFinish` | internal/translate/stream_resp2chat.go:56-91 | every non-empty flushed run has exactly one finish chunk, tool_calls exactly when a call was started before it, outside the error chunk; an empty run has no chunk |
| `RespToChat.TextPassesThrough` | internal/translate/stream_resp2chat.go:116-125 | every non-empty text delta goes out once, in order |
| `RespReference.LogIsReplay` | internal/translate/stream_resp2chat.go:85-330 | for any events the whole log is a replay of the events alone: which chunk each event sends, given the events before it, and which the flush adds |
| `RespReference.ArgumentsReachTheirCall` | internal/translate/stream_resp2chat.go:179-197 | arguments that name an announced item go out once, as they came, at the index that the chunk starting that item's call carries, with the id and name it was announced by |
| `RespReference.ParallelCallsStayApart` | internal/translate/stream_resp2chat.go:196-220 | in the log, fragments naming two announced items go to one index exactly when the items are the same, however far apart they arrive |
| `RespReference.StrayArgumentsReachTheLatest` | internal/translate/stream_resp2chat.go:179-197 | arguments that name no announced item go to the number of announced calls minus one, or 0 |
| `RespReference.EndIsRemembered` | internal/translate/stream_resp2chat.go:56-91 | the error and finish reason kept for the caller are those sent |
| `Prenorm.GeneratedIdIsValid` | internal/translate/prenorm.go:57-65 | a generated id fits the pattern whatever the tool is called |
| `Prenorm.GeneratedIdReads` | internal/translate/prenorm.go:57-65 | it is built of message number, call number and the legal part of the tool's name, if any |
| `Prenorm.GeneratedIdsDiffer` | internal/translate/prenorm.go:57-65 | ids generated for different calls differ |
| `Prenorm.Body.EnsureToolCallIDs` | internal/translate/prenorm.go:69-156 | the messages become Ensured ones, in place |
| `Prenorm.Body.FixMissingToolResponses` | internal/translate/prenorm.go:220-258 | the messages become Fixed ones |
| `Prenorm.CollectIds` | internal/translate/prenorm.go:159-183 | the non-empty ids of the turn's calls and tool_use blocks, in order |
| `Prenorm.EveryCallHasAValidId` | internal/translate/prenorm.go:79-95 | after the first pass every assistant tool call has a pattern-valid id |
| `Prenorm.EnsureTouchesOnlyIds` | internal/translate/prenorm.go:69-156 | the first pass keeps roles, other fields and plain content; every call keeps its name, other fields, a present kind (function if absent), string arguments (JSON text of objects, {} for none) and a valid id; every block its kind, name, other fields and every reference that is absent or valid; a tool_call_id changes only on a tool message, and only if present and unusable |
| `Prenorm.CleanedExactly` | internal/translate/prenorm.go:40-55 | cleaning keeps the legal characters, in order, and drops the others |
| `Prenorm.EqualIdsStayEqual` | internal/translate/prenorm.go:69-156 | an id with a legal character becomes the same id everywhere: in calls, tool messages and blocks |
| `Prenorm.AnswerSurvivesExactly` | internal/translate/prenorm.go:69-156 | a tool message still answers the call it answered exactly when the id has a legal character; else both get ids of their own places |
| `Prenorm.EnsuredIsSettled` | internal/translate/prenorm.go:69-156 | the first pass settles every message and changes nothing exactly when all were settled |
| `Prenorm.FixedIsAnswered` | internal/translate/prenorm.go:220-258 | after the second pass every turn with tool ids that an object message follows is followed by one answering at least one of them |
| `Prenorm.FixedExactlyWhenAnswered` | internal/translate/prenorm.go:220-258 | the second pass changes nothing exactly when no turn dangles |
| `Prenorm.FixedKeepsMessages` | internal/translate/prenorm.go:229-256 | the original messages stay in order and only empty answers are added |
| `Prenorm.DanglingExactly` | internal/translate/prenorm.go:159-218 | a turn dangles exactly when it has call ids, in calls or tool_use blocks, and the next message answers none of them, by tool_call_id or tool_result block |
| `Prenorm.FixedExactly` | internal/translate/prenorm.go:220-258 | the second pass, position by position: every message, after each dangling turn one empty answer per call id in order, and nothing else |
| `Prenorm.RepairIsIdempotent` | internal/translate/prenorm.go:69-258 | repairing a repaired body changes nothing |
| `JsValues.SlotsAreShared` | internal/translate/chunk.go:239-251 | a number and its decimal text are one slot; null, true, and the empty text fall to slot 0 |
| `JsValues.FalsyExactly` | internal/jsonx/jsonx.go:44-58 | null, false, 0 and the empty text are the falsy values, all of them |
| `JsValues.TrimSpaceExactly` | internal/translate/stream_chat2resp.go:225-240 | white space goes off both ends, all of it and nothing else |

## Left out

- CallsAgree: JSON unmarshalling is one parameter of both sides; the white space each side trims before it is modelled.
- EventsNameTheirItems: events of tool calls are not among those named, since a later fragment may overwrite a call id; DoneCallsAreJoined has the id each closing event carries.
- TextsAgreeExactly: for chunks of one choice; with several the stream has a message for each and the fold joins them all.
- NewestServicedSurvives: a health state is kept as an entry; its contents move with later observations.
- RequestKeepsItsHistory: a request's history starts at its pin; a state dropped by a newer generation before that pin starts clean, as the code documents.
- FailoverIsHonest: the executor is modelled with limiter, registry and recorder wired, as the server wires them; the nil cases of the constructor are not.
- ExecuteObserved: its calls on limiter and registry are a recorded sequence and the limiter's answers are inputs, so that other requests may interfere in any way; their effects are the subject of Slots and Health.
- EveryRequestIsProper: clients that do not follow redirects themselves hand the request to the standard library; that loop is not part of this model. Relative Location values arrive resolved.
- DeliversTheLines: runs without stall, cancellation or callback error; the progress channel only feeds the stall timer.
- MapKeyDecodes: JSON numbers are integers; float formatting is not part of this model.
- Rotation states are values in the scheduler's table, where the code shares a pointer; generations, cursors, weights and times are unbounded integers, without machine wrap-around.
- The reason text of skip rows and the egress type in evidence rows; rows carry index, phase, status, class and decisions.
- Parsing of JSON, YAML, globs and SSE framing, hashing, random ids, and text sanitising of evidence: chunks, events, snapshots and matches arrive decoded. A chunk that is not an object reads like one without a choice.
- Arrays and objects in untyped positions are carried by their rendering; strings are sequences of characters without encodings.
- Model, creation time and usage fields of translated chunks: copied through, with no property of their own.
- Sockets, TLS, CONNECT and SOCKS dialling, HTTP handlers, logging, healthcheck and shutdown.
- Filtering of messages to the chat format, thinking-parameter translation and request translation: they would add members of the same kind as the tool-call repair.
