# Verified model of the local engine router

One GPU is shared by several inference engines. The router starts and stops them so that at most one holds the
GPU, counts the requests each is serving, streams answers with keep-alives while a swap is going on, picks a model
for "smart" requests, and merges several sources of model names into one catalog. This project models that core and
proves what it keeps, for every interleaving, every failure and every cancellation.

`dafny verify dfyconfig.toml` checks everything.

## How the source is modelled

* `SwapMachine` is `EngineManager` (router/engines.py) as a transition system. A task is one `acquire` or `force_swap`
  and its program counter is the await it is suspended in; the code between two awaits is one atomic step. A failure or
  a cancellation is delivered only at an await. Engines, timers and the scheduler choose the next event.
  Three sets say what the engines are doing: `up` (started or detected, and no `free_vram` has begun since), `gpu`
  (`ensure_started` was called and no `free_vram` has returned normally since) and what each has loaded.
  `SwapInvariant` and `SwapSteps` hold the invariant and its preservation, `SwapTheorems` what it means for runs,
  `SwapProgress` the ranking of steps, `SwapFrames` what each event changes and when a swap is begun at all.
  `EngineManagers.EngineManager` is the mutable object, assigned field by field in
  the order of the source; each method is proved to take exactly one step of the machine.
* `Attempts` puts the request handlers of router/app.py beside the machine: shielded acquires, retries, cancellation at
  any point, releases in `finally`. `AttemptTheorems` has conservation and progress of the two together, `AttemptPlans`
  the order in which a request asks for its models and when it may ask again. The
  non-streaming loops are the schedules in which a handler binds right after the increment.
* `Streaming` has the attempt loops as the client sees them, `RequestBody` the body that is rewritten in place.
* `Scoring`, `Ranking`, `Picker`, `SmartHealth` are router/smart.py over real numbers. `PickerMeaning` says what its
  numbers mean and who may be picked; `PickerTheorems`, `PickerStability` and `PickerFixedPoint` have its rules and
  relate two runs of the picker.
* `ConfigParsing` has the facts about accepted configurations that the picker and the catalog rest on.
* `Catalog` is router/catalog.py and `CatalogClaims` which claims win in it. `Routing` has the three resolutions of a
  model name, `RoutingOrder` where each kind of name goes, `RoutingManager` the object that keeps them in agreement.
* `MemorySettle` and `Metrics` are the settle loop and the histograms.

Where the documentation and the code differ, the model follows the code. Two results of that kind:

* The NDJSON loop shows no error when an acquire fails (`Streaming.NdjsonMayEndSilently`), and an SSE stream ends in a
  full relay or one error frame exactly when its deciding attempt raises no exception that the loop does not catch
  (`Streaming.SseEndsProperly`). `Streaming.NdjsonFailsWithoutAWord` and `Streaming.SseMayStopSilently` are such runs.
* Candidate, route and explanation name one engine only for ids that are not configured for a disabled engine
  (`Routing.CandidatesAreRouted`, with a case in `Routing.DuplicateIdIsNotRouted`), and `explain_model` is wrong for a discovered id outside the catalog
  (`Routing.UncataloguedIsMisexplained`); refresh and snapshot keep that from happening
  (`RoutingManager.Manager.StateIsConsistent`).

## Model

| member | source | states |
|---|---|---|
| SwapSteps.InitHolds | router/engines.py:1422-1444 | The state startup leaves, with any set of engines already on the GPU and at most one marked, satisfies the invariant. |
| SwapSteps.StepKeeps | router/engines.py:1535-1725 | Every event of the machine, including timed-out drains, failures and cancellations, keeps the whole invariant. |
| SwapSteps.Reachable | router/engines.py:1535-1725 | So every state of every interleaving satisfies it. |
| SwapSteps.RunCounts | router/engines.py:1573-1577 | When a release runs, its engine's count is positive: the clamp never hides a mismatch. |
| SwapTheorems.NeverFreedUnderARequest | router/engines.py:1597-1603 | While free_vram of an engine runs, nobody holds that engine, unless the drain of that engine timed out in that same swap. |
| SwapTheorems.HoldersKeepTheirEngine | router/engines.py:1547-1571 | From any reachable state on, while no drain of an engine times out: each holder of it has released it or still holds it for the same model; and every holder not evicted before has it up, not being freed and, on a load_path engine, with its model loaded. |
| SwapTheorems.FromAcquireToRelease | router/engines.py:1535-1577 | Whatever happened before, a request that acquires its engine keeps it up and served until its release, as long as no drain of that engine times out in between. |
| SwapTheorems.AcquireReturnsReady | router/engines.py:1547-1550 | When acquire returns, the target is marked active, is up and has the requested model, and the lock is free. |
| SwapTheorems.StartingIsAlone | router/engines.py:1597-1608 | When ensure_started(target) runs, no other engine can hold the GPU, and after an earlier active engine the memory wait is over. |
| SwapTheorems.SingleResidency | router/engines.py:1594-1616 | From a start with at most one resident engine there is never a second one, across failed and cancelled swaps; from any start, never after the first call of ensure_started. |
| SwapTheorems.MarkerIsTruthful | router/engines.py:1592-1622 | At every await the marked engine is up, and was detected ready or had its last ensure_started succeed with no failed start and no begun free_vram since; the gauge equals the marker; swaps begun minus results recorded is 1 during a swap and 0 otherwise. |
| SwapTheorems.InterruptedSwapLeavesNothing | router/engines.py:1609-1616 | A failed or cancelled swap leaves no marker, no lock, one more result, and no count changed. |
| SwapTheorems.CountsAreLeases | router/engines.py:1548-1577 | In every run each in-flight count is the number of acquired and unreleased requests, and each release lowers exactly that count by one. |
| SwapTheorems.ReleaseLowersItsCount | router/engines.py:1573-1577 | A release that runs lowers its engine's count, which is positive, by exactly one. |
| SwapFrames.MarkerChanges | router/engines.py:1600-1619 | The marker is set by a successful start, cleared by the end of a swap's drain and by a broken swap, and touched by nothing else. |
| SwapFrames.UpChanges | router/engines.py:1600-1619 | An engine comes up by its successful start and goes down when the drain before its free_vram ends, and by nothing else. |
| SwapFrames.GpuChanges | router/engines.py:1603-1608 | Only a returning free_vram takes its engine off the GPU; only a call of ensure_started puts its target there. |
| SwapFrames.CountChanges | router/engines.py:1548-1577 | Only counting a request in raises a count, only its release lowers one, each by one. |
| SwapFrames.RecordChanges | router/engines.py:1584-1622 | A swap begins exactly when the lock goes to a task whose engine is not marked, and has its result at its start or its break. |
| SwapFrames.ActiveTargetIsNotSwapped | router/engines.py:1540-1549 | A task whose engine is marked when it gets the lock swaps nothing: marker, gauge, engines, counts and records stay, and it goes on to the model probe (exactly if it names a model on a load_path engine), the increment or the end. |
| SwapFrames.OtherTargetIsSwapped | router/engines.py:1541-1603 | Any other begins one swap, with every other engine of the table to drain and free and no drain timed out yet. |
| SwapFrames.OthersInOrder | router/engines.py:1597-1599 | Those engines are taken in the order of the table. |
| SwapFrames.NoSwapForTheActiveEngine | router/engines.py:1540-1550 | Such a task never swaps later either, whatever happens. |
| SwapFrames.SwapsAreNeeded | router/engines.py:1541-1592 | In every run the swaps begun are exactly the grants to tasks whose engine was not marked at that moment. |
| SwapFrames.SettlesAfterAPredecessor | router/engines.py:1597-1608 | A freed engine is followed by the next drain; the last one by the memory wait exactly if an engine was marked before the swap, else by the start. |
| SwapFrames.ProbeDecidesTheLoad | router/engines.py:1562-1571 | A probe that shows the model ends the load and changes nothing; any other answer leads to a drain and then the load. |
| SwapFrames.ForceSwapReturnsReady | router/engines.py:1720-1725 | A force_swap that ends as swapped leaves its engine marked, up and with the requested model, and the lock free. |
| SwapProgress.StepLowers | router/engines.py:1535-1725 | Every step other than a new call lowers a natural-number ranking of the machine. |
| SwapProgress.HolderCanMove | router/engines.py:1594-1608 | Whoever holds the swap lock has an enabled step, or is parked in a drain of an engine that some request holds. |
| SwapProgress.SomebodyCanMove | router/engines.py:29-37 | While a call is unfinished, some call can move by a cooperative step, or some request still holds an engine. |
| Attempts.WStepKeeps | router/app.py:811-959 | Every step of handlers and machine together keeps the ownership invariant: each live lease has a handler or a scheduled release. |
| AttemptTheorems.EveryIncrementIsLookedAfter | router/app.py:818-959 | For every interleaving and cancellation point, each count equals its unreleased attempts, and each of those has its release scheduled or a handler whose `finally` schedules it. |
| AttemptTheorems.NoHoldAndWait | router/app.py:939-959 | A request never waits for its next engine while it holds one. |
| AttemptPlans.AttemptsFollowThePlan | router/app.py:811-818 | In every run each request has acquired, in this order, for the first models of its plan, one acquire per attempt it started. |
| AttemptPlans.RetriesFollowCleanEnds | router/app.py:849-925 | In every run each attempt of a request but its latest has ended in an EngineError or has given its engine back: none follows a cancellation or another exception, and none overlaps the one before. |
| AttemptTheorems.WStepLowers | router/app.py:811-959 | Every internal step lowers the measure of attempts left, phases and engines left to free. |
| AttemptTheorems.RunsAreBounded | router/app.py:811-959 | Without new calls the length of a run plus the measure left is at most the measure it started with: no swapping for ever. |
| AttemptTheorems.NeverStuck | router/engines.py:29-37 | While anything is unfinished, some step is enabled that needs no timer, no failure and no cancellation: no deadlock. |
| AttemptTheorems.EveryRunIsBounded | router/app.py:811-959 | After any history from a fresh start, at most `Measure` further steps happen without new calls. |
| AttemptTheorems.EveryRunEndsClean | router/app.py:939-959 | A reachable state without a cooperative step has every request ended, every count 0 and the lock free. |
| EngineManagers.EngineManager.constructor | router/engines.py:1202-1215 | A new manager is in an initial state of the machine. |
| EngineManagers.EngineManager.Acquire | router/engines.py:1535-1539 | Starts an acquire, suspended in engine resolution, and changes nothing else. |
| EngineManagers.EngineManager.EngineFound | router/engines.py:1539-1540 | Resolution queues the call for the swap lock. |
| EngineManagers.EngineManager.LockGranted | router/engines.py:1540-1547 | Begins a swap exactly if the target is not the active engine, recording that it began; otherwise goes on to the model load. |
| EngineManagers.EngineManager.DrainLooks | router/engines.py:1681-1691 | A drain goes on exactly when its count is 0 and parks otherwise. |
| EngineManagers.EngineManager.DrainTimesOut | router/engines.py:1692-1697 | A drain that times out proceeds and marks its engine's holders as evicted. |
| EngineManagers.EngineManager.FreeVram | router/engines.py:1601-1603 | Marker and gauge are cleared before free_vram begins. |
| EngineManagers.EngineManager.FreeVramReturns | router/engines.py:1603-1608 | The freed engine leaves the GPU; the loop goes on to the next engine, the memory wait or the start. |
| EngineManagers.EngineManager.MemorySettled | router/engines.py:1605-1608 | The memory wait is followed by the start. |
| EngineManagers.EngineManager.EngineStarted | router/engines.py:1618-1622 | Success sets marker and gauge to the target and records one result. |
| EngineManagers.EngineManager.LoadedNamesReturn | router/engines.py:1560-1570 | A probe that shows the model skips the load; any other, including a failed probe, drains the engine first. |
| EngineManagers.EngineManager.LoadModelReturns | router/engines.py:1570-1571 | A load replaces what the engine has loaded. |
| EngineManagers.EngineManager.Counted | router/engines.py:1548-1550 | The increment is the last step of acquire and gives up the lock. |
| EngineManagers.EngineManager.Interrupted | router/engines.py:1609-1616 | An exception or a cancellation gives up the lock and, inside a swap, clears marker and gauge and records the failure. |
| EngineManagers.EngineManager.Release | router/engines.py:1573-1577 | The guarded decrement, then every parked drain is woken. |
| Streaming.PlanRepeatsOnlyTheReload | router/app.py:204-217 | A plan starts with the picked model and tries no model twice, but for one reload of the picked one. |
| Streaming.PlanIsComplete | router/app.py:204-217 | A plan is the picked model, once more exactly for a reload, then, exactly if falling forward is on, all the decision's fallbacks in order. |
| Streaming.AwaitAcquire | router/app.py:826-848 | One keep-alive per interval until the acquire is done or the client is found gone. |
| Streaming.Relay | router/app.py:892-912 | Relays exactly the chunks before the one at which the client is found gone. |
| Streaming.Attempt | router/app.py:811-938 | An attempt is retried exactly if it failed in acquire or connect, before any byte, and is not the last. |
| Streaming.Generate | router/app.py:804-959 | The loop computes the reference semantics `Outcome` of its plan. |
| Streaming.DecidingIsFirst | router/app.py:856-925 | The deciding attempt, defined from the attempts' outcomes alone, is the first that does not fail clean, or the last. |
| Streaming.AttemptsArePrefix | router/app.py:810-860 | The attempts made are exactly the plan up to the deciding attempt, which decides how the request ends: the loop goes on past every clean failure and nothing else. |
| Streaming.EarlierAttemptsFailClean | router/app.py:856-925 | Every attempt that was fallen past ended in an EngineError of acquire or in a connect error, with the client still there and no byte relayed. |
| Streaming.FailuresFallForward | router/app.py:856-925 | After any number of such failures the next model of the plan is tried, if there is one. |
| Streaming.OutputIsShaped | router/app.py:843-938 | Output is keep-alives, then chunks of the deciding attempt only, then at most one error; a complete relay shows every chunk and no error. |
| Streaming.OutputIsExact | router/app.py:839-938 | The output, frame by frame: one keep-alive for each tick waited in each attempt, the chunks up to the client's leaving, and the error frame with its end marker exactly if the run ends in a shown error. |
| Streaming.EndingIsDecided | router/app.py:839-938 | For every way the deciding attempt can go, how the request ends: relayed exactly after a complete relay, client gone, raised, error shown, or silent. |
| Streaming.SseEndsProperly | router/app.py:849-938 | An SSE run with a connected client ends in a complete relay or exactly one error frame if and only if its deciding attempt ends in no uncaught exception. |
| Streaming.SseMayStopSilently | router/app.py:849-860 | A run that does not: an acquire raises an exception that is no EngineError (as a failing process launch does), and the stream stops without a frame. |
| Streaming.NdjsonMayEndSilently | router/app.py:1187-1261 | An NDJSON run with a connected client shows an error exactly for an upstream error status, and ends silently exactly for a failed acquire or relay. |
| Streaming.NdjsonFailsWithoutAWord | router/app.py:1187-1198 | A run that ends so: the engine does not start and the client gets an empty stream. |
| Streaming.VerdictsMatchAttempts | router/app.py:852-923 | The picker hears one failure per attempt fallen past, then what the deciding attempt earned. |
| Streaming.VerdictsAreEarned | router/app.py:852-935 | The picker hears a failure of each attempt fallen past; a success exactly if the last was relayed or its client left during the relay, nothing if it left before or an exception went through, a failure otherwise; and nothing of a request it did not pick. |
| Streaming.Forward | router/app.py:971-1038 | The non-streaming loop goes on past failed acquires and connects and nothing else; it answers with the last attempt's status, or as engine down, bad gateway or crash by how that failed; only an answer below 500 is a success. |
| RequestBody.AttemptBodies.constructor | router/app.py:770-790 | The first attempt's body is computed from the client's. |
| RequestBody.AttemptBodies.BodyFor | router/app.py:790-800 | Whatever was sent before, the body sent for a model is the function `Sent` of the client's body and that model. |
| RequestBody.AttemptBodies.SendAll | router/app.py:811-868 | So a whole plan sends the bodies of its models, independently of order and history. |
| RequestBody.NoInheritedInjection | router/app.py:779-800 | Thinking is off in an attempt exactly if its own model's policy fires or the client turned it off; if the policy does not fire, the template arguments sent are the client's. |
| RequestBody.SmallBudgetsTurnThinkingOff | router/app.py:158-187 | On chat completions, for a model with a positive threshold and a client that says nothing of thinking, thinking is off exactly if the budget is a number below the threshold: max_completion_tokens, or max_tokens if that is missing or null. |
| RequestBody.OtherwiseThinkingIsTheClients | router/app.py:158-165 | On other paths, and for models with no threshold or a zero one, thinking is off exactly if the client turned it off. |
| RequestBody.OtherArgumentsSurvive | router/app.py:178-182 | Every other template argument of the client reaches every attempt unchanged. |
| RequestBody.ExplicitChoiceSurvives | router/app.py:165-187 | An explicit client choice of thinking is sent unchanged on every attempt. |
| RequestBody.PolicyIdempotent | router/app.py:142-187 | Applying the thinking policy twice is applying it once. |
| RequestBody.RestIsTheClients | router/app.py:790-800 | Every other field is the client's, and the model field is the attempt's model. |
| RequestBody.FallbackEqualsPrimary | router/app.py:779-800 | A fallback gets what it would get as the primary model, if and only if the client sent no explicit null template arguments or the fallback's policy fires. |
| Scoring.QualityScore | router/smart.py:663-690 | The accumulating loop computes the weighted mean over the capability dimensions of the job. |
| Scoring.QualityIsTheMean | router/smart.py:663-690 | Quality times the capability weight is the weighted sum of the scores, and 0.45 without such weight. |
| Scoring.SumsAddUp | router/smart.py:668-688 | Each capability of the job adds its weight and its weighted score to those sums; other dimensions add nothing. |
| Scoring.KnowledgeHasPrecedence | router/smart.py:671-686 | The user's strengths decide a capability, then calibration, then a prior (blended with the user's tier by its confidence), then the tier, then 0.45. |
| Scoring.MatchRises | router/smart.py:653-659 | Explicit metadata lifts the match confidence to at least 0.9 and calibration to at least 0.8; nothing lowers it. |
| Scoring.QualityBetween | router/smart.py:663-690 | Quality lies between the least and the greatest capability score it uses. |
| Scoring.CapScoreInUnit | router/smart.py:671-686 | Each capability score, from metadata, calibration, prior, tier blend or default, is in [0, 1]. |
| Scoring.QualityInUnit | router/smart.py:639-690 | Quality is in [0, 1]. |
| Scoring.TotalMonotone | router/smart.py:850-868 | A total is monotone in every component. |
| Scoring.EachComponentCounts | router/smart.py:866-868 | Any move of the components moves the total by each one's own weight's share of all the weights. |
| Scoring.TotalInUnit | router/smart.py:850-868 | With components in [0, 1] a total is in [0, 1]. |
| Ranking.RankedSorts | router/smart.py:894 | Sorting by falling total and then by model id gives a strictly ordered list. |
| Ranking.LessIsLexicographic | router/smart.py:894 | Ties are broken by the code-point order of model ids. |
| Ranking.FirstIsBest | router/smart.py:894-904 | The first of a kind in the ranking is ahead of every other candidate of that kind, and is missing exactly if there is none. |
| Picker.BoostedOk | router/smart.py:858-865 | Job preferences take no weight away: the effective weights keep a positive sum. |
| PickerMeaning.BoostIs | router/smart.py:859-863 | A job's wish for speed or reliability multiplies that weight by 1 + 2 times the wish, and no other weight. |
| PickerMeaning.WantedFinds | router/smart.py:799-800 | The wish is the job's entry, and 0 without one. |
| PickerMeaning.SwapCostIs | router/smart.py:705-734 | An active engine costs nothing; another what was observed, or else 0.4 of its start timeout, 0.5 of its load timeout or 15 s, plus a fifth of the settle timeout; and 2 s per request elsewhere, at most 10 s. |
| PickerMeaning.ElsewhereAddsUp | router/smart.py:729-732 | Requests elsewhere are all counts but the engine's own. |
| PickerMeaning.SwapScoreIs | router/smart.py:840-842 | The swap score falls linearly from 1 at no cost to 0 at the horizon, which is at least a second. |
| PickerMeaning.ContextFitIs | router/smart.py:736-753 | A context scores 1 up to 70% of its length and falls linearly to 0 at its length; 32768 is assumed if unknown. |
| PickerMeaning.ReliabilityIs | router/smart.py:843-848 | Reliability falls from 1 to 0.2 in equal steps up to the failure threshold. |
| PickerMeaning.SurenessIs | router/smart.py:930-932 | Confidence rises linearly from 0.35 at no lead to 1 at a lead of a quarter, scaled by the match. |
| PickerMeaning.ConfidenceIs | router/smart.py:925-932 | The lead is over the runner-up, and 0.3 without one. |
| PickerMeaning.StandingIs | router/smart.py:808-836 | A candidate is excluded exactly by its shape or by a configured context it cannot hold, and otherwise out for a cooldown exactly while one lasts. |
| PickerMeaning.ChoiceIsAmong | router/smart.py:877-892 | The choice is among exactly the viable candidates; without one, among the cooling ones, at 0.1 on the active engine and 0.05 elsewhere. |
| PickerMeaning.ViableScoreIs | router/smart.py:838-876 | The score of a viable candidate is the total of quality, speed, residency, swap score, reliability and context fit under the boosted weights. |
| PickerMeaning.DecisionIsAllowed | router/smart.py:803-892 | Pick and fallbacks are offered models that fit the request's shape and size, in cooldown only if all such models are; and there is no decision exactly if there is no such model. |
| PickerMeaning.DecisionReportsItsChoice | router/smart.py:894-1000 | A decision reports the pick, its swap cost, whether a swap is needed, the fallbacks, and the confidence in what the margin rule left. |
| Picker.SmartRouter.NoteSwap | router/smart.py:461-469 | Folds a successful duration into that engine's average, changes nothing else, and keeps the router's memory equal to its history. |
| Picker.SmartRouter.RecordSuccess | router/smart.py:471-477 | Counts the success and clears failure run and cooldown of that model only; the memory stays equal to the history. |
| Picker.SmartRouter.RecordFailure | router/smart.py:479-493 | Counts the failure of that model and sets its cooldown exactly from the threshold on; the memory stays equal to the history. |
| Picker.SmartRouter.InCooldown | router/smart.py:495-497 | Stated from the history of reports: true exactly if the model's trailing failures reach the threshold and now is before the last of them plus cooldown_s. |
| Picker.SmartRouter.Decide | router/smart.py:799-1000 | The scoring loop, the choice and the fallback list compute the decision function, without changing the router. |
| Picker.SmartRouter.CollectFallbacks | router/smart.py:952-955 | The list comprehension with its cut. |
| PickerTheorems.PickRule | router/smart.py:894-944 | The pick is the best candidate if and only if that is resident, or nothing is, or it clears both the swap margin and the confidence; otherwise it is the best resident. |
| PickerTheorems.KindsMean | router/smart.py:894-928 | Best means ahead, by total and then by id, of all candidates, of all resident ones, or of all of another model. |
| PickerTheorems.SwapsAreEarned | router/smart.py:900-944 | A resident pick is the best resident; a non-resident pick is the best of all and beats every resident by at least the margin. |
| PickerTheorems.FallbacksAreTheNextBest | router/smart.py:952-955 | Fallbacks are in ranking order, exclude the pick, have an engine in the table, are bounded, and leave out nothing better. |
| PickerTheorems.FallbackModelsAreDistinct | router/smart.py:952-955 | The reported fallbacks name each model once and never the pick. |
| PickerTheorems.RaisingThePickKeepsIt | router/smart.py:894-944 | Raising only the picked candidate's total never un-picks it, through margin and confidence rule. |
| PickerStability.ScoresAreFractions | router/smart.py:838-868 | Every scored total and match confidence is in [0, 1], whatever the router's state. |
| PickerStability.SwapScoreGain | router/smart.py:705-734 | When the pick's engine becomes active, no other engine's swap score gains more than its own. |
| PickerStability.LiftedPickStays | router/smart.py:894-944 | If nobody gains more than the swapped-in pick, it is picked again. |
| PickerFixedPoint.ViableAgain | router/smart.py:838-868 | Following a viable pick keeps it the pick. |
| PickerFixedPoint.CooledAgain | router/smart.py:878-892 | Following a pick made among candidates in cooldown keeps it the pick. |
| PickerFixedPoint.ClearedAgain | router/smart.py:471-477 | A pick let through from its cooldown that succeeds becomes the only viable candidate. |
| PickerFixedPoint.FollowingThePickKeepsIt | router/smart.py:773-1000 | No ping-pong: after a pick is followed, with the swap noted and possibly its success recorded, the same request picks the same model again and needs no swap. |
| SmartHealth.SuccessClears | router/smart.py:471-477 | A success ends the run of failures and the cooldown of any record. |
| SmartHealth.FailureCounts | router/smart.py:479-493 | A failure lengthens the run of any record and starts a cooldown exactly once it reaches the threshold, or 1. |
| SmartHealth.HealthIsHistory | router/smart.py:471-497 | After any history from a fresh state: the failure counter is the trailing run of failures, the cooldown is the last failure plus cooldown_s exactly from the threshold on and 0 otherwise, and the totals count the calls. |
| SmartHealth.EstimateBetween | router/smart.py:461-469 | The swap-time average exists exactly after a success and lies between the least and the greatest successful duration. |
| SmartHealth.SuccessMovesTheEstimate | router/smart.py:461-469 | The first successful swap is the estimate; each later one moves it 40% of the way to its own duration. |
| SmartHealth.FailuresDoNotMatter | router/smart.py:463-464 | Failed swaps leave no trace in the estimate. |
| SmartHealth.RouterHealthIsHistory | router/smart.py:471-493 | After any interleaving of reports on many models, each model's record is that of its own reports, and exists exactly after one. |
| SmartHealth.RouterSecondsAreHistory | router/smart.py:461-469 | After any interleaving of swaps to many engines, each engine's average is that of its own swaps. |
| SmartHealth.CoolingIsHistory | router/smart.py:471-497 | A record is in cooldown exactly if its model's own trailing failures reach the threshold and the last is less than cooldown_s ago. |
| ConfigParsing.ParseFraction | router/config.py:755-759 | Accepts exactly the finite numbers in [0, 1]. |
| ConfigParsing.ReadWeights | router/config.py:747-749 | Reads off all values, or reports the first that is no weight. |
| ConfigParsing.ParseWeightTable | router/config.py:737-752 | Accepts a table exactly if its keys are weights, its values finite and not negative, and one is positive unless it is empty; otherwise reports the faults in the code's order. |
| ConfigParsing.ParsedIsAccepted | router/config.py:737-752 | What the parser returns has only known keys, no negative value and a positive one unless it is empty. |
| ConfigParsing.ParseNonNegative | router/config.py:703-714 | Accepts exactly the finite numbers of at least 0, and tells booleans, unreadable, infinite and negative values apart. |
| ConfigParsing.PolicyTables | router/smart.py:628-636 | A policy means the configuration's own non-empty table, completed by half the defaults, else the built-in one, else the default. |
| ConfigParsing.UserWeightsWin | router/smart.py:636-637 | The user's weights win over the policy's and change no other. |
| ConfigParsing.EffectiveWeightsOk | router/smart.py:628-637 | For every accepted configuration the merged weights are exactly the six, none negative, with a positive sum. |
| ConfigParsing.AcceptedScoresAreFractions | router/smart.py:796-868 | So the `or wsum` fallback never decides, and totals under the job's boosts are in [0, 1]. |
| ConfigParsing.ValidateAliases | router/config.py:1134-1175 | Fails with the first flaw of the first flawed alias and accepts exactly the tables without one. |
| ConfigParsing.FlawlessAliases | router/config.py:1148-1168 | An alias is accepted exactly if both names are non-empty text, they differ, the alias is no configured model and the target no alias; each fault means what it says. |
| ConfigParsing.ResolveIsIdempotent | router/engines.py:1464-1472 | With validated aliases resolving is a single hop that leaves configured models alone. |
| ConfigParsing.BuildModelIndex | router/config.py:1178-1186 | Every configured id is indexed, with the last model configured under it. |
| ConfigParsing.DistinctIdsAreIndexed | router/config.py:1178-1186 | Distinct ids are each their own entry. |
| Catalog.OrderDoesNotMatter | router/catalog.py:282-299 | Two lists with the same claims, in particular permutations, merge to the same engine and source for every id. |
| Catalog.MergeIsDetermined | router/catalog.py:347-353 | Configuration, live lists and memory determine the merge. |
| CatalogClaims.StaticWins | router/catalog.py:22-29 | A configured model of an engine is catalogued as static, on that engine or an earlier one. |
| CatalogClaims.ServedIsNext | router/catalog.py:22-29 | With discovery on, a hinted model yields only to a configured one, and to the hint of an earlier engine. |
| CatalogClaims.LiveIsThird | router/catalog.py:22-29 | What an engine lists live yields only to those, and to an earlier engine's live list. |
| CatalogClaims.StartedIsFourth | router/catalog.py:22-29 | What an engine would start with yields only to those three, and to an earlier engine's start command. |
| CatalogClaims.MemoryIsLast | router/catalog.py:22-29 | A remembered model is catalogued on its engine if nobody else claims it. |
| CatalogClaims.EntriesAreClaimed | router/catalog.py:241-299 | Nothing is catalogued that its source does not claim for its engine; without discovery there are only static entries. |
| CatalogClaims.LastAnswerWins | router/catalog.py:366-383 | After a refresh a model is remembered for the last engine that answered with it. |
| CatalogClaims.NoAnswerChangesNothing | router/catalog.py:366-383 | A model no engine answered with is remembered as before. |
| CatalogClaims.RefreshPolls | router/catalog.py:357-368 | What counts as live is each engine's own answer. |
| Catalog.AliasesInherit | router/catalog.py:300-321 | Each alias of a known target is an entry with exactly its target's engine; an alias of an unknown target is what was claimed under its name, if anything; other entries are untouched. |
| Catalog.ModelCatalog.constructor | router/catalog.py:145-151 | A new catalog is the merge of the configuration and the remembered models. |
| Catalog.ModelCatalog.Rebuild | router/catalog.py:241-325 | The entries become the merge of the current claims with the aliases on top. |
| Catalog.ModelCatalog.Collect | router/catalog.py:241-280 | The list of candidates holds exactly the claims of static models, hints, start commands, live lists and memory. |
| Catalog.ModelCatalog.Merge | router/catalog.py:282-299 | Each id gets the entry that no claim beats by source priority and then by engine order; empty ids and unknown engines are skipped. |
| Catalog.ModelCatalog.SetSeenModels | router/catalog.py:225-239 | The ids are remembered for the engine, nothing is forgotten, and the catalog is rebuilt. |
| Catalog.ModelCatalog.Refresh | router/catalog.py:355-385 | Every answer is remembered in engine order and merged as live. |
| Catalog.ModelCatalog.SeenModels | router/catalog.py:215-223 | Lists per engine what is remembered for it or was found on it. |
| Routing.CandidatesAreRouted | router/smart.py:590-625 | For every enumerated candidate `engine_for` returns the recorded engine if and only if the id is not configured for a disabled engine and not empty. |
| Routing.DuplicateIdIsNotRouted | router/engines.py:1486-1491 | A candidate that is not routed: an id configured twice, the second time on a disabled engine. |
| Routing.CandidatesAreExplained | router/engines.py:1266-1331 | `explain_model` names it too if and only if, besides, the id is configured, catalogued or tagged, or the default engine happens to be its owner. |
| Routing.ThreeWaysAgree | router/engines.py:1474-1532 | While discovered ids are catalogued, enumeration, routing and explanation name one engine for every routable candidate. |
| Routing.UncataloguedIsMisexplained | router/engines.py:1290-1331 | Without that they can differ: a concrete discovered id is routed to one engine and explained as another. |
| Routing.AliasesRouteLikeTargets | router/engines.py:1464-1512 | An alias is routed like its target; it is explained like it if and only if the target is known, or nobody else claims the alias, or that claim is on the engine the unknown target goes to. |
| Routing.RecordedInTable | router/smart.py:590-625 | Every recorded engine is an engine of the table. |
| RoutingOrder.ConfiguredAndCatalogued | router/engines.py:1486-1500 | A configured model goes to its engine or fails as disabled; a catalogued one goes to its catalog owner; both are explained so. |
| RoutingOrder.TaggedModels | router/engines.py:1502-1507 | A live tag is routed to and explained as the first engine of the table that has it. |
| RoutingOrder.DiscoveredModels | router/engines.py:1509-1515 | An id nobody has live, but that was discovered, goes to the first engine that knows it. |
| RoutingOrder.ProcessStepIsDead | router/engines.py:1517-1523 | The process-engine step never finds anything. |
| RoutingOrder.UnownedModels | router/engines.py:1525-1532 | A name nobody is known to serve goes to the only engine, else to the first API-swap engine, else fails; it is explained in the same way. |
| RoutingOrder.CandidatesAreTheServable | router/smart.py:590-625 | The candidates are exactly the names configured on an enabled engine, catalogued, tagged or discovered, but for aliases and for smart aliases that name no configured or catalogued model. |
| RoutingManager.Manager.constructor | router/engines.py:1202-1222 | A new manager's state is consistent. |
| RoutingManager.Manager.RefreshCatalog | router/engines.py:1257-1264 | A refresh keeps every seen model remembered. |
| RoutingManager.Manager.Snapshot | router/engines.py:1346-1360 | A non-empty answer replaces what was seen on the engine and stays remembered; an empty one changes nothing. |
| RoutingManager.Manager.StateIsConsistent | router/engines.py:1346-1360 | In every state of the manager every discovered id is in the catalog. |
| RoutingManager.Manager.DiscoveredIndex | router/engines.py:1362-1419 | The loop gives each id to the first discovering engine that advertises it. |
| RoutingManager.Manager.EngineFor | router/engines.py:1474-1532 | The method follows the resolution order alias, static, catalog, tags, discovery, process, fallback, with its errors. |
| RoutingManager.Manager.ExplainModel | router/engines.py:1266-1331 | The method follows the resolution order alias, static, catalog, tags, fallback. |
| RoutingManager.Manager.EnumerateCandidates | router/smart.py:590-625 | The four sources override each other as stated, and alias names are taken out. |
| MemorySettle.AwaitSettle | router/engines.py:1648-1679 | "Settled" means the last two steps each rose by less than 1,000,000 kB and none before did so twice; on a readable curve that never falls it settles within 2 * floor(G / 1000000) + 3 polls for a growth G, or meets the deadline first. |
| MemorySettle.RestlessPollsRunOut | router/engines.py:1664-1674 | On a readable curve that never falls, polls without two flat steps in a row are at most 2 * floor(G / 1000000) + 2. |
| Metrics.Histogram.constructor | router/metrics.py:54-60 | A new histogram has observed nothing. |
| Metrics.Histogram.Observe | router/metrics.py:62-69 | Tallies a value in the first bucket that holds it. |
| Metrics.Histogram.Render | router/metrics.py:71-80 | Each rendered bucket is the number of observations up to its bound, the last one all of them. |
| Metrics.SumAddsUp | router/metrics.py:62-64 | The running sum starts at 0 and each observation adds itself. |
| Metrics.CumulativeCounts | router/metrics.py:71-80 | With increasing bounds, running totals of per-bucket tallies count the observations up to each bound. |

## Left out

- HTTP, authentication, header filtering and JSON encoding; upstreams and engine calls are outcomes the environment chooses, and a request body is the dict that is serialized.
- Process control, sockets and the engines' own programs: only "a normal return of free_vram means the engine has released the GPU" is kept. An unreachable loaded_path reads as empty in the source, and that is taken as such a return.
- Engines that crash, or are started outside the router's control.
- The order of waiters on the swap lock: any waiter may be granted it, which covers the first-come order of asyncio.
- A cancellation swallowed by `asyncio.wait_for` when the wait finishes at the same moment (Python before 3.12).
- A cancellation that lands inside the unshielded release of the non-streaming handlers (router/app.py:1020-1022).
- The value recorded in the in-flight-at-swap-start histogram; only that each swap begun records one.
- Outputs of a stream cut off by the client between two polls: they are prefixes of the modelled outputs.
- The NDJSON handler's body function, which applies no thinking policy.
- Request classification, identity and shape tests, speed curves and benchmark tables: a job, a speed in [0, 1], priors in [0, 1] and a verdict on the shape are given.
- Floating-point rounding in scores; real numbers are used. An integer too large for `float()` is not modelled in the configuration.
- PickerFixedPoint.FollowingThePickKeepsIt: without a swap the in-flight counts must be unchanged; with one they may grow, or change freely if the target had no request in flight and a non-negative estimate. The cooldowns must be the same at both times.
- Routing.ThreeWaysAgree: live tags are the same for the three resolutions; the source reads them through a cache with a time limit.
- Catalog.ModelCatalog.Rebuild: time stamps, live status, staleness and collision notes of entries are not modelled; neither is reading the state file.
- Picker.SmartRouter.constructor: the router starts without remembered health and swap times; reading them from the state file is not modelled.
- Parsing of start commands: the ids read off one are given.
- `routerctl`, the wizard, presets, logging, calibration probes and the benchmark store.
