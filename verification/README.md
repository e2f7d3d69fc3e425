# Verified models of the Hina agent server

This project models the parts of the Hina agent server that are hardest to get right and proves what they
promise. Each module follows one component of the repository; every modelled operation keeps the branches,
constants and error cases of the code it stands for.

* **Automations** (`Selector`, `Templates`, `Definitions`, `BranchCycles`, `Scoping`, `Validator`, `Engine`,
  `EngineMeaning`, `Soundness`, `SwallowedLoop`, `EngineState`, `EngineBounds`, `Aggregates`): the reference and
  template language, the static validator, the interpreter of the step language and its shared budgets. The main
  theorem joins the validator to the interpreter: a definition the validator accepts never looks up an unbound root
  and never enters a branch cycle, for every executor and every interleaving of parallel children.
* **Schedules** (`CronFields`, `CronExpression`, `Schedule`): cron fields and expressions, and the next fire after
  now.
* **Durable scheduler** (`Admission`, `AutomationStore`, `Scheduler`, `SchedulerProof`, `SchedulerEffect`,
  `SchedulerWidth`): admission under overlap policies and caps, durable replacement tokens, generation guards and the
  wait group, as a state machine whose steps are one critical section, one store statement or one wait-group change,
  with crashes at any point.
* **Event delivery** (`EventBus`): the bus, its poisoned subscribers, the reader's gap replay, and a browser that
  reconnects with the last id it received (section 9.2 of the WHATWG HTML Living Standard).
* **Lifecycles** (`Lifecycle`, `Broker`, `Listen`): the shared model bundle, the credential protocol of agent logins
  and key changes, and the generation-tagged recognition segments of a call.
* **Speech recognition** (`Fft`, `Tokenizer`, `Recognizer`, `Bias`): the in-place transform, the Viterbi segmenter,
  the streaming windows, and the biasing trie.

`Wrappers`, `Text` and `Arithmetic` hold shared vocabulary. Code that changes state step by step is a class or a method
with loops, whose contract ties the new state to a function of the old one; what the component promises is then proved
about those functions and about every run of them. A protocol is a `World` with a `Step` function over atomic actions;
its theorems speak of `Run` over an arbitrary list of actions, so over every interleaving.

Everything the code does not decide itself is an argument: executor replies, budget grants, condition verdicts and
cancellations of the engine are arbitrary functions of the position at which they are asked; store writes, reads, loads
and finalizers may fail at any step; clocks and calendars are parameters.

## Findings

Where a promise does not hold of the code as it stands, the model keeps the code and the project says when it does hold.

* A `for_each` with `continue_on_error` whose items do not resolve ends without writing an output, although later steps
  may refer to it (`internal/automation/engine.go:388-400`). `SwallowedLoopIsUnbound` gives a definition the validator
  accepts whose run looks up an unbound root. `ScopeSoundness` shows that a root is unbound only if it is such a loop and
  its items did not resolve in that very run, and `ScopeSoundnessUnlessNamed` that none is when no reference names one.
* A cron step near the top of the integer range makes the loop over a term's values wrap around to values below its start
  (`internal/automation/schedule.go:209-211`): `HugeStepWraps` reads `1-5/9223372036854775807` as three values. A term,
  a field and an expression denote the stated progressions exactly when `start + step` fits an `int64` for every term
  (`TermExact`, `FieldIsUnion`, `CronDenotes`).
* A long downtime does not always collapse to one cron fire: `NextAfterNow` succeeds exactly when fewer than 100000 fires
  were missed and no search from one of them, or from the anchor, comes up empty
  (`internal/automation/schedule.go:87-103`). `LongDowntimeFails` calls it for `* * * * *` and gets the error, although
  the next minute is a fire.
* A piece whose score reaches the negated largest float32 is taken for unreachable, and the unknown token is used where
  a piece does end (`internal/asr/tokenizer.go:153-189`). `SentinelScoreLosesPiece` is the text `a` with the marker scored
  so: the ids returned are both unknown, and the path is not a best one. Every prefix of the text is segmented best
  exactly when it is `Clear`: wherever a piece ends, a best one scores above the sentinel and starts where the best score
  is not the sentinel itself. `TameIsClear` is a bound on the scores alone that implies it.
* `advance` says that a name beginning mid-stream is caught (`internal/asr/bias.go:116-120`). It is not when it begins
  inside another phrase's path (`InnerPhraseIsNotBoosted`) or with the token that completes one
  (`CompletedPhraseHidesNext`); `TracksIffNoOverlap` gives the exact condition on the configured phrases.
* Credential and profile agree in kind only if `SetKey` is called with a key-style type: `ReplaceKeepsAgreement` shows
  that a recorded replacement agrees exactly when its kind fits its type. The HTTP handler already refuses any other type
  (`internal/httpapi/handlers_agents.go:115-119`), so this takes a direct call of `SetKey`.
* The reconciler's branch that clears the pending fire of a manual-trigger automation
  (`internal/autorun/scheduler.go:106-109`) never has anything to clear: `TokensClaimedOnce`.

## Model

| member | source | states |
|---|---|---|
| Selector.ParsePath | internal/automation/selector.go:30-85 | the parser's loop computes the grammar's result on every text, each error in the code's order |
| Selector.ParseTurn | internal/automation/selector.go:38-77 | one turn of the parser on its index, expectation and segments, and the error it stops with |
| Selector.ParseInvertsPrint | internal/automation/selector.go:30-85 | parsing the dot/bracket form of any in-bounds path gives that path back |
| Selector.ParseFaults | internal/automation/selector.go:38-84 | right after a well-formed path: which texts are a trailing dot, an empty segment, a malformed or bad index, or one segment too many |
| Selector.FrontFaults | internal/automation/selector.go:31-84 | the empty reference, a leading dot, and an index without a root before it are refused as such |
| Selector.ParseShape | internal/automation/selector.go:78-84 | a parsed path starts with a key and respects the depth limit |
| Selector.RootIffParses | internal/automation/selector.go:90-96 | a reference has a root just when it parses |
| Templates.ResolveRef | internal/automation/selector.go:108-141 | the loop over the path computes the resolution that `ResolveMeans` describes |
| Templates.ResolveRoot | internal/automation/selector.go:108-141 | resolution fails for its root exactly if the reference does not parse or its root is unbound |
| Templates.ResolveMeans | internal/automation/selector.go:108-141 | the result is v if and only if a chain of links, each a key's or an index's own value, leads from the bound root to v; a missing key or index, or a wrong shape, is reported if and only if the first broken link breaks so |
| Templates.ExpandTemplate | internal/automation/selector.go:170-210 | the expander's loop with its length, count and output limits |
| Templates.ExpandMeans | internal/automation/selector.go:170-210 | the result is the text with each interpolation replaced by the rendering of the value its trimmed reference denotes; it exists if and only if all of them resolve and render and no limit is passed |
| Templates.ScanTemplateRefs | internal/automation/selector.go:217-243 | succeeds exactly if every interpolation closes and parses, with the deduplicated roots of the references |
| Templates.ScanIsExact | internal/automation/selector.go:170-243 | a template that scans can fail to expand only on a lookup, rendering or size; it misses a root just if a scanned one is unbound; one that does not scan never expands |
| BranchCycles.CheckBranchCycles | internal/automation/validate.go:428-466 | the three-colour search reports a cycle if and only if the branch graph of the level has one |
| BranchCycles.Dfs | internal/automation/validate.go:432-457 | one visit finds only real cycles, and otherwise leaves its vertex finished with everything it reaches |
| BranchCycles.FinishedIsAcyclic | internal/automation/validate.go:428-466 | a graph all of whose vertices were finished in order has no cycle |
| Scoping.TailStep | internal/automation/validate.go:407-421 | what a dispatched branch target can reach is well scoped one dispatch further |
| Scoping.LevelMono | internal/automation/validate.go:375-401 | a well-scoped level stays so when more outputs are visible |
| Validators.Validator.CollectStepIds | internal/automation/validate.go:199-227 | reports nothing exactly if all nested ids are well formed, not reserved, distinct, few enough and not too deep |
| Validators.Validator.CheckRoot | internal/automation/validate.go:523-538 | reports nothing exactly if the root is visible, or a loop variable inside a loop |
| Validators.Validator.CheckTemplate | internal/automation/validate.go:591-612 | reports nothing exactly if the template is short enough, scans, and all its roots are allowed |
| Validators.Validator.CheckWorkspaceRef | internal/automation/validate.go:543-585 | reports nothing exactly if the reference is the workspace of a visible checkout step |
| Validators.Validator.ValidateStep | internal/automation/validate.go:243-365 | reports nothing exactly if the step's own fields, references and nested levels are well formed |
| Validators.Validator.ValidateStepTree | internal/automation/validate.go:407-421 | the marked walk over branch targets reports nothing only if all a step can dispatch is well scoped |
| Validators.Validator.ValidateLevel | internal/automation/validate.go:375-401 | reports nothing exactly if the level is acyclic and every step it can run sees only outputs that exist by then |
| Validators.Validator.Validate | internal/automation/validate.go:83-97 | no issue with the steps if and only if they are valid |
| Validators.TreeFromExplored | internal/automation/validate.go:407-421 | visiting each target once is enough: the marked walk has checked every dispatch chain |
| Soundness.ScopeSoundness | internal/automation/engine.go:219-321 | for every accepted definition and every environment each reference parses and has its root bound, except the output of a loop that swallowed its items error in the same run, and no branch cycle is met |
| Soundness.ScopeSoundnessUnlessNamed | internal/automation/engine.go:219-321 | if no reference of the definition names a loop that may swallow its items error, every reference finds its root bound |
| Soundness.ScopeSoundnessWithoutSwallowing | internal/automation/engine.go:219-321 | without such loops there is no exception |
| Soundness.SingleRefScans | internal/automation/engineutil.go:163-173 | an argument that is exactly one reference scans as that reference, so the run looks up what the validator checked |
| Soundness.NoRevisit | internal/automation/engine.go:278-331 | on an acyclic level a dispatch chain never meets a condition again |
| Soundness.RootsVisible | internal/automation/engine.go:219-240 | what the validator lets a step see are exactly the outputs of the steps that run before it |
| EngineMeanings.LevelRuns | internal/automation/engine.go:219-240 | a level runs, in order, the steps that no condition branches to: a prefix of them, and all when it completes |
| EngineMeanings.ConditionRuns | internal/automation/engine.go:278-321 | a condition that holds runs the steps named by its then branch, one that does not those of its else branch, in order: a prefix of them, and all when it completes |
| EngineMeanings.ConditionFails | internal/automation/engine.go:278-297 | a condition met again on its chain fails; one that cannot be evaluated runs nothing, and fails unless it continues on errors |
| EngineMeanings.LoopRuns | internal/automation/engine.go:388-462 | a loop whose iterations complete, or fail and are swallowed, within the cap writes one entry for each item, in order: what the steps leave in the scope with that item and its index |
| EngineMeanings.LoopStops | internal/automation/engine.go:404-456 | a cancelled iteration, an error that is not swallowed and an entry over the cap end the loop without an output; a finish ends it with the entries so far and its own |
| EngineMeanings.LoopGivesUp | internal/automation/engine.go:388-403 | a loop whose items are not a list of at most 1000 runs and writes nothing, and fails unless it continues on errors |
| EngineMeanings.GroupRuns | internal/automation/engine.go:492-508 | each child of a group runs in the scope the group was entered with |
| EngineMeanings.GroupEnds | internal/automation/engine.go:534-571 | a group ends with the first error that is no cancellation and not swallowed; else cancelled, if a child and the run are; else failed if the merge is over the cap; else as its first child that finished, or completed |
| EngineMeanings.CallsExactly | internal/automation/engine.go:643-690 | an executor is called, the one of the step's kind, if and only if the budget grants it and everything the step's fields name resolves |
| EngineMeanings.LeafUses | internal/automation/engine.go:643-690 | what a tool, model or agent step refers to, field by field |
| EngineMeanings.LeafEnds | internal/automation/engine.go:588-640 | a reply is written under the step's id; a failure is fatal unless the step continues on errors; a refused budget and a cancellation always are |
| EngineMeanings.CancelledStops | internal/automation/engine.go:588-609 | a step reached after a cancellation does nothing (lines 243-250); a leaf cancelled while it waits or runs ends the run and writes nothing, even if it continues on errors |
| EngineMeanings.StatusMeans | internal/automation/engine.go:185-200 | a run is a success, skipped, failed or cancelled exactly by its end and the outer cancellation |
| SwallowedLoops.SwallowedLoopIsUnbound | internal/automation/engine.go:388-400 | an accepted definition whose run looks up an unbound root |
| EngineStates.EngineState.Charge | internal/automation/engine.go:692-720 | a call is granted just below its ceiling and counted; the bounds are kept |
| EngineStates.ChargeMeans | internal/automation/engine.go:692-720 | a call is granted if and only if the budget field of its own kind is not positive or its own count is below it, and only that count grows |
| EngineStates.EngineState.RecordLogs | internal/automation/engine.go:345-366 | keeps whole log subtrees while they fit, then one truncation marker for the run |
| EngineStates.AdmitMeans | internal/automation/engine.go:345-366 | the subtrees kept are the longest prefix of the given ones that fits the budget; a cut leaves the run's one marker |
| EngineStates.EngineState.CapLog | internal/automation/engine.go:737-756 | cuts a log to what remains of the pool, with the mark, or replaces it once the pool is exhausted |
| EngineStates.CapLogMeans | internal/automation/engine.go:737-756 | what is logged is the text, or its first bytes up to the room left and the mark, or only the notice once the pool is exhausted |
| EngineStates.EngineState.ChargeRecordBytes | internal/automation/engine.go:797-809 | charges record bytes to the same pool, or refuses |
| EngineStates.EngineState.MaybePromote | internal/automation/engineutil.go:320-374 | one promotion round over the configured outputs, stopping at the artifact caps |
| EngineStates.StoreMeans | internal/automation/engineutil.go:320-374 | an output is refused as an artifact if and only if a cap is reached; one that is stored holds the captured bytes, cut to what is left of the byte budget |
| EngineStates.PromoteKeeps | internal/automation/engineutil.go:320-374 | artifacts are only added, their bytes are the sum of their contents, and both caps hold |
| EngineStates.AdmitKeeps | internal/automation/engine.go:345-366 | recorded nodes exceed the step-log budget by at most the one marker |
| EngineStates.LogKeeps | internal/automation/engine.go:737-809 | log bytes never exceed the pool by more than the 14 bytes of the mark |
| EngineBounds.BudgetsHold | internal/automation/engine.go:333-366 | under any interleaving tool, model and agent calls each stay within the budget field of their own kind where it is positive, and loop and group logs retain at most one node more than the budget |
| EngineBounds.AbortIsFinal | internal/automation/engine.go:243-321 | without parallel groups no executor call follows a budget or cancellation abort, and the run ends failed or cancelled |
| EngineBounds.TallyPermutes | internal/automation/engine.go:333-366 | the tallies of a run do not depend on the order its events interleave in |
| Aggregates.LoopCompleteOrAbsent | internal/automation/engine.go:388-462 | a loop's results are every iteration's entry so far, within the cap, and after a finish or all items; or it fails and there are none |
| Aggregates.LoopOutput | internal/automation/engine.go:388-462 | a for_each writes exactly the entries of the iterations run, in item order, covering all items unless a finish ended it, or leaves the scope alone |
| Aggregates.OneEntryEach | internal/automation/engine.go:371-383 | with encodable outputs there is one entry per iteration, that iteration's |
| Aggregates.MergeExact | internal/automation/engine.go:511-537 | a merge is refused exactly if the children's outputs exceed the cap, whatever order keys come in; otherwise it holds them all |
| Aggregates.GroupOutput | internal/automation/engine.go:469-571 | a parallel group exposes every child's encodable outputs or, failing, none |
| CronFields.ParseCronField | internal/automation/schedule.go:172-217 | parses the comma-separated terms, adding each term's values, and never yields an empty set |
| CronFields.ParseTerm | internal/automation/schedule.go:175-208 | an accepted term lies within the field's bounds and has a positive step |
| CronFields.ParseForms | internal/automation/schedule.go:178-208 | the forms of a term, each with its start, end and step: star, single value, range, and any of them with a step |
| CronFields.TermExact | internal/automation/schedule.go:209-211 | a term's loop yields its arithmetic progression if and only if its first step does not overflow |
| CronFields.FieldIsUnion | internal/automation/schedule.go:172-217 | a field parses just if all its terms do, never to no values; they are the union of the terms' progressions, and in bounds, if and only if no first step overflows |
| CronFields.ParseInvertsPrint | internal/automation/schedule.go:178-208 | a term written a-b/n is read back |
| CronFields.FieldDenotes | internal/automation/schedule.go:172-217 | a field written as a list of terms is read, and denotes the union of their progressions if and only if no first step overflows |
| CronFields.HugeStepWraps | internal/automation/schedule.go:209-211 | a written field that stands for the value 1 and is read as three values |
| CronFields.SplitInvertsJoin | internal/automation/schedule.go:174-174 | splitting a joined list of terms gives the terms back |
| CronFields.FoldSunday | internal/automation/schedule.go:159-163 | after expansion day 7 is Sunday and no other day changes |
| CronExpressions.ParseCron | internal/automation/schedule.go:132-168 | the five fields under their own bounds, or nothing |
| CronExpressions.CronIsRead | internal/automation/schedule.go:132-168 | refused unless there are five words whose terms all parse; each set is non-empty and what its word stands for, Sunday's 7 becomes 0, the flags mark lone stars |
| CronExpressions.CronDenotes | internal/automation/schedule.go:132-168 | any written expression of five fields is read, each set denoting its field under its own bounds if and only if no first step overflows |
| CronExpressions.WordsInvertJoin | internal/automation/schedule.go:133-133 | splitting words joined by spaces gives the words back |
| Schedules.NextCron | internal/automation/schedule.go:222-233 | the first matching minute strictly after the instant, or none before the horizon |
| Schedules.DayRule | internal/automation/schedule.go:238-248 | both day fields must match while one of them is written as a star, either is enough while neither is |
| Schedules.NextInterval | internal/automation/schedule.go:72-86 | the arithmetic jump is the first period after now, and equals stepping one fire at a time |
| Schedules.SteppedIsFirst | internal/automation/schedule.go:69-86 | naive stepping finds the least from + k*every, k at least 1, after now |
| Schedules.NextCronAfterNow | internal/automation/schedule.go:87-103 | succeeds if and only if fewer than 100000 fires were missed and no search comes up empty; the result is then the first fire after now |
| Schedules.NextAfterNow | internal/automation/schedule.go:60-104 | exactly when a next fire is computed per trigger kind, that it is the first after now from the anchor, and which error means what |
| Schedules.LongDowntimeFails | internal/automation/schedule.go:87-103 | for a cron that fires every minute and a downtime of 100000 minutes or more the computation fails, although a fire follows now |
| Admission.Service.BeginRun | internal/autorun/scheduler.go:279-376 | per policy and cap, entry by entry: only cancel_previous marks runs, and only those of the automation; only a scheduled fire with a durable token waits; an admitted run stands last and is counted once; permits stay exact |
| Admission.Service.EndRun | internal/autorun/scheduler.go:380-422 | drops exactly the run's entry, gives back its permits once, and hands over the waiting fire if and only if no other run of the automation is left and the service runs |
| Admission.Service.SetRunCancel | internal/autorun/scheduler.go:444-456 | binds the run's cancel function, and cancels at once if and only if its entry is marked |
| Admission.Service.CancelAutomation | internal/autorun/scheduler.go:461-471 | marks every run of the automation cancelled and drops its queued replacement |
| Admission.Service.Stop | internal/autorun/scheduler.go:45-69 | marks every run cancelled and the service stopped, keeping permits |
| Admission.BeginPolicies | internal/autorun/scheduler.go:279-376 | what each policy does while n runs are active, written out without the decision function |
| Admission.CancelMarks | internal/autorun/scheduler.go:461-471 | cancelAutomation marks all runs of the automation and drops its waiting fire, a stop (lines 45-69) marks all runs; neither adds, removes or changes anything else |
| Admission.BindMarks | internal/autorun/scheduler.go:444-456 | binding touches the run's own entry only |
| Admission.AdmitOk | internal/autorun/scheduler.go:356-375 | admission adds one permit, keeps counts exact and both caps |
| Admission.EndOk | internal/autorun/scheduler.go:380-422 | ending gives back exactly the run's permits; ending again changes nothing more |
| Admission.CancelOk | internal/autorun/scheduler.go:279-471 | queueing, cancelling, stopping and binding move no permit |
| Admission.BeginWithinWidth | internal/autorun/scheduler.go:290-355 | no policy admits more runs of an automation than its width |
| AutomationStores.StampKeeps | internal/store/automations.go:93-100 | a stamped token is new and accounted for, the one it replaces superseded |
| AutomationStores.ClaimKeeps | internal/store/automations.go:107-117 | a claim clears the exact token; no token is claimed twice |
| AutomationStores.UpdateKeeps | internal/store/automations.go:121-139 | an update starts the next generation, disables the row and clears its pending token; past generations keep their definitions |
| AutomationStores.SwitchKeeps | internal/store/automations.go:153-223 | enabling or disabling at the expected generation, and deleting, start the next generation and clear the pending token, or change nothing |
| AutomationStores.StatementsMean | internal/store/automations.go:65-223 | each statement's guard and the row it leaves, column by column |
| AutomationStores.Latest | internal/store/automations.go:79-117 | the chain of replacements of a token ends in one that is waiting, cleared or claimed |
| SchedulerProofs.StepKeeps | internal/autorun/scheduler.go:218-471 | every step of ticks, drains, runs, edits, stops and crashes keeps the whole invariant |
| SchedulerProofs.BeginRefines | internal/autorun/scheduler.go:279-376 | the split steps of an uninterrupted beginRun do what the service's method does |
| SchedulerProofs.PermitsConserved | internal/autorun/scheduler.go:218-422 | in every reachable state permits are exact, the caps and policy widths hold, and the wait group is at least the active runs, so at zero none is active |
| SchedulerWidths.ConfiguredWidthHolds | internal/autorun/scheduler.go:279-376 | an automation whose stored definitions never allow more than n active runs never has more, through every fire, drain and restart |
| SchedulerWidths.OneRunUnlessParallel | internal/autorun/scheduler.go:290-354 | an automation never configured as parallel has at most one active run in every reachable state |
| SchedulerProofs.ReplacementSurvives | internal/autorun/scheduler.go:299-350 | a run cancelled by cancel_previous has a replacement that is still durable, or was cleared by an edit or claimed, across crashes |
| SchedulerEffects.CancelledForAReason | internal/autorun/scheduler.go:299-350 | in every run of the service a run is marked cancelled only by a stop, by cancelAutomation, or by a cancel_previous fire of its automation whose replacement is durable |
| SchedulerEffects.ReplacedByPolicy | internal/autorun/scheduler.go:299-350 | a run is recorded as replaced only by such a fire's commit, with the token just stamped |
| SchedulerEffects.DueFireIsAdmitted | internal/autorun/scheduler.go:146-230 | with nothing active and room under the caps a row that is due, or whose token is drained, is admitted with the row's owner, policy, generation and, if drained, token; a manual trigger likewise |
| SchedulerEffects.RunsWhenEligible | internal/autorun/service.go:425-578 | a spawned run whose row is enabled at its generation and holds its token is started when nothing fails, its token claimed |
| SchedulerEffects.CheckTurnsAway | internal/autorun/service.go:446-494 | a run passes the check if and only if its row is readable, present, enabled and at its generation |
| SchedulerEffects.LostClaimStops | internal/autorun/service.go:559-578 | a token that is no longer the row's keeps its run from the engine |
| SchedulerEffects.FreshFireIsRetried | internal/autorun/scheduler.go:226-253 | a fresh fire that meets a full cap, an unreadable row or a failed record is left for a retry; a draining one leaves its token where it is |
| SchedulerEffects.ReplacementFires | internal/autorun/scheduler.go:429-440 | a replacement runs under its reported id, token and generation, and the policy its row has by then |
| SchedulerProofs.TokensClaimedOnce | internal/autorun/service.go:559-578 | no token is claimed twice or stays pending once claimed, and a manual automation never holds one |
| SchedulerProofs.NoStaleSideEffects | internal/autorun/service.go:445-578 | every engine run saw its row enabled at exactly the claimed generation; one that may act and is not cancelled acts for the current enabled definition, or an edit is in effect whose cancelAutomation has not run |
| EventBuses.Bus.FanOut | internal/events/bus.go:226-277 | everyone with room gets the event, everyone else is closed and removed, with the failure recorded |
| EventBuses.FanoutReaches | internal/events/bus.go:226-277 | exactly the registered subscribers with room get the event, at the end of their queue; one without is closed with the failure and removed |
| EventBuses.Bus.PublishEphemeral | internal/events/bus.go:284-304 | a live-only event reaches those with room and changes nothing else |
| EventBuses.OfferReaches | internal/events/bus.go:284-304 | exactly the registered subscribers with room get the event, and nobody is removed |
| EventBuses.Bus.Subscribe | internal/events/bus.go:309-320 | a new open channel under a fresh id |
| EventBuses.Bus.Cancel | internal/events/bus.go:321-333 | closes and removes the subscriber once |
| EventBuses.DeliverEvent | internal/httpapi/handlers_chat.go:350-380 | the loop of the handler computes the delivery that `DeliverWrites` and `DeliverWritesLive` describe |
| EventBuses.DeliverWrites | internal/httpapi/handlers_chat.go:350-380 | whatever event comes, the numbers on the wire stay consecutive, and a handled event is covered |
| EventBuses.DeliverWritesLive | internal/httpapi/handlers_chat.go:350-380 | the live-only events on the wire grow by the event handled if it is live-only, and by nothing else |
| EventBuses.ReplayCatchesUp | internal/httpapi/handlers_chat.go:313-320 | writing a replay from the last number sent continues without gap or duplicate to the end of the store |
| EventBuses.FanoutComplete | internal/events/bus.go:264-277 | a subscriber still registered after a fan-out misses nothing |
| EventBuses.GapFree | internal/httpapi/handlers_chat.go:267-380 | over every interleaving of publishes, overflow, failed reads and reconnects the browser receives start+1, start+2, ... |
| EventBuses.LiveDelivery | internal/httpapi/handlers_chat.go:267-380 | over every run the live-only events on a connection's wire are, in order, those of the events offered to it that it handled, and the notice of a closed channel; none is skipped |
| EventBuses.IdleStreamIsCurrent | internal/httpapi/handlers_chat.go:296-336 | a live stream with nothing waiting has been sent all that was persisted |
| Lifecycles.Lifecycle.EnterAcquire | internal/onnx/lifecycle.go:57-85 | the switch at the head of Acquire: denied, pinned, wait or load |
| Lifecycles.Lifecycle.EndLoad | internal/onnx/lifecycle.go:87-122 | a loaded bundle is committed with its first holder, or discarded if closed or cancelled meanwhile |
| Lifecycles.Lifecycle.ReleaseHolder | internal/onnx/lifecycle.go:131-162 | the last release closes a closed lifecycle's bundle, else arms the idle timer |
| Lifecycles.Lifecycle.IdleTimer | internal/onnx/lifecycle.go:173-187 | unloads only an idle bundle, whenever the callback runs |
| Lifecycles.Lifecycle.Close | internal/onnx/lifecycle.go:199-216 | closes at once if idle, else leaves it to the last holder |
| Lifecycles.EnterMeans | internal/onnx/lifecycle.go:57-85 | who is refused, pinned, made to wait or sent to load |
| Lifecycles.LoadMeans | internal/onnx/lifecycle.go:87-122 | what becomes of a loaded bundle |
| Lifecycles.UnloadMeans | internal/onnx/lifecycle.go:131-187 | when a release or the timer unloads, and when the timer is armed |
| Lifecycles.NeverClosedWhileHeld | internal/onnx/lifecycle.go:57-216 | the reference count is the number of holders, no held bundle is closed or about to be, at most one load is in flight |
| Lifecycles.ClosedExactlyOnce | internal/onnx/lifecycle.go:57-216 | no bundle is closed twice; closed, released and settled, every one has been |
| Brokers.Broker.Reserve | internal/agentauth/broker.go:251-261 | reserves the slot exactly if no session holds it |
| Brokers.Broker.HasActive | internal/agentauth/broker.go:333-340 | finds a session of the slot exactly if there is one |
| Brokers.Broker.CancelSessions | internal/agentauth/broker.go:557-567 | marks exactly the slot's sessions cancelled |
| Brokers.Broker.Attach | internal/agentauth/broker.go:312-328 | a session cancelled while starting is dropped, any other goes live |
| Brokers.Broker.Cancel | internal/agentauth/broker.go:401-414 | only the owner's own session is cancelled |
| Brokers.Broker.SetKey | internal/agentauth/broker.go:419-460 | cancels the slot's logins, then replaces the credential or puts the old one back |
| Brokers.Broker.FinishLogin | internal/agentauth/broker.go:653-704 | a cancelled login changes nothing; any other replaces the credential or puts the old one back |
| Brokers.Broker.Logout | internal/agentauth/broker.go:498-522 | cancels the slot's logins and removes credential, then profile |
| Brokers.ReplaceMeans | internal/agentauth/broker.go:441-492 | the credential and profile left by a replacement, by which of its writes fail |
| Brokers.OutcomesMean | internal/agentauth/broker.go:419-704 | what a login, a key change and a logout leave behind, in one step and in its own slot |
| Brokers.ReplaceKeepsAgreement | internal/agentauth/broker.go:441-492 | a replacement that fails with its restore done changes nothing; a recorded one agrees in kind exactly if it fits its type |
| Brokers.FencedLoginsNeverCommit | internal/agentauth/broker.go:251-704 | a login reserved before a completed logout or key change never commits after it; one session per user and provider |
| Brokers.KindsAgree | internal/agentauth/broker.go:419-704 | outside critical sections a credential and a profile agree in kind, through every failure and rollback |
| Brokers.KeyChangeRefines | internal/agentauth/broker.go:419-460 | the split steps of an uninterrupted key change do what the broker's method does |
| Listening.Session.BeginListen | internal/rtc/listen.go:27-39 | reserves a start and captures the generation, unless listening or starting |
| Listening.Session.FinishListen | internal/rtc/listen.go:49-87 | installs the stream exactly if the start succeeded, the call is open and the generation is unchanged |
| Listening.Session.StopListen | internal/rtc/listen.go:134-149 | takes the stream with its segment and moves the generation on, installed or not |
| Listening.Session.TimedStop | internal/rtc/listen.go:94-109 | the timer takes only the segment it was armed for |
| Listening.BeginMeans | internal/rtc/listen.go:27-39 | a start is granted if and only if nothing is installed or starting, under the current generation |
| Listening.FinishMeans | internal/rtc/listen.go:49-87 | a start installs if and only if it opened, the call is open and the generation is its own |
| Listening.TakeMeans | internal/rtc/listen.go:94-149 | a stop takes what is installed and moves the generation on; the timer only at its own generation |
| Listening.SegmentsAreDistinct | internal/rtc/listen.go:27-238 | segment ids are pairwise distinct, and each segment reports at most one terminal event |
| Listening.OneSegmentAtATime | internal/rtc/listen.go:27-39 | at most one start is in flight, and never beside an installed stream |
| Listening.StopPreventsInstall | internal/rtc/listen.go:49-149 | a stop or teardown after beginListen keeps that start from ever installing |
| Listening.OvertakenStartNeverInstalls | internal/rtc/listen.go:49-87 | once the generation has moved on, the start that captured it never installs, whatever follows |
| Listening.StreamsCloseOnce | internal/rtc/listen.go:171-252 | every opened stream is in one place and closed at most once; settled, exactly once |
| Listening.FramesPrecedeMarker | internal/rtc/listen.go:255-282 | every accepted frame precedes its segment's finalize marker |
| Fft.NewPlan | internal/asr/fft.go:25-47 | a plan exactly for the powers of two, with the bit-reversal table |
| Fft.BitReverse | internal/asr/fft.go:49-56 | the loop reverses the low bits |
| Fft.RevInvolution | internal/asr/fft.go:49-56 | bit reversal is its own inverse, so a permutation |
| Fft.RevHalf | internal/asr/fft.go:68-85 | the two halves of a block start at samples half a stride apart |
| Fft.Butterfly | internal/asr/fft.go:73-84 | a butterfly turns two entries of half-size transforms into two of the whole |
| Fft.Split | internal/asr/fft.go:73-84 | a transform is the sum of those of its even and odd samples, the latter twiddled |
| Fft.Plan.Join | internal/asr/fft.go:71-84 | the inner loop completes one block and leaves every other entry alone |
| Fft.Plan.Stage | internal/asr/fft.go:69-86 | one stage doubles the size of every transformed block |
| Fft.Plan.PowerSpectrum | internal/asr/fft.go:62-90 | the buffers end as the discrete Fourier transform of the input, the output as its squared modulus |
| Tokenizers.Build | internal/asr/tokenizer.go:63-76 | the tables agree with the pieces, the last of equal ones counting; refused only without pieces |
| Tokenizers.Encode | internal/asr/tokenizer.go:146-201 | the ids spell the traced path of the filled table, which covers the normalized text; every prefix is segmented best if and only if the scores stay clear of the sentinel, and the ids are then those of a best segmentation |
| Tokenizers.Relax | internal/asr/tokenizer.go:161-189 | one entry: the best piece from a reached entry, the first of equals, or the unknown rune if none scores above the sentinel; all other entries stay |
| Tokenizers.NoneBetter | internal/asr/tokenizer.go:161-189 | no strict segmentation of a prefix scores more than its recursive value |
| Tokenizers.ValueAttained | internal/asr/tokenizer.go:161-189 | some strict segmentation of a prefix scores exactly its recursive value |
| Tokenizers.TableIsRight | internal/asr/tokenizer.go:153-189 | every entry holds the value, with the unknown rune only where no piece ends, if and only if the scores stay clear of the sentinel |
| Tokenizers.TracesOptimalIffClear | internal/asr/tokenizer.go:153-201 | the paths the back pointers describe are best for every prefix if and only if the scores stay clear of the sentinel |
| Tokenizers.TameIsClear | internal/asr/tokenizer.go:153-189 | scores that cannot add up to the sentinel are clear of it |
| Tokenizers.Decode | internal/asr/tokenizer.go:122-131 | the pieces joined with markers as spaces, tags and foreign ids dropped, left-trimmed |
| Tokenizers.JoinedShows | internal/asr/tokenizer.go:122-131 | an id contributes its piece, markers as spaces, in its place; a tag or an unknown id nothing |
| Tokenizers.LangTagForms | internal/asr/tokenizer.go:217-231 | exactly which pieces are language tags |
| Tokenizers.DecodeInvertsEncode | internal/asr/tokenizer.go:122-213 | decoding an encoding without unknown or language-tag ids gives the trimmed text back |
| Tokenizers.SentinelScoreLosesPiece | internal/asr/tokenizer.go:153-201 | for the text a, with the marker scored as the sentinel, the returned ids are all unknown although a piece ends, and the path is not a best one |
| Recognizers.WindowsTile | internal/asr/recognizer.go:78-115 | for any split into feeds the windows tile the frame axis by 56 with full context; uncapped and error-free exactly the whole chunks ran and the buffer is bounded |
| Recognizers.FlushCovers | internal/asr/recognizer.go:121-143 | a flush has at most 55 main frames, fits the 65-wide input, and completes the tiling |
| Recognizers.TrimKeeps | internal/asr/recognizer.go:174-189 | trimming keeps the frame grid, the next chunk's context and the bound |
| Recognizers.StreamProc.FeedAudio | internal/asr/recognizer.go:78-115 | the buffering, chunk loop and trim change the state as the window arithmetic says; the counts returned are those of the windows run and whether tokens were added |
| Recognizers.TokensInOrder | internal/asr/recognizer.go:78-163 | for every split into feeds, with or without a flush, the tokens are what the decoder's calls emitted, in call order, a failed call giving nothing; one window for each successful call |
| Recognizers.UncappedHears | internal/asr/recognizer.go:78-90 | below the budget every feed is taken in |
| Recognizers.StreamProc.FlushAudio | internal/asr/recognizer.go:121-143 | flush changes the state as one last window of the rest, or not at all |
| Recognizers.StreamProc.TrimBuffer | internal/asr/recognizer.go:174-189 | the buffer stays the end of the audio |
| Recognizers.StreamProc.DecodeLoop | internal/asr/recognizer.go:93-112 | the loop runs every whole chunk, stopping at the cap or an error |
| Recognizers.BuildEncoderChunk | internal/asr/recognizer.go:195-226 | each cell is the frame at its place, the context right-aligned before the main frames, or zero |
| Recognizers.CappedIsFinal | internal/asr/recognizer.go:64-123 | at most 536 whole chunks are decoded however much audio is fed, and once the budget is reached no later feed or flush buffers or decodes anything |
| Bias.BiasContext.constructor | internal/asr/bias.go:51-82 | the trie's nodes are exactly the prefixes of the non-empty phrases; parameters default when not positive |
| Bias.BiasContext.Insert | internal/asr/bias.go:60-75 | adding a phrase adds its prefixes and marks its end |
| Bias.BiasContext.Apply | internal/asr/bias.go:100-114 | boosts exactly the in-range tokens that extend the cursor's path to a phrase's prefix, by depth |
| Bias.BiasContext.AdvanceCursor | internal/asr/bias.go:121-141 | moves to the extended path, a restart from the root, or the root |
| Bias.ChildIffPrefix | internal/asr/bias.go:60-75 | a node has a child for a token exactly if some phrase continues that way |
| Bias.CursorIsSuffix | internal/asr/bias.go:121-141 | after any tokens the cursor's path is a suffix of them that a phrase continues |
| Bias.FollowsFromRoot | internal/asr/bias.go:121-141 | from the root a phrase is followed token by token to its end |
| Bias.TracksIffNoOverlap | internal/asr/bias.go:121-141 | the cursor always has the longest live suffix exactly if the phrases do not overlap |
| Bias.InnerPhraseIsNotBoosted | internal/asr/bias.go:116-141 | a phrase inside another one's path gets no boost |
| Bias.CompletedPhraseHidesNext | internal/asr/bias.go:116-141 | a completed phrase hides one that starts with its last token |

## Left out

- Text lengths are counted in code points, where Go counts bytes; templates, selectors and logs near their limits differ.
- Issue messages and JSON paths of the validator; the model keeps which step and which kind of fault.
- Validators.Validator.ValidateStep: leaves out known tools and adapters, tool argument shapes, condition operators, schema
  references, turn counts and message lengths, which are one-branch facts about single fields.
- Validators.Validator.Validate: covers the steps; the name, time zone, trigger, concurrency, budget, sandbox and output
  checks of a definition are one-branch facts about single fields.
- Condition operators: a condition's verdict is an arbitrary answer, so the proofs hold for every operator.
- A leaf, condition or finish step that carries child steps: the engine ignores them, the model has no place for them.
- Key order of Go map iteration: tool arguments and trie children are taken in a fixed order, parallel outputs in level
  order; `MergeExact` shows that the order does not matter where it could.
- Timestamps, log texts, run records and final output collection of the engine.
- EngineBounds.AbortIsFinal: says nothing of trees with parallel groups, where an ordinary failure or a finish of a
  sibling can mask an abort.
- Schedules.NextAfterNow: durations do not saturate and do not overflow; the calendar of a location is a function from
  instants to clock fields, and the horizon a function from instants to instants.
- Active runs are identified by run id; the lists of Go pointers become lists of values.
- The next-run claim of a due slot and the missed-run policy: a fire is any fire of a row that was read enabled.
- The per-user cap on enabled automations, eligibility rules, workspaces and run records of the scheduler.
- Liveness: no claim that a queued run ever starts, a stream is ever drained or an idle bundle ever unloaded.
- Several conversations and several browsers at once: the bus is modelled for one conversation, the reader for one
  browser beside arbitrary other subscribers.
- A `since` below zero, which replays from the first event.
- Hooks and load durations of the lifecycle; waiting callers retry, so a wait changes nothing.
- Output redaction, hints, frame history and subscribers of a login session.
- Brokers.KindsAgree: assumes that a restore write succeeds and that keys are set under a key-style type; a process crash
  between the two writes of a replacement is not modelled, nor is a credential or profile write that reports an error
  although it took effect, after which the restored credential would stand under the new profile.
- SchedulerProofs.NoStaleSideEffects: when an edit takes effect but the store reports an error, cancelAutomation is skipped;
  such an edit counts as one whose cancelAutomation has not run, so a run it overtook is excused until it ends.
- Refresh of agent state by a running agent, which shares the credential lock but lives in the agent router.
- Listening.Session.FeedAsr: the stream's answer to a non-blocking write is an argument.
- Rounding: scores, logits and samples are reals; cosines and sines are any powers of some w with w^(n/2) = -1.
- Fft.NewPlan: the bit test for a power of two is modelled by its meaning, and the twiddle tables are arguments.
- The protobuf reader of the tokenizer model file.
- Tokenizers.Encode: the condition is exact for all prefixes of a text together; where it fails for a prefix, the path to
  the whole text may still be a best one that avoids that prefix.
- Log-mel arithmetic: a spectrogram is any matrix with the stated number of frames.
- Trie nodes are indices into an arena; a nil context or node is an absent cursor.
