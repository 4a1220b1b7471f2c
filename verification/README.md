# Verification of the agent loop

A Dafny model of the logic that keeps tell-me-go's agent loop sound, with machine-checked
proofs. It covers the tool dispatcher, the turn engine with its loop detector, the memory
hook and injector, the event bus, the configuration watcher and redactor, and the list of
recent prompts. `dafny verify dfyconfig.toml` checks everything.

How the parts are modelled:

- **Dispatcher.** The batching loop, the marking of skipped tasks and the assembly of the reply
  are methods over the `results` array (`Batching.dfy`). The execution plan itself, with its
  workers and channels, is a state machine whose labels are atomic steps of one goroutine
  (`PlanMachine.dfy`), so a sequence of labels is one interleaving. `PlanInvariant.dfy` holds
  the invariant, `PlanTheorems.dfy` the results. A tool call may return anything. Cancellation
  may come before any step. `Consent.dfy` adds the consent check.
- **Engine.** `TurnSpec.dfy` gives every phase as a function on the turn's state and an environment
  that answers for the gateway, the store, the bus, the context and the executor, one
  environment for each phase that runs. `Engine.dfy` has the objects: a turn whose fields the
  phases update, and the loops, each proved equal to those functions. `TurnProofs.dfy` and
  `RunSafety.dfy` prove what whole turns and runs keep, for every sequence of environments;
  `TurnFailures.dfy` what failing ones leave; `RunScripts.dfy` which responses a run can meet,
  `TurnRecovery.dfy` which errors are tried again. `LoopDetection.dfy` is the detector,
  `LoopCounts.dfy` the same without its hashes and keys, `Backoff.dfy` the retry delay, `Llm.dfy` the
  messages and the error chains.
- **Memory.** `Utf8.dfy` has byte strings as in section 3 of RFC 3629 and rune-aligned truncation,
  `Utf8Codes.dfy` their code points, `SessionBuffer.dfy` the ring of episodes, `PlurHook.dfy` the
  hook's locked sections,
  `FlushProtocol.dfy` their interleavings and what they conserve, `FlushOrder.dfy` order and drop
  count, `MemoryBlock.dfy` the prompt block, `MemoryPass.dfy` what a pass makes of a history,
  `MemoryStaleness.dfy` when an old block survives.
- **Event bus.** `EventBus.dfy` is the protocol as a state machine, `EventBusProofs.dfy` its
  invariants, `EventBusTargets.dfy` who gets an event, `EventBusListen.dfy` what a call of Listen
  promises, `EventBusObject.dfy` the bus as an object with its registry and loops.
- **Configuration and suggestions.** `Redact.dfy` has the line rules, `RedactKeys.dfy` which key a
  line has, `RedactProofs.dfy` whole dumps, `RedactFlows.dfy` flow values; `Watcher.dfy`, `Suggestions.dfy`.

Where the code does something other than its documentation or its callers may expect, the model
follows the code, and a lemma says exactly when:

- A loop break appends the response, then the feedback, and clears both only at the end. If the
  feedback cannot be appended, the emergency save appends the response a second time
  (`TurnFailures.LoopBreakRun`).
- At the turn limit the executor returns nothing, and the emergency save appends a response whose
  calls stay unanswered (`TurnFailures.LimitLeavesUnanswered`). After a failed run all calls are
  answered exactly under the condition of `TurnFailures.FailedRunAnsweredExactly`.
- The loop detector does not record a response that it flags as a repeat, so the next return of that
  response can go unnoticed (`LoopDetection.DuplicateExactly`, `LoopDetection.RepeatCanBeMissed`),
  and a whole run can execute it again (`RunScripts.RepeatIsExecuted`).
- The calls behind one that exceeds the limit are not counted, so a later response can bring a call
  to six without being flagged (`LoopCounts.FlaggedExactly`, `LoopCounts.PlainCountCanBeOff`). Two
  calls can share a counter when a name holds a colon (`LoopCounts.KeysCanCollide`).
- Overlapping flushes of one session can write a later episode first, exactly when a write passes an
  open earlier claim or a restore goes behind an open later one
  (`FlushOrder.OrderedExactlyWhenGuarded`, `FlushOrder.OverlapReorders`). They can lose the count of
  evictions, exactly when a claim finds the ring empty while evictions are counted
  (`FlushOrder.CountIsExactUnlessLost`, `FlushOrder.CountCanBeLost`).
- The remark that every buffered episode has text (`internal/agent/memory/hook.go:463-466`) holds for
  well-formed text. Text whose first 2000 bytes after the first start no rune is stored empty
  (`SessionBuffer.StoredIsNotEmpty`).
- "Current recall, or nothing" (`internal/agent/memory/injector.go:62-63`) fails when memory is enabled
  without a client, for old blocks outside the first system message, and for a second one inside it
  (`MemoryStaleness.NeverStale`, `MemoryStaleness.OldBlockCanStay`).
- A strip after an insertion removes a first system message that had no parts, a strip
  alone keeps it (`MemoryBlock.StripAfterInsert`).
- Overlapping refreshes of the watcher can lose the session's overrides of the limits, although each
  had read them, until a later refresh loads the session again, because a file changed or another
  model was asked for (`Watcher.OverridesKeptExactly`, `Watcher.OverridesCanBeLost`).
- Of several secrets in a flow value only the entry of the first is redacted. That entry is cut at
  the first comma or closing brace outside braces, also inside square brackets or quotes, and all
  that follows stays readable: a later sibling, the rest of a list, the rest of a quoted text
  (`RedactFlows.FlowValueHiddenExactly`, `RedactFlows.SecondSecretLeaks`,
  `RedactFlows.ListAndQuoteLeak`).
- Rule 4 of the redactor's comment speaks of a name followed by a colon. The code takes any
  deny-listed token of the value (`RedactFlows.FlowUnchangedExactly`, `RedactFlows.BareNameIsRedacted`).
- A negative retry delay can wrap around. The closed form of the backoff holds exactly when it
  does not (`Backoff.CalculateBackoff`).
- The comment at `internal/domain/events/event_bus_lifecycle.go:208` says that a shutdown ends Listen.
  The listen context is derived from the caller's context only. A Listen under way can return
  exactly when that one has ended, after its workers have wound down; before, neither a shutdown nor
  anything else brings it back (`EventBusListen.ListenReturnsExactly`,
  `EventBusListen.ShutdownLeavesListen`).
- Listen returns after all workers "have fully drained"
  (`internal/domain/events/event_bus_lifecycle.go:154`). All that was accepted before a worker stopped
  is done then; an event accepted later stays queued and pending (`EventBusListen.ReturnedIsDrained`,
  `EventBusListen.ReturnCanLeaveQueued`).

## Model

| member | source | states |
|---|---|---|
| Batching.BuildExecutionBatches | internal/agent/executor/executor.go:673-711 | the batches are the canonical partition: concatenated they are the non-declined indices in increasing order, serial batches are single serial calls, parallel ones non-empty and all non-serial, no two parallel ones adjacent; declined slots hold the refusal and no other slot changes |
| Batching.CanonicalIsUnique | internal/agent/executor/executor.go:673-711 | those conditions determine the batches |
| Batching.FailRemainingTasks | internal/agent/executor/executor.go:662-671 | from the given batch on, exactly the slots that are neither exempt as trigger nor filled get the marker |
| Batching.FailRemainingExactly | internal/agent/executor/executor.go:130-146 | slot by slot: the marker goes to the slots without text and error of later batches, and of this one behind the trigger; every other slot is kept |
| Batching.SkippedResult | internal/agent/executor/executor.go:120-128 | a skip marker with a reason fills its slot, so no later marking replaces it |
| Batching.AssembleResponse | internal/agent/executor/executor.go:381-402 | all media first, then one function response for each call, in call order, with the call's ID and name and its slot's text |
| Batching.MediaExactly | internal/agent/executor/executor.go:381-390 | every medium of every result is in the reply, once, in order, and nothing else before the responses |
| Batching.ReplyAnswers | internal/agent/executor/executor.go:381-402 | such a reply answers exactly the calls that were asked, in order, and makes none |
| PlanInvariant.StepInv | internal/agent/executor/executor.go:413-544 | every step of every goroutine keeps the plan's invariant: each task of the current batch in exactly one of job channel, worker, result channel and slot; earlier slots settled, later ones untouched |
| PlanInvariant.ReceiveInv | internal/agent/executor/executor.go:591-626 | receiving a result fills the slot of its own index, and only that |
| PlanInvariant.TakeJobInv | internal/agent/executor/executor.go:546-589 | a worker takes each job once |
| PlanInvariant.EvaluateInv | internal/agent/executor/executor.go:639-660 | halting on a failed serial call or on cancellation, or going on, keeps the invariant |
| PlanTheorems.ScheduleIndependence | internal/agent/executor/executor.go:413-459 | without cancellation, for any worker count and interleaving, the results are those of the left-to-right run that stops after the first failing serial call; no plan error; exactly that run's calls are executed, each once |
| PlanTheorems.SchedulesAgree | internal/agent/executor/executor.go:503-544 | two interleavings, with different worker counts, end with the same results and executed calls |
| PlanTheorems.EveryCallAnswered | internal/agent/executor/executor.go:413-468 | cancelled at any step, every slot ends as the refusal, as what the call returned, or as a skip marker if it did not run or returned a blank; the marker of an interrupted batch carries the context's own error |
| PlanTheorems.FilledSlotsStay | internal/agent/executor/executor.go:130-146 | no step changes a slot that has text or an error |
| PlanTheorems.InFlightBound | internal/agent/executor/executor.go:478-544 | nothing overlaps a serial call; a parallel batch has at most min(workers, batch size) calls in flight, all its own; between batches none |
| PlanTheorems.SerialToolsRunAlone | internal/agent/executor/executor.go:478-544 | of two calls in flight at once, neither is of a serial tool |
| PlanTheorems.PlanErrorIsContextError | internal/agent/executor/executor.go:450-456 | the plan fails exactly when the context was cancelled, with an error that errors.Is cannot tell from the context's, and that is never transient |
| PlanTheorems.PlanTerminates | internal/agent/executor/executor.go:413-626 | n calls take at most 11 n + 2 steps in any interleaving |
| PlanTheorems.NoDeadlock | internal/agent/executor/executor.go:503-626 | until the plan returns some goroutine can step, without a cancellation |
| PlanTheorems.ExecuteConforms | internal/agent/executor/executor.go:303-356 | for a response with calls below the turn limit, Execute returns a message that answers exactly the calls, and no error or the context's |
| Consent.IdentifyConsentItems | internal/agent/executor/authorizer.go:53-74 | exactly the resolved calls whose declaration requires consent, in order; exactly the calls whose check panicked are declined |
| Consent.RequestBatchConsent | internal/agent/executor/authorizer.go:76-96 | declined exactly: a panicked check, or a sensitive call with a manager and no bypass |
| Consent.ConsentSafety | internal/agent/executor/authorizer.go:53-96 | in every state of every interleaving such a call has not reached the runtime and its slot holds the refusal |
| Llm.PhaseErrorTransparent | internal/agent/orchestrator/errors.go:34-73 | the error a phase returns is classified as the one it wraps; a transient one stays transient, every other becomes fatal, and the empty-response mark is neither added nor hidden |
| LoopDetection.LoopDetector.DetectLoop | internal/agent/orchestrator/middleware.go:196-237 | the loops over window and parts compute the detector function on the old state |
| LoopDetection.LoopDetector.IsDuplicateResponse | internal/agent/orchestrator/middleware.go:312-319 | true exactly when the hash is in the window |
| LoopDetection.WindowInv | internal/agent/orchestrator/middleware.go:196-237 | the window is always the last five recorded responses, pairwise distinct |
| LoopDetection.UnflaggedIsNew | internal/agent/orchestrator/middleware.go:196-237 | an unflagged response equals none of the previous five recorded ones |
| LoopDetection.RepeatIsFlagged | internal/agent/orchestrator/middleware.go:196-237 | a recorded response that comes back within five responses is flagged |
| LoopDetection.CycleIsFlagged | internal/agent/orchestrator/middleware.go:196-237 | of a response and its repeat within five responses at least one is flagged, so every cycle of period at most five is flagged |
| LoopDetection.DuplicateExactly | internal/agent/orchestrator/middleware.go:203-219 | the duplicate test hits exactly when the response repeats a recorded one after which fewer than five were recorded |
| LoopDetection.RepeatCanBeMissed | internal/agent/orchestrator/middleware.go:196-237 | for any six responses with a call of their own each: a sequence of eight in which only the first repeat is flagged, and the next goes unnoticed |
| LoopDetection.AcceptedBound | internal/agent/orchestrator/middleware.go:220-237 | no tool call, by name and arguments, occurs more than five times in the unflagged responses of a run |
| LoopCounts.FlaggedExactly | internal/agent/orchestrator/middleware.go:196-237 | of names without a colon: a response is flagged exactly when it has role and parts of a recent new one, or one of its calls is there, by name and arguments, more than five times among the calls counted before and its own |
| LoopCounts.PlainCountDecides | internal/agent/orchestrator/middleware.go:220-237 | until a new response was flagged, the calls counted before are all calls of the new responses |
| LoopCounts.PlainCountCanBeOff | internal/agent/orchestrator/middleware.go:220-237 | in general not: a run of new responses whose last one brings a call to six and is not flagged |
| LoopCounts.DuplicateIsRepeat | internal/agent/orchestrator/middleware.go:203-219 | the duplicate test, by role and parts and the number of new responses between |
| LoopCounts.DifferentIsNeverFlagged | internal/agent/orchestrator/middleware.go:196-237 | a run of responses whose calls differ pairwise in name or arguments is never flagged |
| LoopCounts.KeyTells | internal/agent/orchestrator/middleware.go:225-229 | of names without a colon, two calls share a counter exactly when names and arguments agree |
| LoopCounts.KeysCanCollide | internal/agent/orchestrator/middleware.go:225-229 | two different calls that share one |
| RunSafety.ExecutedAtMostFive | internal/agent/orchestrator/engine.go:248-277 | detector and engine together: over a whole run no call, by name and arguments, is handed to the executor more than five times |
| RunScripts.EveryScriptIsARun | internal/agent/orchestrator/engine.go:248-277 | any sequence of responses with calls, up to the turn limit, is what the gateway answers in some run, one response a turn; that run executes exactly those that the detector does not flag |
| RunScripts.RepeatIsExecuted | internal/agent/orchestrator/engine.go:248-277 | a whole run in which a response reaches the executor again after its repeat had been flagged |
| TurnSpec.PhaseDecreases | internal/agent/orchestrator/engine.go:403-448 | every phase, whatever the outside answers, decreases the retries left or, those equal, the rank of the phase |
| TurnSpec.RecoverCases | internal/agent/orchestrator/engine_phases.go:129-246 | recovery completes, spends a retry, or goes back to persisting, the last only after an empty response |
| TurnSpec.GuardStops | internal/agent/orchestrator/engine_phases.go:24-53 | past the turn limit a turn ends with an error, calls no gateway and appends nothing |
| TurnSpec.FatalEnds | internal/agent/orchestrator/engine_phases.go:195-200 | an error that is neither transient, empty nor an overflow ends the turn at once |
| TurnRecovery.RecoveryExactly | internal/agent/orchestrator/engine_phases.go:129-246 | what recovery leaves for any error, told by the error's answers to errors.Is, the retry count, the bus and the context: another attempt, the empty response accepted, or the end with the same error |
| TurnRecovery.RetriesExactly | internal/agent/orchestrator/engine_types.go:130-154 | bus and context fine: exactly which errors, at which retry count, lead to one more attempt |
| TurnRecovery.RateLimitsAreSurvived | internal/agent/orchestrator/engine.go:360-373 | a gateway that fails with rate limits or passing errors, at most as often as retries are configured, and then answers: the turn ends without error, the answer saved, after one call for each attempt |
| TurnRecovery.RetriedTurnAnswers | internal/agent/orchestrator/engine.go:360-373 | the same for any errors that are tried again; a text answer stops the run |
| TurnRecovery.RetriedTurnExecutes | internal/agent/orchestrator/engine.go:360-373 | an answer with calls is saved with the message that answers them, and the run goes on |
| TurnRecovery.LastFailureEnds | internal/agent/orchestrator/engine.go:360-401 | the first error that is not tried again ends the turn with it, after that many calls |
| TurnRecovery.EmptyIsAccepted | internal/agent/orchestrator/engine_phases.go:139-158 | after three retries an empty response is saved and the turn ends without error |
| TurnRecovery.InferenceErrorExactly | internal/agent/orchestrator/engine_inference.go:25-115 | which reply of the gateway fails an inference, and with what |
| TurnRecovery.GuardExactly | internal/agent/orchestrator/engine_phases.go:24-53 | when the guard passes, and which of its errors comes first |
| TurnRecovery.RefineExactly | internal/agent/orchestrator/engine_phases.go:55-79 | a context that cannot be prepared fails the phase with that error |
| TurnProofs.TurnBounds | internal/agent/orchestrator/engine.go:360-373 | from any state the phase loop ends within the energy that the limits leave it, and calls the gateway at most once for each retry left and once more |
| TurnProofs.FreshTurnBounds | internal/agent/orchestrator/engine.go:360-373 | a turn runs at most 8 max(MaxRetries, 3) + 7 phases and makes at most 1 + max(MaxRetries, 3) gateway calls |
| TurnProofs.RunBounds | internal/agent/orchestrator/engine.go:248-277 | a run has at most M + 2 turns and (M + 1)(1 + max(MaxRetries, 3)) gateway calls, loop breaks and overflow retries included |
| TurnProofs.PersistConserves | internal/agent/orchestrator/engine_phases.go:81-122 | for any append failures, history followed by what is pending stays the same; success is exactly nothing left pending |
| TurnFailures.PersistRun | internal/agent/orchestrator/engine.go:360-401 | from Persisting to the end of the turn nothing is lost, repeated or reordered for any append failures, and all of it is saved exactly when the appends that the phase and the save still needed succeeded |
| TurnFailures.LoopBreakRun | internal/agent/orchestrator/middleware.go:239-262 | from a flagged Inference to the end of the turn, the response is saved twice exactly when the feedback failed and the save did not, or the feedback is the response |
| TurnFailures.FailedRunAnsweredExactly | internal/agent/orchestrator/engine.go:248-277 | exactly when a failed run leaves every tool call answered: by the phase that failed last and the failures of the two appends in that phase and in the emergency save |
| TurnFailures.HandedShape | internal/agent/orchestrator/engine.go:360-401 | a failing turn hands over one of four shapes: nothing saved and no answers, a response with its answers, answers of a saved response, or a saved response still held |
| TurnFailures.LimitLeavesUnanswered | internal/agent/executor/executor.go:309-316 | at the turn limit the turn fails and its response is saved without answers |
| TurnProofs.TurnIsPaired | internal/agent/orchestrator/engine_execution.go:36-104 | under the Dispatcher a turn without error appends a response without calls, a response and the message that answers exactly its calls, or a repeated response and the warning |
| TurnProofs.RunKeepsAnswered | internal/agent/orchestrator/engine.go:248-277 | a run without error keeps every tool call in the history answered by the next message |
| TurnProofs.LoopBreakPairs | internal/agent/orchestrator/middleware.go:239-310 | a loop break leaves the response with synthetic answers to all its calls, or with the warning |
| TurnProofs.LoopBreakTells | internal/agent/orchestrator/middleware.go:239-310 | with both appends fine, the history gets the response and a message that answers each of its calls with the warning, or the warning itself |
| TurnProofs.CancelledToolsAreSaved | internal/agent/orchestrator/engine.go:386-401 | cancelled while its tools run, a turn fails, and the emergency save still leaves the response and the message that answers all its calls |
| Engine.TruncateOversizedResponse | internal/agent/orchestrator/payload_limiter.go:14-27 | every function response loses its payload and nothing else |
| TurnSpec.TruncateExactly | internal/agent/orchestrator/payload_limiter.go:14-27 | part by part: the payload of a function response becomes the message, all else is kept |
| TurnProofs.ExecuteStores | internal/agent/orchestrator/engine_execution.go:36-74 | executing stores the reply, also with an error, and replaces every payload exactly when it is oversized |
| TurnProofs.TruncatedStillPaired | internal/agent/orchestrator/payload_limiter.go:14-27 | truncation keeps which calls are answered |
| Engine.ResponseIsEmpty | internal/agent/orchestrator/engine_inference.go:164-177 | true exactly when every part is empty |
| Engine.ContainsToolCall | internal/agent/orchestrator/engine_inference.go:105-115 | true exactly when some part is a call |
| Engine.TurnRecord.ProcessGuard | internal/agent/orchestrator/engine_phases.go:24-53 | the guard's outcome is the specified one |
| Engine.TurnRecord.ProcessInference | internal/agent/orchestrator/engine_inference.go:25-115 | the new state, the detector's included, and the outcome are the specified ones |
| Engine.TurnRecord.HandleLoopBreak | internal/agent/orchestrator/middleware.go:239-262 | both appends, then the clearing, as specified, for every failure |
| Engine.TurnRecord.InjectSyntheticLoopFeedback | internal/agent/orchestrator/middleware.go:272-310 | one message with an answer for each call, or the warning when there are none |
| Engine.TurnRecord.ProcessExecution | internal/agent/orchestrator/engine_execution.go:36-74 | the reply is stored, truncated if oversized, also when the executor failed |
| Engine.TurnRecord.ProcessPersistence | internal/agent/orchestrator/engine_phases.go:81-122 | what is appended is cleared at once, and the phase stops at the first failure |
| Engine.TurnRecord.ProcessRecovery | internal/agent/orchestrator/engine_phases.go:129-246 | retries, the overflow path and their counters as specified |
| Engine.TurnRecord.RunPhase | internal/agent/orchestrator/engine.go:403-448 | one phase and its transition equal the specified step |
| Engine.TurnRecord.SaveInEmergency | internal/agent/orchestrator/engine.go:386-401 | persists again exactly when a message with parts is still pending |
| Engine.TurnRecord.RunPhaseLoop | internal/agent/orchestrator/engine.go:360-373 | the loop terminates and leaves the turn that the specification gives |
| Engine.Run | internal/agent/orchestrator/engine.go:248-277 | the outer loop terminates with the specified history and error |
| Backoff.CalculateBackoff | internal/agent/orchestrator/engine_types.go:113-128 | min(base * 2^attempt, 2 minutes) for every base that is not negative; for any base exactly when the uncapped delay does not underflow |
| Backoff.BackoffIsMonotone | internal/agent/orchestrator/engine_types.go:113-128 | later attempts never wait less, and never more than the cap |
| Utf8.TruncateToBytes | internal/agent/memory/buffer.go:142-154 | the loop computes the truncation function |
| Utf8.TruncatedIsLongest | internal/agent/memory/buffer.go:140-154 | of valid text it is the longest valid prefix within the limit, at most three bytes short of it, and the rest is valid too |
| Utf8.TruncatedToNothing | internal/agent/memory/buffer.go:142-154 | over-long text becomes empty exactly when no rune starts within reach |
| Utf8.ValidSplit | internal/agent/memory/buffer.go:140-154 | valid text splits into valid parts exactly where a rune starts |
| Utf8.BlankIsTrimmed | internal/infrastructure/config/redact.go:222-224 | a line is blank, white space alone, exactly when trimming both ends leaves nothing, for any bytes |
| Utf8Codes.ValidExactly | internal/agent/memory/buffer.go:140-154 | a byte string is valid exactly when it is the encoding of code points, surrogates excluded |
| Utf8Codes.SpaceExactly | internal/infrastructure/config/redact.go:222-224 | a text starts with white space exactly when its first code point is one of the library's twenty-five |
| Utf8Codes.TrimLeftExactly | internal/infrastructure/config/redact.go:222-224 | trimming on the left drops exactly the white space in front |
| SessionBuffer.Buffer.Append | internal/agent/memory/buffer.go:62-80 | blank text changes nothing; other text enters truncated; the oldest episodes beyond twenty leave and are counted; the byte counter stays exact |
| SessionBuffer.Buffer.Claim | internal/agent/memory/buffer.go:86-91 | returns all episodes in order and empties the ring, the drop count kept |
| SessionBuffer.Buffer.Restore | internal/agent/memory/buffer.go:98-107 | claimed episodes first, newer ones after, the byte counter exact |
| SessionBuffer.PushKeepsOrder | internal/agent/memory/buffer.go:62-80 | what leaves followed by what stays is the old ring followed by the new episode, which is never the one to leave |
| SessionBuffer.AcceptedExactly | internal/agent/memory/buffer.go:62-80 | a text is kept exactly when trimming leaves something; then only the text can change, and only beyond 2000 bytes |
| SessionBuffer.StoredIsNotEmpty | internal/agent/memory/hook.go:463-480 | an accepted text is stored empty exactly when it is over-long and no rune starts in its first 2000 bytes after the first |
| SessionBuffer.CaptureIsBounded | internal/agent/memory/buffer.go:119-138 | at most 2000 bytes, led by the text if any, otherwise by as much of the error as fits, whatever the prompt |
| SessionBuffer.CaptureIsValid | internal/agent/memory/buffer.go:119-138 | well-formed parts give a well-formed summary |
| PlurHook.Hook.BufferAppend | internal/agent/memory/hook.go:155-164 | the session's entry is created if missing and offered the episode; no other session changes |
| PlurHook.Hook.ClaimEpisodes | internal/agent/memory/hook.go:442-461 | disabled drops the buffer; otherwise all its episodes are taken, and an entry without any is removed |
| PlurHook.Hook.RestoreOnFailure | internal/agent/memory/hook.go:486-499 | the claim returns in front of newer episodes, in a new entry if need be |
| PlurHook.Hook.FinalizeOnSuccess | internal/agent/memory/hook.go:504-514 | an empty entry is removed, another starts counting drops anew |
| PlurHook.Hook.FlushSession | internal/agent/memory/hook.go:222-261 | uninterrupted, a failed write leaves the entry as it was, any other outcome leaves none |
| PlurHook.Hook.ClaimLearnSlot | internal/agent/memory/hook.go:529-547 | grants, and then records, a hash the session has not learned while it is below its bound; no other session changes |
| PlurHook.GrantsAreFirstDistinct | internal/agent/memory/hook.go:529-547 | over any requests exactly the first MaxLearnsPerSession distinct ones are granted, each once |
| FlushProtocol.Conservation | internal/agent/memory/hook.go:222-261 | over any interleaving each accepted episode is in exactly one place: buffered, held by one flush, written, evicted or discarded |
| FlushProtocol.WrittenOnce | internal/agent/memory/hook.go:212-261 | no episode is successfully written twice, and none that was evicted or discarded is written |
| FlushOrder.StepOrder | internal/agent/memory/hook.go:222-261 | from an ordered line a step keeps it ordered exactly when no write passes an open earlier claim and no restore goes behind an open later one |
| FlushOrder.OrderedExactlyWhenGuarded | internal/agent/memory/hook.go:222-261 | over any interleaving the line is in order all along exactly when every write and restore met that guard |
| FlushOrder.WrittenInOrder | internal/agent/memory/hook.go:222-261 | so without overlap written, held and buffered episodes together are in the order of acceptance |
| FlushOrder.CountIsExactUnlessLost | internal/agent/memory/buffer.go:49-52 | over any interleaving `dropped` is the number of evictions since the last successful flush ended or the buffer was last dropped, exactly unless a claim has found the ring empty while evictions were counted |
| FlushOrder.DroppedIsExact | internal/agent/memory/buffer.go:49-52 | without overlap it is always exact |
| FlushOrder.StepCount | internal/agent/memory/hook.go:442-514 | which steps keep the count exact, which lose it, which restore it, and that it never exceeds the evictions |
| FlushOrder.CountCanBeLost | internal/agent/memory/hook.go:449-460 | a run that loses the count |
| FlushOrder.OverlapReorders | internal/agent/memory/hook.go:222-261 | an unguarded run that writes a later episode first |
| MemoryBlock.ContextRequest.StripMemoryBlock | internal/agent/memory/injector.go:105-130 | the loops compute the strip function on the old history |
| MemoryBlock.ContextRequest.InsertMemoryBlock | internal/agent/memory/injector.go:138-155 | the loops compute the insertion function on the old history |
| MemoryBlock.ContextRequest.ApplyMemoryTransformation | internal/agent/memory/injector_pipeline.go:66-92 | inserts the fitting block, or strips when none fits |
| MemoryBlock.ContextRequest.Transform | internal/agent/memory/injector.go:64-100 | every path of a pass; history is persisted exactly after a strip on the disabled path |
| MemoryPass.PassInserts | internal/agent/memory/injector.go:64-155 | a pass with a block, by roles, texts and positions: the first system message shows it in the place of the first old block or at the end and keeps its other parts in order, no other message changes; without such a message one is added in front |
| MemoryPass.PassRemoves | internal/agent/memory/injector.go:64-130 | a pass without a block that does not abstain: the first system message has none left and keeps its other parts in order, or is gone if it had no other; no other message changes |
| MemoryPass.PassAbstains | internal/agent/memory/injector.go:64-100 | an abstaining pass changes nothing, and a strip reports exactly whether the first system message had a block |
| MemoryPass.MarkedExactly | internal/agent/memory/injector.go:114 | a part carries a block exactly when the marker occurs anywhere in its text |
| MemoryBlock.InsertLeavesOne | internal/agent/memory/injector.go:138-155 | after an insertion the block is present, with one marked part, or as many as before if there were more; other parts stay in order |
| MemoryBlock.InsertKeepsRest | internal/agent/memory/injector.go:138-155 | only the parts of the first system message change, or one message is added in front |
| MemoryBlock.InsertTwice | internal/agent/memory/injector.go:132-155 | inserting twice equals inserting the last block |
| MemoryBlock.StripAfterInsert | internal/agent/memory/injector.go:102-155 | a strip after an insertion equals a strip alone exactly unless the first system message has no parts |
| MemoryBlock.StripRemoves | internal/agent/memory/injector.go:102-130 | a strip reports exactly whether there was a marked part and leaves none in that message |
| MemoryStaleness.NeverStale | internal/agent/memory/injector.go:62-100 | every marked part of the history is this pass's block exactly when the pass does not abstain over an old block, none stands outside the first system message, and that one has none beside the one an insertion replaces |
| MemoryStaleness.OneBlockIsNeverStale | internal/agent/memory/injector.go:132-137 | with one block at most, in the first system message, every pass that does not abstain leaves its own block or none |
| MemoryStaleness.OldBlockCanStay | internal/agent/memory/injector.go:105-155 | histories in which an old block stays: in a second system message with memory on or off, and as a second marked part |
| MemoryBlock.FitsWhen | internal/agent/memory/injector_pipeline.go:66-92 | nothing is inserted exactly when the recall does not fit and the budget cannot hold the frame |
| MemoryBlock.BlockHolds | internal/agent/memory/injector_pipeline.go:66-92 | a block is the header, an empty line, the body, a line end and the footer |
| MemoryBlock.FitIsWithinBudget | internal/agent/memory/injector_pipeline.go:66-92 | an inserted block has len/4 within the budget, and its body is a prefix of the trimmed recall |
| MemoryBlock.FitIsLongest | internal/agent/memory/injector_pipeline.go:73-88 | an over-long valid body is cut to its longest valid prefix within the room |
| MemoryBlock.FitIsValid | internal/agent/memory/injector_pipeline.go:66-92 | a valid recall gives a valid block |
| EventBusProofs.PendingIsExact | internal/domain/events/event_bus_lifecycle.go:27-40 | in every reachable state the counter is the publishers between increment and outcome, plus the queued events, plus those at workers; never negative |
| EventBusProofs.ZeroIsQuiet | internal/domain/events/event_bus_lifecycle.go:94-139 | the counter is zero exactly when nothing is under way |
| EventBusProofs.DeliveredInOrder | internal/domain/events/event_bus_pubsub.go:145-188 | each subscriber's events are handled or drained in the order of acceptance, each at most once, and its queue stays within its size |
| EventBusProofs.FlushWaits | internal/domain/events/event_bus_lifecycle.go:95-139 | a flush that returned nil: everything accepted before it began is done, and the counter was zero at some moment of the call |
| EventBusProofs.FlushCanReturn | internal/domain/events/event_bus_lifecycle.go:121-150 | no wakeup is lost: at a zero every call still open can return nil |
| EventBusListen.ReturnedIsDrained | internal/domain/events/event_bus_lifecycle.go:207-223 | when Listen returns, every worker has stopped with no event in hand, and an accepted event is done exactly when it was accepted before its worker stopped; later ones are queued, in order |
| EventBusListen.ListenReturnsExactly | internal/domain/events/event_bus_lifecycle.go:158-223 | from any reachable state with a Listen under way, some continuation in which no listen context ends brings it to its return exactly when its own context has ended |
| EventBusListen.WorkerStops | internal/domain/events/event_bus_pubsub.go:145-188 | once its context or the bus context has ended, a worker stops in a number of its own steps that its queue fixes, touching nothing of the others |
| EventBusListen.EveryoneIsServed | internal/domain/events/event_bus_pubsub.go:219-300 | while a Listen is under way and its context and the bus live, every subscriber has a running worker, also one that subscribed meanwhile |
| EventBusListen.ShutdownLeavesListen | internal/domain/events/event_bus_lifecycle.go:42-58 | a run in which the bus is shut down and every worker has stopped, and nothing but the end of its context lets Listen return |
| EventBusListen.ReturnCanLeaveQueued | internal/domain/events/event_bus_lifecycle.go:207-223 | a run in which an event is queued and pending when Listen returns |
| EventBusObject.SimpleEventBus.Subscribe | internal/domain/events/event_bus_pubsub.go:219-279 | the registry lists every subscriber once, in order; a running bus starts its worker; a closed one ignores the call |
| EventBusObject.SimpleEventBus.SnapshotSubscribers | internal/domain/events/event_bus_pubsub.go:77-85 | the topic's subscribers in order, then the global ones |
| EventBusTargets.TargetsExactly | internal/domain/events/event_bus_pubsub.go:77-85 | the targets are exactly the subscribers of the topic and the global ones, each once, the topic's first, each kind in the order of registration |
| EventBusTargets.OffersAreTargets | internal/domain/events/event_bus_pubsub.go:41-57 | over any run: those offered the event, followed by those still to be offered it, are the targets of the moment at which the publish began |
| EventBusTargets.EveryoneIsOffered | internal/domain/events/event_bus_pubsub.go:15-57 | a publish that finishes without its context ending has offered the event to every one of them, once, in order |
| EventBusTargets.AbortEndsOffers | internal/domain/events/event_bus_pubsub.go:41-50 | once its context has ended a publish, it offers the event to nobody any more |
| EventBusTargets.OfferMeans | internal/domain/events/event_bus_pubsub.go:93-111 | an offered event is the last that the subscriber accepted, or its queue was full and nobody accepted anything |
| EventBusObject.SimpleEventBus.DecPending | internal/domain/events/event_bus_lifecycle.go:33-40 | one less, and at zero every waiter is woken |
| EventBusObject.SimpleEventBus.EnqueueEvent | internal/domain/events/event_bus_pubsub.go:93-111 | the counter stays incremented exactly when the event was enqueued, for either choice of the select when the context is done and there is room |
| EventBusObject.SimpleEventBus.DispatchAsync | internal/domain/events/event_bus_pubsub.go:41-48 | offers the event to the targets in turn, up to the first at which the context ended the publish |
| EventBusObject.AbortIsSteps | internal/domain/events/event_bus_pubsub.go:99-101 | an offer that the context ends is the protocol's count, abort and undo, and ends the publish |
| EventBusObject.SimpleEventBus.Drain | internal/domain/events/event_bus_pubsub.go:178-188 | empties the queue in order, settles every event, wakes the waiters at zero |
| EventBusObject.OfferIsSteps | internal/domain/events/event_bus_pubsub.go:93-111 | an uninterrupted offer is the protocol's count and enqueue, or count, shed and undo |
| EventBusObject.DrainIsSteps | internal/domain/events/event_bus_pubsub.go:178-188 | draining one event is the protocol's receive and release |
| Redact.RedactRawContent | internal/infrastructure/config/redact.go:173-218 | the line loop computes the redaction function |
| Redact.FirstSecretTokenIndex | internal/infrastructure/config/redact.go:81-95 | the token loops compute the search function |
| Redact.FlowExtentEnd | internal/infrastructure/config/redact.go:107-122 | the scan computes the extent function |
| Redact.NonInterference | internal/infrastructure/config/redact.go:173-243 | two dumps that differ only after the colon of unsuppressed secret keys, after secret first words, inside the first secret entry of a flow value, and in the lines dropped below, are redacted alike |
| RedactProofs.RelatedDumps | internal/infrastructure/config/redact.go:173-243 | the same for whole dumps |
| Redact.BlankLinesSurvive | internal/infrastructure/config/redact.go:136-139 | blank lines, and only they, come out blank: the same ones in the same order |
| Redact.KeyPartDecides | internal/infrastructure/config/redact.go:183-204 | indentation, prefix and key depend on nothing after the first colon |
| RedactKeys.KeyIsName | internal/infrastructure/config/redact.go:47-62 | any indentation, an optional dash, an optionally quoted name, blanks, a colon, anything: the key is the name |
| RedactKeys.SecretKeyLine | internal/infrastructure/config/redact.go:199-205 | a line with a deny-listed name becomes indentation, dash, name and placeholder, whatever its value |
| RedactKeys.PlainKeyLine | internal/infrastructure/config/redact.go:206-215 | with any other name it is kept up to the colon; an empty or quoted value is kept, another one is read as a flow |
| RedactKeys.WordLine | internal/infrastructure/config/redact.go:245-255 | a line without a colon whose first word is deny-listed becomes word and placeholder, any other stays |
| RedactKeys.DropsExactly | internal/infrastructure/config/redact.go:233-243 | dropped below a key at column n: lines that are not blank and start with more than n blanks, or with exactly n and have no colon |
| RedactKeys.SecretDump | internal/infrastructure/config/redact.go:173-218 | in a dump, a deny-listed key with all that belongs to it becomes one line, only blank lines between stay, and what follows is redacted on its own |
| RedactProofs.SecretBecomesKey | internal/infrastructure/config/redact.go:200-205 | a secret line with the deeper lines below it becomes its key and the placeholder |
| RedactProofs.SecretIsHidden | internal/infrastructure/config/redact.go:145-151 | two dumps that differ in one secret's value and block come out the same |
| RedactProofs.SplitJoin | internal/infrastructure/config/redact.go:174-217 | joining and splitting lines without line ends is the identity |
| RedactProofs.JoinSplit | internal/infrastructure/config/redact.go:174-217 | splitting and joining is the identity |
| RedactProofs.NothingToHide | internal/infrastructure/config/redact.go:173-218 | with an empty deny-list the dump is unchanged |
| RedactFlows.FirstSecretIsFirst | internal/infrastructure/config/redact.go:79-95 | the search finds a whole deny-listed token, and no earlier one exists |
| RedactFlows.FlowEndIsFirst | internal/infrastructure/config/redact.go:104-122 | the extent ends at the first comma or closing brace outside the braces opened since its start, or at the end |
| RedactFlows.FlowEntryHidden | internal/infrastructure/config/redact.go:65-122 | the first secret key of a flow is replaced with its whole value and its siblings kept exactly when no comma or closing brace of its level, also in square brackets or quotes, comes before the end of the value, and one comes there |
| RedactFlows.FlowTwoRuns | internal/infrastructure/config/redact.go:65-77 | two flow values whose first secrets stand at the same place come out alike exactly when they agree before it and from the end of its entry on |
| RedactFlows.FlowValueOut | internal/infrastructure/config/redact.go:65-122 | the output for a secret key anywhere in a flow: placeholder in the place of the first secret, then verbatim what follows the end of that entry, which is before the key, in its value or behind it |
| RedactFlows.FlowValueHiddenExactly | internal/infrastructure/config/redact.go:65-122 | two values of a secret key in a flow, first or not, come out alike exactly when: no brace precedes the first secret; or its entry is not over before the key and what follows its end is the same; or the values are equal |
| RedactFlows.RestSurvives | internal/infrastructure/config/redact.go:70-73 | whatever follows the first secret's entry survives verbatim |
| RedactFlows.SecondSecretLeaks | internal/infrastructure/config/redact.go:65-77 | an input whose second secret shows, for every value |
| RedactFlows.CommaLeaks | internal/infrastructure/config/redact.go:104-122 | whatever follows the first comma outside braces in the value of a secret key shows |
| RedactFlows.ListAndQuoteLeak | internal/infrastructure/config/redact.go:104-122 | so the second item of a secret list and the text after a comma in a quoted secret show, for every value |
| RedactFlows.FlowUnchangedExactly | internal/infrastructure/config/redact.go:65-95 | a value stays as it is exactly when it has no deny-listed token, with or without a colon, or is its own redaction |
| RedactFlows.BareNameIsRedacted | internal/infrastructure/config/redact.go:152-158 | a deny-listed name without a colon is redacted |
| Watcher.FileConfigWatcher.Apply | internal/infrastructure/config/watcher.go:143-153 | each load is applied exactly when it is not older than the cache |
| Watcher.FileConfigWatcher.Refresh | internal/infrastructure/config/watcher.go:132-154 | an uninterrupted refresh loads what changed and applies it |
| Watcher.RefreshExactly | internal/infrastructure/config/watcher.go:132-262 | field by field, from the files and the cache before it: which file is due, which is applied, and what an uninterrupted refresh leaves |
| Watcher.RefreshIsCurrent | internal/infrastructure/config/watcher.go:132-154 | after the main file changed it leaves what both files say now |
| Watcher.AlwaysConsistent | internal/infrastructure/config/watcher.go:132-248 | over interleaved refreshes memory, window and model come from the one load whose time is cached, and no finished refresh had loaded anything newer |
| Watcher.TimesOnlyGrow | internal/infrastructure/config/watcher.go:143-153 | the cached modification times never move back |
| Watcher.OverridesKeptExactly | internal/infrastructure/config/watcher.go:132-262 | over interleaved refreshes and manual changes, the limits are the main ones with the session's overrides in every state exactly when every finishing refresh and every manual change met a guard on the loads: no main file applied alone over visible overrides, no session applied alone that drops one, no manual limit that differs |
| Watcher.MainDecides | internal/infrastructure/config/watcher.go:143-153 | a refresh that applies its main configuration restores the limits under the same guard, whatever they were |
| Watcher.OverridesKeptAlone | internal/infrastructure/config/watcher.go:132-154 | without overlap, over session files that stay readable, are not dated back and drop no override, the limits are always the main ones with the session's overrides |
| Watcher.KeptAloneExactly | internal/infrastructure/config/watcher.go:132-262 | the same over uninterrupted refreshes and manual changes, with guards that can be told from the cache and the files before each |
| Watcher.OverridesCanBeLost | internal/infrastructure/config/watcher.go:132-154 | a run of two overlapping refreshes that loses them |
| Suggestions.SuggestionService.RecordPrompt | internal/app/suggestions/service.go:138-161 | the loop computes one recording |
| Suggestions.RecordExactly | internal/app/suggestions/service.go:138-161 | one recording puts the prompt in front of the others, which keep their order, and cuts to a hundred |
| Suggestions.HistoryRefines | internal/app/suggestions/service.go:138-161 | after any prompts, one of them not empty, the stored list is the first hundred of an unbounded move-to-front list, and it stays duplicate-free |
| Suggestions.SuggestionService.constructor | internal/app/suggestions/service.go:46-83 | the initial list is the two sources in order, each prompt once |
| Suggestions.DedupDistinct | internal/app/suggestions/service.go:66-80 | that list is duplicate-free |
| Suggestions.DedupOrder | internal/app/suggestions/service.go:66-80 | it keeps the first occurrences in their order |
| Suggestions.MergeSuggestions | internal/app/suggestions/service.go:268-293 | the first `limit` distinct suggestions of both lists, in order |

## Left out

- Concurrency is modelled on values, as state machines whose steps are the atomic sections of the
  code; the methods of PlurHook, Watcher and EventBusObject run one such section or an
  uninterrupted call. Data races inside a section are not modelled.
- The dispatcher's fan-in panic path, its timeouts, the safety decorator, worker-count clamping and
  event emission. A worker count of at least one is assumed.
- Delays, jitter, timers, heartbeats, tracing, metrics and logging. Durations appear in Backoff only.
- The explicit Stop and Recovery flags of a phase result, which no built-in phase sets, and turn hooks.
- Context preparation, token counting and summarisation. Preparing may fail in any way, and a reply
  may or may not be oversized.
- The IDs that the history store assigns, and changes of the limits during a run.
- Errors of the store are assumed to be neither transient nor an overflow
  (`internal/agent/orchestrator/engine_phases.go:84`), and no error from outside carries the
  engine's private empty-response mark.
- JSON and SHA-256 are taken as injective: a hash is the value it was taken from.
- MemoryBlock.ContextRequest.InsertMemoryBlock: parts are values, so a part that two messages share
  is not changed in both.
- The capture tier, the write statistics, the file lock and the correction-frame pattern of the memory
  hook. Learned statements are represented by their hash keys.
- EventBusProofs.DeliveredInOrder: one Listen session at a time; a new one starts after all workers
  of the last have stopped. What a closed bus still delivers is not stated.
- EventBusListen.ListenReturnsExactly: a Listen that returns at once, because the bus is closed,
  already listening or synchronous, is no step. A handler that runs can return.
- The history is a list of messages. The session manager merges a message into the last one when
  their roles agree, and rejects a first message that is not the user's
  (`internal/agent/session/context/manager.go:210-240`), so what TurnFailures.LoopBreakRun calls saved
  twice is one merged message in the program.
- Synchronous dispatch of the event bus, which never touches the counter, and panics in a flush waiter.
- The deny-list pattern is an arbitrary predicate on keys, applied to the normalised key.
- Watcher.AlwaysConsistent: says nothing of the limits, which sessions and manual calls also set;
  Watcher.OverridesKeptExactly and Watcher.KeptAloneExactly do.
- The constructor's error paths, file search and persistence of the suggestion service.
- The command line, user interface, dependency wiring, authentication, MCP clients and the rest of
  the repository.
