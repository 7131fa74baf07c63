# A verified model of the durable session runtime and its execution loop

This project models, in Dafny 4.11, how an agent session survives crashes and how the loop under it drives a model and its tools.

* **Transcripts.** A message is a role and a sequence of parts: text, a tool use or a tool result. `Pairing` is the root driver's checker as an
  automaton and, independently, as a grammar. `Repair` and `ContextPolicy` are the separately written repair, frontier inspection and compaction
  of the same protocol, proved to agree with it.
* **The write-ahead session.** `Journals` defines the entries and the recovery fold, `Lawful` the grammar of journals, `JournalLaws` what every
  lawful journal satisfies, `JournalWords` the state read off the newest entries. `Usages` holds counters and budgets, `QueueOrders` says by
  queue places what is taken and what stays (`Selections` are parts of a sequence by position). `Sessions.Session` is the live object. Its `Valid()` says that its journal is lawful and that the fold of the journal
  equals the live transcript, markers, compaction, queue, usage, suspension and run, up to the volatile states (closing, interrupting, the window
  between accepting a resolution and the driver's start). Every method of a handle in use keeps it, for every outcome of an append: committed, not committed, or
  committed but reported as an error. `Folds` is the recovery loop itself.
* **The drive loop.** `Turns` and `Drives` specify a turn and a drive over an arbitrary environment (model, gate, handlers, sink, hook,
  cancellation); `Drivers.LoopState` is the object whose methods update the loop in place and refine them. `DriveLaws`, `DriveAccounts`,
  `DriveChain` and `DriveTransparency` hold the theorems, `Requests` what every request carries. What runs and what is answered is told apart
  from these specifications, on decisions and events: `Effects` for a batch, `TurnEffects` for a stage and a resolution, `TurnAnswers` for a turn,
  `DriveEffects` for whole drives.
* **Driver under session.** `Protocols` is the order in which a drive emits events and calls its hook. `Hosting` says what the session does with each
  act while inputs, interrupts, charges and context arrive beside it. `HostedDrives` proves that every act of every drive meets the session's terms and
  that every request is the view the session expects and that the returned execution meets its terms. `TidyRuns` carries the pairing of the
  transcript through every joint run, `Settlings` says what the settlement leaves, and `StrandedRuns` shows where it fails. `SessionHosts` plays
  drives against the live object, from creation through prompts and resumptions. `Projections` compares the two transcripts.
* **The suspension pipeline.** `GateChain`, `Permission`, `ResumePlan`, `Approvals`, `Pipeline`, `Resuming` and `DriverPlan`.
* **Recovery read off the journal.** `Placement`, `Uncertainty` and, with concrete journals, `RecoveryWitnesses`.
* **The capability graph** (`StableOrder`, `Kahn`), **keyed dispatch** (`Dispatches`, `Attributions`, `LoopViews`) and **codemode** (`NestedIds`,
  `Codemode`, `CodemodeLaws`, `CodemodeEffects`, `CodemodeHandler`).

Concurrency is interleaving: one method of a class is one critical section of the source, and any sequence of methods, or of protocol steps, is
a schedule. Clocks, randomness, ID generation, hashing, providers, handlers and the store's answers are parameters. Assumptions are hypotheses of the
theorems that need them: `WellBehaved` (answers carry distinct, non-empty call IDs and no results, hooks inject plain messages), `Reliable` (the
sink accepts every event), `Metered` (reported usage is not negative).

## Behaviour worth knowing

The model follows the code. Where a natural reading of the design is false of it, the project proves exactly when it holds, and shows an input at
which it does not:

* Repair moves what was committed if and only if a tool message without results sits in an open frontier (`Repair.RepairKeepsCommitted`, at
  `Repair.BareToolDisplaced`). It is idempotent if and only if no message of its input is stripped to such a message: one whose results answer none of
  the open calls and which holds another part (`Repair.RepairIdempotent`, at `Repair.StrippedTwice`).
* A permission suspension can be inspected if and only if every call has a name and no earlier gate had decided one of them
  (`Pipeline.PermissionSuspensionInspects`, at `DriverPlan.EarlierGateStrands`).
* The gate runs before any tool lookup. A suspended batch with a call to an unregistered tool that the policy allows can be planned, and the driver
  refuses every plan for it: only an interrupt ends that run (`DriverPlan.PipelineRoundTrip`, at `DriverPlan.UnregisteredStrands`).
* The "rewrote committed messages" fault can be reached. A resumption whose guards pass and whose calls cannot be resolved, because they pass the
  tool-call limit or hold a suspendable tool beside others, closes its run over open calls unless it is interrupted; nothing else the driver
  returns does (`Settlings.StrandsExactly`, `DriveChain.LimitStrandsFrontier`, at `DriveChain.TwoCallsStrand`). A resumption that cannot be prepared
  does the same without an execution (`Settlings.UnpreparedStrands`). The session accepts and journals the next start all the same; the driver refuses
  it. Before that is settled an interrupt faults, and a crash cannot be recovered (`Placement.StartOverOpen`, at `StrandedRuns.StrandedByLimit`
  and `StrandedRuns.StuckIs`). At every point of every drive that starts from a paired transcript, or from the calls it had suspended, both go
  through (`TidyRuns.PointMends`, `Settlings.StartStaysTidy`, `Settlings.ResumeStaysTidy`).
* A resumption that carries a prompt asks the model again after an accepted output, although the hook has been told of the candidate. If no steering
  or follow-up input waits, the session has then left Running: it takes no context, answers no hook call, and the run cannot complete
  (`Hosting.CandidateCloses`, `HostedDrives.PromptedNeverCompletes`, `Projections.PromptOutlivesCandidate`, at `Projections.PromptStrands`).
* A resumption the driver's guards refuse reports zero usage. If the session is interrupted before it settles that execution, the settlement faults,
  unless the run had reported nothing (`Settlings.ResumeFaults`, at `StrandedRuns.RefusedFaults`).
* Recovery under a durable interrupt closes the run and leaves drained inputs unapplied (`Sessions.Resettle`); a later recovery can apply them only
  over a closed frontier (`Placement.ReinjectionNeedsClosedFrontier`, at `RecoveryWitnesses.ReinjectionStuck`).
* A started call is reported as uncertain only if its ID had no result earlier in the run segment; otherwise recovery continues and tells the model
  that the tool never started (`Uncertainty.ReusedIdHidesUncertainty`, `Uncertainty.RecoveryContinues`, at `RecoveryWitnesses.EffectLost`).
* A keyed interrupt's live receipt carries a later position than the restored one if and only if an append was stored before it was built
  (`Dispatches.InterruptReceiptDrifts`, at `Dispatches.DriftOccurs`). A run is attributed after a reopen as it was live if and only if the first command
  that named it was keyed (`Attributions.AttributionRestored`, at `Attributions.RunChangesHands`).
* Operation IDs of codemode records, unlike nested call IDs, can coincide, but never under one parent call (`NestedIds.CallRecordAliases`,
  `NestedIds.CallRecordsAlias`, `NestedIds.SameParentDistinct`, at `NestedIds.AliasesOccur`).

## Model

| member | source | states |
|---|---|---|
| Pairing.InspectTranscript | transcript.go:47-120 | The checker: its result is the pairing automaton run over the whole transcript, an error exactly where the automaton has no step, and otherwise the calls of the frontier left open. |
| Pairing.FullyPairedIffGrammar | transcript.go:47-120 | A transcript is accepted with nothing open if and only if it is a sequence of plain messages and exchanges: distinct, non-empty call IDs in one assistant message, then tool messages that answer each call exactly once under its own name. |
| Pairing.AnswersClose | transcript.go:47-120 | One result for each unresolved call, in order, closes any frontier, whatever the results say. |
| Repair.ProcessMessages | harness/repair/repair.go:56-175 | The one-pass repair loop, against the repair function: output, open frontier and the error cases. |
| Repair.AppendSynthetics | harness/repair/repair.go:65-73 | The closing step appends one synthetic error result per unresolved call, in call order. |
| Repair.InspectFrontier | harness/repair/repair.go:179-186 | The inspector, against the function the laws below speak of. |
| Repair.ReadRawFrontier | harness/repair/repair.go:188-246 | The raw reader of the last frontier, loop by loop. |
| Repair.RepairSound | harness/repair/repair.go:56-175 | Whatever the input, a repair that succeeds in close mode is accepted by the root checker with nothing open. |
| Repair.RepairKeepsCommitted | harness/repair/repair.go:56-175 | On an accepted transcript repair appends exactly one named error result per unresolved call and changes nothing else, if and only if no result-free tool message sits in an open frontier. |
| Repair.RepairIdempotent | harness/repair/repair.go:56-175 | Repairing twice changes nothing if and only if no message of the input is stripped: met with calls open, its results answer none of them and it holds another part. |
| Repair.RepairIdempotentOnResultOnly | harness/repair/repair.go:56-175 | With tool messages that hold only results, repair is idempotent on every input. |
| Repair.BareToolDisplaced | harness/repair/repair.go:56-175 | At an accepted transcript with a bare tool message: the synthetic result is put in front of it, inspection refuses it, and the second repair changes nothing. |
| Repair.StrippedTwice | harness/repair/repair.go:56-175 | At a transcript with a stripped message: the second repair moves what the first one left. |
| Repair.InspectExact | harness/repair/repair.go:179-186 | On accepted transcripts the inspector returns exactly the unresolved calls; with a result-free tool message in an open frontier it refuses. |
| Repair.InspectMatchesRepair | harness/repair/repair.go:179-186 | What the inspector reports is what closing the same transcript synthesizes results for, one each, in order. |
| ContextPolicy.CompactionCut | harness/contextpolicy/contextpolicy.go:429-475 | Returns the largest closed boundary that leaves the recent reserve, and none only when there is none; errors exactly when its scan does. What is replaced starts right behind the leading system message, if there is one. |
| ContextPolicy.BoundariesAreClosedPrefixes | harness/contextpolicy/contextpolicy.go:429-475 | On transcripts the root checker accepts the cut never errors, and its boundaries are exactly the closed prefixes. |
| ContextPolicy.CutIsHonest | harness/contextpolicy/contextpolicy.go:199-302 | The recipe built from the chosen cut replaces only messages between two closed boundaries. |
| ContextPolicy.HonestKeepsFrontier | harness/contextpolicy/contextpolicy.go:334-347 | Applying such a recipe leaves the same calls open. |
| ContextPolicy.ApplyCommutesWithAppend | harness/contextpolicy/contextpolicy.go:334-347 | Apply(m + t, c) = Apply(m, c) + t: a persisted recipe stays applicable on the append-only view. |
| ContextPolicy.Project | harness/contextpolicy/contextpolicy.go:199-302 | The projection: transforms first, then the current recipe, then a new cut when the estimate passes the threshold; the view of a new recipe is the system message, the summary and the tail it keeps. |
| ContextPolicy.NextViewPaired | harness/contextpolicy/contextpolicy.go:199-302 | A fresh compaction of a paired transcript gives the provider a paired view. |
| ContextPolicy.CurrentViewPaired | harness/contextpolicy/contextpolicy.go:199-302 | Reapplying an honest recipe gives the provider a paired view. |
| Journals.Fold | harness/session/recovery.go:234-472 | The recovery fold as a function of the journal, component by component; the laws below state what it means. |
| Folds.FoldEntries | harness/session/recovery.go:234-472 | The imperative scan computes that function, and reports a corrupt log exactly where it has no value. |
| Folds.Scan.ApplyEvent | harness/session/recovery.go:474-557 | One driver event changes the scanned state as the fold step does. |
| Folds.Scan.QueueLists | harness/session/recovery.go:234-472 | The pending and the drained-unapplied inputs, in acceptance order. |
| Folds.InterleaveMarkers | harness/session/helpers.go:156-176 | The interleaving loop computes the provider history: each marker before the first message at or past its position. |
| Lawful.LawfulFolds | harness/session/recovery.go:234-472 | Recovery of a journal that follows the grammar never reports corruption, and its closing system-message step changes nothing. |
| Lawful.AppendBatch | harness/session/recovery.go:234-472 | Appending a batch the grammar allows keeps the journal lawful and moves the fold by that batch alone. |
| Lawful.RecoveredHealthy | harness/session/recovery.go:234-472 | Every lawful journal folds to a healthy state: queue maps disjoint and ordered, markers and run history consistent with the transcript, phase consistent with the run. |
| JournalLaws.JournalAlternates | harness/session/recovery.go:293-322 | In every lawful journal run.opened and run.closed alternate with matching IDs, and run.recovered stands only inside its own run. |
| JournalLaws.QueueConservation | harness/session/recovery.go:364-389 | Every queue ID is accepted at most once, and then is exactly one of pending, drained, applied once or cancelled. |
| JournalLaws.JournalDelivers | harness/session/recovery.go:364-389 | An input enters the transcript with the message it was accepted with, injections in the order of their IDs. |
| JournalLaws.UsageAccounting | harness/session/helpers.go:88-99 | Session usage is the sum of child charges and each run segment's last report, because the deltas telescope, and it never falls. |
| JournalLaws.TranscriptGrows | harness/session/recovery.go:234-470 | The transcript is append-only, but for one system message that may be put in front of a transcript without one. |
| JournalLaws.JournalTells | harness/session/recovery.go:234-472 | Of every lawful journal: the transcript is what the entries added, in order, behind at most one system message; the markers are those journaled, in order, each with exactly the messages behind it that were added later. |
| JournalWords.JournalSays | harness/session/recovery.go:234-472 | Of every lawful journal: recipe, suspension, identity, mode and limits of the open run, its last report, child charge, owed interrupt and completion are what the newest entry about each says; budget and drain mode are those of the creation. |
| Usages.DeltaRestores | harness/session/helpers.go:67-86 | A delta put back on the previous reading gives the current one, and is never negative. |
| Usages.LimitsExact | harness/session/helpers.go:107-135 | A run gets limits if and only if no limited dimension has used its maximum (tool calls may reach it); each remaining value and its counter then add up to the budget, and unlimited dimensions stay unlimited. |
| Usages.MadeUpOnce | harness/session/helpers.go:107-135 | Limits that make up one budget with one usage are unique. |
| SessionStates.HookTakes | harness/session/execution.go:273-351 | By queue places: steering before follow-ups, follow-ups only at a candidate, the earliest accepted alone or all in acceptance order, the rest in order; nothing is taken exactly when nothing is due. |
| SessionStates.StartTakes | harness/session/execution.go:57-154 | A start takes the waiting next-turn inputs, in acceptance order, puts them and then the prompt behind the transcript, and leaves the other inputs in order. |
| QueueOrders.KindsTaken | harness/session/finalize.go:14-198 | Taking inputs by kind takes exactly those of the kinds, by position, and leaves exactly the others, both in acceptance order. |
| SessionStates.RequestsTaken | harness/session/resume.go:185-205 | A request is taken if and only if the handle is open, its target is the open run, and: an input for the run while Running, a next-turn input always, an interrupt while a run is active, a resolution while suspended on just what it names. |
| SessionStates.SettlementQueue | harness/session/finalize.go:14-198 | A settlement cancels exactly the inputs aimed at a run that ends, unless it completed cleanly, and leaves the others in order; a run that goes on waiting keeps all. |
| SessionStates.SettlementCloses | harness/session/finalize.go:14-198 | A run that does not go on waiting is closed last in the batch, under its own identity and status; usage plus the last report is the old usage plus the returned one. |
| SessionStates.SettlementTells | harness/session/finalize.go:14-198 | The transcript stays, but for the system message the driver returned in front; only an interrupt adds to it, one result per open call so that none stays open, and then one marker at its end; earlier markers keep their messages. |
| SessionStates.IdleQueue | harness/session/finalize.go:148-154 | Whenever no run is open only next_turn inputs are pending. |
| SessionStates.MirroredMatches | harness/session/finalize.go:208-239 | The validator accepts a driver transcript that is one optional system message, the history and the committed suffix, and finds that system message. |
| SessionStates.MatchIsMirror | harness/session/finalize.go:208-239 | Nothing else passes the validator. |
| SessionStates.ViewsReproduceDriver | harness/session/context.go:129-146 | On every healthy fold, with the system message before or after the driver inserted it, a transcript of that system message, the recorded history and the committed suffix is reproduced; HostedDrives.StartHosted and ResumeHosted show that every request is one. |
| SessionStates.AdditionsExact | harness/session/finalize.go:267-372 | For every transcript and call log: repair succeeds if and only if the root checker accepts the transcript and no tool message in an open frontier is without results; it then appends exactly one synthetic result per unresolved call. Otherwise the "rewrote committed messages" fault is reached. |
| Sessions.NewSession | harness/session/session.go:102-253 | Creation refuses exactly the histories repair would change, and otherwise journals the creation batch before the handle exists; the handle stands on its journal. |
| Sessions.Session.Accept | harness/session/session.go:366-431 | Refusals in the source's order; on success one batch, the input at the end of the queue, a pinned target checked against the open run; on a failed append at most that batch and a poisoned handle. |
| Sessions.Session.PrepareStart | harness/session/execution.go:57-154 | Start: refusals, the exhausted budget exactly when a limited dimension is spent, then one batch that opens the run under limits that with the session's usage make up its budget, and takes the waiting next-turn inputs, in acceptance order, in front of the prompt; the live state equals the fold after it. |
| Sessions.Session.TurnHook | harness/session/execution.go:273-351 | Told by queue places: if a steer waits only steers are injected, follow-ups only at a candidate; one at a time it is the earliest accepted, otherwise all in acceptance order; the rest keeps its order. The drain is journaled before it is handed over; Closing exactly when nothing is left for a candidate or a charged run's budget is spent. |
| Sessions.Session.Emit | harness/session/execution.go:355-467 | One driver event: journaled first, then applied; every outcome of the append leaves the handle on its journal or faulted with at most that entry added. |
| Sessions.Session.ApplyEvent | harness/session/execution.go:504-545 | The live effect of an event is the fold step's effect. |
| Sessions.Session.InspectView | harness/session/context.go:17-109 | The committed view is compared with the driver's transcript: passed unchanged exactly when they are equal, a fault otherwise. |
| Sessions.Session.CommitContext | harness/session/context.go:17-109 | Durable context and a replaced recipe are journaled before the request; refused outside Running. |
| Sessions.Session.FinishExecution | harness/session/finalize.go:14-198 | Settles whatever the driver returned: which error before the store is asked, otherwise the batch and the image of the bounce, the interrupt, the pause or the close, or a refused append. |
| Sessions.Session.FinishPause | harness/session/finalize.go:54-118 | The suspended path: validate, account, keep the run and its suspension. |
| Sessions.Session.FinishClosed | harness/session/finalize.go:119-198 | The closing path: targeted inputs are cancelled unless the run completed without them. |
| Sessions.Session.FinishInterrupt | harness/session/finalize.go:267-372 | Repairs the frontier, cancels what was aimed at the run, adds the interruption marker and closes it, in one batch. |
| Sessions.Session.PersistFault | harness/session/finalize.go:241-254 | A fault adds at most its own entry and leaves the handle unusable. |
| Sessions.Session.PendingCallsNow | harness/session/finalize.go:374-385 | The open calls; those started without a durable result are indeterminate. |
| Sessions.Session.RequestInterrupt | harness/session/interrupt.go:33-115 | A pinned interrupt reaches only its own run; a keyed one is journaled before the state changes and is then remembered by the fold. |
| Sessions.Session.PrepareResume | harness/session/resume.go:64-148 | Accepts a planned resolution of the suspension that is still the current one; the fold stays Suspended until the driver reports its start. |
| Sessions.Session.PrepareIndeterminate | harness/session/resume.go:236-417 | Closes the recovered run and opens its continuation on the answered transcript, in one batch, under limits that with the usage make up the budget; refused for it exactly when a dimension is spent. |
| Resolutions.AcceptedResolutionsCover | harness/session/resume.go:244-286 | An accepted request denies, or supplies a result for, every indeterminate call and no other; it approves none. |
| Resolutions.SubstitutedSays | harness/session/resume.go:287-335 | Of every open call: one the operator resolved is answered with the denial or the result given for it, and any other with its synthetic result. |
| Resolutions.ResolvedTranscriptPaired | harness/session/resume.go:287-335 | Committing the answers closes the frontier. |
| Sessions.Session.CommitCharge | harness/session/capture.go:243-308 | A child charge moves the journaled and the live usage together; exhaustion is reported after the charge, exactly when a limited dimension is then spent. |
| Sessions.Session.Close | harness/session/close.go:54-108 | Refused while a run is active; otherwise it only ends the handle. |
| Sessions.Session.RecoverOpenRun | harness/session/recovery.go:559-720 | Applies drained inputs, then either pauses on exactly the uncertain calls with nothing repaired or re-run, or hands the driver a history that is fully paired, under limits that with the usage make up the budget; where the transcript can be inspected and repaired, only the store or a spent budget refuses. |
| Sessions.RecoverSession | harness/session/recovery.go:27-213 | A session rebuilt from any recoverable journal stands on that journal. |
| Sessions.Resettle | harness/session/recovery.go:159-212 | Recovery's branches. With a durable pending interrupt the run is closed and the drained inputs stay unapplied. |
| Placement.StartTidy | harness/session/execution.go:57-154 | A start looks at no transcript. It leaves a tidy one, with a paired history for the driver, if and only if nothing was open and prompt and waiting next-turn inputs carry no tool traffic; otherwise the root checker refuses what it leaves. |
| Placement.OverOpenStuck | harness/session/finalize.go:294-301 | Behind open calls, any messages from the user's side make interrupt repair and recovery inspection both fail. |
| Placement.StartOverOpen | harness/session/execution.go:57-154 | After a start with plain messages, interrupt repair succeeds, and recovery inspection succeeds, if and only if nothing was open before it. |
| Placement.CloseKeepsFrontier | harness/session/finalize.go:119-198 | A run closed without repair leaves exactly the calls open that were open: the session is paired afterwards if and only if it was before. |
| Placement.HistoryKeepsFrontier | harness/session/helpers.go:156-176 | The provider history leaves exactly the calls open that the transcript leaves open. |
| Placement.HistoryWeaves | harness/session/helpers.go:156-176 | By positions: each marker stands right before the message it was set at, behind the markers set before it, and every message keeps its place among them. |
| Placement.ReinjectionNeedsClosedFrontier | harness/session/recovery.go:559-600 | Recovery can inspect a transcript after re-injecting an input if and only if no call was open before it. |
| Placement.PauseKeepsFrontier | harness/session/finalize.go:54-118 | A settled pause keeps the suspended calls open and the markers in order. |
| TidyRuns.JointTidy | harness/session/execution.go:504-545 | Through every joint run of a drive and its session the committed transcript stays accepted, without bare tool messages, and every marker stays at a closed boundary. |
| TidyRuns.PointMends | harness/session/finalize.go:267-372 | At every point of every such run, an input just drained included, an interrupt can repair the transcript and recovery can apply what was drained and inspect the result. |
| TidyRuns.CrashPairs | harness/session/recovery.go:559-720 | A process that dies at any such point and is recovered to go on hands the driver a paired history. |
| TidyRuns.CrashResolves | harness/session/resume.go:236-417 | One that is recovered to wait on its uncertain calls hands the driver a paired history once they are answered, whatever the answers. |
| Uncertainty.LogIsSegment | harness/session/recovery.go:474-557 | The call log recovery works with holds the starts and results since the run last opened or was recovered, read off the journal by position. |
| Uncertainty.ReusedIdHidesUncertainty | harness/session/recovery.go:601-610 | On any lawful journal: an open call that started after some point of its run segment, without a result since, is reported as uncertain if and only if its ID had no result in the segment before that point. |
| Uncertainty.RecoveryContinues | harness/session/recovery.go:559-720 | Recovery goes on running if and only if every open call that began in the segment has a result under its ID there; it then tells the model of each open call that it was abandoned before it started. |
| RecoveryWitnesses.EffectLost | harness/session/recovery.go:559-720 | A lawful journal, entry by entry, in which a started call is lost: nothing is uncertain and the synthetic result says it never started. |
| RecoveryWitnesses.ReinjectionStuck | harness/session/recovery.go:559-600 | A lawful journal, entry by entry, whose drained input recovery applies over an open call: the extended transcript can no longer be inspected. |
| Leases.BudgetGate.Begin | harness/session/capture.go:69-121 | First section: a lease outright without a ceiling, otherwise permission to wait. |
| Leases.BudgetGate.Answer | harness/session/capture.go:69-121 | Second section: refused exactly when a limited dimension is spent, otherwise a serialized lease over limits that with the usage make up the budget; the token goes back on every error path. |
| Leases.Lease.Commit | harness/session/capture.go:243-308 | One charge per lease; free token, waiting acquirer and open lease always add up to one. |
| Leases.Lease.Close | harness/session/capture.go:310-321 | Closing is idempotent and only the first close of a serialized lease returns the token. |
| ToolControl.ValidateDecision | tool_scheduler.go:177-215 | Accepts exactly the decisions with one fitting disposition per call, and a deferral exactly when a call is suspended. |
| GateChain.CheckNarrowing | harness/capability/capability.go:573-611 | Accepts exactly the decisions that keep every decided call and fit the root validator. |
| GateChain.EvaluateBatch | harness/capability/capability.go:547-563 | The middleware loop computes the chain; the first deferral ends it. |
| GateChain.ChainNarrows | harness/capability/capability.go:547-563 | Whatever the middleware does, a successful chain passes the root validator and never changes a call an earlier gate returned or suspended. |
| Permission.EvaluateGate | harness/permission/capability.go:142-228 | The permission gate's passes, loop by loop. |
| Permission.GateNarrows | harness/permission/capability.go:142-228 | The gate narrows, the root driver accepts what it decides, and it suspends exactly when it asks without denying. |
| Permission.GateDecides | harness/permission/capability.go:142-228 | Read off the policy: an undecided call runs only if every undecided call is allowed; one denial answers all of them with a failure in their own name, otherwise one question suspends all; what was decided before stays. |
| ResumePlan.InspectToolSuspension | harness/runtime/resume.go:141-178 | Accepts exactly the well-formed suspensions of its kind. |
| ResumePlan.InspectDeferred | harness/runtime/resume.go:190-234 | Accepts exactly those whose permission batch splits the executable calls into required and pre-allowed. |
| ResumePlan.PlanResume | harness/runtime/resume.go:238-330 | Plans exactly the complete requests: one decision per executable call, in order, that does with the call what the operator said, and lets it run where nothing was asked. |
| ResumePlan.CompleteResolvesEach | harness/runtime/resume.go:238-330 | A complete request resolves every required call: none executes without an approval. |
| ResumePlan.PlannedObeys | harness/runtime/resume.go:238-330 | Approved calls run on the arguments given for them, denied ones are answered with a failure that ends in the operator's reason, supplied results are returned as they are, each in the call's own name. |
| Permission.AskedIsComplete | harness/permission/capability.go:230-255 | Whatever an effect resolver returns, the operator is asked about complete requests only, unless the call has no name. |
| Pipeline.PermissionSuspensionInspects | harness/permission/capability.go:142-228 | A permission suspension inspects cleanly if and only if every call of the batch has a name and no earlier gate had decided one of them: the driver lists every regular call as executable. |
| Approvals.InspectSuspension | harness/permission/capability.go:90-140 | The operator's view: accepts exactly the sound suspensions with one complete request per required call, loop by loop. |
| Approvals.ApprovalsComplete | harness/permission/capability.go:90-140 | It lists the required calls, each once, in executable order, with the name of the call and the request recorded for it. |
| Pipeline.OperatorSeesEachAsked | harness/permission/capability.go:90-140 | For a suspension of the permission gate: inspection succeeds in exactly the cases above, and shows one approval per asked call, in call order, with its resolved request. |
| Pipeline.GatePlan | harness/runtime/resume.go:238-330 | A complete request for a permission suspension has one plan: what the policy allowed executes unchanged, what it asked about is run, denied or answered as the operator said. |
| DriverPlan.PlanFitsDriver | execution_loop.go:210-334 | The driver refuses the plan of a complete request over an accepted transcript if and only if a suspended call is an output tool, or a call planned to execute is not registered (for a handler's suspension: or no longer suspendable). |
| DriverPlan.PipelineRoundTrip | execution_loop.go:210-334 | From gate to resume: every complete request has a plan, and the driver refuses it if and only if a call planned to execute is not registered. |
| DriverPlan.UnregisteredStrands | turn.go:165-301 | At a batch of an asked call and an allowed call to an unregistered tool: the gate suspends it before any lookup, and the driver refuses the plan of every complete request. |
| DriverPlan.EarlierGateStrands | harness/permission/capability.go:142-228 | At a batch one call of which an earlier gate returned: the driver accepts the decision and suspends, and no request is ever plannable. |
| Scheduler.Collect | tool_scheduler.go:22-142 | The collecting loop, over any order of completions, cancellation and expiry: it ends, and every call has exactly one result. |
| Scheduler.OrderIndependent | tool_scheduler.go:22-142 | Without cancellation the results are the calls' own, in call order, whatever the completion order. |
| Scheduler.LateCompletionsIgnored | tool_scheduler.go:22-142 | Completions observed after the expiry change nothing. |
| Scheduler.ProjectionIsHonest | tool_scheduler.go:227-254 | A projected result names its call and never hides an error. |
| Drivers.LoopState.constructor | run_state.go:197-291 | The prepared loop: the driver's system message only in front of a history without one. |
| Drivers.LoopState.TakeToolResult | turn.go:271-296 | Projects, records and counts one result, and grants a retry while the tool's budget lasts. |
| Drivers.LoopState.ExecuteAdmitted | tool_scheduler.go:22-142 | Announces the calls, takes every result in call order, or hands back a handler's own suspension. |
| Drivers.CollectSlots | tool_scheduler.go:22-142 | On any schedule of completions, cancellation and expiry the collecting loop leaves per call, and for the batch, exactly what ExecuteAdmitted takes. |
| Drivers.LoopState.ExecuteRegularTurn | turn.go:165-301 | The regular stage with all its failure branches computes RegularStage, whose meaning on gate decisions and events is TurnEffects.StageRuns. |
| Effects.AdmitRuns | tool_scheduler.go:22-142 | An admitted batch starts exactly its calls, in order; each is answered with the projection of what its handler gave on that attempt, or of its abandonment; retries are granted and counted while their tool's budget lasts; a deferral answers none. |
| TurnEffects.StageRuns | turn.go:165-301 | On the gate's decision and the events: the calls started are exactly those it decided to execute, in order, if nothing refuses them, and none otherwise; a returned call is never started and has exactly the result it was given; what a failed gate, an invalid decision or a limit refuses fails in its own name. |
| Drivers.LoopState.CompleteAssistantTurn | turn.go:51-163 | A whole turn, started or resumed, computes CompleteTurn, whose meaning is TurnAnswers.FreshTurn and TurnAnswers.ResumedTurn. |
| TurnAnswers.CompletionAnswers | turn.go:51-163 | What is committed for each call of a turn that does not suspend: acceptance or failure for the first output call, failure for the other outputs and, exactly if there is an output call and the strategy is early, for every other call; else the result of the regular stage. |
| TurnAnswers.FreshTurn | turn.go:51-163 | Every answered turn, event by event: what was put to the gate, what it started, and each committed result: the gate's returned result, else the handler's projected reply, else a failure naming the call; and when the turn is a candidate, continues or is fatal. |
| Drivers.LoopState.CommitToolResults | turn.go:328-347 | The transcript first, then one event per result until the sink refuses one. |
| Drivers.LoopState.ResolveSuspended | execution_loop.go:210-334 | The resolution of a suspended batch computes ResolveTools, whose meaning on decisions and events is TurnEffects.ResolutionRuns; a refusal leaves the loop as it was. |
| TurnEffects.ResolutionRuns | execution_loop.go:210-334 | On the operator's decisions and the events: the calls started are exactly those decided to execute, in executable order, on their override input; a call decided to return is never started and has exactly the supplied result. |
| TurnAnswers.ResumedTurn | execution_loop.go:101-152 | Every resumed turn: the calls decided to execute start before the run does, and each call is answered with the supplied result, the handler's projected reply or a failure naming it. |
| DriveEffects.FinishFollows | execution_loop.go:445-510 | What follows a turn: failure if it was fatal or the hook's answer is no good, the injected messages, the end, completion exactly for a candidate that need not continue, or the next round. |
| DriveEffects.RoundHeard | execution_loop.go:387-442 | A round asks the model if and only if it is not canceled, below the maximum and within the request limits, and commits the answer if and only if it is whole and within the response limits. |
| Drivers.LoopState.EndOfTurn | execution_loop.go:445-510 | The ending of a turn, against its specification. |
| Drivers.LoopState.RunRounds | execution_loop.go:387-442 | The request loop terminates, and its requests and ending are those of the specification. |
| Drivers.LoopState.Run | execution_loop.go:359-443 | driveLoop, entered fresh or with a turn to complete. |
| Drivers.LoopState.Resume | execution_loop.go:101-152 | Guards, resolution and re-entry of a suspended turn. |
| Drivers.DriveWith | execution_loop.go:51-76 | Input check, preparation and loop: the ending and every request are those of the specification. |
| Drivers.ResumeWith | execution_loop.go:78-99 | The same for a resumption. |
| TurnLaws.CompletePairs | turn.go:51-163 | A turn that does not suspend gives each call exactly one result with its own ID and name and leaves the transcript paired, through gate returns, both end strategies, output tools and fatal errors. |
| TurnLaws.TurnResultsNamed | turn.go:51-163 | One slot per call, each naming its call, whatever branch filled it. |
| TurnLaws.CompleteMirrors | turn.go:51-163 | What a turn adds to the transcript is exactly what it commits to a sink that does not fail. |
| TurnBounds.ResolvedSound | execution_loop.go:210-334 | Whatever the operator decided, every recorded result names its call and the transcript is untouched. |
| Resuming.EnvelopeRoundTrip | suspension.go:77-118 | A gate suspension's envelope passes every guard of resume and restores the loop it was taken from. |
| Resuming.SuspensionTransparent | execution_loop.go:210-334 | One turn: suspending at the gate and resuming with execute for every call gives the state and outcome of admitting the batch. |
| DriveLaws.DrivePairs | execution_loop.go:387-442 | Every request is fully paired and has its own iteration below the maximum; completed and stopped drives are fully paired; a suspended one has exactly its last calls open; only a failing sink leaves calls open otherwise. |
| DriveLaws.StartPairs | run_state.go:168-180 | The same from every accepted input; refused inputs are exactly the invalid ones. |
| DriveLaws.ResumePairs | execution_loop.go:101-152 | The same from a resumption; a refused one leaves transcript and model alone. |
| DriveLaws.SuspendedResumable | execution_loop.go:101-152 | Every suspended drive passes every guard of resume on the transcript it returned. |
| DriveAccounts.DriveKept | execution_loop.go:359-443 | The transcript is always what the drive was given and then what the sink committed; usage reports only rise; tool calls, requests and retries stay within their limits, totalRetries being the sum of the per-tool counts. |
| DriveAccounts.StartKept | run_state.go:197-291 | A started drive ends with its own system message, if the history had none, the history, the prompt and the commits. |
| DriveAccounts.ResumeKept | execution_loop.go:101-152 | A resumed drive keeps the account its envelope carries. |
| Requests.StartRecorded | execution_loop.go:387-442 | Every request of a started drive carries the inserted system message, the history, the prompt and everything committed before its turn started, one request per turn. |
| Requests.ResumeRecorded | execution_loop.go:101-152 | Every request of a resumed drive carries the history it was handed and everything committed before its turn started. |
| DriveEffects.StartAccounted | execution_loop.go:359-443 | Every started drive, over its events alone: each committed answer is the model's to the transcript so far, with its tokens counted on the usage told before; its calls run and are answered as FreshTurn says; its end is followed as FinishFollows says; and no call is planned, started or answered outside such a turn. |
| DriveEffects.ResumptionAccounted | execution_loop.go:101-152 | Every resumed drive: refused, it starts and answers no call; otherwise the suspended calls run and are answered as decided, and the rest is accounted for as in a started drive. |
| DriveEffects.NothingUndecidedRuns | turn.go:165-301 | Every ToolStarted of a drive names a regular call of the answer before it that the gate, asked about exactly those calls, decided to execute. |
| DriveEffects.ReturnedNeverRuns | turn.go:165-301 | A call the gate returned is not started in its turn, and the committed result is the one it was given. |
| DriveEffects.SuppliedNeverRuns | execution_loop.go:210-334 | A call decided to return is not started in its resumed turn, and the committed result is the one supplied. |
| DriveEffects.OperatorObeyed | execution_loop.go:210-334 | From the operator's resolution through plan and driver to the transcript: what was denied never runs and is committed as a failure with the reason given; what was answered never runs and is committed as just that. |
| DriveChain.ChainSound | execution_loop.go:101-442 | A run and any number of resumptions: requests at strictly rising iterations below the maximum, each paired; every stop settled; tool and retry bounds across all of them. |
| DriveChain.LimitStrandsFrontier | execution_loop.go:210-334 | With usable decisions a resumption ends the run over an open frontier if and only if the calls pass the tool limit or hold a suspendable tool beside others; no later input is then accepted. |
| DriveTransparency.DriveTransparent | execution_loop.go:101-442 | To the end of the drive: the suspended and resumed run makes the same requests and ends with the same transcript, usage, retries and status as the run whose gate admitted the batch. |
| DriveChain.TwoCallsStrand | execution_loop.go:210-334 | At a suspended batch of two calls under a limit of one: approving both ends the run with both calls open, and no input is accepted any more. |
| Protocols.StartOrdered | execution_loop.go:359-520 | Events and hook calls of every started drive keep one order: injections right after the answer that gave them, completion right after a candidate that may stand, suspension and completion announced exactly when returned. |
| Protocols.ResumeOrdered | execution_loop.go:101-152 | And so do those of every resumed one, whatever the decisions. |
| Hosting.CandidateCloses | harness/session/execution.go:273-351 | The session lets a candidate stand if and only if it is running and no steering or follow-up input waits; it then leaves Running. |
| Hosting.HostViews | harness/session/context.go:129-146 | Whatever others did to the session, a driver whose transcript is its base and what it has said is reproduced by the comparison of the projection. |
| HostedDrives.StartHosted | harness/session/execution.go:163-175 | A started drive under a session that others go on using (inputs, interrupts, charges, context): every event the driver says meets the terms of Emit, every request is the transcript the session's projection reproduces, and at the end the session accepts transcript, inserted system message and usage, and the terms of FinishExecution hold. |
| HostedDrives.ResumeHosted | harness/session/resume.go:154-169 | The same for a resumed drive, whatever the decisions; one the guards refuse reports zero usage, which is behind the last report unless that was of nothing. |
| HostedDrives.PauseHandsOver | harness/session/finalize.go:54-118 | What a settled pause leaves is what the resumption of the same suspension starts from: transcript, usage, bounds, nothing held. |
| HostedDrives.ReleaseIsFinal | harness/session/context.go:17-109 | Once a candidate may stand and the driver does not complete at once, no context projection is taken and so no answer committed, and the drive neither completes nor suspends nor ends another turn. |
| HostedDrives.PromptedNeverCompletes | execution_loop.go:363-385 | A turn whose candidate the session lets stand, with a prompt beside it: in no joint run, whatever else happens to the session and whatever later hook calls answer, does the drive complete or suspend, and the session has left Running. |
| Settlings.StartStaysTidy | harness/session/finalize.go:14-198 | A started drive over a paired, tidy session: at every point an interrupt and a crash can be mended; at the end only the store can refuse the settlement, and a run that ends leaves every call answered, one that pauses leaves open what the driver left open. |
| Settlings.ResumeStaysTidy | harness/session/resume.go:154-169 | The same for a resumed drive, whatever the decisions; a run that ends leaves its transcript paired if and only if it was interrupted or the driver had started it. |
| Settlings.ResumeFaults | harness/session/finalize.go:267-372 | Over every joint run of a resumption: the settlement faults before the store is asked if and only if the driver's guards refused it, the session was interrupted before it settled that, and the run had reported some usage. The error is that of counters that moved backwards. |
| Settlings.StrandsExactly | harness/session/finalize.go:119-198 | A resumption closes its run over open calls if and only if its guards passed, its calls could not be resolved for a reason other than validation, and nobody interrupted it. |
| Settlings.UnpreparedStrands | execution_loop.go:78-99 | A resumption the driver cannot prepare, validation aside, closes its run over its open calls unless it was interrupted. |
| StrandedRuns.PausedIs | harness/session/recovery.go:234-470 | A lawful journal of a run paused on two calls with its resolution accepted, entry by entry, and what it folds to. |
| StrandedRuns.RefusedFaults | harness/session/finalize.go:267-372 | At that run, resumed after its tools were reconfigured, with any decisions: a joint run in which the session is interrupted and faults on the zero usage of the refusal. |
| StrandedRuns.StrandedByLimit | harness/session/execution.go:57-154 | At that run, under a limit of one call, with both approved: a joint run that leaves the session idle over both calls, from where every start leaves a run that no interrupt repairs and no recovery inspects. |
| StrandedRuns.StuckIs | harness/session/finalize.go:267-372 | The same as one lawful journal: behind the failed run the next one has started, and for every call log repair fails, and so does inspection. |
| SessionHosts.DriveAccepted | harness/session/execution.go:163-175 | On the live handle, from a started or recovered run: the drive is played act by act, each of its requests projected, and settled. Played to its end it leaves the session idle with every call answered or waiting on exactly the calls the driver asked about; only the store can prevent that. |
| SessionHosts.DriveResumed | harness/session/resume.go:154-169 | The same for an accepted resolution, but for one case, which is exact: with calls that are unresolvable behind passed guards the session is left idle over them. |
| SessionHosts.ProjectFor | harness/session/context.go:17-109 | For a request of the drive the comparison always passes: the projection is refused only by a session no longer running or by its store. |
| SessionHosts.SettleDrive | harness/session/finalize.go:14-198 | The settlement of the drive leaves the image of its branch, or faults with exactly the error predicted, or on a refused append. |
| SessionHosts.Create | harness/session/session.go:102-253 | A session that creation accepts is in order. |
| SessionHosts.Prompt | harness/session/execution.go:163-175 | Prompt keeps a session in order: idle with every call answered, or waiting on exactly its last calls. Otherwise it was refused with nothing changed, or the store failed. |
| SessionHosts.Resume | harness/session/resume.go:154-169 | Resume keeps a session in order, whatever the decisions, if and only if the calls were not unresolvable behind passed guards; then it is left idle over open calls. |
| Projections.PromptOutlivesCandidate | execution_loop.go:363-385 | With an accepted output and a hook that lets it stand, a turn without a prompt completes without a request. With one it asks again; refused there, it ends interrupted or failed with the prompt committed. |
| Projections.PromptStrands | execution_loop.go:363-385 | At a suspended batch of a lookup and the output tool, resumed with and without a prompt. |
| StableOrder.GreedyIsLeast | harness/capability/capability.go:473-533 | Placing the least ready index at every step gives the index-least order of all. |
| StableOrder.OrderXorCycle | harness/capability/capability.go:473-533 | There is an order if and only if there is no cycle. |
| StableOrder.AnswerUnique | harness/capability/capability.go:473-533 | Two answers that meet the specification are equal: map iteration order does not matter. |
| StableOrder.StuckMeansCycle | harness/capability/capability.go:473-533 | When nothing is ready and something is left, the declared graph has a cycle. |
| Kahn.AddEdge | harness/capability/capability.go:535-541 | A repeated edge changes nothing; a new one raises one indegree; indegrees always count the edges. |
| Kahn.DropTargets | harness/capability/capability.go:516-528 | Decrementing the targets in any order leaves the ready list with exactly the nodes whose sources are all placed. |
| Kahn.Arrange | harness/capability/capability.go:473-533 | The first fault by index, else a missing name, else a permutation that respects every edge and is index-least, or a cycle when there is one. |
| Dispatches.AtMostOneAcceptance | harness/session/loop_view.go:310-341 | Over every interleaving of dispatchers, rejects, background appends, ambiguous outcomes, faults, closes and reopens no key is accepted twice, and the journal can always be restored. |
| Dispatches.RetriesAgree | harness/session/loop_view.go:213-273 | Two successful answers for one key, any steps apart, carry the one recorded receipt, but for an interrupt's position; another digest never succeeds. |
| Dispatches.AnswersRecorded | harness/session/loop_view.go:310-341 | A replay is the journal's receipt and means the accepted digest; a conflict means another digest. |
| Dispatches.GrantedIffNew | harness/session/loop_view.go:310-341 | Without an acceptance fault a key in the journal is never granted again. |
| Dispatches.NothingOnFaulted | harness/session/acceptance_failure.go:17-32 | On a faulted or closed handle nothing is accepted. |
| Dispatches.FailedAcceptanceIsClosed | harness/session/acceptance_failure.go:17-32 | After a failed append the handle answers nobody; a reopen knows the key if and only if the append had taken place. |
| Dispatches.RestoreExactly | harness/session/loop_view.go:369-429 | A reopen succeeds if and only if every key is accepted once with a complete marker, and then finds every acceptance. |
| Dispatches.InterruptReceiptDrifts | harness/session/loop_view.go:650-674 | Over every run from a stored acceptance to the remembering of its receipt: the receipt differs from the restored one if and only if the command is an interrupt and an append was stored in between. |
| Dispatches.DriftOccurs | harness/session/loop_view.go:650-674 | At an interrupt and one driver event: live position 4, restored position 3. |
| LoopViews.LoopView.RestoreCommandAcceptances | harness/session/loop_view.go:369-429 | The restoring loop computes the specification of the receipts, and of the run, queue and resolution attribution it fills beside them. |
| LoopViews.LoopView.AttributeAccepted | harness/session/loop_view.go:466-586 | The callbacks of an accepted start, input or resolution attribute its run, input or resolution entry. |
| LoopViews.LoopView.TryClaim | harness/session/loop_view.go:310-341 | One pass of the claim loop is one protocol step. |
| LoopViews.LoopView.AppendAcceptance | harness/session/acceptance_failure.go:17-32 | The append of an owner is one protocol step, whatever the journal really did. |
| LoopViews.LoopView.RememberCommandAcceptance | harness/session/loop_view.go:354-367 | Remembering a receipt is one protocol step. |
| LoopViews.LoopView.ReleaseClaim | harness/session/loop_view.go:347-352 | Releasing a claim is one protocol step. |
| LoopViews.LoopView.Dispatch | harness/session/loop_view.go:213-273 | A dispatch with nothing in between: unavailable, conflict, replay, refusal, ambiguous failure or one new acceptance with its receipt. |
| LoopViews.LoopView.Acceptance | harness/session/loop_acceptance.go:16-46 | A pure lookup: found only with the digest and command ID that were accepted. |
| LoopViews.LoopView.Reject | harness/session/loop_acceptance.go:52-105 | A rejection under the same claim; a key that was accepted keeps its receipt. |
| LoopViews.Reopened | harness/session/loop_view.go:105-164 | A view reopened on whatever a run left is valid. |
| LoopViews.SessionBatchesMark | harness/session/loop_view.go:455-493 | Every keyed acceptance of the session, interrupts and rejections included, is one batch with its marker last, so live and restored positions agree. |
| LoopViews.SessionBatchesFit | harness/session/loop_view.go:566-615 | The same batches, keyed or not, carry a resolution's entry first and nowhere else. |
| Attributions.RestoredIsKeyed | harness/session/loop_view.go:369-429 | What a reopen restores from the journal is what the keyed commands alone would have attributed live. |
| Attributions.AttributionRestored | harness/session/loop_view.go:369-429 | After a reopen a run is attributed as it was live if and only if the first command that named it was keyed. |
| Attributions.InputsAndResolutionsRestored | harness/session/loop_view.go:369-429 | A queued input and a resolution keep their command if and only if it was keyed. |
| Attributions.RunChangesHands | harness/session/loop_view.go:369-429 | At an unkeyed start and a keyed resolution: the run is the start's, and after a reopen the resolution's. |
| NestedIds.NestedIdInjective | harness/codemode/handler.go:298-301 | Nested call IDs are equal if and only if outer ID, step and executor ID are, separators included. |
| NestedIds.CallRecordAliases | harness/codemode/handler.go:328-346 | The operation ID of a call record is not framed. It equals a program record's if and only if the executor ID is that record's step behind the call's own program, or ends in it and what stands before gives the outer ID; for every executor ID. |
| NestedIds.CallRecordsAlias | harness/codemode/handler.go:328-346 | Two call records share an operation ID if and only if they are of one call, or one executor ID ends in the other and what stands before it would give the ID of the other's program. |
| NestedIds.SameParentDistinct | harness/codemode/handler.go:328-346 | Under one outer ID, which every record carries as its parent, no two records share one. |
| NestedIds.AliasesOccur | harness/codemode/handler.go:328-346 | At three pairs of calls. |
| CodemodeHandler.CompleteBatch | harness/codemode/handler.go:171-262 | The batch loop; its contract gives one verdict per call, decreed by gate or resolution: the host calls run and the "started" records are exactly the executed ones, and each result is the projection of the tool's own or of the supplied one. |
| CodemodeEffects.BatchObeys | harness/codemode/handler.go:171-262 | A batch runs exactly the calls the gate or the resolution decided to execute, in call order, on the override input; a returned call has no "started" record, and its result is the projection of what was supplied. |
| CodemodeEffects.DriveObeys | harness/codemode/handler.go:89-169 | Every host call of a drive was decided to run by the gate at its own step. |
| CodemodeEffects.ResumeObeys | harness/codemode/handler.go:54-87 | Every host call of a resumption was decided to run by the gate or by the resolutions it was handed. |
| CodemodeHandler.DriveProgram | harness/codemode/handler.go:89-169 | The step loop, against its specification. |
| CodemodeHandler.ResumeProgram | harness/codemode/handler.go:54-87 | Resumption of a valid deferred program. |
| CodemodeLaws.ProgramBounded | harness/codemode/handler.go:89-169 | Through any number of suspensions the executor is resumed at most MaxSteps times, all host call IDs are distinct, and output stays within its limit. |
| CodemodeLaws.DriveSound | harness/codemode/handler.go:89-169 | A drive from step n resumes at most MaxSteps - n times, and what it defers is a program its own validation accepts. |
| CodemodeLaws.PlanResolutions | harness/codemode/planner.go:46-124 | The planner reads exactly the well-formed deferred programs, accepts exactly the complete, duplicate-free, usable answers, and carries each one out. |
| CodemodeLaws.PlannedBatchCompletes | harness/codemode/handler.go:171-262 | For every accepted answer the handler finds each suspended call's resolution in its own name and none left over. |

## Left out

- Providers, streaming previews, subscriptions, event projection, the MCP client, telemetry, the terminal UI and the realtime bridge: input, output or wrappers.
- internal/core, store, codec and event bus are assumed: messages as above, an append that is atomic and may fail after it took place, unique entry positions, a lossless codec.
- JSON text, SHA-256 and schema validation: values are canonical text, hashes and size checks on whole records are uninterpreted, override arguments are taken as valid; the decoding error of a persisted envelope is one constructor.
- Integer overflow of usage counters: counters are unbounded.
- Goroutine mechanics: a waiting dispatcher is one that takes the claim step again; a handler's goroutine is a completion tick; Close is one step after its drives are joined.
- Delivery to subscribers, live snapshots and History(): reads of a settled state.
- Drivers.LoopState.ExecuteAdmitted: takes what the scheduler leaves per call from one function; Drivers.CollectSlots ties the collecting loop to it, for every schedule.
- Drivers.LoopState.FailedExecution: error texts are shortened to their category.
- TurnEffects.ResolutionRuns: takes envelopes that name no call twice, as the driver's own do.
- DriveEffects.ResumptionAccounted: the same; and like DriveEffects.StartAccounted it takes a sink that accepts every event and a model whose answers carry distinct, non-empty call IDs.
- TurnAnswers.FreshTurn: failures the driver makes up are told as an error result in the call's name; their texts are not.
- DriveChain.ChainSound: all resumptions share one configuration, which the fingerprint guard is there to ensure.
- CodemodeHandler.CompleteBatch: restoring the typed shape of unchanged inline content is not modelled; contents are text.
- Permission pattern matching and resource canonicalization: the policy is a function.
- Tool registry assembly, toolset hand-over, capability registration and event middleware: easy members.
- Sessions.Session.Emit: asks of its driver the order of events and the injections that HostedDrives proves of this one; another driver is not covered.
- Sessions.Session.FinishExecution: asks of an execution what HostedDrives and SessionHosts prove of this driver's; another driver's is not covered.
- Sessions.Session.FinishPause: the same, for a suspension that was announced.
- Sessions.Session.FinishClosed: the same, for a completion that was announced.
- SessionHosts.Prompt: takes a prompt and waiting next-turn inputs without tool parts, and SessionHosts.Resume such a prompt; Placement.StartTidy says what happens with others. One user at a time: between two calls nothing else is accepted. What others may do during a drive is in HostedDrives.
- HostedDrives.StartHosted: the sink accepts every event. A refused append ends the joint run where it happens, with the session faulted; every prefix is covered.
- Projections.PromptOutlivesCandidate: a refused context projection reaches the driver as a canceled model request; that the session does refuse it is HostedDrives.ReleaseIsFinal.
- Sessions.Session.CommitContext: takes additions that are context tails, and a recipe only when one replaces the current one; the shipped policy returns no other. A custom projector that reports a changed recipe and gives none is not covered. SessionHosts takes projectors of the same kind.
- Sessions.Session.PrepareIndeterminate: takes a transcript the root checker accepts, and refuses it when the inspector does; TidyRuns.CrashResolves has every recovered run of a session in order meet that.
- DriveLaws.ResumePairs: takes a history whose open frontier has no answer yet, as every suspended drive leaves it (SessionHosts.Resume meets that by itself).
- CodemodeLaws.PlanResolutions: starts from the decoded program; that the outer suspension is one handler suspension of the codemode tool is not checked again.
