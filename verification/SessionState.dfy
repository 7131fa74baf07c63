/** The pure side of the session: what is checked, and how each operation keeps the journal and the live state in step. */
module SessionStates {
  import opened Messages
  import opened Pairing
  import opened Repair
  import opened ContextPolicy
  import opened Usages
  import opened Suspensions
  import opened Journals
  import opened Lawful
  import opened Selections
  import opened QueueOrders
  import opened Batches
  import opened SessionSteps
  import opened Resolutions

  datatype SessionError =
    | InvalidMessage | SessionFaulted | SessionSuspended | SessionClosed | SessionBusy | RunClosing | NotRunning
    | StaleRunTarget | BudgetExhausted | InvalidResume | IndeterminateTool | PlanRefused | AppendRefused
    | ProjectionMismatch | UsageBackwards | RunCanceled | NoRun | LeaseMisuse | TranscriptBroken

  /** How a driver call ended, as far as the session distinguishes. */
  datatype RunError = NoError | ResumeValidation | OtherError

  datatype ExecutionResult = ExecutionResult(messages: Transcript, newMessages: Transcript, usage: Usage)

  datatype Execution = Execution(status: Status, result: Option<ExecutionResult>, suspension: Option<Suspension>)

  // ---------------------------------------------------------------------
  // Commit projection.

  datatype Projected = Mismatch | Match(system: Option<Message>)

  /** validateProjectionLocked: the driver's transcript against what the session committed. */
  function ValidateProjection(run: ActiveRun, result: ExecutionResult): Projected
    requires run.volatile.publicNewStart <= |run.expected|
  {
    var full := result.messages;
    var inserted := StartsWithSystem(full) && (run.history == [] || full[0] != run.history[0]);
    var rest := if inserted then full[1..] else full;
    var expected := run.expected[run.volatile.publicNewStart..];
    if |rest| < |run.history| || rest[..|run.history|] != run.history then Mismatch
    else if rest[|run.history|..] != run.expected then Mismatch
    else if |result.newMessages| < |expected| || result.newMessages[|result.newMessages| - |expected|..] != expected then Mismatch
    else Match(if inserted then Some(full[0]) else None)
  }

  predicate EndsWith(messages: Transcript, suffix: Transcript) {
    |suffix| <= |messages| && messages[|messages| - |suffix|..] == suffix
  }

  /** What the driver promises: its transcript is the history it was given, behind at most one system message of its own,
      and then everything the sink committed. */
  predicate Mirrored(run: ActiveRun, result: ExecutionResult, system: Option<Message>)
    requires run.volatile.publicNewStart <= |run.expected|
  {
    && (system.Some? ==> system.value.role == RoleSystem && !StartsWithSystem(run.history))
    && result.messages == OptionalMessage(system) + run.history + run.expected
    && EndsWith(result.newMessages, run.expected[run.volatile.publicNewStart..])
  }

  /** The validator accepts a mirrored transcript and finds the inserted system message. */
  lemma MirroredMatches(run: ActiveRun, result: ExecutionResult, system: Option<Message>)
    requires run.volatile.publicNewStart <= |run.expected| && Mirrored(run, result, system)
    requires run.history == [] ==> !StartsWithSystem(run.expected)
    ensures ValidateProjection(run, result) == Match(system)
  {
    var full := result.messages;
    match system
    case Some(m) => {
      assert full[0] == m && full[1..] == run.history + run.expected;
      assert run.history != [] ==> full[0] != run.history[0];
    }
    case None => {
      assert full == run.history + run.expected;
      assert run.history != [] ==> full[0] == run.history[0];
    }
  }

  /** Nothing else passes: a match is the history and the committed suffix behind the returned system message. */
  lemma MatchIsMirror(run: ActiveRun, result: ExecutionResult)
    requires run.volatile.publicNewStart <= |run.expected| && ValidateProjection(run, result).Match?
    ensures var system := ValidateProjection(run, result).system;
      && result.messages == OptionalMessage(system) + run.history + run.expected
      && (system.Some? ==> system.value.role == RoleSystem && (run.history == [] || system.value != run.history[0]))
      && EndsWith(result.newMessages, run.expected[run.volatile.publicNewStart..])
  {
    var system := ValidateProjection(run, result).system;
    var rest := if system.Some? then result.messages[1..] else result.messages;
    assert rest == run.history + run.expected by {
      assert rest == rest[..|run.history|] + rest[|run.history|..];
    }
    SplitsBehind(result.messages, system, run.history, run.expected);
  }

  lemma SplitsBehind(full: Transcript, system: Option<Message>, history: Transcript, expected: Transcript)
    requires system.Some? ==> full != [] && full[0] == system.value
    requires (if system.Some? then full[1..] else full) == history + expected
    ensures full == OptionalMessage(system) + history + expected
  {
    if system.Some? {
      assert full == [full[0]] + full[1..];
    }
  }

  // ---------------------------------------------------------------------
  // The provider view.

  /** contextViewsLocked: the transcript with the markers the driver already has, and with all of them. */
  function ContextViews(messages: Transcript, markers: seq<ContextMarker>, included: nat, root: Transcript): (Transcript, Transcript) {
    var prefixed := StartsWithSystem(root) && !StartsWithSystem(messages);
    var base := if prefixed then [root[0]] + messages else messages;
    var shifted := if prefixed then ShiftMarkers(markers) else markers;
    var count := if included > |shifted| then |shifted| else included;
    (ProviderHistory(base, shifted[..count]), ProviderHistory(base, shifted))
  }

  /** On every healthy fold the view the session expects is the one a mirroring driver holds. */
  lemma ViewsReproduceDriver(f: Folded, system: Option<Message>)
    requires Healthy(f) && f.run.Some?
    requires system.Some? ==> system.value.role == RoleSystem && !StartsWithSystem(f.run.value.history)
    ensures var root := OptionalMessage(system) + f.run.value.history + f.run.value.expected;
      ContextViews(f.view.messages, f.view.markers, f.run.value.markerCount, root).0 == root
  {
    var run := f.run.value;
    var root := OptionalMessage(system) + run.history + run.expected;
    var seen := f.view.markers[..run.markerCount];
    HistorySystem(f.view, run);
    ProviderSystem(f.view, f.run, run.markerCount);
    if system.Some? {
      ProviderHistoryShift(f.view.messages, seen, system.value);
      assert ShiftMarkers(f.view.markers)[..run.markerCount] == ShiftMarkers(seen);
      assert root == [system.value] + (run.history + run.expected);
    } else {
      assert root == run.history + run.expected;
    }
  }

  // ---------------------------------------------------------------------
  // Live state against the fold.

  /** A resolved run whose driver has not reported its start yet. */
  predicate ResumeWindow(v: Volatile) {
    v.resumeInProgress && !v.resumeEventSeen
  }

  /**
   * The live state is the fold's up to what is never journaled: Closing and Interrupting, and the two windows in which
   * the journal still, or already, says Suspended while the driver runs.
   */
  predicate Agrees(f: Folded, state: State, suspending: bool, run: Option<ActiveRun>) {
    match run
    case None => state == Idle
    case Some(r) =>
      && r.volatile.publicNewStart <= |r.expected|
      && Distinct(r.volatile.pendingInjectionIds)
      && (forall i :: 0 <= i < |r.volatile.pendingInjectionIds| ==> r.volatile.pendingInjectionIds[i] in f.queues.drained)
      && (f.phase.completed ==> (state == Closing || state == Interrupting) && !ResumeWindow(r.volatile) && !suspending)
      && match state
         case Running => f.phase.state == if ResumeWindow(r.volatile) || suspending then Suspended else Running
         case Closing => f.phase.state == if ResumeWindow(r.volatile) || suspending then Suspended else Running
         case Interrupting => f.phase.state == Running || f.phase.state == Suspended
         case Suspended => f.phase.state == Suspended && f.phase.suspension.Some?
         case _ => false
  }

  /** No queued input is aimed at the run. */
  predicate OnlyNextTurn(queue: seq<QueueEntry>) {
    forall i :: 0 <= i < |queue| ==> queue[i].kind == QueueNextTurn
  }

  lemma OnlyNextTurnPending(q: Queues)
    requires QueueHealthy(q)
    ensures OnlyNextTurn(Pending(q)) <==> NoTargeted(q.pending)
  {
    PendingWaits(q);
    var queue := Pending(q);
    forall id | id in q.pending && OnlyNextTurn(queue) ensures q.pending[id].kind == QueueNextTurn {
      assert q.pending[id] in queue;
    }
  }

  lemma NoneOfKinds(queue: seq<QueueEntry>)
    requires OfKinds(queue, {QueueSteer}) == [] && OfKinds(queue, {QueueFollowUp}) == []
    ensures OnlyNextTurn(queue)
  {
    OfKindsMembers(queue, {QueueSteer});
    OfKindsMembers(queue, {QueueFollowUp});
    forall i | 0 <= i < |queue| ensures queue[i].kind == QueueNextTurn {
      assert queue[i] in queue;
      assert queue[i] !in OfKinds(queue, {QueueSteer}) && queue[i] !in OfKinds(queue, {QueueFollowUp});
    }
  }

  lemma IdleQueue(f: Folded)
    requires Healthy(f) && Quiescent(f) && f.run.None?
    ensures OnlyNextTurn(Pending(f.queues))
  {
    OnlyNextTurnPending(f.queues);
  }

  /** acceptanceErrorLocked. */
  function AcceptanceError(state: State, kind: QueueKind): Option<SessionError> {
    match state
    case Faulted => Some(SessionFaulted)
    case Closed => Some(SessionClosed)
    case _ =>
      if kind == QueueNextTurn then None
      else match state
        case Closing => Some(RunClosing)
        case Running => None
        case Suspended => Some(SessionSuspended)
        case _ => Some(NotRunning)
  }

  /** The checks of one acceptance, in order, inside the section that appends. */
  function AcceptRefusal(state: State, run: Option<ActiveRun>, kind: QueueKind, message: Message, target: string): (error: Option<SessionError>)
    ensures error.None? ==> message.role == RoleUser && AcceptanceError(state, kind).None?
    ensures error.None? && target != "" ==> run.Some? && run.value.id == target
  {
    if message.role != RoleUser then Some(InvalidMessage)
    else if AcceptanceError(state, kind).Some? then AcceptanceError(state, kind)
    else if target != "" && (run.None? || run.value.id != target) then Some(StaleRunTarget)
    else None
  }

  /** The fold of the journal holds the live values. */
  predicate Holds(f: Folded, d: Durable, run: Option<ActiveRun>) {
    Healthy(f) && Quiescent(f) && Image(f) == d && d.run == Settled(run)
  }

  /** The fold of the journal is the live session. */
  predicate Refines(f: Folded, d: Durable, state: State, suspending: bool, run: Option<ActiveRun>) {
    Holds(f, d, run) && Agrees(f, state, suspending, run)
  }

  lemma AcceptKeeps(f: Folded, d: Durable, state: State, suspending: bool, run: Option<ActiveRun>,
                    entry: QueueEntry, command: Option<Command>) returns (g: Folded)
    requires Refines(f, d, state, suspending, run)
    requires PlainCommand(command) && AcceptanceError(state, entry.kind).None?
    requires entry.id != "" && entry.id !in f.queues.order && entry.message.role == RoleUser
    ensures Follows(f, AcceptBatch(entry, command), g)
    ensures Quiescent(g) && Refines(g, d.(queue := d.queue + [entry]), state, suspending, run)
  {
    g := AcceptFollows(f, entry, command);
  }

  lemma StartKeeps(f: Folded, d: Durable, suspending: bool, run: Option<ActiveRun>, id: string, limits: Option<Limits>,
                   instructions: string, prompt: Message, command: Option<Command>) returns (g: Folded)
    requires Refines(f, d, Idle, suspending, run) && id != "" && prompt.role == RoleUser && PlainCommand(command)
    ensures Follows(f, StartBatch(id, limits, instructions, OfKinds(d.queue, {QueueNextTurn}), prompt, command), g)
    ensures var started := StartedImage(d, id, limits, instructions, prompt);
      Quiescent(g) && Refines(g, started, Running, false, started.run) && g.queues.drained == f.queues.drained
  {
    g := StartFollows(f, id, limits, instructions, prompt, command);
  }

  function WithInjection(run: ActiveRun, ids: seq<string>): ActiveRun {
    run.(volatile := run.volatile.(pendingInjectionIds := ids))
  }

  /** Draining inputs the hook hands to the driver. */
  lemma HookKeeps(f: Folded, d: Durable, suspending: bool, run: Option<ActiveRun>, entries: seq<QueueEntry>) returns (g: Folded)
    requires Refines(f, d, Running, suspending, run) && Waits(f.queues, entries)
    ensures Follows(f, DrainBatch(entries), g) && run.Some?
    ensures Quiescent(g) && Refines(g, d.(queue := RemoveAll(d.queue, entries)), Running, suspending, Some(WithInjection(run.value, IdsOf(entries))))
    ensures InjectionMatches(g.queues.drained, MessagesOf(entries), IdsOf(entries))
  {
    hide Healthy, Follows, RemoveAll, DrainBatch, NoTargeted;
    g := DrainFollows(f, entries);
  }

  /** What the driver promises of the events it emits, given what the hook handed it. */
  predicate EmitContract(f: Folded, state: State, suspending: bool, run: ActiveRun, event: Event) {
    && (state == Running || state == Closing || state == Interrupting)
    && (forall i :: 0 <= i < |Committed(EventEntry(event, [], None))| ==> Committed(EventEntry(event, [], None))[i].role != RoleSystem)
    && match event
       case MessagesInjected(messages) => InjectionMatches(f.queues.drained, messages, run.volatile.pendingInjectionIds)
       case RunCompleted => state != Running && NoTargeted(f.queues.pending) && !ResumeWindow(run.volatile) && !suspending
       case RunSuspended(_) => !f.phase.completed
       case _ => true
  }

  function EmitIds(run: ActiveRun, event: Event): seq<string> {
    if event.MessagesInjected? then run.volatile.pendingInjectionIds else []
  }

  function EmittedRun(run: ActiveRun, event: Event): ActiveRun {
    run.(expected := Extend(run.expected, Committed(EventEntry(event, [], None))),
         lastUsage := if event.TurnEnded? then event.usage else run.lastUsage,
         calls := CallStep(run.calls, event),
         volatile :=
           if event.MessagesInjected? then run.volatile.(pendingInjectionIds := [])
           else if event.RunStarted? && run.volatile.resumeInProgress then run.volatile.(resumeEventSeen := true)
           else run.volatile)
  }

  predicate Suspending(suspending: bool, event: Event) {
    event.RunSuspended? || (suspending && !event.RunStarted?)
  }

  lemma EmitKeeps(f: Folded, d: Durable, state: State, suspending: bool, run: ActiveRun, event: Event) returns (g: Folded)
    requires Refines(f, d, state, suspending, Some(run)) && EmitContract(f, state, suspending, run, event)
    requires UsageAfter(d.usage, run.lastUsage, event).Some?
    ensures var used := UsageAfter(d.usage, run.lastUsage, event).value;
      && Follows(f, [EventEntry(event, EmitIds(run, event), used)], g)
      && Quiescent(g) && Refines(g, EmittedImage(d, event, used), state, Suspending(suspending, event), Some(EmittedRun(run, event)))
  {
    hide Agrees, EmitContract, Healthy, LegalEvent, Follows, EmittedState, InjectionMatches, CallStep, UsageDelta, AddUsage;
    var used := UsageAfter(d.usage, run.lastUsage, event).value;
    EmitIsLegal(f, d, state, suspending, run, event, used);
    g := EmitFollows(f, event, EmitIds(run, event), used);
    EmitAgrees(f, g, state, suspending, run, event);
    EmittedSettles(d, run, event, used);
  }

  lemma EmittedSettles(d: Durable, run: ActiveRun, event: Event, used: Option<Usage>)
    requires d.run == Settled(Some(run))
    ensures EmittedImage(d, event, used).run == Settled(Some(EmittedRun(run, event)))
  {
    assert Committed(EventEntry(event, [], None)) == Committed(EventEntry(event, [], used));
  }

  lemma EmitIsLegal(f: Folded, d: Durable, state: State, suspending: bool, run: ActiveRun, event: Event, used: Option<Usage>)
    requires Refines(f, d, state, suspending, Some(run)) && EmitContract(f, state, suspending, run, event)
    requires UsageAfter(d.usage, run.lastUsage, event) == Some(used)
    ensures LegalEvent(f, event, EmitIds(run, event), used)
  {
    assert Committed(EventEntry(event, EmitIds(run, event), used)) == Committed(EventEntry(event, [], None));
  }

  lemma EmitAgrees(f: Folded, g: Folded, state: State, suspending: bool, run: ActiveRun, event: Event)
    requires Agrees(f, state, suspending, Some(run)) && EmitContract(f, state, suspending, run, event)
    requires g.phase.state == EmittedState(f.phase.state, event)
    requires g.phase.completed == (f.phase.completed || event.RunCompleted?)
    requires event.MessagesInjected? || g.queues == f.queues
    ensures Agrees(g, state, Suspending(suspending, event), Some(EmittedRun(run, event)))
  {
  }

  lemma ContextKeeps(f: Folded, d: Durable, state: State, suspending: bool, run: Option<ActiveRun>,
                     additions: Transcript, compaction: Option<Compaction>) returns (g: Folded)
    requires Refines(f, d, state, suspending, run) && run.Some?
    requires forall i :: 0 <= i < |additions| ==> additions[i].role != RoleSystem
    ensures Follows(f, ContextStepBatch(|d.messages|, additions, compaction), g)
    ensures Quiescent(g) && Refines(g, d.(markers := d.markers + MarkersAt(|d.messages|, additions),
                          compaction := if compaction.Some? then compaction else d.compaction), state, suspending, run)
  {
    g := ContextStepFollows(f, additions, compaction);
  }

  // ---------------------------------------------------------------------
  // Settling an execution.

  /** The run as a settled pause leaves it. */
  function PausedRun(run: ActiveRun, reported: Usage, system: Option<Message>): ActiveRun {
    run.(lastUsage := reported, history := OptionalMessage(system) + run.history,
         volatile := run.volatile.(resumeInProgress := false))
  }

  function PausedImage(d: Durable, run: ActiveRun, reported: Usage, system: Option<Message>): Durable
    requires UsageDelta(reported, run.lastUsage).Some?
  {
    d.(messages := if system.Some? then [system.value] + d.messages else d.messages,
       markers := if system.Some? then ShiftMarkers(d.markers) else d.markers,
       usage := AddUsage(d.usage, UsageDelta(reported, run.lastUsage).value),
       run := Settled(Some(PausedRun(run, reported, system))))
  }

  predicate Insertable(run: ActiveRun, system: Option<Message>) {
    system.Some? ==> system.value.role == RoleSystem && !StartsWithSystem(run.history)
  }

  lemma PausedAgrees(f: Folded, g: Folded, state: State, run: ActiveRun, reported: Usage, system: Option<Message>)
    requires Agrees(f, state, true, Some(run)) && (state == Running || state == Closing) && Healthy(f)
    requires g.phase == f.phase && g.queues == f.queues && f.run.Some?
    ensures Agrees(g, Suspended, false, Some(PausedRun(run, reported, system)))
  {
  }

  lemma PauseKeeps(f: Folded, d: Durable, state: State, run: ActiveRun, reported: Usage, system: Option<Message>) returns (g: Folded)
    requires Refines(f, d, state, true, Some(run)) && (state == Running || state == Closing)
    requires Reportable(run.lastUsage, reported) && Insertable(run, system)
    ensures Follows(f, SuspendBatch(d, reported, system), g)
    ensures Quiescent(g) && Refines(g, PausedImage(d, run, reported, system), Suspended, false, Some(PausedRun(run, reported, system)))
  {
    hide Follows, AddUsage, UsageDelta, Agrees, Healthy, NoTargeted;
    assert Healthy(f) && f.run.Some?;
    SuspendFollows(f, reported, system);
    g := WithSystem(WithUsage(f, reported), system);
    PausedAgrees(f, g, state, run, reported, system);
    assert system.None? ==> OptionalMessage(system) + d.messages == d.messages && OptionalMessage(system) + run.history == run.history;
  }

  lemma CloseKeeps(f: Folded, d: Durable, run: ActiveRun, reported: Option<Usage>, system: Option<Message>, cancel: bool,
                   marker: Option<string>, status: Status) returns (g: Folded)
    requires Holds(f, d, Some(run)) && Insertable(run, system)
    requires reported.Some? ==> Reportable(run.lastUsage, reported.value)
    requires !cancel ==> NoTargeted(f.queues.pending)
    ensures Follows(f, CloseBatch(d, reported, system, cancel, marker, status), g)
    ensures Quiescent(g) && Refines(g, ClosedImage(d, UsedAfter(d, reported), system, QueueAfter(d.queue, cancel), marker), Idle, false, None)
  {
    hide CloseBatch, ClosedImage, UsedAfter, QueueAfter, NoTargeted, Follows, InOrder;
    g := CloseFollows(f, reported, system, cancel, marker, status);
  }

  lemma InterruptKeeps(f: Folded, d: Durable, run: ActiveRun, added: Transcript, reported: Option<Usage>, system: Option<Message>,
                       marker: string) returns (g: Folded)
    requires Holds(f, d, Some(run)) && Insertable(run, system) && (added != [] ==> d.messages != [])
    requires reported.Some? ==> Reportable(run.lastUsage, reported.value)
    ensures Follows(f, InterruptBatch(d, added, reported, system, marker), g) && Unapplied(g.queues) == Unapplied(f.queues)
    ensures Quiescent(g) && Refines(g, ClosedImage(WithRepair(d, added), UsedAfter(d, reported), system, QueueAfter(d.queue, true), Some(marker)),
                    Idle, false, None)
  {
    hide InterruptBatch, ClosedImage, UsedAfter, QueueAfter, NoTargeted, Follows, InOrder;
    g := InterruptFollows(f, added, reported, system, marker);
  }

  lemma FaultKeeps(f: Folded, d: Durable, run: Option<ActiveRun>) returns (g: Folded)
    requires Holds(f, d, run) && run.Some?
    ensures Follows(f, [FaultEntry], g) && Quiescent(g)
  {
    g := FaultFollows(f);
  }

  // ---------------------------------------------------------------------
  // Resolving a pause.

  function ResumedRun(run: ActiveRun): ActiveRun {
    run.(volatile := run.volatile.(resumeInProgress := true, resumeEventSeen := false, publicNewStart := |run.expected|))
  }

  lemma ResumeKeeps(f: Folded, d: Durable, suspending: bool, run: ActiveRun, suspensionId: string, command: Option<Command>)
    requires Refines(f, d, Suspended, suspending, Some(run)) && PlainCommand(command)
    ensures Follows(f, ResumeBatch(suspensionId, command), f)
    ensures Refines(f, d, Running, false, Some(ResumedRun(run)))
  {
    ResumeFollows(f, suspensionId, command);
  }

  lemma ResolveKeeps(f: Folded, d: Durable, suspending: bool, run: ActiveRun, suspensionId: string, added: Transcript,
                     prompt: Option<Message>, newRun: string, limits: Option<Limits>, command: Option<Command>) returns (g: Folded)
    requires Refines(f, d, Suspended, suspending, Some(run)) && newRun != "" && PlainCommand(command)
    requires (added != [] ==> d.messages != []) && (prompt.Some? ==> prompt.value.role == RoleUser)
    ensures Follows(f, ResolveBatch(run.id, suspensionId, added, prompt, newRun, limits, run.instructions, command), g)
    ensures var resolved := ResolvedImage(d, added + OptionalMessage(prompt), newRun, limits, run.instructions);
      Quiescent(g) && Refines(g, resolved, Running, false, resolved.run)
  {
    hide ResolveBatch, Follows, InOrder, ProviderHistory;
    g := ResolveFollows(f, suspensionId, added, prompt, newRun, limits, run.instructions, command);
  }

  lemma InterruptRequestKeeps(f: Folded, d: Durable, state: State, suspending: bool, run: ActiveRun, command: Command) returns (g: Folded)
    requires Refines(f, d, state, suspending, Some(run)) && command.runId == run.id
    requires command.kind == CommandInterrupt && command.rejection == ""
    ensures Follows(f, [CommandAccepted(command)], g) && Quiescent(g) && Refines(g, d, state, suspending, Some(run))
    ensures g.phase.pendingInterrupt == run.id
  {
    g := InterruptRequestFollows(f, command);
  }

  function InterruptedRun(run: ActiveRun): ActiveRun {
    run.(volatile := run.volatile.(interrupted := true))
  }

  lemma InterruptAgrees(f: Folded, d: Durable, state: State, suspending: bool, run: ActiveRun)
    requires Refines(f, d, state, suspending, Some(run))
    ensures Refines(f, d, Interrupting, suspending, Some(InterruptedRun(run)))
  {
  }

  // ---------------------------------------------------------------------
  // Recovery.

  lemma ContinueKeeps(f: Folded, d: Durable, run: ActiveRun, added: Transcript, limits: Option<Limits>) returns (g: Folded)
    requires Holds(f, d, Some(run)) && (added != [] ==> d.messages != [])
    ensures Follows(f, RecoverBatch(run.id, added, limits, run.instructions), g)
    ensures var recovered := RecoveredImage(d, added, run.id, limits, run.instructions);
      Quiescent(g) && Refines(g, recovered, Running, false, recovered.run)
  {
    hide RecoverBatch, Follows, InOrder, ProviderHistory;
    g := RecoverFollows(f, added, limits, run.instructions);
  }

  lemma RecoverySuspensionKeeps(f: Folded, d: Durable, run: ActiveRun, suspension: Suspension) returns (g: Folded)
    requires Holds(f, d, Some(run)) && !f.phase.completed && run.volatile.pendingInjectionIds == [] && run.volatile.publicNewStart == 0
    ensures Follows(f, [RecoverySuspension(suspension)], g)
    ensures Quiescent(g) && Refines(g, d.(suspension := Some(suspension)), Suspended, false, Some(run))
  {
    g := RecoverySuspensionFollows(f, suspension);
  }

  /** Recovery applies every drained input that never reached the transcript, in acceptance order. */
  lemma ReinjectKeeps(f: Folded, d: Durable, run: ActiveRun, inputs: seq<QueueEntry>) returns (g: Folded)
    requires Holds(f, d, Some(run)) && inputs == Unapplied(f.queues)
    ensures Follows(f, [EventEntry(MessagesInjected(MessagesOf(inputs)), IdsOf(inputs), None)], g)
    ensures Quiescent(g) && Holds(g, EmittedImage(d, MessagesInjected(MessagesOf(inputs)), None), Some(
      run.(expected := Extend(run.expected, MessagesOf(inputs)))))
    ensures g.phase == f.phase && Unapplied(g.queues) == []
  {
    hide Healthy, LegalEvent, Unapplied, InOrder, LawfulFrom, FoldFrom, Follows, NoTargeted, EmittedImage, EmittedState, QueueHealthy;
    ReinjectIsLegal(f, inputs);
    g := EmitFollows(f, MessagesInjected(MessagesOf(inputs)), IdsOf(inputs), None);
    AllApplied(f.queues, g.queues, inputs);
    ReinjectedImage(d, run, MessagesOf(inputs));
    ReinjectedPhase(f.phase, g.phase, d, MessagesOf(inputs));
  }

  lemma ReinjectedImage(d: Durable, run: ActiveRun, injected: Transcript)
    requires d.run == Settled(Some(run))
    ensures EmittedImage(d, MessagesInjected(injected), None).run == Settled(Some(run.(expected := Extend(run.expected, injected))))
  {
  }

  lemma ReinjectedPhase(before: Phase, after: Phase, d: Durable, injected: Transcript)
    requires d.run.Some? && before.suspension == d.suspension
    requires after.suspension == EmittedImage(d, MessagesInjected(injected), None).suspension
    requires after.state == EmittedState(before.state, MessagesInjected(injected))
    requires after.completed == before.completed && after.pendingInterrupt == before.pendingInterrupt
    ensures after == before
  {
  }

  lemma ReinjectIsLegal(f: Folded, inputs: seq<QueueEntry>)
    requires Healthy(f) && f.run.Some? && inputs == Unapplied(f.queues)
    ensures LegalEvent(f, MessagesInjected(MessagesOf(inputs)), IdsOf(inputs), None)
    ensures QueueHealthy(f.queues)
  {
    UnappliedCovers(f.queues, inputs);
  }

  lemma AllApplied(q: Queues, after: Queues, inputs: seq<QueueEntry>)
    requires QueueHealthy(q) && inputs == Unapplied(q) && after == q.(drained := q.drained - IdSet(IdsOf(inputs)))
    ensures Unapplied(after) == []
  {
    UnappliedCovers(q, inputs);
    NothingLive(after.order, after.drained);
  }

  lemma UnappliedCovers(q: Queues, inputs: seq<QueueEntry>)
    requires QueueHealthy(q) && inputs == Unapplied(q)
    ensures InjectionMatches(q.drained, MessagesOf(inputs), IdsOf(inputs))
    ensures forall i :: 0 <= i < |inputs| ==> MessagesOf(inputs)[i].role == RoleUser
    ensures forall id :: id in q.drained ==> id in IdSet(IdsOf(inputs))
  {
    InOrderWaits(q.order, q.drained);
    forall id | id in q.drained ensures id in IdSet(IdsOf(inputs)) {
      assert q.drained[id] in inputs;
      var i :| 0 <= i < |inputs| && inputs[i] == q.drained[id];
      assert IdsOf(inputs)[i] == id;
    }
  }

  lemma {:induction false} NothingLive(order: seq<string>, live: map<string, QueueEntry>)
    requires forall id :: id !in live
    ensures InOrder(order, live) == []
    decreases order
  {
    if order != [] {
      NothingLive(order[1..], live);
    }
  }

  lemma ChildKeeps(f: Folded, d: Durable, state: State, suspending: bool, run: ActiveRun, charge: Usage) returns (g: Folded)
    requires Refines(f, d, state, suspending, Some(run)) && AtMost(ZeroCounters, charge.counters)
    ensures Follows(f, [ChildUsage(charge, AddUsage(d.usage, charge))], g)
    ensures Quiescent(g) && Refines(g, d.(usage := AddUsage(d.usage, charge), run := Settled(Some(run.(childUsageCharged := true)))),
                    state, suspending, Some(run.(childUsageCharged := true)))
  {
    g := ChildFollows(f, charge);
  }

  // ---------------------------------------------------------------------
  // Facts the methods read off the invariant.

  lemma LiveFacts(f: Folded, d: Durable, state: State, suspending: bool, run: Option<ActiveRun>)
    requires Refines(f, d, state, suspending, run)
    ensures Healthy(f) && Holds(f, d, run) && Quiescent(f)
    ensures run.Some? <==> state != Idle
    ensures run.Some? <==> f.run.Some?
    ensures run.Some? ==> run.value.volatile.publicNewStart <= |run.value.expected| && f.run.value.id == run.value.id
    ensures run.Some? && run.value.history == [] ==> !StartsWithSystem(run.value.expected)
    ensures state == Idle ==> OnlyNextTurn(d.queue)
    ensures state == Suspended ==> d.suspension.Some?
    ensures OnlyNextTurn(d.queue) <==> NoTargeted(f.queues.pending)
    ensures f.phase.completed ==> OnlyNextTurn(d.queue)
  {
    OnlyNextTurnPending(f.queues);
  }

  /** The inputs a turn boundary hands to the driver: steering first, then follow-ups once a candidate stands. */
  function HookInputs(queue: seq<QueueEntry>, candidate: bool, drainAll: bool): seq<QueueEntry> {
    var steer := OfKinds(queue, {QueueSteer});
    var chosen := if steer == [] && candidate then OfKinds(queue, {QueueFollowUp}) else steer;
    if chosen != [] && !drainAll then chosen[..1] else chosen
  }

  lemma HookInputsWait(f: Folded, candidate: bool, drainAll: bool)
    requires Healthy(f)
    ensures Waits(f.queues, HookInputs(Pending(f.queues), candidate, drainAll))
    ensures HookInputs(Pending(f.queues), true, drainAll) == [] ==> OnlyNextTurn(Pending(f.queues))
  {
    KindsWait(f.queues, {QueueSteer});
    KindsWait(f.queues, {QueueFollowUp});
    var queue := Pending(f.queues);
    if OfKinds(queue, {QueueSteer}) == [] && OfKinds(queue, {QueueFollowUp}) == [] {
      NoneOfKinds(queue);
    }
  }

  /**
   * Told by their places in the queue: if a steer waits, only steers are taken, and follow-ups only at a candidate; one at a time it is the one
   * accepted first, otherwise all of them in acceptance order. What is left keeps its order.
   */
  lemma HookTakes(queue: seq<QueueEntry>, candidate: bool, drainAll: bool)
    requires DistinctEntries(queue)
    ensures var taken := HookInputs(queue, candidate, drainAll);
      TakenInTurn(queue, candidate, drainAll, taken, RemoveAll(queue, taken)) && (taken == [] <==> Due(queue, candidate) == {})
  {
    hide OfKinds, RemoveAll, Places, Taken, Remove;
    KindsDue(queue, {QueueSteer});
    KindsDue(queue, {QueueFollowUp});
    var kinds := if Places(queue, {QueueSteer}) != {} then {QueueSteer} else {QueueFollowUp};
    var chosen := OfKinds(queue, kinds);
    if Due(queue, candidate) == {} {
      NothingRemoved(queue);
    } else if drainAll {
      KindsTaken(queue, kinds);
    } else {
      var first := FirstOfKinds(queue, kinds);
      FirstRemoved(queue, kinds, first);
    }
  }

  /** A start takes the waiting next-turn inputs, in acceptance order, and leaves the rest. */
  lemma StartTakes(d: Durable, id: string, limits: Option<Limits>, instructions: string, prompt: Message)
    requires DistinctEntries(d.queue)
    ensures var started := StartedImage(d, id, limits, instructions, prompt);
      && started.run.Some? && started.run.value.limits == limits
      && exists taken :: Taken(d.queue, {QueueNextTurn}, taken, started.queue) && started.messages == d.messages + MessagesOf(taken) + [prompt]
  {
    hide Taken, OfKinds, RemoveAll, ProviderHistory;
    KindsTaken(d.queue, {QueueNextTurn});
    assert Taken(d.queue, {QueueNextTurn}, OfKinds(d.queue, {QueueNextTurn}), StartedImage(d, id, limits, instructions, prompt).queue);
  }

  lemma StartOpens(entries: seq<Entry>, id: string, limits: Option<Limits>, instructions: string, next: seq<QueueEntry>, prompt: Message,
                   command: Option<Command>)
    ensures var all := entries + StartBatch(id, limits, instructions, next, prompt, command);
      |all| > |entries| && all[|entries|] == RunOpened(id, DriveStart, limits, instructions)
  {
  }

  lemma NothingRemoved(queue: seq<QueueEntry>)
    ensures RemoveAll(queue, []) == queue
  {
  }

  lemma FirstRemoved(queue: seq<QueueEntry>, kinds: set<QueueKind>, first: nat)
    requires DistinctEntries(queue) && first in Places(queue, kinds) && OfKinds(queue, kinds) != [] && OfKinds(queue, kinds)[0] == queue[first]
    ensures first < |queue| && RemoveAll(queue, OfKinds(queue, kinds)[..1]) == queue[..first] + queue[first + 1..]
    ensures OfKinds(queue, kinds)[..1] == [queue[first]]
  {
    RemoveAt(queue, first);
    assert OfKinds(queue, kinds)[..1][1..] == [];
  }

  /** A child charge that exhausted the budget ends the run at the next turn boundary. */
  predicate ChildExhausted(budget: Option<Limits>, used: Usage, run: ActiveRun) {
    run.childUsageCharged && budget.Some? && RemainingLimits(budget.value, used).None?
  }

  function CallState(log: CallLog, call: ToolUse): PendingState {
    if call.id in log.started && call.id !in log.results then PendingIndeterminate else PendingPlanned
  }

  function PendingOf(calls: seq<ToolUse>, log: CallLog): (pending: seq<PendingCall>)
    ensures |pending| == |calls|
  {
    seq(|calls|, i requires 0 <= i < |calls| => PendingCall(calls[i].id, calls[i].name, CallState(log, calls[i])))
  }

  /** pendingCallsLocked: an inspection error leaves no calls. */
  function PendingCallsOf(messages: Transcript, log: CallLog): PendingCalls {
    PendingCalls(PendingOf(Inspect(messages).GetOr([]), log), "")
  }

  /** promptErrorLocked, outside Idle. */
  function PromptError(state: State): Option<SessionError> {
    match state
    case Faulted => Some(SessionFaulted)
    case Suspended => Some(SessionSuspended)
    case Closed => Some(SessionClosed)
    case Idle => None
    case _ => Some(SessionBusy)
  }

  datatype HookAnswer = HookFailed(error: SessionError) | HookDefault | HookInject(messages: Transcript)

  function HookError(state: State): SessionError {
    match state
    case Faulted => SessionFaulted
    case Interrupting => RunCanceled
    case _ => NotRunning
  }

  lemma ClosingKeeps(f: Folded, d: Durable, suspending: bool, run: Option<ActiveRun>)
    requires Refines(f, d, Running, suspending, run)
    ensures Refines(f, d, Closing, suspending, run)
  {
  }

  lemma EmittedValue(d: Durable, run: ActiveRun, event: Event, used: Option<Usage>)
    requires d.run == Settled(Some(run))
    ensures EmittedImage(d, event, used) == d.(
      messages := Extend(d.messages, Committed(EventEntry(event, [], None))), usage := used.GetOr(d.usage),
      suspension := if event.RunSuspended? then Some(event.suspension) else d.suspension,
      run := Settled(Some(EmittedRun(run, event))))
    ensures EmittedRun(run, event).lastUsage == if event.TurnEnded? then event.usage else run.lastUsage
  {
    assert Committed(EventEntry(event, [], used)) == Committed(EventEntry(event, [], None));
  }

  // ---------------------------------------------------------------------
  // Executions.

  function ReportedUsage(execution: Option<Execution>): Option<Usage> {
    if execution.Some? && execution.value.result.Some? then Some(execution.value.result.value.usage) else None
  }

  function StatusOf(execution: Option<Execution>): Status {
    if execution.Some? then execution.value.status else ExecutionFailed
  }

  function ProjectedSystem(run: ActiveRun, execution: Option<Execution>): Projected
    requires run.volatile.publicNewStart <= |run.expected|
  {
    if execution.Some? && execution.value.result.Some? then ValidateProjection(run, execution.value.result.value) else Match(None)
  }

  /** What every driver promises of the executions it returns: usage that does not fall behind the last report keeps its requests, and a
      system message is inserted only in front of a history that has none. */
  predicate ReportContract(run: ActiveRun, execution: Option<Execution>) {
    execution.Some? && execution.value.result.Some? ==>
      var result := execution.value.result.value;
      && (UsageDelta(result.usage, run.lastUsage).Some? ==> run.lastUsage.perRequest <= result.usage.perRequest)
      && (StartsWithSystem(result.messages) && StartsWithSystem(run.history) ==> result.messages[0] == run.history[0])
  }

  lemma ProjectedIsInsertable(run: ActiveRun, execution: Option<Execution>)
    requires run.volatile.publicNewStart <= |run.expected| && ReportContract(run, execution)
    requires ProjectedSystem(run, execution).Match?
    ensures Insertable(run, ProjectedSystem(run, execution).system)
    ensures var reported := ReportedUsage(execution);
      reported.Some? && UsageDelta(reported.value, run.lastUsage).Some? ==> Reportable(run.lastUsage, reported.value)
  {
  }

  /** The repaired transcript of an interrupted run, when it only adds to what is committed. */
  function Additions(messages: Transcript, log: CallLog): Option<Transcript> {
    var repaired := Repaired(messages, PendingCallsOf(messages, log));
    if repaired.Some? && messages <= repaired.value then Some(repaired.value[|messages|..]) else None
  }

  /**
   * Repair only adds to what is committed if and only if the root checker accepts that, and no bare tool message sits in an open frontier.
   * It then adds exactly one synthetic result per unresolved call.
   */
  lemma AdditionsExact(messages: Transcript, log: CallLog)
    ensures Additions(messages, log).Some? <==> Accepted(messages) && NoBareTool(Pairing.Closed, messages)
    ensures Additions(messages, log).Some? ==>
      && Additions(messages, log) == Some(SyntheticResults(Unresolved(FrontierOf(messages)), PendingCallsOf(messages, log)))
      && PendingCallsOf(messages, log) == PendingCalls(PendingOf(Unresolved(FrontierOf(messages)), log), "")
      && FullyPaired(messages + Additions(messages, log).value)
  {
    var pending := PendingCallsOf(messages, log);
    RepairSound(messages, pending);
    if Additions(messages, log).Some? {
      var repaired := Repaired(messages, pending).value;
      assert repaired == messages + repaired[|messages|..];
      PrefixAccepted(messages, repaired[|messages|..]);
    }
    if Accepted(messages) {
      InspectExact(messages);
      RepairKeepsCommitted(messages, pending);
      if NoBareTool(Pairing.Closed, messages) {
        var added := SyntheticResults(Unresolved(FrontierOf(messages)), pending);
        assert (messages + added)[|messages|..] == added;
      }
    }
  }

  /**
   * Neither branch that finds committed messages rewritten can be taken: an interrupt can repair the transcript, and recovery, which first
   * applies the inputs it owes, can inspect it and only adds to it.
   */
  predicate Mendable(messages: Transcript, owed: Transcript, log: CallLog) {
    var base := Extend(messages, owed);
    Additions(messages, log).Some? && Inspect(base).Some? && Additions(base, log).Some?
  }

  lemma EmptyNeedsNoRepair(messages: Transcript, log: CallLog)
    ensures Additions(messages, log).Some? && Additions(messages, log).value != [] ==> messages != []
  {
    if messages == [] {
      assert Repaired(messages, PendingCallsOf(messages, log)) == Some([]);
    }
  }

  const INTERRUPTION := "The run was deliberately interrupted; detached work may still be running and side effects may have partially occurred."

  lemma BounceKeeps(f: Folded, d: Durable, state: State, suspending: bool, run: ActiveRun)
    requires Refines(f, d, state, suspending, Some(run)) && (state == Running || state == Closing) && ResumeWindow(run.volatile)
    ensures Refines(f, d, Suspended, false, Some(run.(volatile := run.volatile.(resumeInProgress := false))))
  {
  }

  lemma HoldsFacts(f: Folded, d: Durable, run: Option<ActiveRun>)
    requires Holds(f, d, run)
    ensures OnlyNextTurn(d.queue) <==> NoTargeted(f.queues.pending)
    ensures d.run == Settled(run)
  {
    OnlyNextTurnPending(f.queues);
  }

  /** An empty batch leaves the fold where it is. */
  lemma NothingFollows(f: Folded, g: Folded, batch: seq<Entry>)
    requires Follows(f, batch, g) && batch == []
    ensures g == f
  {
  }

  /** The four ways finishExecution settles a run. */
  datatype Settlement = SettleInterrupt | SettleBounce | SettlePause | SettleClose

  function SettlementOf(state: State, run: ActiveRun, execution: Option<Execution>, error: RunError): Settlement {
    if state == Interrupting || (execution.Some? && execution.value.status == ExecutionInterrupted) then SettleInterrupt
    else if ResumeWindow(run.volatile) && error == ResumeValidation then SettleBounce
    else if StatusOf(execution) == ExecutionSuspended then SettlePause
    else SettleClose
  }

  /** What the driver promises when it returns: a pause was announced with its suspension, a completion was announced. */
  predicate ReturnContract(f: Folded, state: State, suspending: bool, suspension: Option<Suspension>, run: ActiveRun,
                           execution: Option<Execution>, error: RunError) {
    && run.volatile.publicNewStart <= |run.expected|
    && ReportContract(run, execution)
    && (SettlementOf(state, run, execution, error).SettlePause? ==>
          execution.value.result.Some? && execution.value.suspension.Some? && suspending && suspension == execution.value.suspension)
    && (StatusOf(execution) == ExecutionCompleted && error == NoError ==> f.phase.completed)
  }

  /** Why the committed transcript of an interrupted run cannot be repaired. */
  function RepairFailure(messages: Transcript, log: CallLog): Option<SessionError> {
    if Additions(messages, log).Some? then None
    else if Repaired(messages, PendingCallsOf(messages, log)).None? then Some(TranscriptBroken)
    else Some(ProjectionMismatch)
  }

  predicate UsageFell(run: ActiveRun, execution: Option<Execution>) {
    var reported := ReportedUsage(execution);
    reported.Some? && UsageDelta(reported.value, run.lastUsage).None?
  }

  /** The error at which a settlement faults the session before it asks the store. */
  function SettlementFailure(messages: Transcript, state: State, run: ActiveRun, execution: Option<Execution>, error: RunError): Option<SessionError>
    requires run.volatile.publicNewStart <= |run.expected|
  {
    var settlement := SettlementOf(state, run, execution, error);
    if settlement.SettleBounce? then None
    else if settlement.SettlePause? && (execution.value.result.None? || execution.value.suspension.None?) then Some(ProjectionMismatch)
    else if ProjectedSystem(run, execution).Mismatch? then Some(ProjectionMismatch)
    else if settlement.SettleInterrupt? && RepairFailure(messages, run.calls).Some? then RepairFailure(messages, run.calls)
    else if UsageFell(run, execution) then Some(UsageBackwards)
    else None
  }

  predicate Cancels(execution: Option<Execution>, error: RunError) {
    StatusOf(execution) != ExecutionCompleted || error != NoError
  }

  /** The batch a successful settlement appends. */
  function SettlementBatch(d: Durable, state: State, run: ActiveRun, execution: Option<Execution>, error: RunError): seq<Entry>
    requires d.run == Settled(Some(run)) && run.volatile.publicNewStart <= |run.expected|
    requires SettlementFailure(d.messages, state, run, execution, error).None?
  {
    var projected, reported := ProjectedSystem(run, execution), ReportedUsage(execution);
    match SettlementOf(state, run, execution, error)
    case SettleInterrupt => InterruptBatch(d, Additions(d.messages, run.calls).value, reported, projected.system, INTERRUPTION)
    case SettleBounce => []
    case SettlePause => SuspendBatch(d, reported.value, projected.system)
    case SettleClose => CloseBatch(d, reported, projected.system, Cancels(execution, error), None, StatusOf(execution))
  }

  /** The durable image a successful settlement leaves. */
  function SettledImage(d: Durable, state: State, run: ActiveRun, execution: Option<Execution>, error: RunError): Durable
    requires d.run == Settled(Some(run)) && run.volatile.publicNewStart <= |run.expected|
    requires SettlementFailure(d.messages, state, run, execution, error).None?
  {
    var projected, reported := ProjectedSystem(run, execution), ReportedUsage(execution);
    match SettlementOf(state, run, execution, error)
    case SettleInterrupt =>
      ClosedImage(WithRepair(d, Additions(d.messages, run.calls).value), UsedAfter(d, reported), projected.system,
                  QueueAfter(d.queue, true), Some(INTERRUPTION))
    case SettleBounce => d
    case SettlePause => PausedImage(d, run, reported.value, projected.system)
    case SettleClose => ClosedImage(d, UsedAfter(d, reported), projected.system, QueueAfter(d.queue, Cancels(execution, error)), None)
  }

  /** The ways a run may end, read off the state and what the driver returned. */
  predicate EndsInterrupted(state: State, execution: Option<Execution>) {
    state == Interrupting || (execution.Some? && execution.value.status == ExecutionInterrupted)
  }

  /** A refused resolution puts the run back as it was. */
  predicate EndsRefused(state: State, run: ActiveRun, execution: Option<Execution>, error: RunError) {
    !EndsInterrupted(state, execution) && ResumeWindow(run.volatile) && error == ResumeValidation
  }

  predicate EndsWaiting(state: State, run: ActiveRun, execution: Option<Execution>, error: RunError) {
    || EndsRefused(state, run, execution, error)
    || (!EndsInterrupted(state, execution) && execution.Some? && execution.value.status == ExecutionSuspended)
  }

  predicate EndsCleanly(state: State, execution: Option<Execution>, error: RunError) {
    !EndsInterrupted(state, execution) && error == NoError && execution.Some? && execution.value.status == ExecutionCompleted
  }

  lemma SettlementMeans(state: State, run: ActiveRun, execution: Option<Execution>, error: RunError)
    ensures var waiting := EndsWaiting(state, run, execution, error);
      match SettlementOf(state, run, execution, error)
      case SettleInterrupt => EndsInterrupted(state, execution) && !EndsRefused(state, run, execution, error) && !waiting
      case SettleBounce => EndsRefused(state, run, execution, error) && waiting
      case SettlePause => !EndsInterrupted(state, execution) && !EndsRefused(state, run, execution, error) && waiting
      case SettleClose =>
        && !EndsInterrupted(state, execution) && !EndsRefused(state, run, execution, error) && !waiting
        && (Cancels(execution, error) <==> !EndsCleanly(state, execution, error))
    ensures EndsCleanly(state, execution, error) ==>
      SettlementOf(state, run, execution, error).SettleClose? && !EndsWaiting(state, run, execution, error)
  {
  }

  /** What a settlement does to the queue: the inputs aimed at a run that ends are cancelled, unless it completed; next-turn inputs stay. */
  lemma SettlementQueue(d: Durable, state: State, run: ActiveRun, execution: Option<Execution>, error: RunError)
    requires d.run == Settled(Some(run)) && run.volatile.publicNewStart <= |run.expected| && DistinctEntries(d.queue)
    requires SettlementFailure(d.messages, state, run, execution, error).None?
    ensures var queue := SettledImage(d, state, run, execution, error).queue;
      if EndsWaiting(state, run, execution, error) || EndsCleanly(state, execution, error) then queue == d.queue
      else exists cancelled :: Taken(d.queue, {QueueSteer, QueueFollowUp}, cancelled, queue)
  {
    hide Taken, OfKinds, RemoveAll, SettlementOf, SettlementFailure, EndsWaiting, EndsCleanly, Cancels, ProjectedSystem, UsedAfter, Additions,
      UsageDelta, WithRepair, AddUsage;
    SettlementMeans(state, run, execution, error);
    KindsTaken(d.queue, Targeted);
    assert Taken(d.queue, {QueueSteer, QueueFollowUp}, OfKinds(d.queue, Targeted), QueueAfter(d.queue, true));
  }

  /**
   * What a settlement does to the run and its account: a run that does not go on waiting is closed under its own identity and status, and the
   * session's usage moves from the last report to the one returned.
   */
  lemma SettlementCloses(d: Durable, state: State, run: ActiveRun, execution: Option<Execution>, error: RunError)
    requires d.run == Settled(Some(run)) && run.volatile.publicNewStart <= |run.expected|
    requires SettlementFailure(d.messages, state, run, execution, error).None?
    ensures var image, batch := SettledImage(d, state, run, execution, error), SettlementBatch(d, state, run, execution, error);
      && (if EndsWaiting(state, run, execution, error) then image.run.Some? && image.run.value.id == run.id && image.suspension == d.suspension
          else image.run.None? && image.suspension.None? && batch != []
               && batch[|batch| - 1] == RunClosed(run.id, if EndsInterrupted(state, execution) then ExecutionInterrupted
                                                          else if execution.Some? then execution.value.status else ExecutionFailed))
      && image.budget == d.budget && image.drainAll == d.drainAll && image.compaction == d.compaction
      && (if execution.None? || execution.value.result.None? || EndsRefused(state, run, execution, error) then image.usage == d.usage
          else Plus(image.usage.counters, run.lastUsage.counters) == Plus(d.usage.counters, execution.value.result.value.usage.counters))
  {
    hide SettlementOf, SettlementFailure, EndsWaiting, EndsInterrupted, EndsRefused, Cancels, ProjectedSystem, Additions, UsageDelta,
      AddUsage, CloseBatch, RepairBatch, UsageTail, SystemTail, QueueAfter, UsedAfter;
    SettlementMeans(state, run, execution, error);
    var reported := ReportedUsage(execution);
    match SettlementOf(state, run, execution, error)
    case SettleInterrupt =>
      SettlementPasses(d, state, run, execution, error);
      var mended := WithRepair(d, Additions(d.messages, run.calls).value);
      UsageMoves(d, run, reported);
      ClosesLast(mended, reported, ProjectedSystem(run, execution).system, true, Some(INTERRUPTION), ExecutionInterrupted, run);
    case SettleBounce =>
    case SettlePause =>
      SettlementPasses(d, state, run, execution, error);
      UsageMoves(d, run, reported);
      PausedUsage(d, run, reported.value, ProjectedSystem(run, execution).system);
    case SettleClose =>
      SettlementPasses(d, state, run, execution, error);
      UsageMoves(d, run, reported);
      ClosesLast(d, reported, ProjectedSystem(run, execution).system, Cancels(execution, error), None, StatusOf(execution), run);
  }

  /**
   * What a settlement does to the transcript: it stays, but for the driver's own system message in front. An interrupt adds results that leave
   * no call open, and one marker, at the end.
   */
  lemma {:induction false} SettlementTells(d: Durable, state: State, run: ActiveRun, execution: Option<Execution>, error: RunError)
      returns (front: Transcript, added: Transcript)
    requires d.run == Settled(Some(run)) && run.volatile.publicNewStart <= |run.expected|
    requires SettlementFailure(d.messages, state, run, execution, error).None?
    ensures var image := SettledImage(d, state, run, execution, error);
      && image.messages == front + d.messages + added && |front| <= 1 && Moved(d.markers, |front|) <= image.markers
      && (EndsInterrupted(state, execution) ==>
            && Accepted(d.messages) && FullyPaired(d.messages + added) && |added| == |Unresolved(FrontierOf(d.messages))|
            && image.markers[|d.markers|..] == [ContextMarker(|image.messages|, InterruptionContextMessage(INTERRUPTION))])
      && (!EndsInterrupted(state, execution) ==> added == [] && image.markers == Moved(d.markers, |front|))
      && (EndsRefused(state, run, execution, error) || execution.None? || execution.value.result.None? ==> front == [])
      && (!EndsRefused(state, run, execution, error) && execution.Some? && execution.value.result.Some? ==>
            execution.value.result.value.messages == front + run.history + run.expected)
  {
    hide SettlementOf, SettlementFailure, EndsInterrupted, EndsRefused, Cancels, ValidateProjection, Additions, UsageDelta, AddUsage, QueueAfter,
      UsedAfter, Accepted, FullyPaired, Unresolved, FrontierOf, InterruptionContextMessage;
    SettlementMeans(state, run, execution, error);
    SettlementPasses(d, state, run, execution, error);
    front, added := [], [];
    if !EndsRefused(state, run, execution, error) {
      front := OptionalMessage(ProjectedSystem(run, execution).system);
      if execution.Some? && execution.value.result.Some? {
        MatchIsMirror(run, execution.value.result.value);
      }
    }
    if EndsInterrupted(state, execution) {
      AdditionsAnswer(d.messages, run.calls);
      added := Additions(d.messages, run.calls).value;
    }
  }

  /** Markers once something stands in front of the transcript. */
  function Moved(markers: seq<ContextMarker>, n: nat): (moved: seq<ContextMarker>)
    ensures |moved| == |markers|
  {
    seq(|markers|, i requires 0 <= i < |markers| => markers[i].(after := markers[i].after + n))
  }

  lemma AdditionsAnswer(messages: Transcript, log: CallLog)
    requires Additions(messages, log).Some?
    ensures Accepted(messages) && FullyPaired(messages + Additions(messages, log).value)
    ensures |Additions(messages, log).value| == |Unresolved(FrontierOf(messages))|
  {
    AdditionsExact(messages, log);
    hide Additions, Accepted, FullyPaired, Unresolved, NoBareTool;
  }

  lemma SettlementPasses(d: Durable, state: State, run: ActiveRun, execution: Option<Execution>, error: RunError)
    requires run.volatile.publicNewStart <= |run.expected| && SettlementFailure(d.messages, state, run, execution, error).None?
    ensures SettlementOf(state, run, execution, error).SettleInterrupt? ==> Additions(d.messages, run.calls).Some?
    ensures var settlement := SettlementOf(state, run, execution, error);
      !settlement.SettleBounce? ==>
        && ProjectedSystem(run, execution).Match?
        && (ReportedUsage(execution).Some? ==> UsageDelta(ReportedUsage(execution).value, run.lastUsage).Some?)
        && (settlement.SettlePause? ==> ReportedUsage(execution).Some?)
  {
    hide ValidateProjection, Additions, UsageDelta, Repaired;
  }

  lemma UsageMoves(d: Durable, run: ActiveRun, reported: Option<Usage>)
    requires d.run == Settled(Some(run)) && (reported.Some? ==> UsageDelta(reported.value, run.lastUsage).Some?)
    ensures if reported.None? then UsedAfter(d, reported) == d.usage
      else Plus(UsedAfter(d, reported).counters, run.lastUsage.counters) == Plus(d.usage.counters, reported.value.counters)
  {
    if reported.Some? {
      DeltaRestores(reported.value, run.lastUsage);
    }
  }

  lemma PausedUsage(d: Durable, run: ActiveRun, reported: Usage, system: Option<Message>)
    requires d.run == Settled(Some(run)) && UsageDelta(reported, run.lastUsage).Some?
    ensures PausedImage(d, run, reported, system).usage == UsedAfter(d, Some(reported))
  {
  }

  lemma ClosesLast(d: Durable, reported: Option<Usage>, system: Option<Message>, cancel: bool, marker: Option<string>, status: Status,
                   run: ActiveRun)
    requires d.run.Some? && d.run.value.id == run.id
    requires reported.Some? ==> UsageDelta(reported.value, d.run.value.lastUsage).Some?
    ensures var batch := CloseBatch(d, reported, system, cancel, marker, status);
      batch != [] && batch[|batch| - 1] == RunClosed(run.id, status)
  {
    hide UsageDelta, AddUsage, CancelBatch;
  }

  // ---------------------------------------------------------------------
  // Interrupt and resume requests.

  function IsStale(run: Option<ActiveRun>, target: string): bool {
    target != "" && (run.None? || run.value.id != target)
  }

  function InterruptRefusal(state: State, run: Option<ActiveRun>, target: string): Option<SessionError> {
    if state == Faulted then Some(SessionFaulted)
    else if IsStale(run, target) then Some(StaleRunTarget)
    else if state == Closed then Some(SessionClosed)
    else if state == Idle then Some(NotRunning)
    else None
  }

  /** resumeErrorLocked. */
  function ResumeRefusal(state: State, run: Option<ActiveRun>, suspension: Option<Suspension>, request: ResumeRequest): Option<SessionError> {
    match state
    case Faulted => Some(SessionFaulted)
    case Closed => Some(SessionClosed)
    case Suspended =>
      if suspension.None? || run.None? then Some(InvalidResume)
      else if request.suspensionId == "" || request.suspensionId != suspension.value.id then Some(InvalidResume)
      else if request.prompt.Some? && request.prompt.value.role != RoleUser then Some(InvalidMessage)
      else None
    case _ => Some(NotRunning)
  }

  /**
   * When a request is taken: an input for the run only while it is Running, a next-turn input on every open handle, an interrupt while a run is
   * active, a resolution while the run is suspended on just what it names; and a pinned request only at the run it is pinned to.
   */
  lemma RequestsTaken(state: State, run: Option<ActiveRun>, suspension: Option<Suspension>, kind: QueueKind, message: Message, target: string,
                      request: ResumeRequest)
    ensures var open, aimed := state != Faulted && state != Closed, target == "" || (run.Some? && run.value.id == target);
      && (AcceptRefusal(state, run, kind, message, target).None? <==>
            message.role == RoleUser && open && aimed && (kind == QueueNextTurn || state == Running))
      && (InterruptRefusal(state, run, target).None? <==> open && aimed && state != Idle)
      && (ResumeRefusal(state, run, suspension, request).None? <==>
            && state == Suspended && run.Some? && suspension.Some? && request.suspensionId != "" && request.suspensionId == suspension.value.id
            && (request.prompt.None? || request.prompt.value.role == RoleUser))
  {
  }

  const INDETERMINATE := "harness.recovery.indeterminate"

  function Stamped(command: Option<Command>, runId: string): Option<Command> {
    match command case None => None case Some(c) => Some(c.(runId := runId))
  }

  function ResolveCallState(plan: Plan, call: ToolUse): PendingState {
    if call.id in plan.required then PendingIndeterminate else PendingPlanned
  }

  function ResolvePending(open: seq<ToolUse>, plan: Plan): PendingCalls {
    PendingCalls(seq(|open|, i requires 0 <= i < |open| => PendingCall(open[i].id, open[i].name, ResolveCallState(plan, open[i]))), "")
  }

  /** What the operator's answers commit: one result per open call, the resolved ones as answered. */
  function ResolvedResults(messages: Transcript, plan: Plan): Option<Transcript>
    requires Accepted(messages)
  {
    var open := Unresolved(FrontierOf(messages));
    Substitute(plan, SyntheticResults(open, ResolvePending(open, plan)))
  }

  lemma PairedAfterResolution(messages: Transcript, calls: seq<PendingCall>, resolutions: seq<ToolResolution>)
    requires Accepted(messages) && CheckResolutions(calls, resolutions).Passed?
    ensures var resolved := ResolvedResults(messages, CheckResolutions(calls, resolutions).value);
      resolved.Some? && NamesMatch(Unresolved(FrontierOf(messages)), calls) ==> FullyPaired(messages + resolved.value)
  {
    var plan := CheckResolutions(calls, resolutions).value;
    AcceptedResolutionsCover(calls, resolutions);
    var open := Unresolved(FrontierOf(messages));
    if NamesMatch(open, calls) {
      ResolvedTranscriptPaired(messages, calls, plan, ResolvePending(open, plan));
    }
  }

  lemma ResolvedLimits(d: Durable, added: Transcript, id: string, limits: Option<Limits>, instructions: string)
    ensures var run := ResolvedImage(d, added, id, limits, instructions).run; run.Some? && run.value.limits == limits
  {
    hide ProviderHistory;
  }

  lemma NothingToResolve(messages: Transcript, plan: Plan)
    requires Accepted(messages) && messages == []
    ensures ResolvedResults(messages, plan) == Some([])
  {
  }

  lemma SilentKeeps(f: Folded, entry: Entry)
    requires Healthy(f) && (entry.OpaqueEntry? || (entry.CommandAccepted? && PlainCommand(Some(entry.command))))
    ensures Follows(f, [entry], f)
  {
    if entry.OpaqueEntry? {
      OpaqueFollows(f, entry.kind);
    } else {
      CommandFollows(f, Some(entry.command));
    }
  }

  lemma EmittedInjection(d: Durable, run: ActiveRun, injected: Transcript)
    requires d.run == Settled(Some(run))
    ensures EmittedImage(d, MessagesInjected(injected), None) == d.(
      messages := Extend(d.messages, injected), run := Settled(Some(run.(expected := Extend(run.expected, injected)))))
  {
  }

  /** Open calls that were started without a durable result. */
  function Uncertain(open: seq<ToolUse>, log: CallLog): seq<PendingCall>
    decreases open
  {
    if open == [] then []
    else
      (if CallState(log, open[0]) == PendingIndeterminate then [PendingCall(open[0].id, open[0].name, PendingIndeterminate)] else [])
      + Uncertain(open[1..], log)
  }

  lemma AdditionsPaired(messages: Transcript, log: CallLog)
    ensures Additions(messages, log).Some? ==> FullyPaired(messages + Additions(messages, log).value)
  {
    var pending := PendingCallsOf(messages, log);
    RepairSound(messages, pending);
    if Additions(messages, log).Some? {
      var repaired := Repaired(messages, pending).value;
      assert repaired == messages + repaired[|messages|..];
    }
  }

  // ---------------------------------------------------------------------
  // Creation.

  function HistoryBatch(history: Transcript): seq<Entry> {
    if history == [] then [] else [MessageEntry(history[0], FromInitialHistory, "")] + HistoryBatch(history[1..])
  }

  lemma {:induction false} HistoryFollows(f: Folded, history: Transcript)
    requires Healthy(f) && f.run.None? && f.view.markers == []
    ensures Follows(f, HistoryBatch(history), WithCommitted(f, history)) && Healthy(WithCommitted(f, history))
    decreases history
  {
    hide Healthy;
    if history == [] {
      assert f.view.messages + [] == f.view.messages;
    } else {
      var e := MessageEntry(history[0], FromInitialHistory, "");
      FollowsOne(f, e);
      var next := FoldStep(f, e);
      assert next == WithCommitted(f, [history[0]]);
      HistoryFollows(next, history[1..]);
      FollowsThen(f, [e], next, HistoryBatch(history[1..]), WithCommitted(next, history[1..]));
      assert f.view.messages + [history[0]] + history[1..] == f.view.messages + history;
    }
  }

  lemma CreationLawful(limits: Option<Limits>, drainAll: bool, history: Transcript)
    ensures var entries := [SessionCreated(limits, drainAll)] + HistoryBatch(history);
      && |entries| == 1 + |history| && LawfulJournal(entries) && Quiescent(Recovered(entries))
      && Refines(Recovered(entries), Durable(history, [], None, [], ZeroUsage, limits, drainAll, None, None), Idle, false, None)
  {
    var entries := [SessionCreated(limits, drainAll)] + HistoryBatch(history);
    var first := CreatedFold(limits, drainAll);
    CreatedHealthy(limits, drainAll);
    HistoryFollows(first, history);
    HistoryLength(history);
    assert entries[1..] == HistoryBatch(history);
    assert [] + history == history;
    assert Recovered(entries) == WithCommitted(first, history);
  }

  lemma {:induction false} HistoryLength(history: Transcript)
    ensures |HistoryBatch(history)| == |history|
    decreases history
  {
    if history != [] {
      HistoryLength(history[1..]);
    }
  }

  lemma RecoveredFacts(f: Folded, d: Durable, run: Option<ActiveRun>)
    requires Holds(f, d, run) && run == f.run
    ensures run.Some? ==> run.value.volatile.pendingInjectionIds == [] && run.value.volatile.publicNewStart == 0
    ensures run.None? ==> f.phase.state == Idle && f.phase.suspension.None? && f.phase.pendingInterrupt == ""
    ensures f.phase.completed && run.Some? ==> OnlyNextTurn(d.queue)
    ensures run.Some? && f.phase.state == Suspended ==> d.suspension.Some?
    ensures run.Some? ==> f.phase.state == Running || f.phase.state == Suspended || f.phase.state == Faulted
    ensures d.messages == f.view.messages
  {
    OnlyNextTurnPending(f.queues);
  }
}
