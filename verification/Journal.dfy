/** Journal entries and the recovery fold (harness/session/entries.go, recovery.go). */
module Journals {
  import opened Messages
  import opened Usages
  import opened Suspensions
  import opened ContextPolicy

  datatype State = Idle | Running | Closing | Suspended | Interrupting | Faulted | Closed

  datatype QueueKind = QueueSteer | QueueFollowUp | QueueNextTurn

  /** The acceptance time is not modelled. */
  datatype QueueEntry = QueueEntry(id: string, kind: QueueKind, message: Message)

  datatype DriveMode = DriveStart | DriveContinue

  datatype ContextMarker = ContextMarker(after: nat, message: Message)

  datatype Source = FromPrompt | FromNextTurn | FromRecoveryResolution | FromResumePrompt | FromInitialHistory

  datatype Status = ExecutionCompleted | ExecutionStopped | ExecutionFailed | ExecutionInterrupted | ExecutionSuspended

  datatype CommandKind = CommandStart | CommandSteer | CommandFollowUp | CommandNextTurn | CommandResolve | CommandInterrupt

  /** A durable command acceptance; a non-empty rejection resolves the command without a run. */
  datatype Command = Command(
    commandId: string, kind: CommandKind, key: string, digest: string,
    runId: string, queueId: string, rejection: string)

  datatype Event =
    | RunStarted
    | TurnStarted
    | AssistantCommitted(message: Message)
    | ToolBatchPlanned(calls: seq<ToolUse>)
    | ToolStarted(call: ToolUse)
    | ToolResultCommitted(result: ToolResult)
    | OutputValidated
    | MessagesInjected(messages: Transcript)
    | TurnEnded(usage: Usage)
    | RunSuspended(suspension: Suspension)
    | RunCompleted
    | RunInterrupted
    | RunFailed
    | RunEnded

  datatype Entry =
    | SessionCreated(budget: Option<Limits>, drainAll: bool)
    | RunOpened(id: string, mode: DriveMode, limits: Option<Limits>, instructions: string)
    | RunRecovered(id: string, limits: Option<Limits>, instructions: string)
    | RunClosed(id: string, status: Status)
    | MessageEntry(message: Message, source: Source, queueId: string)
    | SystemMessage(message: Message)
    | RepairMessage(message: Message)
    | QueueAccepted(entry: QueueEntry)
    | QueueDrained(id: string)
    | QueueCancelled(id: string)
    | CommandAccepted(command: Command)
    | UsageCommitted(run: Usage, session: Usage)
    | ChildUsage(charge: Usage, session: Usage)
    | RecoverySuspension(suspension: Suspension)
    | ResolutionAccepted(suspensionId: string)
    | FaultEntry
    | InterruptMarker(text: string)
    | ContextMessage(after: int, message: Message)
    | CompactionEntry(compaction: Compaction)
    /** Entries the fold only passes over: session.recovered, runtime.operation, subagent.event. */
    | OpaqueEntry(kind: string)
    /** A driver event; the queue IDs of an injection and the session usage of a turn end travel with it. */
    | EventEntry(event: Event, queueIds: seq<string>, sessionUsed: Option<Usage>)

  /** The part of a live run that is never journaled. Preview ordinals are not modelled. */
  datatype Volatile = Volatile(
    pendingInjectionIds: seq<string>, interrupted: bool,
    resumeInProgress: bool, resumeEventSeen: bool, publicNewStart: nat)

  const Quiet := Volatile([], false, false, false, 0)

  datatype CallLog = CallLog(planned: seq<ToolUse>, started: set<string>, results: set<string>)

  const NoCalls := CallLog([], {}, {})

  datatype ActiveRun = ActiveRun(
    id: string, mode: DriveMode, history: Transcript, expected: Transcript, lastUsage: Usage, calls: CallLog,
    markerCount: nat, limits: Option<Limits>, childUsageCharged: bool, instructions: string, volatile: Volatile)

  function NewRun(id: string, mode: DriveMode, history: Transcript, expected: Transcript, markerCount: nat,
                  limits: Option<Limits>, instructions: string): ActiveRun {
    ActiveRun(id, mode, history, expected, ZeroUsage, NoCalls, markerCount, limits, false, instructions, Quiet)
  }

  // ---------------------------------------------------------------------
  // Context markers interleaved with the transcript.

  function MarkerMessages(markers: seq<ContextMarker>): Transcript {
    if markers == [] then [] else [markers[0].message] + MarkerMessages(markers[1..])
  }

  function Place(messages: Transcript, markers: seq<ContextMarker>, position: nat): Transcript
    requires position <= |messages|
    decreases |messages| - position + |markers|
  {
    if markers != [] && markers[0].after <= position then
      [markers[0].message] + Place(messages, markers[1..], position)
    else if position < |messages| then
      [messages[position]] + Place(messages, markers, position + 1)
    else MarkerMessages(markers)
  }

  function ProviderHistory(messages: Transcript, markers: seq<ContextMarker>): Transcript {
    Place(messages, markers, 0)
  }

  function ShiftMarkers(markers: seq<ContextMarker>): (shifted: seq<ContextMarker>)
    ensures |shifted| == |markers|
  {
    seq(|markers|, i requires 0 <= i < |markers| => markers[i].(after := markers[i].after + 1))
  }

  predicate MarkersWithin(markers: seq<ContextMarker>, bound: nat) {
    forall i :: 0 <= i < |markers| ==> markers[i].after <= bound
  }

  function InterruptionContextMessage(text: string): Message {
    NewTextMessage(RoleUser, "<harness_context type=\"interruption\">" + text + "</harness_context>")
  }

  // ---------------------------------------------------------------------
  // The fold, component by component: what each entry does to the transcript
  // view, the queue, the phase, the usage and the run.

  datatype View = View(messages: Transcript, markers: seq<ContextMarker>, system: Option<Message>)

  datatype Queues = Queues(pending: map<string, QueueEntry>, drained: map<string, QueueEntry>, order: seq<string>)

  datatype Phase = Phase(state: State, suspension: Option<Suspension>, completed: bool, pendingInterrupt: string)

  datatype Folded = Folded(
    created: bool, budget: Option<Limits>, drainAll: bool,
    view: View, queues: Queues, phase: Phase,
    usage: Usage, compaction: Option<Compaction>, run: Option<ActiveRun>)

  const EmptyFold :=
    Folded(false, None, false, View([], [], None), Queues(map[], map[], []), Phase(Idle, None, false, ""), ZeroUsage, None, None)

  predicate StartsWithSystem(messages: Transcript) {
    messages != [] && messages[0].role == RoleSystem
  }

  function ResultMessage(result: ToolResult): Message {
    NewToolResultMessageFor(result.toolUseId, result.name, result.content, result.isError)
  }

  function IdSet(ids: seq<string>): set<string> {
    set i | 0 <= i < |ids| :: ids[i]
  }

  /** Messages an entry commits at the end of the transcript. */
  function Committed(e: Entry): Transcript {
    match e
    case MessageEntry(message, _, _) => [message]
    case RepairMessage(message) => [message]
    case EventEntry(AssistantCommitted(message), _, _) => [message]
    case EventEntry(ToolResultCommitted(result), _, _) => [ResultMessage(result)]
    case EventEntry(MessagesInjected(messages), _, _) => messages
    case _ => []
  }

  function Extend(messages: Transcript, added: Transcript): Transcript {
    if added == [] then messages else messages + added
  }

  function InsertSystem(v: View, message: Message): View {
    if StartsWithSystem(v.messages) then v.(system := Some(message))
    else View([message] + v.messages, ShiftMarkers(v.markers), Some(message))
  }

  function ViewStep(v: View, e: Entry): View {
    match e
    case SystemMessage(message) => InsertSystem(v, message)
    case InterruptMarker(text) =>
      v.(markers := v.markers + [ContextMarker(|v.messages|, InterruptionContextMessage(text))])
    case ContextMessage(after, message) =>
      if after < 0 then v else v.(markers := v.markers + [ContextMarker(after, message)])
    case _ => v.(messages := Extend(v.messages, Committed(e)))
  }

  function QueueStep(q: Queues, e: Entry): Queues {
    match e
    case QueueAccepted(entry) => q.(pending := q.pending[entry.id := entry], order := q.order + [entry.id])
    case QueueDrained(id) =>
      q.(drained := if id in q.pending then q.drained[id := q.pending[id]] else q.drained, pending := q.pending - {id})
    case QueueCancelled(id) => q.(pending := q.pending - {id}, drained := q.drained - {id})
    case MessageEntry(_, _, queueId) => if queueId == "" then q else q.(drained := q.drained - {queueId})
    case EventEntry(MessagesInjected(_), ids, _) => q.(drained := q.drained - IdSet(ids))
    case _ => q
  }

  function PhaseStep(p: Phase, run: Option<ActiveRun>, e: Entry): Phase {
    match e
    case RunOpened(_, _, _, _) => p.(state := Running, suspension := None, completed := false)
    case RunRecovered(_, _, _) => p.(state := Running, suspension := None, completed := false)
    case RunClosed(_, _) =>
      Phase(Idle, None, p.completed, if run.Some? && p.pendingInterrupt == run.value.id then "" else p.pendingInterrupt)
    case CommandAccepted(c) =>
      if c.kind == CommandInterrupt && c.rejection == "" then p.(pendingInterrupt := c.runId) else p
    case RecoverySuspension(suspension) => p.(state := Suspended, suspension := Some(suspension))
    case FaultEntry => p.(state := Faulted)
    case EventEntry(RunCompleted, _, _) => p.(completed := run.Some?)
    case EventEntry(RunStarted, _, _) => if run.Some? && p.state == Suspended then p.(state := Running) else p
    case EventEntry(RunSuspended(suspension), _, _) => p.(state := Suspended, suspension := Some(suspension))
    case _ => p
  }

  function UsageStep(u: Usage, e: Entry): Usage {
    match e
    case UsageCommitted(_, session) => session
    case ChildUsage(_, session) => session
    case EventEntry(TurnEnded(_), _, used) => used.GetOr(u)
    case _ => u
  }

  function CallStep(c: CallLog, e: Event): CallLog {
    match e
    case ToolBatchPlanned(calls) => c.(planned := c.planned + calls)
    case ToolStarted(call) => c.(started := c.started + {call.id})
    case ToolResultCommitted(result) => c.(results := c.results + {result.toolUseId})
    case _ => c
  }

  function VolatileStep(v: Volatile, state: State, e: Event): Volatile {
    match e
    case MessagesInjected(_) => v.(pendingInjectionIds := [])
    case RunStarted => if state == Suspended then v.(resumeEventSeen := true) else v
    case _ => v
  }

  function RunUpdate(r: ActiveRun, state: State, e: Entry): ActiveRun {
    match e
    case MessageEntry(message, source, _) =>
      if source == FromNextTurn then r.(history := r.history + [message]) else r.(expected := r.expected + [message])
    case SystemMessage(message) =>
      if StartsWithSystem(r.history) then r else r.(history := [message] + r.history)
    case UsageCommitted(run, _) => r.(lastUsage := run)
    case ChildUsage(_, _) => r.(childUsageCharged := true)
    case EventEntry(event, _, _) =>
      r.(expected := Extend(r.expected, Committed(e)),
         lastUsage := if event.TurnEnded? then event.usage else r.lastUsage,
         calls := CallStep(r.calls, event),
         volatile := VolatileStep(r.volatile, state, event))
    case _ => r.(expected := Extend(r.expected, Committed(e)))
  }

  function RunStep(run: Option<ActiveRun>, v: View, state: State, e: Entry): Option<ActiveRun> {
    match e
    case RunOpened(id, mode, limits, instructions) =>
      Some(NewRun(id, mode, ProviderHistory(v.messages, v.markers), [], |v.markers|, limits, instructions))
    case RunRecovered(id, limits, instructions) =>
      Some(NewRun(id, DriveContinue, ProviderHistory(v.messages, v.markers), [], |v.markers|, limits, instructions))
    case RunClosed(_, _) => None
    case _ => if run.None? then None else Some(RunUpdate(run.value, state, e))
  }

  /** ErrCorruptLog while scanning. */
  predicate Corrupt(f: Folded, e: Entry) {
    match e
    case RunRecovered(id, _, _) => f.run.None? || f.run.value.id != id
    case ContextMessage(after, _) => after < 0 || after > |f.view.messages|
    case _ => false
  }

  function FoldStep(f: Folded, e: Entry): Folded {
    Folded(
      f.created || e.SessionCreated?,
      if e.SessionCreated? then e.budget else f.budget,
      if e.SessionCreated? then e.drainAll else f.drainAll,
      ViewStep(f.view, e), QueueStep(f.queues, e), PhaseStep(f.phase, f.run, e), UsageStep(f.usage, e),
      if e.CompactionEntry? then Some(e.compaction) else f.compaction,
      RunStep(f.run, f.view, f.phase.state, e))
  }

  /** None is ErrCorruptLog. */
  function FoldFrom(f: Folded, entries: seq<Entry>): Option<Folded>
    decreases entries
  {
    if entries == [] then Some(f)
    else if Corrupt(f, entries[0]) then None
    else FoldFrom(FoldStep(f, entries[0]), entries[1..])
  }

  /** Queue items in acceptance order, restricted to those still in `live`. */
  function InOrder(order: seq<string>, live: map<string, QueueEntry>): seq<QueueEntry> {
    if order == [] then []
    else (if order[0] in live then [live[order[0]]] else []) + InOrder(order[1..], live)
  }

  function Pending(q: Queues): seq<QueueEntry> { InOrder(q.order, q.pending) }

  function Unapplied(q: Queues): seq<QueueEntry> { InOrder(q.order, q.drained) }

  /** The fold's closing step: a remembered system message leads the transcript. */
  function Finalized(f: Folded): Folded {
    if f.view.system.Some? && !StartsWithSystem(f.view.messages)
    then f.(view := f.view.(markers := ShiftMarkers(f.view.markers), messages := [f.view.system.value] + f.view.messages))
    else f
  }

  function Fold(entries: seq<Entry>): Option<Folded> {
    match FoldFrom(EmptyFold, entries)
    case None => None
    case Some(f) => if f.created then Some(Finalized(f)) else None
  }
}
