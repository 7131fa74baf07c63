/** What each session operation appends, and what that does to the durable image of the session. */
module SessionSteps {
  import opened Messages
  import opened Usages
  import opened Suspensions
  import opened ContextPolicy
  import opened Journals
  import opened Lawful
  import opened Batches

  /** Everything a crash preserves; the volatile part of the run is hidden. */
  datatype Durable = Durable(
    messages: Transcript, markers: seq<ContextMarker>, compaction: Option<Compaction>,
    queue: seq<QueueEntry>, usage: Usage, budget: Option<Limits>, drainAll: bool,
    suspension: Option<Suspension>, run: Option<ActiveRun>)

  function Settled(run: Option<ActiveRun>): Option<ActiveRun> {
    match run case None => None case Some(r) => Some(r.(volatile := Quiet))
  }

  function Image(f: Folded): Durable {
    Durable(f.view.messages, f.view.markers, f.compaction, Pending(f.queues), f.usage, f.budget, f.drainAll,
            f.phase.suspension, Settled(f.run))
  }

  /** `h` differs from `f` in its queues only. */
  predicate QueuesOnly(f: Folded, h: Folded) {
    h == f.(queues := h.queues)
  }

  // ---------------------------------------------------------------------
  // Optional tails of a batch.

  function CommandTail(command: Option<Command>): seq<Entry> {
    match command case None => [] case Some(c) => [CommandAccepted(c)]
  }

  predicate PlainCommand(command: Option<Command>) {
    command.Some? ==> command.value.kind != CommandInterrupt || command.value.rejection != ""
  }

  lemma CommandFollows(f: Folded, command: Option<Command>)
    requires Healthy(f) && PlainCommand(command)
    ensures Follows(f, CommandTail(command), f)
  {
    match command
    case None =>
    case Some(c) => {
      FollowsOne(f, CommandAccepted(c));
      assert FoldStep(f, CommandAccepted(c)) == f;
    }
  }

  /** A usage report is journaled only when it moves a counter. */
  function UsageTail(used: Usage, last: Usage, reported: Usage): seq<Entry>
    requires UsageDelta(reported, last).Some?
  {
    var delta := UsageDelta(reported, last).value;
    if UsageEmpty(delta) then [] else [UsageCommitted(reported, AddUsage(used, delta))]
  }

  predicate Reportable(last: Usage, reported: Usage) {
    UsageDelta(reported, last).Some? && last.perRequest <= reported.perRequest
  }

  function WithUsage(f: Folded, reported: Usage): Folded
    requires f.run.Some? && UsageDelta(reported, f.run.value.lastUsage).Some?
  {
    f.(usage := AddUsage(f.usage, UsageDelta(reported, f.run.value.lastUsage).value),
       run := Some(f.run.value.(lastUsage := reported)))
  }

  lemma EmptyDelta(used: Usage, last: Usage, reported: Usage)
    requires Reportable(last, reported) && UsageEmpty(UsageDelta(reported, last).value)
    ensures reported == last && AddUsage(used, UsageDelta(reported, last).value) == used
  {
    assert reported.perRequest == last.perRequest + reported.perRequest[|last.perRequest|..];
    assert used.perRequest + [] == used.perRequest;
  }

  lemma UsageFollows(f: Folded, reported: Usage)
    requires Healthy(f) && f.run.Some? && Reportable(f.run.value.lastUsage, reported)
    ensures Follows(f, UsageTail(f.usage, f.run.value.lastUsage, reported), WithUsage(f, reported))
    ensures Healthy(WithUsage(f, reported))
  {
    var delta := UsageDelta(reported, f.run.value.lastUsage).value;
    if UsageEmpty(delta) {
      EmptyDelta(f.usage, f.run.value.lastUsage, reported);
    } else {
      var e := UsageCommitted(reported, AddUsage(f.usage, delta));
      FollowsOne(f, e);
      assert FoldStep(f, e) == WithUsage(f, reported);
    }
  }

  function SystemTail(system: Option<Message>): seq<Entry> {
    match system case None => [] case Some(m) => [SystemMessage(m)]
  }

  /** The driver put a system message in front of a history that has none. */
  function WithSystem(f: Folded, system: Option<Message>): Folded {
    match system
    case None => f
    case Some(m) =>
      f.(view := View([m] + f.view.messages, ShiftMarkers(f.view.markers), Some(m)),
         run := if f.run.Some? then Some(f.run.value.(history := [m] + f.run.value.history)) else None)
  }

  lemma SystemFollows(f: Folded, system: Option<Message>)
    requires Healthy(f) && f.run.Some?
    requires system.Some? ==> system.value.role == RoleSystem && !StartsWithSystem(f.run.value.history)
    ensures Follows(f, SystemTail(system), WithSystem(f, system)) && Healthy(WithSystem(f, system))
  {
    match system
    case None =>
    case Some(m) => {
      HistorySystem(f.view, f.run.value);
      FollowsOne(f, SystemMessage(m));
      assert FoldStep(f, SystemMessage(m)) == WithSystem(f, system);
    }
  }

  // ---------------------------------------------------------------------
  // Accepting and starting.

  function AcceptBatch(entry: QueueEntry, command: Option<Command>): seq<Entry> {
    [QueueAccepted(entry)] + CommandTail(command)
  }

  lemma AcceptFollows(f: Folded, entry: QueueEntry, command: Option<Command>) returns (g: Folded)
    requires Healthy(f) && PlainCommand(command)
    requires entry.id != "" && entry.id !in f.queues.order && entry.message.role == RoleUser
    requires entry.kind != QueueNextTurn ==> f.run.Some? && !f.phase.completed
    ensures Follows(f, AcceptBatch(entry, command), g) && Healthy(g)
    ensures QueuesOnly(f, g) && Image(g) == Image(f).(queue := Pending(f.queues) + [entry])
    ensures g.queues.drained == f.queues.drained && g.queues.pending == f.queues.pending[entry.id := entry]
  {
    var e := QueueAccepted(entry);
    FollowsOne(f, e);
    g := FoldStep(f, e);
    assert QueuesOnly(f, g) by {
      assert f.run.Some? ==> RunUpdate(f.run.value, f.phase.state, e) == f.run.value;
    }
    AcceptExtendsPending(f.queues, entry);
    CommandFollows(g, command);
    FollowsThen(f, [e], g, CommandTail(command), g);
  }

  function StartBatch(id: string, limits: Option<Limits>, instructions: string,
                      next: seq<QueueEntry>, prompt: Message, command: Option<Command>): seq<Entry> {
    [RunOpened(id, DriveStart, limits, instructions)] + NextTurnBatch(next)
    + [MessageEntry(prompt, FromPrompt, "")] + CommandTail(command)
  }

  function Opened(f: Folded, id: string, mode: DriveMode, limits: Option<Limits>, instructions: string): Folded {
    f.(phase := f.phase.(state := Running, suspension := None, completed := false),
       run := Some(NewRun(id, mode, ProviderHistory(f.view.messages, f.view.markers), [], |f.view.markers|, limits, instructions)))
  }

  lemma OpenFollows(f: Folded, id: string, mode: DriveMode, limits: Option<Limits>, instructions: string)
    requires Healthy(f) && f.run.None? && id != ""
    ensures var g := Opened(f, id, mode, limits, instructions);
      Follows(f, [RunOpened(id, mode, limits, instructions)], g) && Healthy(g)
  {
    FollowsOne(f, RunOpened(id, mode, limits, instructions));
    assert FoldStep(f, RunOpened(id, mode, limits, instructions)) == Opened(f, id, mode, limits, instructions);
  }

  lemma PromptFollows(f: Folded, prompt: Message)
    requires Healthy(f) && f.run.Some? && prompt.role == RoleUser
    ensures Follows(f, [MessageEntry(prompt, FromPrompt, "")], WithCommitted(f, [prompt])) && Healthy(WithCommitted(f, [prompt]))
  {
    var e := MessageEntry(prompt, FromPrompt, "");
    FollowsOne(f, e);
    assert FoldStep(f, e) == WithCommitted(f, [prompt]);
  }

  lemma NextTurnsWait(q: Queues)
    requires QueueHealthy(q)
    ensures var next := OfKinds(Pending(q), {QueueNextTurn});
      Waits(q, next) && forall i :: 0 <= i < |next| ==> next[i].kind == QueueNextTurn
  {
    KindsWait(q, {QueueNextTurn});
    OfKindsMembers(Pending(q), {QueueNextTurn});
    var next := OfKinds(Pending(q), {QueueNextTurn});
    forall i | 0 <= i < |next| ensures next[i].kind == QueueNextTurn { assert next[i] in next; }
  }

  /** The fold after a run opens and takes the waiting next-turn inputs into its history. */
  lemma OpenWithInputs(f: Folded, id: string, limits: Option<Limits>, instructions: string, next: seq<QueueEntry>) returns (g: Folded)
    requires Healthy(f) && f.run.None? && id != "" && next == OfKinds(Pending(f.queues), {QueueNextTurn})
    ensures Follows(f, [RunOpened(id, DriveStart, limits, instructions)] + NextTurnBatch(next), g) && Healthy(g)
    ensures Pending(g.queues) == RemoveAll(Pending(f.queues), next) && g.queues.drained == f.queues.drained
    ensures g == Opened(f, id, DriveStart, limits, instructions).(
      queues := g.queues, view := f.view.(messages := f.view.messages + MessagesOf(next)), run := g.run)
    ensures g.run == Some(NewRun(id, DriveStart, ProviderHistory(f.view.messages + MessagesOf(next), f.view.markers), [],
                                 |f.view.markers|, limits, instructions))
  {
    NextTurnsWait(f.queues);
    ProviderHistoryAppend(f.view.messages, f.view.markers, MessagesOf(next));
    hide Healthy, QueueHealthy, Waits, ProviderHistory, Legal, FoldStep, Follows;
    var opening := RunOpened(id, DriveStart, limits, instructions);
    var f1 := Opened(f, id, DriveStart, limits, instructions);
    OpenFollows(f, id, DriveStart, limits, instructions);
    var q := NextTurnFollows(f1, next);
    g := WithHistory(f1, MessagesOf(next), q);
    FollowsThen(f, [opening], f1, NextTurnBatch(next), g);
  }

  /** The durable image after a start. */
  function StartedImage(d: Durable, id: string, limits: Option<Limits>, instructions: string, prompt: Message): Durable {
    var next := OfKinds(d.queue, {QueueNextTurn});
    var history := d.messages + MessagesOf(next);
    d.(messages := history + [prompt], queue := RemoveAll(d.queue, next),
       run := Some(NewRun(id, DriveStart, ProviderHistory(history, d.markers), [prompt], |d.markers|, limits, instructions)))
  }

  lemma PromptedImage(f: Folded, prepared: Folded, id: string, limits: Option<Limits>, instructions: string, prompt: Message)
    requires f.phase.suspension == None
    requires var next := OfKinds(Pending(f.queues), {QueueNextTurn});
      && Pending(prepared.queues) == RemoveAll(Pending(f.queues), next)
      && prepared == Opened(f, id, DriveStart, limits, instructions).(
           queues := prepared.queues, view := f.view.(messages := f.view.messages + MessagesOf(next)), run := prepared.run)
      && prepared.run == Some(NewRun(id, DriveStart, ProviderHistory(f.view.messages + MessagesOf(next), f.view.markers), [],
                                   |f.view.markers|, limits, instructions))
    ensures Image(WithCommitted(prepared, [prompt])) == StartedImage(Image(f), id, limits, instructions, prompt)
    ensures WithCommitted(prepared, [prompt]).run.value.volatile == Quiet
    ensures WithCommitted(prepared, [prompt]).phase == prepared.phase
  {
    assert [] + [prompt] == [prompt];
  }

  lemma StartFollows(f: Folded, id: string, limits: Option<Limits>, instructions: string,
                     prompt: Message, command: Option<Command>) returns (g: Folded)
    requires Healthy(f) && f.run.None? && id != "" && prompt.role == RoleUser && PlainCommand(command)
    ensures var next := OfKinds(Pending(f.queues), {QueueNextTurn});
      Follows(f, StartBatch(id, limits, instructions, next, prompt, command), g)
    ensures Healthy(g) && g.run.Some? && g.phase.state == Running && !g.phase.completed && g.run.value.volatile == Quiet
    ensures Image(g) == StartedImage(Image(f), id, limits, instructions, prompt) && g.queues.drained == f.queues.drained
  {
    assert f.phase.suspension == None;
    hide *;
    var next := OfKinds(Pending(f.queues), {QueueNextTurn});
    var head := [RunOpened(id, DriveStart, limits, instructions)] + NextTurnBatch(next);
    var f2 := OpenWithInputs(f, id, limits, instructions, next);
    PromptFollows(f2, prompt);
    PromptedImage(f, f2, id, limits, instructions, prompt);
    g := WithCommitted(f2, [prompt]);
    FollowsThen(f, head, f2, [MessageEntry(prompt, FromPrompt, "")], g);
    CommandFollows(g, command);
    FollowsThen(f, head + [MessageEntry(prompt, FromPrompt, "")], g, CommandTail(command), g);
  }

  // ---------------------------------------------------------------------
  // Closing a run.

  function ReportTail(used: Usage, last: Usage, reported: Option<Usage>): seq<Entry>
    requires reported.Some? ==> UsageDelta(reported.value, last).Some?
  {
    if reported.Some? then UsageTail(used, last, reported.value) else []
  }

  function CancelTail(queue: seq<QueueEntry>, cancel: bool): seq<Entry> {
    if cancel then CancelBatch(OfKinds(queue, Targeted)) else []
  }

  function MarkerTail(marker: Option<string>): seq<Entry> {
    match marker case None => [] case Some(text) => [InterruptMarker(text)]
  }

  /** `reported` is the execution's usage when it carries a result; targeted inputs are cancelled unless the run completed. */
  function CloseBatch(d: Durable, reported: Option<Usage>, system: Option<Message>, cancel: bool, marker: Option<string>,
                      status: Status): seq<Entry>
    requires d.run.Some? && (reported.Some? ==> UsageDelta(reported.value, d.run.value.lastUsage).Some?)
  {
    ReportTail(d.usage, d.run.value.lastUsage, reported) + SystemTail(system) + CancelTail(d.queue, cancel)
    + MarkerTail(marker) + [RunClosed(d.run.value.id, status)]
  }

  lemma ReportFollows(f: Folded, reported: Option<Usage>) returns (g: Folded)
    requires Healthy(f) && f.run.Some? && (reported.Some? ==> Reportable(f.run.value.lastUsage, reported.value))
    ensures Follows(f, ReportTail(f.usage, f.run.value.lastUsage, reported), g)
    ensures Healthy(g)
    ensures g == if reported.Some? then WithUsage(f, reported.value) else f
  {
    if reported.Some? {
      UsageFollows(f, reported.value);
      g := WithUsage(f, reported.value);
    } else {
      g := f;
    }
  }

  lemma CancelFollowsIf(f: Folded, cancel: bool) returns (g: Folded)
    requires Healthy(f) && f.run.Some? && (!cancel ==> NoTargeted(f.queues.pending))
    ensures Follows(f, CancelTail(Pending(f.queues), cancel), g) && Healthy(g)
    ensures QueuesOnly(f, g) && NoTargeted(g.queues.pending) && Unapplied(g.queues) == Unapplied(f.queues)
    ensures Pending(g.queues) ==
      if cancel then RemoveAll(Pending(f.queues), OfKinds(Pending(f.queues), Targeted)) else Pending(f.queues)
  {
    if cancel {
      g := CancelTargetedFollows(f);
    } else {
      g := f;
    }
  }

  function Marked(f: Folded, marker: Option<string>): Folded {
    match marker
    case None => f
    case Some(text) => WithMarkers(f, [ContextMarker(|f.view.messages|, InterruptionContextMessage(text))])
  }

  lemma MarkFollows(f: Folded, marker: Option<string>)
    requires Healthy(f) && f.run.Some?
    ensures Follows(f, MarkerTail(marker), Marked(f, marker)) && Healthy(Marked(f, marker))
    ensures Marked(f, marker).run == f.run && Marked(f, marker).queues == f.queues
  {
    if marker.Some? {
      var e := InterruptMarker(marker.value);
      FollowsOne(f, e);
      assert FoldStep(f, e) == Marked(f, marker);
    }
  }

  lemma RunClosedFollows(f: Folded, status: Status) returns (g: Folded)
    requires Healthy(f) && f.run.Some?
    ensures Follows(f, [RunClosed(f.run.value.id, status)], g) && Healthy(g)
    ensures g.run == None && g.queues == f.queues && Image(g) == Image(f).(suspension := None, run := None)
    ensures g.created == f.created && g.view == f.view && g.phase.state == Idle
  {
    FollowsOne(f, RunClosed(f.run.value.id, status));
    g := FoldStep(f, RunClosed(f.run.value.id, status));
  }

  /** The durable image after a run closes. */
  function ClosedImage(d: Durable, used: Usage, system: Option<Message>, queue: seq<QueueEntry>, marker: Option<string>): Durable {
    var messages := if system.Some? then [system.value] + d.messages else d.messages;
    var markers := if system.Some? then ShiftMarkers(d.markers) else d.markers;
    d.(messages := messages,
       markers := if marker.Some? then markers + [ContextMarker(|messages|, InterruptionContextMessage(marker.value))] else markers,
       queue := queue, usage := used, suspension := None, run := None)
  }

  /** The session usage once an execution's report is added. */
  function UsedAfter(d: Durable, reported: Option<Usage>): Usage
    requires d.run.Some? && (reported.Some? ==> UsageDelta(reported.value, d.run.value.lastUsage).Some?)
  {
    if reported.Some? then AddUsage(d.usage, UsageDelta(reported.value, d.run.value.lastUsage).value) else d.usage
  }

  function QueueAfter(queue: seq<QueueEntry>, cancel: bool): seq<QueueEntry> {
    if cancel then RemoveAll(queue, OfKinds(queue, Targeted)) else queue
  }

  /** The fold once the usage, the system message and the cancellations of a close are in. */
  lemma CancelledFollows(f: Folded, reported: Option<Usage>, system: Option<Message>, cancel: bool) returns (g: Folded)
    requires Healthy(f) && f.run.Some?
    requires reported.Some? ==> Reportable(f.run.value.lastUsage, reported.value)
    requires system.Some? ==> system.value.role == RoleSystem && !StartsWithSystem(f.run.value.history)
    requires !cancel ==> NoTargeted(f.queues.pending)
    ensures Follows(f, ReportTail(f.usage, f.run.value.lastUsage, reported) + SystemTail(system) + CancelTail(Pending(f.queues), cancel), g)
    ensures Healthy(g) && NoTargeted(g.queues.pending) && Unapplied(g.queues) == Unapplied(f.queues)
    ensures QueuesOnly(WithSystem(if reported.Some? then WithUsage(f, reported.value) else f, system), g)
    ensures Pending(g.queues) == QueueAfter(Pending(f.queues), cancel) && g.run.Some? && g.run.value.id == f.run.value.id
  {
    hide Healthy, UsageTail, UsageDelta, AddUsage, CancelBatch, OfKinds, RemoveAll, NoTargeted, Legal, FoldStep;
    var usage, queue := ReportTail(f.usage, f.run.value.lastUsage, reported), Pending(f.queues);
    var f1 := ReportFollows(f, reported);
    SystemFollows(f1, system);
    var f2 := WithSystem(f1, system);
    FollowsThen(f, usage, f1, SystemTail(system), f2);
    g := CancelFollowsIf(f2, cancel);
    FollowsThen(f, usage + SystemTail(system), f2, CancelTail(queue, cancel), g);
  }

  lemma CloseFollows(f: Folded, reported: Option<Usage>, system: Option<Message>, cancel: bool, marker: Option<string>,
                     status: Status) returns (g: Folded)
    requires Healthy(f) && f.run.Some?
    requires reported.Some? ==> Reportable(f.run.value.lastUsage, reported.value)
    requires system.Some? ==> system.value.role == RoleSystem && !StartsWithSystem(f.run.value.history)
    requires !cancel ==> NoTargeted(f.queues.pending)
    ensures Follows(f, CloseBatch(Image(f), reported, system, cancel, marker, status), g) && Healthy(g)
    ensures g.run.None? && Quiescent(g) && g.phase.state == Idle && Unapplied(g.queues) == Unapplied(f.queues)
    ensures Image(g) == ClosedImage(Image(f), UsedAfter(Image(f), reported), system, QueueAfter(Pending(f.queues), cancel), marker)
  {
    hide Healthy, ReportTail, UsageDelta, AddUsage, CancelTail, QueueAfter, NoTargeted, Legal, FoldStep, Follows, SystemTail, MarkerTail,
      ClosedImage, UsedAfter, Marked, WithSystem, WithUsage, QueuesOnly, Unapplied, Pending;
    var front := ReportTail(f.usage, f.run.value.lastUsage, reported) + SystemTail(system) + CancelTail(Pending(f.queues), cancel);
    var f3 := CancelledFollows(f, reported, system, cancel);
    MarkFollows(f3, marker);
    var f4 := Marked(f3, marker);
    FollowsThen(f, front, f3, MarkerTail(marker), f4);
    g := RunClosedFollows(f4, status);
    FollowsThen(f, front + MarkerTail(marker), f4, [RunClosed(f.run.value.id, status)], g);
    ClosedOf(f, f3, reported, system, cancel, marker);
  }

  lemma ClosedOf(f: Folded, h: Folded, reported: Option<Usage>, system: Option<Message>, cancel: bool, marker: Option<string>)
    requires f.run.Some? && (reported.Some? ==> Reportable(f.run.value.lastUsage, reported.value))
    requires QueuesOnly(WithSystem(if reported.Some? then WithUsage(f, reported.value) else f, system), h)
    requires Pending(h.queues) == QueueAfter(Pending(f.queues), cancel)
    ensures Image(Marked(h, marker)).(suspension := None, run := None) ==
      ClosedImage(Image(f), UsedAfter(Image(f), reported), system, QueueAfter(Pending(f.queues), cancel), marker)
  {
    hide UsageDelta, AddUsage, QueueAfter;
  }

  // ---------------------------------------------------------------------
  // Driver events.

  /** The session usage a turn end leads to; None when the driver's counters moved backwards. */
  function UsageAfter(used: Usage, last: Usage, event: Event): Option<Option<Usage>> {
    if event.TurnEnded? then
      match UsageDelta(event.usage, last)
      case None => None
      case Some(delta) => Some(Some(AddUsage(used, delta)))
    else Some(None)
  }

  function EmittedImage(d: Durable, event: Event, used: Option<Usage>): Durable
    requires d.run.Some?
  {
    var added := Committed(EventEntry(event, [], used));
    d.(messages := Extend(d.messages, added), usage := used.GetOr(d.usage),
       suspension := if event.RunSuspended? then Some(event.suspension) else d.suspension,
       run := Some(d.run.value.(expected := Extend(d.run.value.expected, added),
                                lastUsage := if event.TurnEnded? then event.usage else d.run.value.lastUsage,
                                calls := CallStep(d.run.value.calls, event))))
  }

  /** Where an event leaves the fold's phase: the two markers of a pause, and completion. */
  function EmittedState(state: State, event: Event): State {
    if event.RunStarted? && state == Suspended then Running else if event.RunSuspended? then Suspended else state
  }

  lemma EmitFollows(f: Folded, event: Event, ids: seq<string>, used: Option<Usage>) returns (g: Folded)
    requires Healthy(f) && f.run.Some? && LegalEvent(f, event, ids, used) && (used.Some? ==> event.TurnEnded?)
    requires !event.MessagesInjected? ==> ids == []
    ensures Follows(f, [EventEntry(event, ids, used)], g) && Healthy(g)
    ensures Image(g) == EmittedImage(Image(f), event, used)
    ensures g.run.Some? && g.phase.state == EmittedState(f.phase.state, event)
    ensures g.phase.completed == (f.phase.completed || event.RunCompleted?) && g.phase.pendingInterrupt == f.phase.pendingInterrupt
    ensures g.queues == (if event.MessagesInjected? then f.queues.(drained := f.queues.drained - IdSet(ids)) else f.queues)
  {
    hide Healthy, LegalEvent, InjectionMatches, Report, LawfulFrom, FoldFrom;
    var e := EventEntry(event, ids, used);
    FollowsOne(f, e);
    g := FoldStep(f, e);
    assert Committed(e) == Committed(EventEntry(event, [], used));
    assert Pending(g.queues) == Pending(f.queues);
  }

  // ---------------------------------------------------------------------
  // Context projection, suspension and interruption.

  function CompactionTail(compaction: Option<Compaction>): seq<Entry> {
    match compaction case None => [] case Some(c) => [CompactionEntry(c)]
  }

  function ContextStepBatch(after: nat, additions: Transcript, compaction: Option<Compaction>): seq<Entry> {
    ContextBatch(after, additions) + CompactionTail(compaction)
  }

  lemma ContextStepFollows(f: Folded, additions: Transcript, compaction: Option<Compaction>) returns (g: Folded)
    requires Healthy(f) && f.run.Some? && forall i :: 0 <= i < |additions| ==> additions[i].role != RoleSystem
    ensures Follows(f, ContextStepBatch(|f.view.messages|, additions, compaction), g) && Healthy(g)
    ensures g == WithMarkers(f, MarkersAt(|f.view.messages|, additions)).(
      compaction := if compaction.Some? then compaction else f.compaction)
  {
    ContextFollows(f, additions);
    var mid := WithMarkers(f, MarkersAt(|f.view.messages|, additions));
    g := mid;
    if compaction.Some? {
      var e := CompactionEntry(compaction.value);
      FollowsOne(mid, e);
      g := FoldStep(mid, e);
      assert g == mid.(compaction := compaction);
    }
    FollowsThen(f, ContextBatch(|f.view.messages|, additions), mid, CompactionTail(compaction), g);
  }

  function SuspendBatch(d: Durable, reported: Usage, system: Option<Message>): seq<Entry>
    requires d.run.Some? && UsageDelta(reported, d.run.value.lastUsage).Some?
  {
    UsageTail(d.usage, d.run.value.lastUsage, reported) + SystemTail(system)
  }

  lemma SuspendFollows(f: Folded, reported: Usage, system: Option<Message>)
    requires Healthy(f) && f.run.Some? && Reportable(f.run.value.lastUsage, reported)
    requires system.Some? ==> system.value.role == RoleSystem && !StartsWithSystem(f.run.value.history)
    ensures var g := WithSystem(WithUsage(f, reported), system);
      Follows(f, SuspendBatch(Image(f), reported, system), g) && Healthy(g)
  {
    UsageFollows(f, reported);
    SystemFollows(WithUsage(f, reported), system);
    FollowsThen(f, UsageTail(f.usage, f.run.value.lastUsage, reported), WithUsage(f, reported),
                SystemTail(system), WithSystem(WithUsage(f, reported), system));
  }

  /** Messages committed inside the run, on the durable image. */
  function WithRepair(d: Durable, added: Transcript): Durable
    requires d.run.Some?
  {
    d.(messages := d.messages + added, run := Some(d.run.value.(expected := d.run.value.expected + added)))
  }

  /** Interrupting: repair the frontier, then close with a marker, cancelling what was aimed at the run. */
  function InterruptBatch(d: Durable, added: Transcript, reported: Option<Usage>, system: Option<Message>, marker: string): seq<Entry>
    requires d.run.Some? && (reported.Some? ==> UsageDelta(reported.value, d.run.value.lastUsage).Some?)
  {
    RepairBatch(added) + CloseBatch(WithRepair(d, added), reported, system, true, Some(marker), ExecutionInterrupted)
  }

  lemma InterruptFollows(f: Folded, added: Transcript, reported: Option<Usage>, system: Option<Message>, marker: string)
      returns (g: Folded)
    requires Healthy(f) && f.run.Some? && (added != [] ==> f.view.messages != [])
    requires reported.Some? ==> Reportable(f.run.value.lastUsage, reported.value)
    requires system.Some? ==> system.value.role == RoleSystem && !StartsWithSystem(f.run.value.history)
    ensures Follows(f, InterruptBatch(Image(f), added, reported, system, marker), g) && Healthy(g)
    ensures g.run.None? && Quiescent(g) && g.phase.state == Idle && Unapplied(g.queues) == Unapplied(f.queues)
    ensures Image(g) == ClosedImage(WithRepair(Image(f), added), UsedAfter(Image(f), reported), system,
                                    QueueAfter(Pending(f.queues), true), Some(marker))
  {
    hide Healthy, Legal, FoldStep, UsageDelta, AddUsage, CloseBatch, RepairBatch, OfKinds, RemoveAll, InOrder;
    RepairFollows(f, added);
    var mid := WithCommitted(f, added);
    assert Image(mid) == WithRepair(Image(f), added);
    g := CloseFollows(mid, reported, system, true, Some(marker), ExecutionInterrupted);
    FollowsThen(f, RepairBatch(added), mid, CloseBatch(Image(mid), reported, system, true, Some(marker), ExecutionInterrupted), g);
  }

  // ---------------------------------------------------------------------
  // Resolutions.

  function ResumeBatch(suspensionId: string, command: Option<Command>): seq<Entry> {
    [ResolutionAccepted(suspensionId)] + CommandTail(command)
  }

  lemma ResumeFollows(f: Folded, suspensionId: string, command: Option<Command>)
    requires Healthy(f) && f.run.Some? && f.phase.state == Suspended && PlainCommand(command)
    ensures Follows(f, ResumeBatch(suspensionId, command), f)
  {
    var e := ResolutionAccepted(suspensionId);
    FollowsOne(f, e);
    assert FoldStep(f, e) == f;
    CommandFollows(f, command);
    FollowsThen(f, [e], f, CommandTail(command), f);
  }

  function MessageBatch(messages: Transcript, source: Source): seq<Entry> {
    if messages == [] then [] else [MessageEntry(messages[0], source, "")] + MessageBatch(messages[1..], source)
  }

  lemma {:induction false} MessagesFollow(f: Folded, messages: Transcript, source: Source)
    requires Healthy(f) && f.run.None? && (source == FromRecoveryResolution || source == FromResumePrompt)
    requires FirstIsPlain(f, messages)
    ensures Follows(f, MessageBatch(messages, source), WithCommitted(f, messages)) && Healthy(WithCommitted(f, messages))
    decreases messages
  {
    hide Healthy;
    if messages == [] {
      assert f.view.messages + [] == f.view.messages;
    } else {
      var e := MessageEntry(messages[0], source, "");
      FollowsOne(f, e);
      var next := FoldStep(f, e);
      assert next == WithCommitted(f, [messages[0]]);
      MessagesFollow(next, messages[1..], source);
      FollowsThen(f, [e], next, MessageBatch(messages[1..], source), WithCommitted(next, messages[1..]));
      assert f.view.messages + [messages[0]] + messages[1..] == f.view.messages + messages;
    }
  }

  function PromptTail(prompt: Option<Message>): seq<Entry> {
    match prompt case None => [] case Some(m) => [MessageEntry(m, FromResumePrompt, "")]
  }

  function ResolveBatch(oldRun: string, suspensionId: string, added: Transcript, prompt: Option<Message>,
                        newRun: string, limits: Option<Limits>, instructions: string, command: Option<Command>): seq<Entry> {
    [ResolutionAccepted(suspensionId)] + [RunClosed(oldRun, ExecutionInterrupted)] + MessageBatch(added, FromRecoveryResolution)
    + PromptTail(prompt) + [RunOpened(newRun, DriveContinue, limits, instructions)] + CommandTail(command)
  }

  lemma PromptTailFollows(f: Folded, prompt: Option<Message>)
    requires Healthy(f) && f.run.None? && (prompt.Some? ==> prompt.value.role == RoleUser)
    ensures Follows(f, PromptTail(prompt), WithCommitted(f, OptionalMessage(prompt)))
    ensures Healthy(WithCommitted(f, OptionalMessage(prompt)))
  {
    MessagesFollow(f, OptionalMessage(prompt), FromResumePrompt);
    if prompt.Some? {
      assert OptionalMessage(prompt)[1..] == [];
      assert MessageBatch(OptionalMessage(prompt), FromResumePrompt) == PromptTail(prompt) + [];
    }
  }

  /** Closing the recovered run and appending what resolves its frontier. */
  lemma ResolvedFollows(f: Folded, suspensionId: string, added: Transcript, prompt: Option<Message>) returns (g: Folded)
    requires Healthy(f) && f.run.Some? && f.phase.state == Suspended
    requires (added != [] ==> f.view.messages != []) && (prompt.Some? ==> prompt.value.role == RoleUser)
    ensures Follows(f, [ResolutionAccepted(suspensionId)] + [RunClosed(f.run.value.id, ExecutionInterrupted)]
                       + MessageBatch(added, FromRecoveryResolution) + PromptTail(prompt), g)
    ensures Healthy(g) && g.run.None? && g.view == f.view.(messages := f.view.messages + added + OptionalMessage(prompt))
    ensures Image(g) == Image(f).(messages := g.view.messages, suspension := None, run := None)
    ensures g.queues == f.queues
  {
    ResumeFollows(f, suspensionId, None);
    assert ResumeBatch(suspensionId, None) == [ResolutionAccepted(suspensionId)];
    hide Healthy, Legal, FoldStep, LawfulFrom, FoldFrom, MessageBatch, Follows;
    var close := RunClosed(f.run.value.id, ExecutionInterrupted);
    var f1 := RunClosedFollows(f, ExecutionInterrupted);
    FollowsThen(f, [ResolutionAccepted(suspensionId)], f, [close], f1);
    MessagesFollow(f1, added, FromRecoveryResolution);
    var f2 := WithCommitted(f1, added);
    FollowsThen(f, [ResolutionAccepted(suspensionId)] + [close], f1, MessageBatch(added, FromRecoveryResolution), f2);
    PromptTailFollows(f2, prompt);
    g := WithCommitted(f2, OptionalMessage(prompt));
    FollowsThen(f, [ResolutionAccepted(suspensionId)] + [close] + MessageBatch(added, FromRecoveryResolution), f2,
                PromptTail(prompt), g);
  }

  function ResolvedImage(d: Durable, resolved: Transcript, newRun: string, limits: Option<Limits>, instructions: string): Durable {
    d.(messages := d.messages + resolved, suspension := None,
       run := Some(NewRun(newRun, DriveContinue, ProviderHistory(d.messages + resolved, d.markers), [], |d.markers|, limits, instructions)))
  }

  lemma ResolveFollows(f: Folded, suspensionId: string, added: Transcript, prompt: Option<Message>,
                       newRun: string, limits: Option<Limits>, instructions: string, command: Option<Command>) returns (g: Folded)
    requires Healthy(f) && f.run.Some? && f.phase.state == Suspended
    requires (added != [] ==> f.view.messages != []) && (prompt.Some? ==> prompt.value.role == RoleUser)
    requires newRun != "" && PlainCommand(command)
    ensures Follows(f, ResolveBatch(f.run.value.id, suspensionId, added, prompt, newRun, limits, instructions, command), g)
    ensures Healthy(g) && g.run.Some? && g.phase.state == Running && !g.phase.completed && g.run.value.volatile == Quiet
    ensures Image(g) == ResolvedImage(Image(f), added + OptionalMessage(prompt), newRun, limits, instructions)
    ensures g.queues == f.queues
  {
    assert f.view.messages + added + OptionalMessage(prompt) == f.view.messages + (added + OptionalMessage(prompt));
    hide Healthy, Legal, FoldStep, LawfulFrom, FoldFrom, MessageBatch, Follows, ProviderHistory, InOrder;
    var close := RunClosed(f.run.value.id, ExecutionInterrupted);
    var head := [ResolutionAccepted(suspensionId)] + [close] + MessageBatch(added, FromRecoveryResolution) + PromptTail(prompt);
    var f1 := ResolvedFollows(f, suspensionId, added, prompt);
    OpenFollows(f1, newRun, DriveContinue, limits, instructions);
    g := Opened(f1, newRun, DriveContinue, limits, instructions);
    FollowsThen(f, head, f1, [RunOpened(newRun, DriveContinue, limits, instructions)], g);
    CommandFollows(g, command);
    FollowsThen(f, head + [RunOpened(newRun, DriveContinue, limits, instructions)], g, CommandTail(command), g);
  }

  // ---------------------------------------------------------------------
  // Recovery and the remaining single entries.

  function RecoverBatch(run: string, added: Transcript, limits: Option<Limits>, instructions: string): seq<Entry> {
    [OpaqueEntry("session.recovered")] + RepairBatch(added) + [RunRecovered(run, limits, instructions)]
  }

  function RecoveredImage(d: Durable, added: Transcript, run: string, limits: Option<Limits>, instructions: string): Durable {
    d.(messages := d.messages + added, suspension := None,
       run := Some(NewRun(run, DriveContinue, ProviderHistory(d.messages + added, d.markers), [], |d.markers|, limits, instructions)))
  }

  lemma OpaqueFollows(f: Folded, kind: string)
    requires Healthy(f)
    ensures Follows(f, [OpaqueEntry(kind)], f)
  {
    FollowsOne(f, OpaqueEntry(kind));
    assert FoldStep(f, OpaqueEntry(kind)) == f;
  }

  lemma RecoverFollows(f: Folded, added: Transcript, limits: Option<Limits>, instructions: string) returns (g: Folded)
    requires Healthy(f) && f.run.Some? && (added != [] ==> f.view.messages != [])
    ensures Follows(f, RecoverBatch(f.run.value.id, added, limits, instructions), g) && Healthy(g)
    ensures g.run.Some? && g.phase.state == Running && !g.phase.completed && g.run.value.volatile == Quiet && g.queues == f.queues
    ensures Image(g) == RecoveredImage(Image(f), added, f.run.value.id, limits, instructions)
  {
    OpaqueFollows(f, "session.recovered");
    RepairFollows(f, added);
    var mid := WithCommitted(f, added);
    FollowsThen(f, [OpaqueEntry("session.recovered")], f, RepairBatch(added), mid);
    var e := RunRecovered(f.run.value.id, limits, instructions);
    FollowsOne(mid, e);
    g := FoldStep(mid, e);
    hide Healthy, LawfulFrom, FoldFrom, RepairBatch, Follows, ProviderHistory, InOrder;
    FollowsThen(f, [OpaqueEntry("session.recovered")] + RepairBatch(added), mid, [e], g);
  }

  lemma RecoverySuspensionFollows(f: Folded, suspension: Suspension) returns (g: Folded)
    requires Healthy(f) && f.run.Some?
    ensures Follows(f, [RecoverySuspension(suspension)], g) && Healthy(g)
    ensures g.phase == f.phase.(state := Suspended, suspension := Some(suspension)) && g.queues == f.queues
    ensures g.run == f.run && Image(g) == Image(f).(suspension := Some(suspension))
  {
    FollowsOne(f, RecoverySuspension(suspension));
    g := FoldStep(f, RecoverySuspension(suspension));
  }

  lemma FaultFollows(f: Folded) returns (g: Folded)
    requires Healthy(f) && f.run.Some?
    ensures Follows(f, [FaultEntry], g) && g.run.Some?
  {
    FollowsOne(f, FaultEntry);
    g := FoldStep(f, FaultEntry);
  }

  /** An accepted interrupt is remembered until its run closes. */
  lemma InterruptRequestFollows(f: Folded, command: Command) returns (g: Folded)
    requires Healthy(f) && f.run.Some? && command.runId == f.run.value.id
    requires command.kind == CommandInterrupt && command.rejection == ""
    ensures Follows(f, [CommandAccepted(command)], g) && Healthy(g)
    ensures g == f.(phase := f.phase.(pendingInterrupt := f.run.value.id)) && Image(g) == Image(f)
  {
    FollowsOne(f, CommandAccepted(command));
    g := FoldStep(f, CommandAccepted(command));
  }

  lemma ChildFollows(f: Folded, charge: Usage) returns (g: Folded)
    requires Healthy(f) && AtMost(ZeroCounters, charge.counters)
    ensures Follows(f, [ChildUsage(charge, AddUsage(f.usage, charge))], g) && Healthy(g)
    ensures g == f.(usage := AddUsage(f.usage, charge),
                    run := if f.run.Some? then Some(f.run.value.(childUsageCharged := true)) else None)
  {
    var e := ChildUsage(charge, AddUsage(f.usage, charge));
    FollowsOne(f, e);
    g := FoldStep(f, e);
  }
}
