/** The grammar every reachable journal obeys, and what the recovery fold makes of such journals. */
module Lawful {
  import opened Messages
  import opened Usages
  import opened Suspensions
  import opened Journals

  predicate NoTargeted(pending: map<string, QueueEntry>) {
    forall id :: id in pending ==> pending[id].kind == QueueNextTurn
  }

  /** A usage report of the active run and the session usage it leads to. */
  predicate Report(usage: Usage, last: Usage, run: Usage, session: Usage) {
    UsageDelta(run, last).Some? && session == AddUsage(usage, UsageDelta(run, last).value)
  }

  /** An injection that names queue IDs carries exactly those drained inputs, in order. */
  predicate InjectionMatches(drained: map<string, QueueEntry>, messages: Transcript, ids: seq<string>) {
    && Distinct(ids)
    && (forall i :: 0 <= i < |ids| ==> ids[i] in drained)
    && (ids != [] ==> |messages| == |ids| && forall i :: 0 <= i < |ids| ==> messages[i] == drained[ids[i]].message)
  }

  predicate LegalMessage(f: Folded, message: Message, source: Source, queueId: string) {
    match source
    case FromNextTurn =>
      && f.run.Some? && f.run.value.expected == [] && queueId != ""
      && queueId in f.queues.drained
      && f.queues.drained[queueId].message == message && f.queues.drained[queueId].kind == QueueNextTurn
    case FromPrompt => f.run.Some? && queueId == ""
    case FromInitialHistory => f.run.None? && queueId == "" && f.view.markers == []
    case FromRecoveryResolution => f.run.None? && queueId == ""
    case FromResumePrompt => f.run.None? && queueId == ""
  }

  /** Only the initial history and a system entry may put a system message first. */
  predicate FirstIsPlain(f: Folded, added: Transcript) {
    added != [] && f.view.messages == [] ==> added[0].role != RoleSystem
  }

  predicate LegalEvent(f: Folded, event: Event, ids: seq<string>, used: Option<Usage>) {
    && f.run.Some? && FirstIsPlain(f, Committed(EventEntry(event, ids, used)))
    && match event
       case MessagesInjected(messages) => InjectionMatches(f.queues.drained, messages, ids)
       case TurnEnded(usage) => used.Some? && Report(f.usage, f.run.value.lastUsage, usage, used.value)
       case RunCompleted => NoTargeted(f.queues.pending)
       case _ => true
  }

  predicate Legal(f: Folded, e: Entry) {
    match e
    case SessionCreated(_, _) => false
    case RunOpened(id, _, _, _) => f.run.None? && id != ""
    case RunRecovered(id, _, _) => f.run.Some? && f.run.value.id == id
    case RunClosed(id, _) => f.run.Some? && f.run.value.id == id
    case MessageEntry(message, source, queueId) =>
      LegalMessage(f, message, source, queueId) && (source != FromInitialHistory ==> FirstIsPlain(f, [message]))
    case SystemMessage(message) =>
      message.role == RoleSystem && f.run.Some? && !StartsWithSystem(f.run.value.history)
    case QueueAccepted(entry) =>
      && entry.id != "" && entry.id !in f.queues.order && entry.message.role == RoleUser
      && (entry.kind != QueueNextTurn ==> f.run.Some? && !f.phase.completed)
    case QueueDrained(id) => f.run.Some? && id in f.queues.pending
    case QueueCancelled(id) => f.run.Some? && id in f.queues.pending
    case CommandAccepted(c) =>
      c.kind == CommandInterrupt && c.rejection == "" ==> f.run.Some? && f.run.value.id == c.runId
    case UsageCommitted(run, session) => f.run.Some? && Report(f.usage, f.run.value.lastUsage, run, session)
    case ChildUsage(charge, session) => session == AddUsage(f.usage, charge) && AtMost(ZeroCounters, charge.counters)
    case ResolutionAccepted(_) => f.run.Some? && f.phase.state == Suspended
    case ContextMessage(after, message) => f.run.Some? && after == |f.view.messages| && message.role != RoleSystem
    case RepairMessage(message) => f.run.Some? && FirstIsPlain(f, [message])
    case RecoverySuspension(_) => f.run.Some?
    case FaultEntry => f.run.Some?
    case InterruptMarker(_) => f.run.Some?
    case CompactionEntry(_) => f.run.Some?
    case OpaqueEntry(_) => true
    case EventEntry(event, ids, used) => LegalEvent(f, event, ids, used)
  }

  // ---------------------------------------------------------------------
  // What every fold of a lawful journal satisfies.

  predicate QueueHealthy(q: Queues) {
    && Distinct(q.order) && "" !in q.order
    && (forall id :: id in q.pending ==> id in q.order && q.pending[id].id == id && q.pending[id].message.role == RoleUser)
    && (forall id :: id in q.drained ==> id in q.order && q.drained[id].id == id && q.drained[id].message.role == RoleUser)
    && q.pending.Keys !! q.drained.Keys
  }

  /** The driver's view is always the recorded history and then what this run committed. */
  predicate ViewHealthy(v: View, run: Option<ActiveRun>) {
    && MarkersWithin(v.markers, |v.messages|)
    && (v.system.Some? ==> StartsWithSystem(v.messages))
    && (run.Some? ==>
          && run.value.markerCount <= |v.markers|
          && ProviderHistory(v.messages, v.markers[..run.value.markerCount]) == run.value.history + run.value.expected)
  }

  /** A leading system message precedes every marker. */
  predicate MarkersFollow(v: View) {
    && (forall i :: 0 <= i < |v.markers| ==> v.markers[i].message.role != RoleSystem)
    && (StartsWithSystem(v.messages) ==> forall i :: 0 <= i < |v.markers| ==> v.markers[i].after > 0)
  }

  /** A system message never starts what a run itself commits. */
  predicate PlainSuffix(run: Option<ActiveRun>) {
    run.Some? && run.value.history == [] ==> !StartsWithSystem(run.value.expected)
  }

  predicate SystemLeads(v: View, run: Option<ActiveRun>) {
    MarkersFollow(v) && PlainSuffix(run)
  }

  predicate PhaseHealthy(p: Phase, run: Option<ActiveRun>, pending: map<string, QueueEntry>) {
    match run
    case None => p.state == Idle && p.pendingInterrupt == "" && p.suspension.None?
    case Some(r) =>
      && r.id != "" && (p.pendingInterrupt == "" || p.pendingInterrupt == r.id)
      && p.state in {Running, Suspended, Faulted}
      && (p.state == Suspended ==> p.suspension.Some?)
      && (p.completed ==> NoTargeted(pending))
      && r.volatile.(resumeEventSeen := false) == Quiet
  }

  /** Between committed batches, an idle session holds only session-targeted inputs. */
  predicate Quiescent(f: Folded) {
    f.run.None? ==> NoTargeted(f.queues.pending)
  }

  predicate Healthy(f: Folded) {
    && f.created && QueueHealthy(f.queues) && ViewHealthy(f.view, f.run) && SystemLeads(f.view, f.run)
    && PhaseHealthy(f.phase, f.run, f.queues.pending)
  }

  predicate LawfulFrom(f: Folded, entries: seq<Entry>)
    decreases entries
  {
    entries != [] ==> Legal(f, entries[0]) && LawfulFrom(FoldStep(f, entries[0]), entries[1..])
  }

  function CreatedFold(budget: Option<Limits>, drainAll: bool): Folded {
    EmptyFold.(created := true, budget := budget, drainAll := drainAll)
  }

  predicate LawfulJournal(entries: seq<Entry>) {
    && entries != [] && entries[0].SessionCreated?
    && LawfulFrom(CreatedFold(entries[0].budget, entries[0].drainAll), entries[1..])
  }

  // ---------------------------------------------------------------------
  // Interleaving lemmas for the marker projection.

  lemma {:induction false} PlaceAppend(messages: Transcript, markers: seq<ContextMarker>, position: nat, m: Message)
    requires position <= |messages| && MarkersWithin(markers, |messages|)
    ensures Place(messages + [m], markers, position) == Place(messages, markers, position) + [m]
    decreases |messages| - position + |markers|
  {
    var all := messages + [m];
    if markers != [] && markers[0].after <= position {
      assert MarkersWithin(markers[1..], |messages|);
      PlaceAppend(messages, markers[1..], position, m);
    } else if position < |messages| {
      assert all[position] == messages[position];
      PlaceAppend(messages, markers, position + 1, m);
    } else {
      assert markers == [];
      assert Place(all, markers, position) == [m] + Place(all, markers, position + 1) == [m] + [];
    }
  }

  lemma {:induction false} PlaceShift(messages: Transcript, markers: seq<ContextMarker>, position: nat, system: Message)
    requires position <= |messages|
    ensures Place([system] + messages, ShiftMarkers(markers), position + 1) == Place(messages, markers, position)
    decreases |messages| - position + |markers|
  {
    var shifted := ShiftMarkers(markers);
    if markers != [] && markers[0].after <= position {
      assert shifted[1..] == ShiftMarkers(markers[1..]);
      PlaceShift(messages, markers[1..], position, system);
    } else if position < |messages| {
      assert ([system] + messages)[position + 1] == messages[position];
      PlaceShift(messages, markers, position + 1, system);
    } else {
      ShiftKeepsMessages(markers);
    }
  }

  lemma {:induction false} ShiftKeepsMessages(markers: seq<ContextMarker>)
    ensures MarkerMessages(ShiftMarkers(markers)) == MarkerMessages(markers)
    decreases markers
  {
    if markers != [] {
      assert ShiftMarkers(markers)[1..] == ShiftMarkers(markers[1..]);
      ShiftKeepsMessages(markers[1..]);
    }
  }

  lemma ProviderHistoryShift(messages: Transcript, markers: seq<ContextMarker>, system: Message)
    ensures ProviderHistory([system] + messages, ShiftMarkers(markers)) == [system] + ProviderHistory(messages, markers)
  {
    PlaceShift(messages, markers, 0, system);
    var shifted := ShiftMarkers(markers);
    assert shifted != [] ==> shifted[0].after > 0;
    assert ([system] + messages)[0] == system;
  }

  lemma {:induction false} ProviderHistoryAppend(messages: Transcript, markers: seq<ContextMarker>, added: Transcript)
    requires MarkersWithin(markers, |messages|)
    ensures ProviderHistory(messages + added, markers) == ProviderHistory(messages, markers) + added
    decreases added
  {
    if added == [] {
      assert messages + added == messages;
    } else {
      PlaceAppend(messages, markers, 0, added[0]);
      ProviderHistoryAppend(messages + [added[0]], markers, added[1..]);
      assert messages + [added[0]] + added[1..] == messages + added;
      assert ProviderHistory(messages, markers) + [added[0]] + added[1..] == ProviderHistory(messages, markers) + added;
    }
  }

  lemma {:induction false} PlaceLength(messages: Transcript, markers: seq<ContextMarker>, position: nat)
    requires position <= |messages|
    ensures |Place(messages, markers, position)| == |messages| - position + |markers|
    decreases |messages| - position + |markers|
  {
    if markers != [] && markers[0].after <= position {
      PlaceLength(messages, markers[1..], position);
    } else if position < |messages| {
      PlaceLength(messages, markers, position + 1);
    } else {
      MarkerMessagesLength(markers);
    }
  }

  lemma {:induction false} MarkerMessagesLength(markers: seq<ContextMarker>)
    ensures |MarkerMessages(markers)| == |markers|
    decreases markers
  {
    if markers != [] {
      MarkerMessagesLength(markers[1..]);
    }
  }

  /** The provider view starts with a system message exactly when the transcript does. */
  lemma ProviderSystem(v: View, run: Option<ActiveRun>, count: nat)
    requires SystemLeads(v, run) && count <= |v.markers|
    ensures StartsWithSystem(ProviderHistory(v.messages, v.markers[..count])) <==> StartsWithSystem(v.messages)
  {
    var seen := v.markers[..count];
    PlaceLength(v.messages, seen, 0);
    assert seen != [] ==> seen[0] == v.markers[0];
  }

  /** Inside a run the recorded history leads with a system message exactly when the transcript does. */
  lemma HistorySystem(v: View, run: ActiveRun)
    requires ViewHealthy(v, Some(run)) && SystemLeads(v, Some(run))
    ensures StartsWithSystem(v.messages) <==> StartsWithSystem(run.history)
    ensures run.history == [] && run.expected == [] ==> v.messages == []
  {
    ProviderSystem(v, Some(run), run.markerCount);
    PlaceLength(v.messages, v.markers[..run.markerCount], 0);
    if run.history != [] {
      assert (run.history + run.expected)[0] == run.history[0];
    } else {
      assert run.history + run.expected == run.expected;
    }
  }

  // ---------------------------------------------------------------------
  // Every legal entry folds, and keeps the fold healthy.

  lemma ExtendHealthy(v: View, run: ActiveRun, after: ActiveRun, added: Transcript)
    requires ViewHealthy(v, Some(run))
    requires after.history == run.history && after.expected == Extend(run.expected, added) && after.markerCount == run.markerCount
    ensures ViewHealthy(v.(messages := Extend(v.messages, added)), Some(after))
  {
    var seen := v.markers[..run.markerCount];
    assert MarkersWithin(seen, |v.messages|);
    ProviderHistoryAppend(v.messages, seen, added);
    assert run.history + run.expected + added == run.history + (run.expected + added);
    if v.messages != [] {
      assert Extend(v.messages, added)[0] == v.messages[0];
    }
  }

  lemma HistoryHealthy(v: View, run: ActiveRun, message: Message)
    requires ViewHealthy(v, Some(run)) && run.expected == []
    ensures ViewHealthy(v.(messages := v.messages + [message]), Some(run.(history := run.history + [message])))
  {
    var seen := v.markers[..run.markerCount];
    assert MarkersWithin(seen, |v.messages|);
    ProviderHistoryAppend(v.messages, seen, [message]);
    assert run.history + [] == run.history && (run.history + [message]) + [] == run.history + [message];
    if v.messages != [] {
      assert (v.messages + [message])[0] == v.messages[0];
    }
  }

  lemma InsertSystemHealthy(v: View, run: ActiveRun, message: Message)
    requires ViewHealthy(v, Some(run)) && message.role == RoleSystem && !StartsWithSystem(v.messages)
    ensures ViewHealthy(InsertSystem(v, message), Some(run.(history := [message] + run.history)))
  {
    var seen := v.markers[..run.markerCount];
    ProviderHistoryShift(v.messages, seen, message);
    assert ShiftMarkers(v.markers)[..run.markerCount] == ShiftMarkers(seen);
    assert [message] + run.history + run.expected == [message] + (run.history + run.expected);
  }

  lemma MarkerHealthy(v: View, run: Option<ActiveRun>, marker: ContextMarker)
    requires ViewHealthy(v, run) && marker.after <= |v.messages|
    ensures ViewHealthy(v.(markers := v.markers + [marker]), run)
  {
    if run.Some? {
      assert (v.markers + [marker])[..run.value.markerCount] == v.markers[..run.value.markerCount];
    }
  }

  lemma NewRunHealthy(v: View, run: Option<ActiveRun>, opening: ActiveRun)
    requires ViewHealthy(v, run)
    requires opening.history == ProviderHistory(v.messages, v.markers) && opening.expected == [] && opening.markerCount == |v.markers|
    ensures ViewHealthy(v, Some(opening))
  {
    assert v.markers[..|v.markers|] == v.markers;
    assert opening.history + [] == opening.history;
  }

  lemma RunlessMessageHealthy(v: View, message: Message)
    requires ViewHealthy(v, None)
    ensures ViewHealthy(v.(messages := v.messages + [message]), None)
  {
    if v.messages != [] {
      assert (v.messages + [message])[0] == v.messages[0];
    }
  }

  lemma LegalViewHealthy(f: Folded, e: Entry)
    requires ViewHealthy(f.view, f.run) && SystemLeads(f.view, f.run) && Legal(f, e)
    ensures ViewHealthy(ViewStep(f.view, e), RunStep(f.run, f.view, f.phase.state, e))
  {
    var after := RunStep(f.run, f.view, f.phase.state, e);
    match e
    case RunOpened(_, _, _, _) => NewRunHealthy(f.view, f.run, after.value);
    case RunRecovered(_, _, _) => NewRunHealthy(f.view, f.run, after.value);
    case RunClosed(_, _) =>
    case MessageEntry(message, source, _) =>
      if source == FromNextTurn {
        HistoryHealthy(f.view, f.run.value, message);
      } else if f.run.Some? {
        ExtendHealthy(f.view, f.run.value, after.value, [message]);
      } else {
        RunlessMessageHealthy(f.view, message);
      }
    case SystemMessage(message) =>
      HistorySystem(f.view, f.run.value);
      InsertSystemHealthy(f.view, f.run.value, message);
    case SessionCreated(_, _) =>
    case InterruptMarker(text) =>
      MarkerHealthy(f.view, f.run, ContextMarker(|f.view.messages|, InterruptionContextMessage(text)));
      SameRunShape(f, e);
    case ContextMessage(position, message) =>
      MarkerHealthy(f.view, f.run, ContextMarker(position, message));
      SameRunShape(f, e);
    case _ =>
      SameRunShape(f, e);
      if f.run.Some? {
        ExtendHealthy(f.view, f.run.value, after.value, Committed(e));
      }
  }

  /** Entries that neither open, close nor prefix a run only extend what it expects. */
  lemma SameRunShape(f: Folded, e: Entry)
    requires !e.RunOpened? && !e.RunRecovered? && !e.RunClosed? && !e.SystemMessage?
    requires e.MessageEntry? ==> e.source != FromNextTurn
    ensures var after := RunStep(f.run, f.view, f.phase.state, e);
      && (f.run.None? ==> after.None?)
      && (f.run.Some? ==>
            && after.Some? && after.value.id == f.run.value.id
            && after.value.history == f.run.value.history && after.value.markerCount == f.run.value.markerCount
            && after.value.expected == Extend(f.run.value.expected, Committed(e)))
  {
  }

  lemma LegalMarkersFollow(f: Folded, e: Entry)
    requires MarkersFollow(f.view) && Legal(f, e)
    ensures MarkersFollow(ViewStep(f.view, e))
  {
    match e
    case SystemMessage(message) =>
    case InterruptMarker(_) =>
    case ContextMessage(_, _) =>
    case MessageEntry(message, _, _) => ExtendFollows(f.view, [message]);
    case _ => ExtendFollows(f.view, Committed(e));
  }

  lemma ExtendFollows(v: View, added: Transcript)
    requires MarkersFollow(v) && (v.messages == [] && StartsWithSystem(added) ==> v.markers == [])
    ensures MarkersFollow(v.(messages := Extend(v.messages, added)))
  {
    if v.messages != [] {
      assert Extend(v.messages, added)[0] == v.messages[0];
    }
  }

  lemma LegalPlainSuffix(f: Folded, e: Entry)
    requires ViewHealthy(f.view, f.run) && SystemLeads(f.view, f.run) && Legal(f, e)
    ensures PlainSuffix(RunStep(f.run, f.view, f.phase.state, e))
  {
    if f.run.Some? && !e.RunClosed? && !e.RunRecovered? {
      HistorySystem(f.view, f.run.value);
      CommittedPlain(f, e);
      UpdatePlain(f.run.value, f.phase.state, e);
    }
  }

  lemma CommittedPlain(f: Folded, e: Entry)
    requires f.run.Some? && Legal(f, e)
    ensures !e.RunOpened? && (f.view.messages == [] ==> !StartsWithSystem(Committed(e)))
  {
    hide InjectionMatches, Report, NoTargeted;
  }

  lemma UpdatePlain(r: ActiveRun, state: State, e: Entry)
    requires r.history == [] ==> !StartsWithSystem(r.expected)
    requires r.history == [] && r.expected == [] ==> !StartsWithSystem(Committed(e))
    ensures var next := RunUpdate(r, state, e); next.history == [] ==> !StartsWithSystem(next.expected)
  {
    hide CallStep, VolatileStep;
  }

  lemma LegalQueueHealthy(f: Folded, e: Entry)
    requires QueueHealthy(f.queues) && Legal(f, e)
    ensures QueueHealthy(QueueStep(f.queues, e))
  {
  }

  lemma LegalEventPhaseHealthy(f: Folded, e: Entry)
    requires e.EventEntry? && PhaseHealthy(f.phase, f.run, f.queues.pending) && Legal(f, e)
    ensures PhaseHealthy(PhaseStep(f.phase, f.run, e), RunStep(f.run, f.view, f.phase.state, e), QueueStep(f.queues, e).pending)
  {
    hide InjectionMatches, Report, FirstIsPlain, CallStep;
    assert QueueStep(f.queues, e).pending == f.queues.pending;
  }

  lemma LegalPhaseHealthy(f: Folded, e: Entry)
    requires PhaseHealthy(f.phase, f.run, f.queues.pending) && Legal(f, e)
    ensures PhaseHealthy(PhaseStep(f.phase, f.run, e), RunStep(f.run, f.view, f.phase.state, e), QueueStep(f.queues, e).pending)
  {
    hide Report, FirstIsPlain, LegalMessage, LegalEvent;
    if e.EventEntry? {
      LegalEventPhaseHealthy(f, e);
    }
  }

  lemma LegalKeepsHealthy(f: Folded, e: Entry)
    requires Healthy(f) && Legal(f, e)
    ensures !Corrupt(f, e) && Healthy(FoldStep(f, e))
  {
    LegalViewHealthy(f, e);
    LegalMarkersFollow(f, e);
    LegalPlainSuffix(f, e);
    LegalQueueHealthy(f, e);
    LegalPhaseHealthy(f, e);
  }

  lemma CreatedHealthy(budget: Option<Limits>, drainAll: bool)
    ensures Healthy(CreatedFold(budget, drainAll))
  {
  }

  lemma {:induction false} LawfulKeepsHealthy(f: Folded, entries: seq<Entry>)
    requires Healthy(f) && LawfulFrom(f, entries)
    ensures FoldFrom(f, entries).Some? && Healthy(FoldFrom(f, entries).value)
    decreases entries
  {
    if entries != [] {
      LegalKeepsHealthy(f, entries[0]);
      LawfulKeepsHealthy(FoldStep(f, entries[0]), entries[1..]);
    }
  }

  /** What recovery rebuilds from a lawful journal. */
  ghost function Recovered(entries: seq<Entry>): Folded
    requires LawfulJournal(entries)
  {
    var first := CreatedFold(entries[0].budget, entries[0].drainAll);
    CreatedHealthy(entries[0].budget, entries[0].drainAll);
    LawfulKeepsHealthy(first, entries[1..]);
    FoldFrom(first, entries[1..]).value
  }

  lemma RecoveredHealthy(entries: seq<Entry>)
    requires LawfulJournal(entries)
    ensures Healthy(Recovered(entries))
    ensures FoldFrom(CreatedFold(entries[0].budget, entries[0].drainAll), entries[1..]) == Some(Recovered(entries))
  {
    CreatedHealthy(entries[0].budget, entries[0].drainAll);
    LawfulKeepsHealthy(CreatedFold(entries[0].budget, entries[0].drainAll), entries[1..]);
  }

  /** Recovery of a lawful journal never reports corruption, and its closing system-message step changes nothing. */
  lemma LawfulFolds(entries: seq<Entry>)
    requires LawfulJournal(entries)
    ensures Fold(entries) == Some(Recovered(entries))
  {
    RecoveredHealthy(entries);
    assert FoldStep(EmptyFold, entries[0]) == CreatedFold(entries[0].budget, entries[0].drainAll);
    assert FoldFrom(EmptyFold, entries) == Some(Recovered(entries));
  }

  lemma {:induction false} FoldConcat(f: Folded, left: seq<Entry>, right: seq<Entry>)
    ensures FoldFrom(f, left + right) == (match FoldFrom(f, left) case None => None case Some(g) => FoldFrom(g, right))
    decreases left
  {
    if left == [] {
      assert left + right == right;
    } else {
      assert (left + right)[0] == left[0] && (left + right)[1..] == left[1..] + right;
      FoldConcat(FoldStep(f, left[0]), left[1..], right);
    }
  }

  lemma {:induction false} LawfulConcat(f: Folded, left: seq<Entry>, right: seq<Entry>)
    requires FoldFrom(f, left).Some?
    ensures LawfulFrom(f, left + right) <==> LawfulFrom(f, left) && LawfulFrom(FoldFrom(f, left).value, right)
    decreases left
  {
    if left == [] {
      assert left + right == right;
    } else {
      assert (left + right)[0] == left[0] && (left + right)[1..] == left[1..] + right;
      LawfulConcat(FoldStep(f, left[0]), left[1..], right);
    }
  }

  /** Appending one lawful batch: the journal stays lawful, and the fold moves by that batch alone. */
  lemma AppendBatch(entries: seq<Entry>, batch: seq<Entry>)
    requires LawfulJournal(entries) && LawfulFrom(Recovered(entries), batch)
    ensures LawfulJournal(entries + batch)
    ensures FoldFrom(Recovered(entries), batch) == Some(Recovered(entries + batch))
  {
    hide Healthy, Legal, FoldStep, CreatedFold;
    var all := entries + batch;
    var first := CreatedFold(entries[0].budget, entries[0].drainAll);
    RecoveredHealthy(entries);
    assert all[0] == entries[0] && all[1..] == entries[1..] + batch;
    FoldConcat(first, entries[1..], batch);
    LawfulConcat(first, entries[1..], batch);
    LawfulKeepsHealthy(Recovered(entries), batch);
  }
}
