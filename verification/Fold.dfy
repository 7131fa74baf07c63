/** The recovery scan as the source runs it: one pass over the journal that updates fields (harness/session/recovery.go). */
module Folds {
  import opened Messages
  import opened Usages
  import opened Suspensions
  import opened ContextPolicy
  import opened Journals

  lemma InjectionStepped(f: Folded, injected: Transcript, ids: seq<string>, used: Option<Usage>)
    ensures FoldStep(f, EventEntry(MessagesInjected(injected), ids, used)) ==
      f.(queues := f.queues.(drained := f.queues.drained - IdSet(ids)), view := f.view.(messages := Extend(f.view.messages, injected)),
         run := if f.run.None? then None
                else Some(f.run.value.(expected := Extend(f.run.value.expected, injected),
                                       volatile := f.run.value.volatile.(pendingInjectionIds := []))))
  {
  }

  lemma ContextStepped(f: Folded, e: Entry)
    requires e.SessionCreated? || e.InterruptMarker? || e.ContextMessage? || e.CompactionEntry? || e.ResolutionAccepted? || e.OpaqueEntry?
    requires !Corrupt(f, e)
    ensures FoldStep(f, e) ==
      match e
      case SessionCreated(limits, all) => f.(created := true, budget := limits, drainAll := all)
      case InterruptMarker(text) =>
        f.(view := f.view.(markers := f.view.markers + [ContextMarker(|f.view.messages|, InterruptionContextMessage(text))]))
      case ContextMessage(after, message) => f.(view := f.view.(markers := f.view.markers + [ContextMarker(after, message)]))
      case CompactionEntry(value) => f.(compaction := Some(value))
      case _ => f
  {
    hide CallStep, VolatileStep;
  }

  class Scan {
    var created: bool
    var budget: Option<Limits>
    var drainAll: bool
    var view: View
    var queues: Queues
    var phase: Phase
    var usage: Usage
    var compaction: Option<Compaction>
    var run: Option<ActiveRun>

    constructor ()
      ensures Value() == EmptyFold
    {
      created, budget, drainAll := false, None, false;
      view, queues, phase := View([], [], None), Queues(map[], map[], []), Phase(Idle, None, false, "");
      usage, compaction, run := ZeroUsage, None, None;
    }

    function Value(): Folded
      reads this
    {
      Folded(created, budget, drainAll, view, queues, phase, usage, compaction, run)
    }

    /** Appends to the transcript and, inside a run, to what the run expects. */
    method CommitMessage(message: Message)
      modifies this`view, this`run
      ensures view == old(view).(messages := old(view).messages + [message])
      ensures run == if old(run).Some? then Some(old(run).value.(expected := old(run).value.expected + [message])) else None
    {
      view := view.(messages := view.messages + [message]);
      if run.Some? {
        run := Some(run.value.(expected := run.value.expected + [message]));
      }
    }

    method ApplyInjection(injected: Transcript, ids: seq<string>, used: Option<Usage>)
      modifies this`view, this`run, this`queues
      ensures Value() == FoldStep(old(Value()), EventEntry(MessagesInjected(injected), ids, used))
    {
      InjectionStepped(Value(), injected, ids, used);
      hide FoldStep;
      queues := queues.(drained := queues.drained - IdSet(ids));
      view := view.(messages := Extend(view.messages, injected));
      if run.Some? {
        run := Some(run.value.(expected := Extend(run.value.expected, injected),
                               volatile := run.value.volatile.(pendingInjectionIds := [])));
      }
    }

    /** Events that commit one message. */
    method ApplyCommit(event: Event, ids: seq<string>, used: Option<Usage>)
      requires event.AssistantCommitted? || event.ToolResultCommitted?
      modifies this`view, this`run
      ensures Value() == FoldStep(old(Value()), EventEntry(event, ids, used))
    {
      match event
      case AssistantCommitted(message) =>
        CommitMessage(message);
      case ToolResultCommitted(result) =>
        CommitMessage(ResultMessage(result));
        if run.Some? {
          run := Some(run.value.(calls := run.value.calls.(results := run.value.calls.results + {result.toolUseId})));
        }
    }

    /** Events that change the run's call log or the usage. */
    method ApplyProgress(event: Event, ids: seq<string>, used: Option<Usage>)
      requires event.ToolBatchPlanned? || event.ToolStarted? || event.TurnEnded?
      modifies this`usage, this`run
      ensures Value() == FoldStep(old(Value()), EventEntry(event, ids, used))
    {
      match event
      case ToolBatchPlanned(calls) =>
        if run.Some? {
          run := Some(run.value.(calls := run.value.calls.(planned := run.value.calls.planned + calls)));
        }
      case ToolStarted(call) =>
        if run.Some? {
          run := Some(run.value.(calls := run.value.calls.(started := run.value.calls.started + {call.id})));
        }
      case TurnEnded(reported) =>
        usage := used.GetOr(usage);
        if run.Some? {
          run := Some(run.value.(lastUsage := reported));
        }
    }

    /** Events that change the phase. */
    method ApplyPhase(event: Event, ids: seq<string>, used: Option<Usage>)
      requires event.RunCompleted? || event.RunStarted? || event.RunSuspended?
      modifies this`phase, this`run
      ensures Value() == FoldStep(old(Value()), EventEntry(event, ids, used))
    {
      match event
      case RunCompleted =>
        phase := phase.(completed := run.Some?);
      case RunStarted =>
        if run.Some? && phase.state == Suspended {
          phase := phase.(state := Running);
          run := Some(run.value.(volatile := run.value.volatile.(resumeEventSeen := true)));
        }
      case RunSuspended(value) =>
        phase := phase.(suspension := Some(value), state := Suspended);
    }

    method ApplyEvent(event: Event, ids: seq<string>, used: Option<Usage>)
      modifies this
      ensures Value() == FoldStep(old(Value()), EventEntry(event, ids, used))
    {
      if event.MessagesInjected? {
        ApplyInjection(event.messages, ids, used);
      } else if event.AssistantCommitted? || event.ToolResultCommitted? {
        ApplyCommit(event, ids, used);
      } else if event.ToolBatchPlanned? || event.ToolStarted? || event.TurnEnded? {
        ApplyProgress(event, ids, used);
      } else if event.RunCompleted? || event.RunStarted? || event.RunSuspended? {
        ApplyPhase(event, ids, used);
      }
    }

    /** Entries that open, recover or close a run. */
    method ApplyRun(e: Entry) returns (ok: bool)
      requires e.RunOpened? || e.RunRecovered? || e.RunClosed?
      modifies this`run, this`phase
      ensures ok <==> !Corrupt(old(Value()), e)
      ensures ok ==> Value() == FoldStep(old(Value()), e)
    {
      ok := true;
      match e
      case RunOpened(id, mode, limits, instructions) =>
        run := Some(NewRun(id, mode, ProviderHistory(view.messages, view.markers), [], |view.markers|, limits, instructions));
        phase := phase.(completed := false, state := Running, suspension := None);
      case RunRecovered(id, limits, instructions) =>
        if run.None? || run.value.id != id {
          return false;
        }
        run := Some(NewRun(id, DriveContinue, ProviderHistory(view.messages, view.markers), [], |view.markers|, limits, instructions));
        phase := phase.(completed := false, state := Running, suspension := None);
      case RunClosed(_, _) =>
        if run.Some? && phase.pendingInterrupt == run.value.id {
          phase := phase.(pendingInterrupt := "");
        }
        run, phase := None, phase.(state := Idle, suspension := None);
    }

    /** Entries that carry transcript messages. */
    method ApplyMessage(e: Entry)
      requires e.MessageEntry? || e.SystemMessage? || e.RepairMessage?
      modifies this`view, this`run, this`queues
      ensures Value() == FoldStep(old(Value()), e)
    {
      match e
      case MessageEntry(message, source, queueId) =>
        if queueId != "" {
          queues := queues.(drained := queues.drained - {queueId});
        }
        if source == FromNextTurn {
          view := view.(messages := view.messages + [message]);
          if run.Some? {
            run := Some(run.value.(history := run.value.history + [message]));
          }
        } else {
          CommitMessage(message);
        }
      case SystemMessage(message) =>
        view := view.(system := Some(message));
        if !StartsWithSystem(view.messages) {
          view := view.(markers := ShiftMarkers(view.markers), messages := [message] + view.messages);
        }
        if run.Some? && !StartsWithSystem(run.value.history) {
          run := Some(run.value.(history := [message] + run.value.history));
        }
      case RepairMessage(message) =>
        CommitMessage(message);
    }

    /** Entries about queued inputs. */
    method ApplyQueue(e: Entry)
      requires e.QueueAccepted? || e.QueueDrained? || e.QueueCancelled?
      modifies this`queues
      ensures Value() == FoldStep(old(Value()), e)
    {
      assert run.Some? ==> RunUpdate(run.value, phase.state, e) == run.value;
      match e
      case QueueAccepted(entry) =>
        queues := queues.(pending := queues.pending[entry.id := entry], order := queues.order + [entry.id]);
      case QueueDrained(id) =>
        if id in queues.pending {
          queues := queues.(drained := queues.drained[id := queues.pending[id]]);
        }
        queues := queues.(pending := queues.pending - {id});
      case QueueCancelled(id) =>
        queues := queues.(pending := queues.pending - {id}, drained := queues.drained - {id});
    }

    /** Usage and phase entries. */
    method ApplyAccount(e: Entry)
      requires e.CommandAccepted? || e.UsageCommitted? || e.ChildUsage? || e.RecoverySuspension? || e.FaultEntry?
      modifies this`phase, this`usage, this`run
      ensures Value() == FoldStep(old(Value()), e)
    {
      match e
      case CommandAccepted(c) =>
        if c.kind == CommandInterrupt && c.rejection == "" {
          phase := phase.(pendingInterrupt := c.runId);
        }
      case UsageCommitted(reported, session) =>
        usage := session;
        if run.Some? {
          run := Some(run.value.(lastUsage := reported));
        }
      case ChildUsage(_, session) =>
        usage := session;
        if run.Some? {
          run := Some(run.value.(childUsageCharged := true));
        }
      case RecoverySuspension(value) =>
        phase := phase.(suspension := Some(value), state := Suspended);
      case FaultEntry =>
        phase := phase.(state := Faulted);
    }

    /** The remaining entries; false is ErrCorruptLog. */
    method ApplyContext(e: Entry) returns (ok: bool)
      requires e.SessionCreated? || e.InterruptMarker? || e.ContextMessage? || e.CompactionEntry? || e.ResolutionAccepted? || e.OpaqueEntry?
      modifies this`created, this`budget, this`drainAll, this`view, this`compaction
      ensures ok <==> !Corrupt(old(Value()), e)
      ensures ok ==> Value() == FoldStep(old(Value()), e)
    {
      hide FoldStep;
      if !Corrupt(Value(), e) {
        ContextStepped(Value(), e);
      }
      ok := true;
      match e
      case SessionCreated(limits, all) =>
        created, budget, drainAll := true, limits, all;
      case InterruptMarker(text) =>
        view := view.(markers := view.markers + [ContextMarker(|view.messages|, InterruptionContextMessage(text))]);
      case ContextMessage(after, message) =>
        if after < 0 || after > |view.messages| {
          return false;
        }
        view := view.(markers := view.markers + [ContextMarker(after, message)]);
      case CompactionEntry(value) =>
        compaction := Some(value);
      case ResolutionAccepted(_) =>
      case OpaqueEntry(_) =>
    }

    /** One entry; false is ErrCorruptLog. */
    method Apply(e: Entry) returns (ok: bool)
      modifies this
      ensures ok <==> !Corrupt(old(Value()), e)
      ensures ok ==> Value() == FoldStep(old(Value()), e)
    {
      hide FoldStep;
      ok := true;
      match e
      case EventEntry(event, ids, used) =>
        ApplyEvent(event, ids, used);
      case RunOpened(_, _, _, _) =>
        ok := ApplyRun(e);
      case RunRecovered(_, _, _) =>
        ok := ApplyRun(e);
      case RunClosed(_, _) =>
        ok := ApplyRun(e);
      case MessageEntry(_, _, _) =>
        ApplyMessage(e);
      case SystemMessage(_) =>
        ApplyMessage(e);
      case RepairMessage(_) =>
        ApplyMessage(e);
      case QueueAccepted(_) =>
        ApplyQueue(e);
      case QueueDrained(_) =>
        ApplyQueue(e);
      case QueueCancelled(_) =>
        ApplyQueue(e);
      case CommandAccepted(_) =>
        ApplyAccount(e);
      case UsageCommitted(_, _) =>
        ApplyAccount(e);
      case ChildUsage(_, _) =>
        ApplyAccount(e);
      case RecoverySuspension(_) =>
        ApplyAccount(e);
      case FaultEntry =>
        ApplyAccount(e);
      case _ =>
        ok := ApplyContext(e);
    }

    /** The queue lists the scan ends with, in acceptance order. */
    method QueueLists() returns (pending: seq<QueueEntry>, unapplied: seq<QueueEntry>)
      ensures pending == Pending(queues) && unapplied == Unapplied(queues)
    {
      var order, queue, drained := queues.order, queues.pending, queues.drained;
      pending, unapplied := [], [];
      for i := 0 to |order|
        invariant pending + InOrder(order[i..], queue) == InOrder(order, queue)
        invariant unapplied + InOrder(order[i..], drained) == InOrder(order, drained)
      {
        assert order[i..][1..] == order[i + 1..];
        if order[i] in queue {
          pending := pending + [queue[order[i]]];
        }
        if order[i] in drained {
          unapplied := unapplied + [drained[order[i]]];
        }
      }
    }
  }

  /** None is ErrCorruptLog. */
  method FoldEntries(entries: seq<Entry>) returns (r: Option<Folded>, pending: seq<QueueEntry>, unapplied: seq<QueueEntry>)
    ensures r == Fold(entries)
    ensures r.Some? ==> pending == Pending(r.value.queues) && unapplied == Unapplied(r.value.queues)
  {
    pending, unapplied := [], [];
    var scan := new Scan();
    for i := 0 to |entries|
      invariant fresh(scan)
      invariant FoldFrom(EmptyFold, entries) == FoldFrom(scan.Value(), entries[i..])
    {
      assert entries[i..][1..] == entries[i + 1..];
      var ok := scan.Apply(entries[i]);
      if !ok {
        return None, pending, unapplied;
      }
    }
    if !scan.created {
      return None, pending, unapplied;
    }
    pending, unapplied := scan.QueueLists();
    r := Some(Finalized(scan.Value()));
  }

  /** providerHistory: each marker before the first message at or past its position. */
  method InterleaveMarkers(messages: Transcript, markers: seq<ContextMarker>) returns (projected: Transcript)
    ensures projected == ProviderHistory(messages, markers)
  {
    projected := [];
    var k := 0;
    for position := 0 to |messages|
      invariant 0 <= k <= |markers|
      invariant projected + Place(messages, markers[k..], position) == ProviderHistory(messages, markers)
    {
      k, projected := PlaceMarkers(messages, markers, k, position, projected);
      projected := projected + [messages[position]];
    }
    k, projected := PlaceMarkers(messages, markers, k, |messages|, projected);
    while k < |markers|
      invariant 0 <= k <= |markers|
      invariant projected + MarkerMessages(markers[k..]) == ProviderHistory(messages, markers)
    {
      assert markers[k..][1..] == markers[k + 1..];
      projected := projected + [markers[k].message];
      k := k + 1;
    }
  }

  /** The inner loop: markers due at this position. */
  method PlaceMarkers(messages: Transcript, markers: seq<ContextMarker>, start: nat, position: nat, before: Transcript)
      returns (k: nat, projected: Transcript)
    requires start <= |markers| && position <= |messages|
    ensures k <= |markers|
    ensures projected + Place(messages, markers[k..], position) == before + Place(messages, markers[start..], position)
    ensures k < |markers| ==> markers[k].after > position
  {
    k, projected := start, before;
    while k < |markers| && markers[k].after <= position
      invariant start <= k <= |markers|
      invariant projected + Place(messages, markers[k..], position) == before + Place(messages, markers[start..], position)
    {
      assert markers[k..][1..] == markers[k + 1..];
      projected := projected + [markers[k].message];
      k := k + 1;
    }
  }
}
