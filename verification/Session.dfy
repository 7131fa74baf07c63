/**
 * The write-ahead session (harness/session): live fields that change only together with a journal append.
 * Each locked section of the source is one method; `Valid` says that folding the journal gives back the live state.
 */
module Sessions {
  import opened Messages
  import opened Pairing
  import opened Repair
  import opened ContextPolicy
  import opened Usages
  import opened Suspensions
  import opened Journals
  import opened Lawful
  import opened QueueOrders
  import opened Batches
  import opened SessionSteps
  import opened SessionStates
  import opened Resolutions
  import opened Folds

  /** The append-only store port: a batch commits whole or not at all, and a refusal certifies neither. */
  class Journal {
    var entries: seq<Entry>

    constructor ()
      ensures entries == []
    {
      entries := [];
    }

    method Append(expected: nat, batch: seq<Entry>) returns (ok: bool)
      modifies this
      ensures ok ==> expected == old(|entries|) && entries == old(entries) + batch
      ensures !ok ==> entries == old(entries) || (expected == old(|entries|) && entries == old(entries) + batch)
    {
      if expected != |entries| {
        return false;
      }
      var lost: bool, replied: bool := *, *;
      if lost {
        return false;
      }
      entries := entries + batch;
      return replied;
    }
  }

  class Session {
    const journal: Journal
    const budget: Option<Limits>
    const drainAll: bool
    var state: State
    var acceptanceFault: bool
    var cursor: nat
    var messages: Transcript
    var contextMarkers: seq<ContextMarker>
    var compaction: Option<Compaction>
    var queue: seq<QueueEntry>
    var usage: Usage
    var suspension: Option<Suspension>
    var run: Option<ActiveRun>
    var recoveryInputs: seq<QueueEntry>
    /** The driver has announced a pause that the session has not settled yet. */
    ghost var suspending: bool

    /** A session over a journal it has just created: its entry, then the initial history. */
    constructor Create(j: Journal, limits: Option<Limits>, all: bool, history: Transcript)
      ensures journal == j && budget == limits && drainAll == all
      ensures cursor == 1 + |history| && !acceptanceFault && state == Idle && run.None? && !suspending && recoveryInputs == []
      ensures Value() == Durable(history, [], None, [], ZeroUsage, limits, all, None, None)
    {
      journal, budget, drainAll := j, limits, all;
      state, acceptanceFault, cursor := Idle, false, 1 + |history|;
      messages, contextMarkers, compaction, queue := history, [], None, [];
      usage, suspension, run, recoveryInputs, suspending := ZeroUsage, None, None, [], false;
    }

    /** A session over what the scan of an existing journal found. */
    constructor Attach(j: Journal, f: Folded, pending: seq<QueueEntry>, unapplied: seq<QueueEntry>)
      ensures journal == j && budget == f.budget && drainAll == f.drainAll
      ensures cursor == |j.entries| && !acceptanceFault && state == f.phase.state && run == f.run && !suspending
      ensures recoveryInputs == unapplied
      ensures pending == Pending(f.queues) ==> Value() == Image(f)
    {
      journal, budget, drainAll := j, f.budget, f.drainAll;
      state, acceptanceFault, cursor := f.phase.state, false, |j.entries|;
      messages, contextMarkers, compaction, queue := f.view.messages, f.view.markers, f.compaction, pending;
      usage, suspension, run, recoveryInputs, suspending := f.usage, f.phase.suspension, f.run, unapplied, false;
    }

    predicate Live()
      reads this
    {
      state != Faulted && state != Closed
    }

    function Value(): Durable
      reads this
    {
      Durable(messages, contextMarkers, compaction, queue, usage, budget, drainAll, suspension, Settled(run))
    }

    /** The journal is lawful and quiescent whatever happened; a usable handle equals what recovery would rebuild from it. */
    ghost predicate Valid()
      reads this, journal
    {
      && LawfulJournal(journal.entries) && Quiescent(Rebuilt())
      && (acceptanceFault ==> !Live())
      && (Live() ==> cursor == |journal.entries| && Refines(Rebuilt(), Value(), state, suspending, run))
    }

    /** What recovery would rebuild from the journal as it stands. */
    ghost function Rebuilt(): Folded
      requires LawfulJournal(journal.entries)
      reads journal
    {
      Recovered(journal.entries)
    }

    // -------------------------------------------------------------------
    // Appending.

    /** The journal did not move, or moved by exactly this batch. */
    twostate predicate AtMostAppended(batch: seq<Entry>)
      reads journal
    {
      journal.entries == old(journal.entries) || journal.entries == old(journal.entries) + batch
    }

    method Append(batch: seq<Entry>, ghost g: Folded) returns (ok: bool)
      requires LawfulJournal(journal.entries) && Quiescent(Rebuilt()) && cursor == |journal.entries|
      requires Follows(Rebuilt(), batch, g) && Quiescent(g)
      modifies this`state, this`cursor, journal
      ensures LawfulJournal(journal.entries) && Quiescent(Rebuilt())
      ensures ok ==> journal.entries == old(journal.entries) + batch && Rebuilt() == g
      ensures ok ==> cursor == |journal.entries| && state == old(state)
      ensures !ok ==> state == Faulted && AtMostAppended(batch)
    {
      AppendBatch(journal.entries, batch);
      ok := journal.Append(cursor, batch);
      if ok {
        cursor := cursor + |batch|;
      } else {
        state := Faulted;
      }
    }

    /** An empty batch is not offered to the store. */
    method AppendIfAny(batch: seq<Entry>, ghost g: Folded) returns (ok: bool)
      requires LawfulJournal(journal.entries) && Quiescent(Rebuilt()) && cursor == |journal.entries|
      requires Follows(Rebuilt(), batch, g) && Quiescent(g)
      modifies this`state, this`cursor, journal
      ensures LawfulJournal(journal.entries) && Quiescent(Rebuilt())
      ensures ok ==> journal.entries == old(journal.entries) + batch && Rebuilt() == g
      ensures ok ==> cursor == |journal.entries| && state == old(state)
      ensures !ok ==> state == Faulted && AtMostAppended(batch)
    {
      if |batch| > 0 {
        ok := Append(batch, g);
      } else {
        NothingFollows(Rebuilt(), g, batch);
        assert journal.entries + [] == journal.entries;
        ok := true;
      }
    }

    /** Acceptance: a canceled context is refused before the store is asked; a refusal by the store poisons the handle. */
    method AppendAcceptance(batch: seq<Entry>, canceled: bool, ghost g: Folded) returns (ok: bool)
      requires LawfulJournal(journal.entries) && Quiescent(Rebuilt()) && cursor == |journal.entries|
      requires Follows(Rebuilt(), batch, g) && Quiescent(g)
      modifies this`state, this`cursor, this`acceptanceFault, journal
      ensures LawfulJournal(journal.entries) && Quiescent(Rebuilt())
      ensures ok ==> !canceled && journal.entries == old(journal.entries) + batch && Rebuilt() == g
      ensures ok ==> cursor == |journal.entries| && state == old(state) && acceptanceFault == old(acceptanceFault)
      ensures canceled ==> !ok && unchanged(this) && unchanged(journal)
      ensures !ok && !canceled ==> state == Faulted && acceptanceFault && AtMostAppended(batch)
    {
      if canceled {
        return false;
      }
      ok := Append(batch, g);
      if !ok {
        acceptanceFault := true;
      }
    }

    // -------------------------------------------------------------------
    // Queue helpers.

    method QueueByKinds(kinds: set<QueueKind>) returns (chosen: seq<QueueEntry>)
      ensures chosen == OfKinds(queue, kinds)
    {
      chosen := [];
      for i := 0 to |queue|
        invariant chosen + OfKinds(queue[i..], kinds) == OfKinds(queue, kinds)
      {
        assert queue[i..][1..] == queue[i + 1..];
        if queue[i].kind in kinds {
          chosen := chosen + [queue[i]];
        }
      }
    }

    method RemoveQueue(id: string)
      modifies this`queue
      ensures queue == Remove(old(queue), id)
    {
      for i := 0 to |queue|
        invariant queue == old(queue)
        invariant queue[..i] + Remove(queue[i..], id) == Remove(queue, id)
      {
        var rest := queue[i + 1..];
        assert queue[i..] == [queue[i]] + rest;
        if queue[i].id == id {
          queue := queue[..i] + rest;
          return;
        }
        assert queue[..i] + ([queue[i]] + Remove(rest, id)) == queue[..i + 1] + Remove(rest, id);
      }
      assert queue[..|queue|] == queue;
    }

    method RemoveEntries(entries: seq<QueueEntry>)
      modifies this`queue
      ensures queue == RemoveAll(old(queue), entries)
    {
      for i := 0 to |entries|
        invariant RemoveAll(queue, entries[i..]) == RemoveAll(old(queue), entries)
      {
        assert entries[i..][1..] == entries[i + 1..];
        RemoveQueue(entries[i].id);
      }
    }

    // -------------------------------------------------------------------
    // Accepting inputs.

    /** A failed acceptance leaves everything alone, or an unusable handle over a journal that holds the batch or not. */
    twostate predicate Refused(batch: seq<Entry>, canceled: bool)
      reads this, journal
    {
      if canceled then unchanged(this) && unchanged(journal)
      else state == Faulted && acceptanceFault && AtMostAppended(batch)
    }

    method CommitAcceptance(entry: QueueEntry, command: Option<Command>, canceled: bool) returns (ok: bool)
      requires Valid() && PlainCommand(command) && AcceptanceError(state, entry.kind).None?
      requires entry.id != "" && entry.id !in Rebuilt().queues.order && entry.message.role == RoleUser
      modifies this, journal
      ensures Valid()
      ensures ok ==> journal.entries == old(journal.entries) + AcceptBatch(entry, command)
      ensures ok ==> queue == old(queue) + [entry] && state == old(state) && run == old(run)
      ensures !ok ==> Refused(AcceptBatch(entry, command), canceled)
    {
      hide Follows, Refines, Recovered, LawfulJournal, Quiescent, AcceptBatch, PlainCommand, Settled;
      ghost var g := AcceptKeeps(Rebuilt(), Value(), state, suspending, run, entry, command);
      ok := AppendAcceptance(AcceptBatch(entry, command), canceled, g);
      if ok {
        queue := queue + [entry];
      }
    }

    /** Steer, follow-up or next-turn; a non-empty target pins the input to that run. None is acceptance. */
    method Accept(kind: QueueKind, message: Message, target: string, id: string, command: Option<Command>, canceled: bool)
        returns (error: Option<SessionError>)
      requires Valid() && PlainCommand(command) && id != "" && id !in Rebuilt().queues.order
      modifies this, journal
      ensures Valid()
      ensures var entry, refusal := QueueEntry(id, kind, message), AcceptRefusal(old(state), old(run), kind, message, target);
        if refusal.Some? then error == refusal && unchanged(this) && unchanged(journal)
        else if error.None? then
          && journal.entries == old(journal.entries) + AcceptBatch(entry, command)
          && queue == old(queue) + [entry] && state == old(state) && run == old(run)
        else error == Some(AppendRefused) && Refused(AcceptBatch(entry, command), canceled)
    {
      hide Valid, Follows, Refused;
      error := AcceptRefusal(state, run, kind, message, target);
      if error.None? {
        assert AcceptanceError(state, kind).None?;
        var ok := CommitAcceptance(QueueEntry(id, kind, message), command, canceled);
        error := if ok then None else Some(AppendRefused);
      }
    }

    // -------------------------------------------------------------------
    // Starting a run.

    /** The loop that moves the waiting next-turn inputs into the transcript. */
    method TakeNextTurns(next: seq<QueueEntry>)
      modifies this`queue, this`messages
      ensures queue == RemoveAll(old(queue), next) && messages == old(messages) + MessagesOf(next)
    {
      for i := 0 to |next|
        invariant RemoveAll(queue, next[i..]) == RemoveAll(old(queue), next)
        invariant messages == old(messages) + MessagesOf(next)[..i]
      {
        assert next[i..][1..] == next[i + 1..];
        assert MessagesOf(next)[..i + 1] == MessagesOf(next)[..i] + [next[i].message];
        RemoveQueue(next[i].id);
        messages := messages + [next[i].message];
      }
      assert MessagesOf(next)[..|next|] == MessagesOf(next);
    }

    /** The in-memory half of a started run. */
    method BeginRun(next: seq<QueueEntry>, id: string, limits: Option<Limits>, instructions: string, prompt: Message)
      requires next == OfKinds(queue, {QueueNextTurn})
      modifies this`queue, this`messages, this`run, this`suspending, this`state
      ensures Value() == StartedImage(old(Value()), id, limits, instructions, prompt)
      ensures run == Value().run && !suspending && state == Running
    {
      hide OfKinds, RemoveAll, ProviderHistory;
      TakeNextTurns(next);
      var history := InterleaveMarkers(messages, contextMarkers);
      messages := messages + [prompt];
      run := Some(NewRun(id, DriveStart, history, [prompt], |contextMarkers|, limits, instructions));
      suspending := false;
      state := Running;
    }

    lemma StandingQueue()
      requires Valid() && Live()
      ensures DistinctEntries(queue)
    {
      PendingWaits(Rebuilt().queues);
    }

    method CommitStart(id: string, limits: Option<Limits>, instructions: string, prompt: Message, command: Option<Command>,
                       canceled: bool) returns (ok: bool)
      requires Valid() && state == Idle && id != "" && prompt.role == RoleUser && PlainCommand(command)
      modifies this, journal
      ensures Valid()
      ensures var batch := StartBatch(id, limits, instructions, OfKinds(old(queue), {QueueNextTurn}), prompt, command);
        if ok then
          && journal.entries == old(journal.entries) + batch && state == Running && !suspending
          && Value() == StartedImage(old(Value()), id, limits, instructions, prompt) && run == Value().run
        else Refused(batch, canceled)
    {
      hide Follows, Refines, Recovered, LawfulJournal, Quiescent, StartBatch, PlainCommand, OfKinds, StartedImage, Settled;
      ghost var f := Rebuilt();
      LiveFacts(f, Value(), state, suspending, run);
      var next := QueueByKinds({QueueNextTurn});
      ghost var g := StartKeeps(f, Value(), suspending, run, id, limits, instructions, prompt, command);
      ok := AppendAcceptance(StartBatch(id, limits, instructions, next, prompt, command), canceled, g);
      if ok {
        BeginRun(next, id, limits, instructions, prompt);
      }
    }

    /** The durable half of Prompt: None accepts the run, which the driver then starts on `run.value.history`. */
    method PrepareStart(prompt: Message, id: string, instructions: string, command: Option<Command>, canceled: bool)
        returns (error: Option<SessionError>)
      requires Valid() && id != "" && PlainCommand(command)
      modifies this, journal
      ensures Valid()
      ensures var limits := RunLimits(budget, old(usage));
        var batch := StartBatch(id, limits.GetOr(None), instructions, OfKinds(old(queue), {QueueNextTurn}), prompt, command);
        if prompt.role != RoleUser then error == Some(InvalidMessage) && unchanged(this) && unchanged(journal)
        else if old(state) != Idle then error == PromptError(old(state)) && unchanged(this) && unchanged(journal)
        else if limits.None? then error == Some(BudgetExhausted) && unchanged(this) && unchanged(journal)
        else if error.None? then
          && journal.entries == old(journal.entries) + batch && state == Running && !suspending
          && Value() == StartedImage(old(Value()), id, limits.value, instructions, prompt) && run == Value().run
        else error == Some(AppendRefused) && Refused(batch, canceled)
      // Of a start that is otherwise acceptable, exactly the one on a spent budget is refused; any other gets the rest of the budget.
      ensures error == Some(BudgetExhausted) <==> prompt.role == RoleUser && old(state) == Idle && OverBudget(budget, old(usage))
      ensures error.None? ==> run.Some? && MakesUp(budget, old(usage), run.value.limits)
      ensures error.None? ==>
        |journal.entries| > old(|journal.entries|)
        && journal.entries[old(|journal.entries|)] == RunOpened(id, DriveStart, run.value.limits, instructions)
      // It takes the waiting next-turn inputs, in acceptance order, and leaves the others in theirs.
      ensures error.None? ==>
        exists taken :: Taken(old(queue), {QueueNextTurn}, taken, queue) && messages == old(messages) + MessagesOf(taken) + [prompt]
    {
      hide Valid, StartBatch, StartedImage, OfKinds, PlainCommand, Refused, RunLimits, MakesUp, OverBudget, Taken;
      LimitsExact(budget, usage);
      if prompt.role != RoleUser {
        return Some(InvalidMessage);
      }
      if state != Idle {
        return PromptError(state);
      }
      var limits := RunLimits(budget, usage);
      if limits.None? {
        return Some(BudgetExhausted);
      }
      ghost var before, entries := Value(), journal.entries;
      StandingQueue();
      var ok := CommitStart(id, limits.value, instructions, prompt, command, canceled);
      error := if ok then None else Some(AppendRefused);
      if ok {
        StartTakes(before, id, limits.value, instructions, prompt);
        StartOpens(entries, id, limits.value, instructions, OfKinds(before.queue, {QueueNextTurn}), prompt, command);
      }
    }

    // -------------------------------------------------------------------
    // The turn boundary.

    method HoldInjection(entries: seq<QueueEntry>)
      requires run.Some?
      modifies this`queue, this`run
      ensures queue == RemoveAll(old(queue), entries) && run == Some(WithInjection(old(run).value, IdsOf(entries)))
      ensures Value() == old(Value()).(queue := RemoveAll(old(queue), entries))
    {
      RemoveEntries(entries);
      run := Some(run.value.(volatile := run.value.volatile.(pendingInjectionIds := IdsOf(entries))));
    }

    method CommitInjection(entries: seq<QueueEntry>) returns (ok: bool)
      requires Valid() && state == Running && Waits(Rebuilt().queues, entries)
      modifies this, journal
      ensures Valid()
      ensures ok ==>
        && journal.entries == old(journal.entries) + DrainBatch(entries) && state == Running && suspending == old(suspending)
        && Value() == old(Value()).(queue := RemoveAll(old(queue), entries))
        && old(run).Some? && run == Some(WithInjection(old(run).value, IdsOf(entries)))
        && InjectionMatches(Rebuilt().queues.drained, MessagesOf(entries), IdsOf(entries))
      ensures !ok ==> state == Faulted && AtMostAppended(DrainBatch(entries))
    {
      hide Follows, Refines, Recovered, LawfulJournal, Quiescent, DrainBatch, InjectionMatches, Waits, Settled, RemoveAll, WithInjection,
        StartsWithSystem, OnlyNextTurn, NoTargeted;
      ghost var f := Rebuilt();
      LiveFacts(f, Value(), state, suspending, run);
      ghost var g := HookKeeps(f, Value(), suspending, run, entries);
      ok := Append(DrainBatch(entries), g);
      if ok {
        HoldInjection(entries);
      }
    }

    method ChooseInputs(candidate: bool) returns (entries: seq<QueueEntry>)
      ensures entries == HookInputs(queue, candidate, drainAll)
    {
      entries := QueueByKinds({QueueSteer});
      if |entries| == 0 && candidate {
        entries := QueueByKinds({QueueFollowUp});
      }
      if |entries| > 0 && !drainAll {
        entries := entries[..1];
      }
    }

    /** Nothing moved but the state. */
    twostate predicate StateOnly()
      reads this
    {
      Value() == old(Value()) && run == old(run) && suspending == old(suspending)
    }

    /** The turn hook: drained inputs to inject, the default, or an error. */
    method TurnHook(candidate: bool) returns (answer: HookAnswer)
      requires Valid()
      modifies this, journal
      ensures Valid()
      ensures old(state) != Running ==> answer == HookFailed(HookError(old(state))) && unchanged(this) && unchanged(journal)
      ensures old(state) == Running ==>
        var inputs := HookInputs(old(queue), candidate, drainAll);
        var exhausted := ChildExhausted(budget, old(usage), old(run).value);
        if inputs == [] && candidate then
          // Nothing is left for the run, and nothing more can be aimed at it.
          answer == HookDefault && state == Closing && OnlyNextTurn(queue) && StateOnly() && unchanged(journal)
        else if exhausted then answer == HookFailed(BudgetExhausted) && state == Closing && StateOnly() && unchanged(journal)
        else if inputs == [] then answer == HookDefault && state == Running && StateOnly() && unchanged(journal)
        else if answer.HookInject? then
          && answer.messages == MessagesOf(inputs) && state == Running && suspending == old(suspending)
          && journal.entries == old(journal.entries) + DrainBatch(inputs)
          && Value() == old(Value()).(queue := RemoveAll(old(queue), inputs))
          && run == Some(WithInjection(old(run).value, IdsOf(inputs)))
          && InjectionMatches(Rebuilt().queues.drained, answer.messages, IdsOf(inputs))
        else answer == HookFailed(AppendRefused) && state == Faulted && AtMostAppended(DrainBatch(inputs))
      // Told by places in the queue: what is due is taken in turn, and nothing is due exactly when the default answer is given.
      ensures answer.HookInject? ==>
        exists taken | TakenInTurn(old(queue), candidate, drainAll, taken, queue) ::
          taken != [] && answer.messages == MessagesOf(taken) && journal.entries == old(journal.entries) + DrainBatch(taken)
      ensures answer == HookDefault ==> Due(old(queue), candidate) == {} && queue == old(queue) && (state == Closing <==> candidate)
      ensures answer == HookFailed(BudgetExhausted) <==>
        && old(state) == Running && (Due(old(queue), candidate) != {} || !candidate)
        && old(run).value.childUsageCharged && OverBudget(budget, old(usage))
    {
      hide TakenInTurn, Due, OverBudget, RemoveAll, Healthy, NoTargeted, StartsWithSystem, WithInjection;
      hide Refines, Recovered, LawfulJournal, Quiescent, DrainBatch, InjectionMatches, Waits, OnlyNextTurn, HookInputs, RemainingLimits;
      if state != Running {
        return HookFailed(HookError(state));
      }
      LiveFacts(Rebuilt(), Value(), state, suspending, run);
      HookInputsWait(Rebuilt(), candidate, drainAll);
      StandingQueue();
      HookTakes(queue, candidate, drainAll);
      LimitsExact(budget, usage);
      ClosingKeeps(Rebuilt(), Value(), suspending, run);
      var exhausted := ChildExhausted(budget, usage, run.value);
      var entries := ChooseInputs(candidate);
      if |entries| == 0 {
        if candidate {
          state := Closing;
        } else if exhausted {
          state := Closing;
          return HookFailed(BudgetExhausted);
        }
        return HookDefault;
      }
      if exhausted {
        state := Closing;
        return HookFailed(BudgetExhausted);
      }
      var ok := CommitInjection(entries);
      answer := if ok then HookInject(MessagesOf(entries)) else HookFailed(AppendRefused);
    }

    // -------------------------------------------------------------------
    // Driver events.

    /** applyAgenticEventLocked, and the acknowledgement of a resumed start. */
    method ApplyEvent(event: Event)
      requires run.Some?
      modifies this`messages, this`run, this`suspension
      ensures messages == Extend(old(messages), Committed(EventEntry(event, [], None)))
      ensures run == Some(EmittedRun(old(run).value, event).(lastUsage := old(run).value.lastUsage))
      ensures suspension == if event.RunSuspended? then Some(event.suspension) else old(suspension)
    {
      var r := run.value;
      match event
      case AssistantCommitted(message) =>
        messages := messages + [message];
        run := Some(r.(expected := r.expected + [message]));
      case ToolResultCommitted(result) =>
        messages := messages + [ResultMessage(result)];
        run := Some(r.(expected := r.expected + [ResultMessage(result)],
                       calls := r.calls.(results := r.calls.results + {result.toolUseId})));
      case ToolBatchPlanned(calls) =>
        run := Some(r.(calls := r.calls.(planned := r.calls.planned + calls)));
      case ToolStarted(call) =>
        run := Some(r.(calls := r.calls.(started := r.calls.started + {call.id})));
      case MessagesInjected(injected) =>
        messages := Extend(messages, injected);
        run := Some(r.(expected := Extend(r.expected, injected), volatile := r.volatile.(pendingInjectionIds := [])));
      case RunStarted =>
        if r.volatile.resumeInProgress {
          run := Some(r.(volatile := r.volatile.(resumeEventSeen := true)));
        }
      case RunSuspended(value) =>
        suspension := Some(value);
      case _ =>
    }

    /** The in-memory half of a durable event. */
    method ApplyDurable(event: Event, used: Option<Usage>)
      requires run.Some? && UsageAfter(usage, run.value.lastUsage, event) == Some(used)
      modifies this`messages, this`run, this`suspension, this`usage, this`suspending
      ensures Value() == EmittedImage(old(Value()), event, used) && run == Some(EmittedRun(old(run).value, event))
      ensures suspending == Suspending(old(suspending), event)
    {
      hide CallStep, Extend, EmittedImage, EmittedRun, Settled, Committed;
      EmittedValue(Value(), run.value, event, used);
      ApplyEvent(event);
      if event.TurnEnded? {
        usage := used.GetOr(usage);
        run := Some(run.value.(lastUsage := event.usage));
      }
      suspending := Suspending(suspending, event);
    }

    method CommitEvent(event: Event, used: Option<Usage>) returns (ok: bool)
      requires Valid() && Live() && run.Some? && EmitContract(Rebuilt(), state, suspending, run.value, event)
      requires UsageAfter(usage, run.value.lastUsage, event) == Some(used)
      modifies this, journal
      ensures Valid()
      ensures var batch := [EventEntry(event, EmitIds(old(run).value, event), used)];
        if ok then
          && journal.entries == old(journal.entries) + batch && state == old(state) && run == Some(EmittedRun(old(run).value, event))
          && Value() == EmittedImage(old(Value()), event, used) && suspending == Suspending(old(suspending), event)
        else state == Faulted && AtMostAppended(batch)
    {
      hide Follows, Refines, Recovered, LawfulJournal, Quiescent, EmitContract, UsageAfter, Suspending,
        EmittedImage, EmittedRun, Settled;
      ghost var g := EmitKeeps(Rebuilt(), Value(), state, suspending, run.value, event);
      var ids := if event.MessagesInjected? then run.value.volatile.pendingInjectionIds else [];
      ok := Append([EventEntry(event, ids, used)], g);
      if ok {
        ApplyDurable(event, used);
      }
    }

    /** One durable driver event: journaled first, applied after. */
    method Emit(event: Event) returns (error: Option<SessionError>)
      requires Valid() && state != Closed
      requires Live() && run.Some? ==> EmitContract(Rebuilt(), state, suspending, run.value, event)
      modifies this, journal
      ensures Valid()
      ensures old(state) == Faulted ==> error == Some(SessionFaulted) && unchanged(this) && unchanged(journal)
      ensures old(Live() && run.None?) ==> error == Some(NoRun) && unchanged(this) && unchanged(journal)
      ensures old(Live() && run.Some?) ==>
        match UsageAfter(old(usage), old(run).value.lastUsage, event)
        case None => error == Some(UsageBackwards) && state == Faulted && unchanged(journal)
        case Some(used) =>
          var batch := [EventEntry(event, EmitIds(old(run).value, event), used)];
          if error.None? then
            && journal.entries == old(journal.entries) + batch && state == old(state) && run == Some(EmittedRun(old(run).value, event))
            && Value() == EmittedImage(old(Value()), event, used) && suspending == Suspending(old(suspending), event)
          else error == Some(AppendRefused) && state == Faulted && AtMostAppended(batch)
    {
      hide Refines, Recovered, LawfulJournal, Quiescent, EmitContract, EmittedImage, EmittedRun, EmitIds;
      if state == Faulted {
        return Some(SessionFaulted);
      }
      if run.None? {
        return Some(NoRun);
      }
      var used := UsageAfter(usage, run.value.lastUsage, event);
      if used.None? {
        state := Faulted;
        return Some(UsageBackwards);
      }
      var ok := CommitEvent(event, used.value);
      error := if ok then None else Some(AppendRefused);
    }

    // -------------------------------------------------------------------
    // Context projection.

    /** The first section of the history processor: the driver's transcript must be the view the session expects of it. */
    method InspectView(root: Transcript) returns (error: Option<SessionError>, full: Transcript)
      requires Valid() && state != Closed
      modifies this
      ensures Valid() && unchanged(journal)
      ensures old(state) == Faulted ==> error == Some(SessionFaulted)
      ensures old(state) == Idle ==> error == Some(NoRun)
      ensures old(Live() && run.Some?) ==>
        var views := old(ContextViews(messages, contextMarkers, run.value.markerCount, root));
        if views.0 == root then error.None? && unchanged(this) && full == views.1
        else error == Some(ProjectionMismatch) && state == Faulted
    {
      full := [];
      if state == Faulted {
        return Some(SessionFaulted), full;
      }
      LiveFacts(Rebuilt(), Value(), state, suspending, run);
      if run.None? {
        return Some(NoRun), full;
      }
      var views := ContextViews(messages, contextMarkers, run.value.markerCount, root);
      if views.0 != root {
        state := Faulted;
        return Some(ProjectionMismatch), full;
      }
      return None, views.1;
    }

    method AddMarkers(additions: Transcript, recipe: Option<Compaction>)
      modifies this`contextMarkers, this`compaction
      ensures Value() == old(Value()).(markers := old(contextMarkers) + MarkersAt(|messages|, additions),
                                       compaction := if recipe.Some? then recipe else old(compaction))
    {
      contextMarkers := contextMarkers + MarkersAt(|messages|, additions);
      compaction := if recipe.Some? then recipe else compaction;
    }

    method CommitMarkers(additions: Transcript, recipe: Option<Compaction>) returns (ok: bool)
      requires Valid() && state == Running && ContextTail(additions)
      modifies this, journal
      ensures Valid()
      ensures var batch := ContextStepBatch(|old(messages)|, additions, recipe);
        if ok then
          && journal.entries == old(journal.entries) + batch && state == Running && run == old(run) && suspending == old(suspending)
          && Value() == old(Value()).(markers := old(contextMarkers) + MarkersAt(|messages|, additions),
                                      compaction := if recipe.Some? then recipe else old(compaction))
        else state == Faulted && AtMostAppended(batch)
    {
      hide Follows, Refines, Recovered, LawfulJournal, Quiescent, ContextStepBatch, Settled, StartsWithSystem, OnlyNextTurn, NoTargeted, MarkersAt;
      LiveFacts(Rebuilt(), Value(), state, suspending, run);
      ghost var g := ContextKeeps(Rebuilt(), Value(), state, suspending, run, additions, recipe);
      ok := Append(ContextStepBatch(|messages|, additions, recipe), g);
      if ok {
        AddMarkers(additions, recipe);
      }
    }

    /** The second section: durable additions and a replaced recipe are journaled before the request is built. */
    method CommitContext(additions: Transcript, recipe: Option<Compaction>) returns (error: Option<SessionError>)
      requires Valid() && ContextTail(additions)
      modifies this, journal
      ensures Valid()
      ensures old(state) == Faulted ==> error == Some(SessionFaulted) && unchanged(this) && unchanged(journal)
      ensures old(state) != Faulted && old(state) != Running ==> error == Some(RunCanceled) && unchanged(this) && unchanged(journal)
      ensures old(state) == Running ==>
        if additions == [] && recipe.None? then error.None? && unchanged(this) && unchanged(journal)
        else if error.None? then
          && journal.entries == old(journal.entries) + ContextStepBatch(|old(messages)|, additions, recipe)
          && Value() == old(Value()).(markers := old(contextMarkers) + MarkersAt(|messages|, additions),
                                      compaction := if recipe.Some? then recipe else old(compaction))
          && state == Running && run == old(run) && suspending == old(suspending)
        else error == Some(AppendRefused) && state == Faulted
             && AtMostAppended(ContextStepBatch(|old(messages)|, additions, recipe))
    {
      hide Valid, ContextStepBatch, ContextTail;
      if state == Faulted {
        return Some(SessionFaulted);
      }
      if state != Running {
        return Some(RunCanceled);
      }
      if |additions| == 0 && recipe.None? {
        return None;
      }
      var ok := CommitMarkers(additions, recipe);
      error := if ok then None else Some(AppendRefused);
    }

    // -------------------------------------------------------------------
    // Settling an execution.

    /** A handle in step with its journal inside a run, whatever its volatile state. */
    ghost predicate Standing()
      reads this, journal
    {
      && LawfulJournal(journal.entries) && Quiescent(Rebuilt())
      && cursor == |journal.entries| && !acceptanceFault && Live()
      && Holds(Rebuilt(), Value(), run) && run.Some?
      && run.value.volatile.publicNewStart <= |run.value.expected|
    }

    /** persistFaultLocked: the fault is journaled if the store still answers, and the handle is unusable either way. */
    method PersistFault()
      requires Standing()
      modifies this, journal
      ensures Valid() && state == Faulted && AtMostAppended([FaultEntry]) && acceptanceFault == old(acceptanceFault)
    {
      hide Follows, Holds, Recovered, LawfulJournal, Quiescent, Settled;
      ghost var g := FaultKeeps(Rebuilt(), Value(), run);
      var ok := Append([FaultEntry], g);
      state := Faulted;
    }

    /** A system message the driver inserted moves in front of the transcript, past every marker. */
    method PrependSystem(system: Option<Message>)
      modifies this`messages, this`contextMarkers
      ensures messages == if system.Some? then [system.value] + old(messages) else old(messages)
      ensures contextMarkers == if system.Some? then ShiftMarkers(old(contextMarkers)) else old(contextMarkers)
    {
      if system.Some? {
        contextMarkers := ShiftMarkers(contextMarkers);
        messages := [system.value] + messages;
      }
    }

    method CancelTargeted(cancel: bool)
      modifies this`queue
      ensures queue == QueueAfter(old(queue), cancel)
    {
      if cancel {
        var toCancel := QueueByKinds(Targeted);
        RemoveEntries(toCancel);
      }
    }

    /** The in-memory half of a closed run. */
    method EndRun(used: Usage, system: Option<Message>, cancel: bool)
      modifies this`usage, this`messages, this`contextMarkers, this`queue, this`run, this`suspension, this`suspending, this`state
      ensures Value() == ClosedImage(old(Value()), used, system, QueueAfter(old(queue), cancel), None)
      ensures run.None? && !suspending && state == Idle
    {
      hide QueueAfter;
      usage := used;
      PrependSystem(system);
      CancelTargeted(cancel);
      run, suspension, suspending := None, None, false;
      state := Idle;
    }

    /** The in-memory half of a settled pause. */
    method PauseRun(reported: Usage, paused: Suspension, system: Option<Message>)
      requires run.Some? && UsageDelta(reported, run.value.lastUsage).Some? && suspension == Some(paused)
      modifies this`usage, this`messages, this`contextMarkers, this`run, this`suspension, this`suspending, this`state
      ensures Value() == PausedImage(old(Value()), old(run).value, reported, system)
      ensures run == Some(PausedRun(old(run).value, reported, system)) && suspension == Some(paused)
      ensures !suspending && state == Suspended
    {
      hide UsageDelta, AddUsage, PausedRun;
      usage := AddUsage(usage, UsageDelta(reported, run.value.lastUsage).value);
      PrependSystem(system);
      run := Some(PausedRun(run.value, reported, system));
      suspension := Some(paused);
      suspending := false;
      state := Suspended;
    }

    /** The in-memory half of an interrupted run. */
    method EndInterrupted(added: Transcript, used: Usage, system: Option<Message>)
      requires run.Some?
      modifies this`usage, this`messages, this`contextMarkers, this`queue, this`run, this`suspension, this`suspending, this`state
      ensures Value() == ClosedImage(WithRepair(old(Value()), added), used, system, QueueAfter(old(queue), true), Some(INTERRUPTION))
      ensures run.None? && !suspending && state == Idle
    {
      hide QueueAfter;
      messages := messages + added;
      EndRun(used, system, true);
      contextMarkers := contextMarkers + [ContextMarker(|messages|, InterruptionContextMessage(INTERRUPTION))];
    }

    method CommitPause(result: ExecutionResult, paused: Suspension, system: Option<Message>) returns (ok: bool)
      requires Valid() && (state == Running || state == Closing) && run.Some?
      requires suspending && suspension == Some(paused)
      requires Reportable(run.value.lastUsage, result.usage) && Insertable(run.value, system)
      modifies this, journal
      ensures Valid()
      ensures var batch := SuspendBatch(old(Value()), result.usage, system);
        if ok then
          && journal.entries == old(journal.entries) + batch && state == Suspended && suspension == Some(paused)
          && run == Some(PausedRun(old(run).value, result.usage, system))
          && Value() == PausedImage(old(Value()), old(run).value, result.usage, system)
        else state == Faulted && AtMostAppended(batch)
    {
      hide Follows, Refines, Recovered, LawfulJournal, Quiescent, SuspendBatch, UsageDelta, AddUsage, StartsWithSystem, PausedRun, Insertable, UsageTail, PausedImage;
      ghost var g := PauseKeeps(Rebuilt(), Value(), state, run.value, result.usage, system);
      var batch := SuspendBatch(Value(), result.usage, system);
      ok := AppendIfAny(batch, g);
      if ok {
        PauseRun(result.usage, paused, system);
      }
    }

    method CommitClose(reported: Option<Usage>, system: Option<Message>, cancel: bool, status: Status) returns (ok: bool)
      requires Standing() && Insertable(run.value, system)
      requires reported.Some? ==> Reportable(run.value.lastUsage, reported.value)
      requires !cancel ==> OnlyNextTurn(queue)
      modifies this, journal
      ensures Valid()
      ensures var batch := CloseBatch(old(Value()), reported, system, cancel, None, status);
        if ok then
          && journal.entries == old(journal.entries) + batch && state == Idle && run.None?
          && Value() == ClosedImage(old(Value()), UsedAfter(old(Value()), reported), system, QueueAfter(old(queue), cancel), None)
        else state == Faulted && AtMostAppended(batch)
    {
      hide Follows, Recovered, LawfulJournal, Quiescent, CloseBatch, UsageDelta, AddUsage, StartsWithSystem, OfKinds, RemoveAll,
        OnlyNextTurn, Refines, QueueAfter, UsedAfter, ClosedImage;
      HoldsFacts(Rebuilt(), Value(), run);
      ghost var g := CloseKeeps(Rebuilt(), Value(), run.value, reported, system, cancel, None, status);
      ok := Append(CloseBatch(Value(), reported, system, cancel, None, status), g);
      if ok {
        EndRun(UsedAfter(Value(), reported), system, cancel);
      }
    }

    method CommitInterrupt(added: Transcript, reported: Option<Usage>, system: Option<Message>) returns (ok: bool)
      requires Standing() && Insertable(run.value, system) && (added != [] ==> messages != [])
      requires reported.Some? ==> Reportable(run.value.lastUsage, reported.value)
      modifies this, journal
      ensures Valid()
      ensures var batch := InterruptBatch(old(Value()), added, reported, system, INTERRUPTION);
        if ok then
          && journal.entries == old(journal.entries) + batch && state == Idle && run.None?
          && Value() == ClosedImage(WithRepair(old(Value()), added), UsedAfter(old(Value()), reported), system,
                                    QueueAfter(old(queue), true), Some(INTERRUPTION))
          && Unapplied(Rebuilt().queues) == old(Unapplied(Rebuilt().queues))
        else state == Faulted && AtMostAppended(batch)
    {
      hide Follows, Recovered, LawfulJournal, Quiescent, InterruptBatch, UsageDelta, AddUsage, StartsWithSystem, OfKinds, RemoveAll,
        Refines, Holds, QueueAfter, UsedAfter, ClosedImage, WithRepair, Insertable;
      ghost var g := InterruptKeeps(Rebuilt(), Value(), run.value, added, reported, system, INTERRUPTION);
      ok := Append(InterruptBatch(Value(), added, reported, system, INTERRUPTION), g);
      if ok {
        EndInterrupted(added, UsedAfter(Value(), reported), system);
      }
    }

    /** pendingCallsLocked: the open calls, those started without a durable result marked indeterminate. */
    method PendingCallsNow() returns (pending: PendingCalls)
      requires run.Some?
      ensures pending == PendingCallsOf(messages, run.value.calls)
    {
      var inspected := InspectFrontier(messages);
      var open, log := inspected.GetOr([]), run.value.calls;
      var calls: seq<PendingCall> := [];
      for i := 0 to |open|
        invariant calls == PendingOf(open, log)[..i]
      {
        var call := open[i];
        var callState := if call.id in log.started && call.id !in log.results then PendingIndeterminate else PendingPlanned;
        calls := calls + [PendingCall(call.id, call.name, callState)];
      }
      assert PendingOf(open, log)[..|open|] == PendingOf(open, log);
      return PendingCalls(calls, "");
    }

    /** Repair of the committed transcript: what it adds, or the error that it rewrote something. */
    method RepairAdditions() returns (error: Option<SessionError>, added: Transcript)
      requires run.Some?
      ensures error == RepairFailure(messages, run.value.calls)
      ensures error.None? ==> Additions(messages, run.value.calls) == Some(added)
    {
      added := [];
      var pending := PendingCallsNow();
      var repaired := ProcessMessages(messages, CloseInterruptedFrontier, pending);
      if repaired.None? {
        return Some(TranscriptBroken), added;
      }
      if |repaired.value| < |messages| || repaired.value[..|messages|] != messages {
        return Some(ProjectionMismatch), added;
      }
      return None, repaired.value[|messages|..];
    }

    /** A failed settlement: the store refused the batch, or the fault was journaled instead. */
    twostate predicate SettlementFailed(error: SessionError, batch: seq<Entry>)
      reads this, journal
    {
      && state == Faulted && (error == AppendRefused || error == ProjectionMismatch || error == TranscriptBroken || error == UsageBackwards)
      && AtMostAppended(if error == AppendRefused then batch else [FaultEntry])
    }

    /** Settles an interrupted run: repair the frontier, cancel what was aimed at the run, and close it under a marker. */
    method FinishInterrupt(execution: Option<Execution>) returns (error: Option<SessionError>)
      requires Standing() && ReportContract(run.value, execution)
      modifies this, journal
      ensures Valid()
      ensures var before, r := old(Value()), old(run).value;
        var projected, reported := ProjectedSystem(r, execution), ReportedUsage(execution);
        var added := Additions(old(messages), r.calls);
        if projected.Mismatch? then error == Some(ProjectionMismatch) && SettlementFailed(ProjectionMismatch, [])
        else if added.None? then
          error == RepairFailure(old(messages), r.calls) && error.Some? && SettlementFailed(error.value, [])
        else if reported.Some? && UsageDelta(reported.value, r.lastUsage).None? then
          error == Some(UsageBackwards) && SettlementFailed(UsageBackwards, [])
        else
          var batch := InterruptBatch(before, added.value, reported, projected.system, INTERRUPTION);
          if error.None? then
            && journal.entries == old(journal.entries) + batch && state == Idle && run.None?
            && Value() == ClosedImage(WithRepair(before, added.value), UsedAfter(before, reported), projected.system,
                                      QueueAfter(old(queue), true), Some(INTERRUPTION))
            // Inputs that were drained but never reached the transcript stay that way.
            && Unapplied(Rebuilt().queues) == old(Unapplied(Rebuilt().queues))
          else error == Some(AppendRefused) && SettlementFailed(AppendRefused, batch)
    {
      hide Valid, Holds, Recovered, LawfulJournal, Quiescent, Additions, UsageDelta, ReportContract, ValidateProjection,
        InterruptBatch, ClosedImage, WithRepair, UsedAfter, QueueAfter, Insertable, Reportable;
      var projected := ProjectedSystem(run.value, execution);
      if projected.Mismatch? {
        PersistFault();
        return Some(ProjectionMismatch);
      }
      ProjectedIsInsertable(run.value, execution);
      var failure, added := RepairAdditions();
      if failure.Some? {
        PersistFault();
        return failure;
      }
      EmptyNeedsNoRepair(messages, run.value.calls);
      var reported := ReportedUsage(execution);
      if reported.Some? && UsageDelta(reported.value, run.value.lastUsage).None? {
        PersistFault();
        return Some(UsageBackwards);
      }
      var ok := CommitInterrupt(added, reported, projected.system);
      error := if ok then None else Some(AppendRefused);
    }

    /** The closing path of finishExecution: validate, account, cancel unless the run completed, and close. */
    method FinishClosed(execution: Option<Execution>, failed: bool) returns (error: Option<SessionError>)
      requires Standing() && ReportContract(run.value, execution)
      requires StatusOf(execution) == ExecutionCompleted && !failed ==> OnlyNextTurn(queue)
      modifies this, journal
      ensures Valid()
      ensures var before, r := old(Value()), old(run).value;
        var projected, reported := ProjectedSystem(r, execution), ReportedUsage(execution);
        var cancel := StatusOf(execution) != ExecutionCompleted || failed;
        if projected.Mismatch? then error == Some(ProjectionMismatch) && SettlementFailed(ProjectionMismatch, [])
        else if reported.Some? && UsageDelta(reported.value, r.lastUsage).None? then
          error == Some(UsageBackwards) && SettlementFailed(UsageBackwards, [])
        else
          var batch := CloseBatch(before, reported, projected.system, cancel, None, StatusOf(execution));
          if error.None? then
            && journal.entries == old(journal.entries) + batch && state == Idle && run.None?
            && Value() == ClosedImage(before, UsedAfter(before, reported), projected.system, QueueAfter(old(queue), cancel), None)
          else error == Some(AppendRefused) && SettlementFailed(AppendRefused, batch)
    {
      hide Valid, Holds, Recovered, LawfulJournal, Quiescent, UsageDelta, ReportContract, ValidateProjection,
        CloseBatch, ClosedImage, UsedAfter, QueueAfter, Insertable, Reportable, OnlyNextTurn;
      var projected := ProjectedSystem(run.value, execution);
      if projected.Mismatch? {
        PersistFault();
        return Some(ProjectionMismatch);
      }
      ProjectedIsInsertable(run.value, execution);
      var reported := ReportedUsage(execution);
      if reported.Some? && UsageDelta(reported.value, run.value.lastUsage).None? {
        PersistFault();
        return Some(UsageBackwards);
      }
      var status := StatusOf(execution);
      var ok := CommitClose(reported, projected.system, status != ExecutionCompleted || failed, status);
      error := if ok then None else Some(AppendRefused);
    }

    /** The suspended path of finishExecution. */
    method FinishPause(execution: Execution) returns (error: Option<SessionError>)
      requires Valid() && (state == Running || state == Closing) && run.Some? && ReportContract(run.value, Some(execution))
      requires execution.result.Some? && execution.suspension.Some? ==> suspending && suspension == execution.suspension
      requires run.value.volatile.publicNewStart <= |run.value.expected|
      modifies this, journal
      ensures Valid()
      ensures var before, r := old(Value()), old(run).value;
        if execution.result.None? || execution.suspension.None? then
          error == Some(ProjectionMismatch) && SettlementFailed(ProjectionMismatch, [])
        else if ValidateProjection(r, execution.result.value).Mismatch? then
          error == Some(ProjectionMismatch) && SettlementFailed(ProjectionMismatch, [])
        else if UsageDelta(execution.result.value.usage, r.lastUsage).None? then
          error == Some(UsageBackwards) && SettlementFailed(UsageBackwards, [])
        else
          var system, reported := ValidateProjection(r, execution.result.value).system, execution.result.value.usage;
          if error.None? then
            && journal.entries == old(journal.entries) + SuspendBatch(before, reported, system)
            && state == Suspended && suspension == execution.suspension
            && run == Some(PausedRun(r, reported, system)) && Value() == PausedImage(before, r, reported, system)
          else error == Some(AppendRefused) && SettlementFailed(AppendRefused, SuspendBatch(before, reported, system))
    {
      LiveFacts(Rebuilt(), Value(), state, suspending, run);
      if execution.result.None? || execution.suspension.None? {
        PersistFault();
        return Some(ProjectionMismatch);
      }
      var result := execution.result.value;
      var projected := ValidateProjection(run.value, result);
      if projected.Mismatch? {
        PersistFault();
        return Some(ProjectionMismatch);
      }
      ProjectedIsInsertable(run.value, Some(execution));
      if UsageDelta(result.usage, run.value.lastUsage).None? {
        PersistFault();
        return Some(UsageBackwards);
      }
      var ok := CommitPause(result, execution.suspension.value, projected.system);
      error := if ok then None else Some(AppendRefused);
    }

    /** What the driver promises when it returns, on a handle inside a run. */
    ghost predicate ExecutionContract(execution: Option<Execution>, error: RunError)
      requires LawfulJournal(journal.entries)
      reads this, journal
    {
      run.Some? ==> ReturnContract(Rebuilt(), state, suspending, suspension, run.value, execution, error)
    }

    /** A usable handle inside a run stands on its journal. */
    lemma Stands()
      requires Valid() && Live()
      ensures run.Some? <==> state != Idle
      ensures run.Some? ==> Standing()
      ensures Rebuilt().phase.completed ==> OnlyNextTurn(queue)
    {
      LiveFacts(Rebuilt(), Value(), state, suspending, run);
    }

    /** The silent bounce: the driver refused the resolution before it reported a start. */
    method Bounce()
      requires Valid() && (state == Running || state == Closing) && run.Some? && ResumeWindow(run.value.volatile)
      modifies this`run, this`suspending, this`state
      ensures Valid() && state == Suspended && Value() == old(Value())
      ensures run == Some(old(run).value.(volatile := old(run).value.volatile.(resumeInProgress := false)))
    {
      hide Refines, Recovered, LawfulJournal, Quiescent;
      BounceKeeps(Rebuilt(), Value(), state, suspending, run.value);
      run := Some(run.value.(volatile := run.value.volatile.(resumeInProgress := false)));
      suspending := false;
      state := Suspended;
    }

    /** The outcome of a settlement: a fault before the store is asked, the settled image behind its batch, or a refused batch. */
    twostate predicate Settles(execution: Option<Execution>, error: RunError, new failure: Option<SessionError>)
      reads this, journal
    {
      && old(run.Some? && run.value.volatile.publicNewStart <= |run.value.expected|)
      && var before, r := old(Value()), old(run).value;
      match SettlementFailure(before.messages, old(state), r, execution, error)
      case Some(fault) => failure == Some(fault) && SettlementFailed(fault, [])
      case None =>
        if failure.None? then
          && journal.entries == old(journal.entries) + SettlementBatch(before, old(state), r, execution, error)
          && Value() == SettledImage(before, old(state), r, execution, error)
          && match SettlementOf(old(state), r, execution, error)
             case SettleInterrupt => state == Idle && run.None?
             case SettleBounce => state == Suspended && run == Some(r.(volatile := r.volatile.(resumeInProgress := false)))
             case SettlePause =>
               && state == Suspended && suspension == execution.value.suspension
               && run == Some(PausedRun(r, ReportedUsage(execution).value, ProjectedSystem(r, execution).system))
             case SettleClose => state == Idle && run.None?
        else
          && !SettlementOf(old(state), r, execution, error).SettleBounce? && failure == Some(AppendRefused)
          && SettlementFailed(AppendRefused, SettlementBatch(before, old(state), r, execution, error))
    }

    method SettleInterrupted(execution: Option<Execution>, ghost error: RunError) returns (failure: Option<SessionError>)
      requires Standing() && ReportContract(run.value, execution) && SettlementOf(state, run.value, execution, error).SettleInterrupt?
      modifies this, journal
      ensures Valid() && Settles(execution, error, failure)
    {
      hide Valid, Holds, Recovered, LawfulJournal, Quiescent, Additions, UsageDelta, ReportContract, ValidateProjection, InterruptBatch,
        ClosedImage, WithRepair, UsedAfter, QueueAfter, Repaired, PendingCallsOf, Settled;
      failure := FinishInterrupt(execution);
    }

    method SettleClosed(execution: Option<Execution>, error: RunError) returns (failure: Option<SessionError>)
      requires Standing() && ReportContract(run.value, execution) && SettlementOf(state, run.value, execution, error).SettleClose?
      requires StatusOf(execution) == ExecutionCompleted && error == NoError ==> OnlyNextTurn(queue)
      modifies this, journal
      ensures Valid() && Settles(execution, error, failure)
    {
      hide Valid, Holds, Recovered, LawfulJournal, Quiescent, UsageDelta, ReportContract, ValidateProjection, CloseBatch,
        ClosedImage, UsedAfter, QueueAfter, OnlyNextTurn, RepairFailure, Settled;
      failure := FinishClosed(execution, error != NoError);
    }

    method SettlePaused(execution: Execution, ghost error: RunError) returns (failure: Option<SessionError>)
      requires Valid() && (state == Running || state == Closing) && Standing() && ReportContract(run.value, Some(execution))
      requires SettlementOf(state, run.value, Some(execution), error).SettlePause?
      requires execution.result.Some? && execution.suspension.Some? ==> suspending && suspension == execution.suspension
      modifies this, journal
      ensures Valid() && Settles(Some(execution), error, failure)
    {
      hide Valid, Holds, Recovered, LawfulJournal, Quiescent, UsageDelta, ReportContract, ValidateProjection, SuspendBatch,
        PausedImage, PausedRun, RepairFailure, Settled;
      failure := FinishPause(execution);
    }

    /** Settles whatever the driver returned. */
    method FinishExecution(execution: Option<Execution>, error: RunError) returns (failure: Option<SessionError>)
      requires Valid() && state != Closed && state != Suspended && ExecutionContract(execution, error)
      modifies this, journal
      ensures Valid()
      ensures old(state) == Faulted ==> failure == Some(SessionFaulted) && unchanged(this) && unchanged(journal)
      ensures old(state) == Idle ==> failure == Some(NoRun) && unchanged(this) && unchanged(journal)
      ensures old(Live() && run.Some?) ==> Settles(execution, error, failure)
    {
      hide Valid, Standing, Holds, Refines, Recovered, LawfulJournal, Quiescent, ReportContract, OnlyNextTurn;
      if state == Faulted {
        return Some(SessionFaulted);
      }
      Stands();
      if run.None? {
        return Some(NoRun);
      }
      match SettlementOf(state, run.value, execution, error)
      case SettleInterrupt =>
        failure := SettleInterrupted(execution, error);
      case SettleBounce =>
        Bounce();
        failure := None;
        assert journal.entries + [] == journal.entries;
      case SettlePause =>
        failure := SettlePaused(execution.value, error);
      case SettleClose =>
        failure := SettleClosed(execution, error);
    }

    // -------------------------------------------------------------------
    // Interrupts.

    method CommitInterruptRequest(command: Command, canceled: bool) returns (ok: bool)
      requires Valid() && Live() && run.Some? && command.runId == run.value.id
      requires command.kind == CommandInterrupt && command.rejection == ""
      modifies this, journal
      ensures Valid()
      ensures if ok then journal.entries == old(journal.entries) + [CommandAccepted(command)] && Value() == old(Value())
                         && state == old(state) && run == old(run) && Rebuilt().phase.pendingInterrupt == run.value.id
              else Refused([CommandAccepted(command)], canceled)
    {
      hide Follows, Refines, Recovered, LawfulJournal, Quiescent, Settled;
      ghost var g := InterruptRequestKeeps(Rebuilt(), Value(), state, suspending, run.value, command);
      ok := AppendAcceptance([CommandAccepted(command)], canceled, g);
    }

    /** The volatile half: the run is marked, and nothing more can be aimed at it. */
    method MarkInterrupting()
      requires Valid() && Live() && run.Some?
      modifies this`state, this`run
      ensures Valid() && state == Interrupting && run == Some(InterruptedRun(old(run).value)) && Value() == old(Value())
    {
      hide Follows, Refines, Recovered, LawfulJournal, Quiescent;
      InterruptAgrees(Rebuilt(), Value(), state, suspending, run.value);
      run := Some(run.value.(volatile := run.value.volatile.(interrupted := true)));
      state := Interrupting;
    }

    /** Requests cancellation of the active run; a non-empty target pins it, and a keyed command is journaled first. */
    method RequestInterrupt(target: string, command: Option<Command>, canceled: bool) returns (error: Option<SessionError>)
      requires Valid() && (command.Some? ==> command.value.kind == CommandInterrupt && command.value.rejection == "")
      modifies this, journal
      ensures Valid()
      ensures var refusal := InterruptRefusal(old(state), old(run), target);
        if refusal.Some? then error == refusal && unchanged(this) && unchanged(journal)
        else if error.None? then
          && old(run).Some? && (target != "" ==> old(run).value.id == target)
          && journal.entries == old(journal.entries) + CommandTail(Stamped(command, old(run).value.id))
          && state == Interrupting && run.Some? && run.value.id == old(run).value.id && Value() == old(Value())
          && (command.Some? ==> Rebuilt().phase.pendingInterrupt == run.value.id)
        else
          && error == Some(AppendRefused) && command.Some? && old(run).Some?
          && Refused(CommandTail(Stamped(command, old(run).value.id)), canceled)
    {
      hide Refines, Recovered, LawfulJournal, Quiescent, Settled;
      error := InterruptRefusal(state, run, target);
      if error.Some? {
        return;
      }
      LiveFacts(Rebuilt(), Value(), state, suspending, run);
      if command.Some? {
        var ok := CommitInterruptRequest(command.value.(runId := run.value.id), canceled);
        if !ok {
          return Some(AppendRefused);
        }
      } else {
        assert journal.entries + [] == journal.entries;
      }
      if state != Interrupting {
        MarkInterrupting();
      }
    }

    // -------------------------------------------------------------------
    // Resuming.

    method ResumeRun()
      requires run.Some?
      modifies this`run, this`suspending, this`state
      ensures run == Some(ResumedRun(old(run).value)) && !suspending && state == Running && Value() == old(Value())
    {
      run := Some(run.value.(volatile := run.value.volatile.(
        resumeInProgress := true, resumeEventSeen := false, publicNewStart := |run.value.expected|)));
      suspending := false;
      state := Running;
    }

    method CommitResume(suspensionId: string, command: Option<Command>, canceled: bool) returns (ok: bool)
      requires Valid() && state == Suspended && run.Some? && PlainCommand(command)
      modifies this, journal
      ensures Valid()
      ensures if ok then journal.entries == old(journal.entries) + ResumeBatch(suspensionId, command)
                         && state == Running && !suspending && run == Some(ResumedRun(old(run).value)) && Value() == old(Value())
              else Refused(ResumeBatch(suspensionId, command), canceled)
    {
      hide Follows, Refines, Recovered, LawfulJournal, Quiescent, ResumeBatch, PlainCommand, Settled, ResumedRun, Healthy, Holds, OnlyNextTurn,
        NoTargeted, StartsWithSystem;
      ghost var f := Rebuilt();
      LiveFacts(f, Value(), state, suspending, run);
      ResumeKeeps(f, Value(), suspending, run.value, suspensionId, command);
      ok := AppendAcceptance(ResumeBatch(suspensionId, command), canceled, f);
      if ok {
        ResumeRun();
      }
    }

    /** Accepts a planned resolution. `captured` is the suspension the planner saw, `planned` whether it accepted the request. */
    method PrepareResume(captured: Suspension, planned: bool, request: ResumeRequest, command: Option<Command>, canceled: bool)
        returns (error: Option<SessionError>)
      requires Valid() && PlainCommand(command) && captured.kind != INDETERMINATE
      modifies this, journal
      ensures Valid()
      ensures var refusal := ResumeRefusal(old(state), old(run), old(suspension), request);
        if !planned then error == Some(PlanRefused) && unchanged(this) && unchanged(journal)
        else if refusal.Some? then error == refusal && unchanged(this) && unchanged(journal)
        else if old(suspension).value.id != captured.id then error == Some(InvalidResume) && unchanged(this) && unchanged(journal)
        else
          var batch := ResumeBatch(captured.id, Stamped(command, old(run).value.id));
          if error.None? then
            && journal.entries == old(journal.entries) + batch && state == Running && !suspending
            && run == Some(ResumedRun(old(run).value)) && Value() == old(Value())
          else error == Some(AppendRefused) && Refused(batch, canceled)
    {
      hide Valid, ResumeBatch;
      if !planned {
        return Some(PlanRefused);
      }
      error := ResumeRefusal(state, run, suspension, request);
      if error.Some? {
        return;
      }
      if suspension.value.id != captured.id {
        return Some(InvalidResume);
      }
      var ok := CommitResume(captured.id, Stamped(command, run.value.id), canceled);
      error := if ok then None else Some(AppendRefused);
    }

    /** A fresh history base on the extended transcript. */
    method ContinueAs(added: Transcript, id: string, limits: Option<Limits>, instructions: string)
      modifies this`messages, this`run, this`suspension, this`suspending, this`state
      ensures Value() == ResolvedImage(old(Value()), added, id, limits, instructions)
      ensures run == Value().run && !suspending && state == Running
    {
      messages := messages + added;
      var history := InterleaveMarkers(messages, contextMarkers);
      run := Some(NewRun(id, DriveContinue, history, [], |contextMarkers|, limits, instructions));
      suspension, suspending := None, false;
      state := Running;
    }

    method CommitResolve(suspensionId: string, added: Transcript, prompt: Option<Message>, newRun: string, limits: Option<Limits>,
                         command: Option<Command>, canceled: bool) returns (ok: bool)
      requires Valid() && state == Suspended && run.Some? && newRun != "" && PlainCommand(command)
      requires (added != [] ==> messages != []) && (prompt.Some? ==> prompt.value.role == RoleUser)
      modifies this, journal
      ensures Valid()
      ensures var batch := ResolveBatch(old(run).value.id, suspensionId, added, prompt, newRun, limits, old(run).value.instructions, command);
        if ok then
          && journal.entries == old(journal.entries) + batch && state == Running && !suspending && run == Value().run
          && Value() == ResolvedImage(old(Value()), added + OptionalMessage(prompt), newRun, limits, old(run).value.instructions)
        else Refused(batch, canceled)
    {
      hide Follows, Refines, Recovered, LawfulJournal, Quiescent, ResolveBatch, PlainCommand, ProviderHistory, ResolvedImage, Healthy, Holds,
        OnlyNextTurn, NoTargeted, StartsWithSystem;
      ghost var f := Rebuilt();
      LiveFacts(f, Value(), state, suspending, run);
      ghost var g := ResolveKeeps(f, Value(), suspending, run.value, suspensionId, added, prompt, newRun, limits, command);
      ok := AppendAcceptance(ResolveBatch(run.value.id, suspensionId, added, prompt, newRun, limits, run.value.instructions, command), canceled, g);
      if ok {
        ContinueAs(added + OptionalMessage(prompt), newRun, limits, run.value.instructions);
      }
    }

    /** Resolves an indeterminate recovery frontier: closes the recovered run and opens its continuation on the answered transcript. */
    method PrepareIndeterminate(captured: Suspension, request: ResumeRequest, newRun: string, command: Option<Command>, canceled: bool)
        returns (error: Option<SessionError>)
      requires Valid() && PlainCommand(command) && newRun != ""
      requires Accepted(messages)
      modifies this, journal
      ensures Valid()
      ensures error.None? ==>
        && captured.payload.RecoveryPayload? && captured.payload.version == 1
        && CheckResolutions(captured.payload.calls, request.resolutions).Passed?
        && old(state) == Suspended && old(run).Some? && old(suspension).Some? && old(suspension).value.id == captured.id
        && var resolved := ResolvedResults(old(messages), CheckResolutions(captured.payload.calls, request.resolutions).value);
           var limits := RunLimits(budget, old(usage));
           && resolved.Some? && limits.Some? && state == Running && !suspending && run == Value().run
           && journal.entries == old(journal.entries) + ResolveBatch(old(run).value.id, captured.id, resolved.value, request.prompt,
                newRun, limits.value, old(run).value.instructions, Stamped(command, newRun))
           && Value() == ResolvedImage(old(Value()), resolved.value + OptionalMessage(request.prompt), newRun, limits.value,
                                       old(run).value.instructions)
           // Whatever the answers, the transcript the new run starts from is fully paired.
           && (NamesMatch(Unresolved(FrontierOf(old(messages))), captured.payload.calls) ==>
                 FullyPaired(old(messages) + resolved.value))
      ensures error.None? ==> NoBareTool(Pairing.Closed, old(messages))
      // A continuation too is refused on a spent budget only, and gets the rest of it.
      ensures error == Some(BudgetExhausted) ==> OverBudget(budget, old(usage))
      ensures error.None? ==> run.Some? && MakesUp(budget, old(usage), run.value.limits) && !OverBudget(budget, old(usage))
      ensures error.Some? && error != Some(AppendRefused) ==> unchanged(this) && unchanged(journal)
      ensures error == Some(AppendRefused) ==>
        if canceled then unchanged(this) && unchanged(journal) else state == Faulted && acceptanceFault
    {
      hide Valid, ResolveBatch, ResolvedImage, Accepted, NoBareTool, Substitute, RunLimits, MakesUp, OverBudget;
      LimitsExact(budget, usage);
      if !captured.payload.RecoveryPayload? || captured.payload.version != 1 {
        return Some(InvalidResume);
      }
      var checked := ReadResolutions(captured.payload.calls, request.resolutions);
      if checked.Rejected? {
        return Some(if checked.error == ApprovedIndeterminate then IndeterminateTool else InvalidResume);
      }
      error := ResumeRefusal(state, run, suspension, request);
      if error.Some? {
        return;
      }
      if suspension.value.id != captured.id {
        return Some(InvalidResume);
      }
      var failure, added := ResolveFrontier(checked.value);
      if failure.Some? {
        return failure;
      }
      var limits := RunLimits(budget, usage);
      if limits.None? {
        return Some(BudgetExhausted);
      }
      if messages == [] {
        NothingToResolve(messages, checked.value);
      }
      PairedAfterResolution(messages, captured.payload.calls, request.resolutions);
      ResolvedLimits(Value(), added + OptionalMessage(request.prompt), newRun, limits.value, run.value.instructions);
      var ok := CommitResolve(captured.id, added, request.prompt, newRun, limits.value, Stamped(command, newRun), canceled);
      error := if ok then None else Some(AppendRefused);
    }

    /** Repair of the open frontier with the operator's answers in place of the synthetic results. */
    method ResolveFrontier(plan: Plan) returns (error: Option<SessionError>, added: Transcript)
      requires Accepted(messages)
      ensures error.None? ==> ResolvedResults(messages, plan) == Some(added) && NoBareTool(Pairing.Closed, messages)
      ensures error.Some? ==> error == Some(if NoBareTool(Pairing.Closed, messages) then ProjectionMismatch else TranscriptBroken)
    {
      added := [];
      InspectExact(messages);
      var inspected := InspectFrontier(messages);
      if inspected.None? {
        return Some(TranscriptBroken), added;
      }
      var open := inspected.value;
      var calls: seq<PendingCall> := [];
      for i := 0 to |open|
        invariant calls == ResolvePending(open, plan).calls[..i]
      {
        calls := calls + [PendingCall(open[i].id, open[i].name, if open[i].id in plan.required then PendingIndeterminate else PendingPlanned)];
      }
      assert ResolvePending(open, plan).calls[..|open|] == ResolvePending(open, plan).calls;
      var pending := PendingCalls(calls, "");
      RepairKeepsCommitted(messages, pending);
      var repaired := ProcessMessages(messages, CloseInterruptedFrontier, pending);
      assert repaired.value[|messages|..] == SyntheticResults(open, pending);
      var substituted := SubstituteResults(plan, repaired.value[|messages|..]);
      if substituted.None? {
        return Some(ProjectionMismatch), added;
      }
      return None, substituted.value;
    }

    // -------------------------------------------------------------------
    // Other journaled facts.

    /** A terminal rejection of a keyed command, or any other entry the fold passes over. */
    method CommitSilent(entry: Entry, canceled: bool) returns (ok: bool)
      requires Valid() && Live()
      requires entry.OpaqueEntry? || (entry.CommandAccepted? && PlainCommand(Some(entry.command)))
      modifies this, journal
      ensures Valid()
      ensures if ok then journal.entries == old(journal.entries) + [entry] && Value() == old(Value()) && state == old(state) && run == old(run)
              else Refused([entry], canceled)
    {
      hide Follows, Recovered, LawfulJournal, Quiescent, Settled;
      ghost var f := Rebuilt();
      LiveFacts(f, Value(), state, suspending, run);
      SilentKeeps(f, entry);
      ok := AppendAcceptance([entry], canceled, f);
    }

    method CommitChildUsage(charge: Usage) returns (ok: bool)
      requires Valid() && (state == Running || state == Closing || state == Interrupting) && AtMost(ZeroCounters, charge.counters)
      modifies this, journal
      ensures Valid()
      ensures if ok then journal.entries == old(journal.entries) + [ChildUsage(charge, AddUsage(old(usage), charge))]
                         && usage == AddUsage(old(usage), charge) && state == old(state)
              else state == Faulted && AtMostAppended([ChildUsage(charge, AddUsage(old(usage), charge))])
    {
      hide Follows, Refines, Recovered, LawfulJournal, Quiescent, AddUsage, AtMost, Settled, StartsWithSystem, OnlyNextTurn, NoTargeted, Healthy,
        Holds;
      LiveFacts(Rebuilt(), Value(), state, suspending, run);
      ghost var g := ChildKeeps(Rebuilt(), Value(), state, suspending, run.value, charge);
      ok := Append([ChildUsage(charge, AddUsage(usage, charge))], g);
      if ok {
        ChargeRun(charge);
      }
    }

    method ChargeRun(charge: Usage)
      requires run.Some?
      modifies this`usage, this`run
      ensures Value() == old(Value()).(usage := AddUsage(old(usage), charge), run := Settled(Some(old(run).value.(childUsageCharged := true))))
      ensures run == Some(old(run).value.(childUsageCharged := true)) && usage == AddUsage(old(usage), charge)
    {
      hide AddUsage;
      usage := AddUsage(usage, charge);
      run := Some(run.value.(childUsageCharged := true));
    }

    /** Child usage is charged while the parent is active; the fold and the live counters move together. */
    method CommitCharge(charge: Usage) returns (error: Option<SessionError>)
      requires Valid() && AtMost(ZeroCounters, charge.counters)
      modifies this, journal
      ensures Valid()
      ensures var batch := [ChildUsage(charge, AddUsage(old(usage), charge))];
        if old(state) == Faulted then error == Some(SessionFaulted) && unchanged(this) && unchanged(journal)
        else if old(state) == Closed then error == Some(SessionClosed) && unchanged(this) && unchanged(journal)
        else if old(state) == Idle || old(state) == Suspended then error == Some(NotRunning) && unchanged(this) && unchanged(journal)
        else if error == Some(AppendRefused) then state == Faulted && AtMostAppended(batch)
        else
          && journal.entries == old(journal.entries) + batch && usage == AddUsage(old(usage), charge) && state == old(state)
          && (error == Some(BudgetExhausted) <==> OverBudget(budget, usage))
          && (error.None? || error == Some(BudgetExhausted))
    {
      hide Valid, AddUsage, AtMost, RemainingLimits, OverBudget;
      if state == Faulted {
        return Some(SessionFaulted);
      }
      if state == Closed {
        return Some(SessionClosed);
      }
      if state == Idle || state == Suspended {
        return Some(NotRunning);
      }
      var ok := CommitChildUsage(charge);
      if !ok {
        return Some(AppendRefused);
      }
      LimitsExact(budget, usage);
      error := if budget.Some? && RemainingLimits(budget.value, usage).None? then Some(BudgetExhausted) else None;
    }

    /** Abandoning a handle writes nothing: only the live view is given up. */
    method Abandon()
      requires Valid()
      modifies this`state
      ensures Valid() && unchanged(journal) && (old(state) == Closed ==> state == Closed) && (old(state) != Closed ==> state == Faulted)
    {
      if state != Closed {
        state := Faulted;
      }
    }

    /** Close releases an idle, suspended or faulted handle; durable state is untouched. */
    method Close() returns (error: Option<SessionError>)
      requires Valid()
      modifies this`state
      ensures Valid() && unchanged(journal)
      ensures old(state) == Running || old(state) == Closing || old(state) == Interrupting
        <==> error == Some(SessionBusy)
      ensures error.None? <==> state == Closed
      ensures error.Some? ==> unchanged(this)
    {
      if state == Running || state == Closing || state == Interrupting {
        return Some(SessionBusy);
      }
      state := Closed;
      return None;
    }

    // -------------------------------------------------------------------
    // Recovering an open run.

    method CommitReinjection() returns (ok: bool)
      requires Standing() && recoveryInputs == Unapplied(Rebuilt().queues)
      modifies this, journal
      ensures LawfulJournal(journal.entries) && Quiescent(Rebuilt())
      ensures ok ==> Standing() && recoveryInputs == [] && Rebuilt().phase == old(Rebuilt().phase)
      ensures ok ==>
        && journal.entries == old(journal.entries) + [EventEntry(MessagesInjected(MessagesOf(old(recoveryInputs))), IdsOf(old(recoveryInputs)), None)]
        && messages == Extend(old(messages), MessagesOf(old(recoveryInputs))) && contextMarkers == old(contextMarkers)
        && run == Some(old(run).value.(expected := Extend(old(run).value.expected, MessagesOf(old(recoveryInputs)))))
      ensures !ok ==> state == Faulted
    {
      hide Follows, Holds, Recovered, LawfulJournal, Quiescent, Unapplied, EmittedImage;
      ghost var g := ReinjectKeeps(Rebuilt(), Value(), run.value, recoveryInputs);
      ok := Append([EventEntry(MessagesInjected(MessagesOf(recoveryInputs)), IdsOf(recoveryInputs), None)], g);
      if ok {
        ApplyRecoveryInputs();
      }
    }

    method ApplyRecoveryInputs()
      requires run.Some?
      modifies this`messages, this`run, this`recoveryInputs
      ensures Value() == EmittedImage(old(Value()), MessagesInjected(MessagesOf(old(recoveryInputs))), None)
      ensures messages == Extend(old(messages), MessagesOf(old(recoveryInputs))) && recoveryInputs == []
      ensures run == Some(old(run).value.(expected := Extend(old(run).value.expected, MessagesOf(old(recoveryInputs)))))
    {
      EmittedInjection(Value(), run.value, MessagesOf(recoveryInputs));
      messages := Extend(messages, MessagesOf(recoveryInputs));
      run := Some(run.value.(expected := Extend(run.value.expected, MessagesOf(recoveryInputs))));
      recoveryInputs := [];
    }

    method CommitRecoverySuspension(pause: Suspension) returns (ok: bool)
      requires Standing() && !Rebuilt().phase.completed
      requires run.value.volatile.pendingInjectionIds == [] && run.value.volatile.publicNewStart == 0
      modifies this, journal
      ensures LawfulJournal(journal.entries) && Quiescent(Rebuilt())
      ensures ok ==> Valid() && state == Suspended && suspension == Some(pause) && messages == old(messages) && run == old(run)
      ensures ok ==> journal.entries == old(journal.entries) + [RecoverySuspension(pause)] && recoveryInputs == old(recoveryInputs)
      ensures !ok ==> state == Faulted
    {
      hide Follows, Holds, Refines, Recovered, LawfulJournal, Quiescent, Settled;
      ghost var g := RecoverySuspensionKeeps(Rebuilt(), Value(), run.value, pause);
      ok := Append([RecoverySuspension(pause)], g);
      if ok {
        suspension := Some(pause);
        suspending := false;
        state := Suspended;
      }
    }

    method CommitContinuation(added: Transcript, limits: Option<Limits>) returns (ok: bool)
      requires Standing() && (added != [] ==> messages != [])
      modifies this, journal
      ensures LawfulJournal(journal.entries) && Quiescent(Rebuilt())
      ensures ok ==>
        && Valid() && state == Running && !suspending && run == Value().run && recoveryInputs == old(recoveryInputs)
        && Value() == RecoveredImage(old(Value()), added, old(run).value.id, limits, old(run).value.instructions)
        && journal.entries == old(journal.entries) + RecoverBatch(old(run).value.id, added, limits, old(run).value.instructions)
      ensures !ok ==> state == Faulted
    {
      hide Follows, Holds, Refines, Recovered, LawfulJournal, Quiescent, RecoverBatch, ProviderHistory;
      ghost var g := ContinueKeeps(Rebuilt(), Value(), run.value, added, limits);
      ok := Append(RecoverBatch(run.value.id, added, limits, run.value.instructions), g);
      if ok {
        ContinueAs(added, run.value.id, limits, run.value.instructions);
      }
    }

    method UncertainCalls(open: seq<ToolUse>) returns (uncertain: seq<PendingCall>)
      requires run.Some?
      ensures uncertain == Uncertain(open, run.value.calls)
    {
      var log := run.value.calls;
      uncertain := [];
      for i := 0 to |open|
        invariant uncertain + Uncertain(open[i..], log) == Uncertain(open, log)
      {
        var rest := open[i + 1..];
        assert open[i..] == [open[i]] + rest;
        if open[i].id in log.started && open[i].id !in log.results {
          uncertain := uncertain + [PendingCall(open[i].id, open[i].name, PendingIndeterminate)];
        }
      }
    }

    /**
     * Takes over a run whose process died: applies the inputs that were drained but never reached the transcript, then
     * either repairs the frontier and continues, or pauses when an open call may have run without a durable result.
     */
    method RecoverOpenRun(id: string, hash: (Transcript, seq<ToolUse>) -> string) returns (error: Option<SessionError>)
      requires Standing() && recoveryInputs == Unapplied(Rebuilt().queues) && !Rebuilt().phase.completed
      requires run.value.volatile.pendingInjectionIds == [] && run.value.volatile.publicNewStart == 0
      modifies this, journal
      ensures LawfulJournal(journal.entries) && Quiescent(Rebuilt())
      ensures error.None? ==> Valid() && (state == Running || state == Suspended) && recoveryInputs == []
      ensures Mendable(old(messages), MessagesOf(old(recoveryInputs)), old(run).value.calls) ==> error.None? || StoreOrBudget(error.value)
      // A run that goes on has what is left of the budget.
      ensures error == Some(BudgetExhausted) ==> OverBudget(budget, usage)
      ensures error.None? && state == Running ==> run.Some? && MakesUp(budget, usage, run.value.limits) && !OverBudget(budget, usage)
      ensures error.None? ==>
        var base, log := Extend(old(messages), MessagesOf(old(recoveryInputs))), old(run).value.calls;
        var open := Inspect(base);
        && open.Some?
        && if Uncertain(open.value, log) != [] then
             // Nothing is repaired or re-run: the operator decides about exactly the uncertain calls.
             && state == Suspended && messages == base && run.value.id == old(run).value.id
             && suspension == Some(Suspension(id, INDETERMINATE, hash(base, open.value), RecoveryPayload(1, Uncertain(open.value, log))))
           else
             && state == Running && !suspending && run == Value().run
             && Additions(base, log).Some? && messages == base + Additions(base, log).value
             && run.Some? && run.value.id == old(run).value.id && run.value.expected == [] && run.value.lastUsage == ZeroUsage
             && run.value.history == ProviderHistory(messages, contextMarkers) && contextMarkers == old(contextMarkers)
             && FullyPaired(messages)
    {
      hide Holds, Valid, Recovered, LawfulJournal, Quiescent, Unapplied, Inspect, Repaired, RunLimits, OverBudget, MakesUp;
      if |recoveryInputs| > 0 {
        var ok := CommitReinjection();
        if !ok {
          return Some(AppendRefused);
        }
      }
      var open := InspectFrontier(messages);
      if open.None? {
        return Some(TranscriptBroken);
      }
      var uncertain := UncertainCalls(open.value);
      if |uncertain| > 0 {
        var ok := CommitRecoverySuspension(
          Suspension(id, INDETERMINATE, hash(messages, open.value), RecoveryPayload(1, uncertain)));
        return if ok then None else Some(AppendRefused);
      }
      var failure, added := RepairAdditions();
      if failure.Some? {
        return failure;
      }
      EmptyNeedsNoRepair(messages, run.value.calls);
      AdditionsPaired(messages, run.value.calls);
      LimitsExact(budget, usage);
      var limits := RunLimits(budget, usage);
      if limits.None? {
        return Some(BudgetExhausted);
      }
      var ok := CommitContinuation(added, limits.value);
      error := if ok then None else Some(AppendRefused);
    }
  }

  /** validateInitialHistory, the creation batch, and the first handle. None is a refused history or a failed creation. */
  method NewSession(limits: Option<Limits>, drainAll: bool, history: Transcript) returns (session: Session?, error: Option<SessionError>)
    ensures error.None? <==> session != null
    ensures error == Some(InvalidMessage) <==> Repaired(history, NoPending) != Some(history)
    ensures error.None? || error == Some(InvalidMessage) || error == Some(AppendRefused)
    ensures session != null ==>
      && fresh(session) && fresh(session.journal) && session.Valid() && session.state == Idle
      && session.journal.entries == [SessionCreated(limits, drainAll)] + HistoryBatch(history)
      && session.messages == history && FullyPaired(history)
  {
    var repaired := ProcessMessages(history, CloseInterruptedFrontier, NoPending);
    if repaired.None? || repaired.value != history {
      return null, Some(InvalidMessage);
    }
    RepairSound(history, NoPending);
    var journal := new Journal();
    var batch := [SessionCreated(limits, drainAll)] + HistoryBatch(history);
    var ok := journal.Append(0, batch);
    if !ok {
      return null, Some(AppendRefused);
    }
    CreationLawful(limits, drainAll, history);
    assert [] + batch == batch;
    session := new Session.Create(journal, limits, drainAll, history);
    return session, None;
  }

  /** The errors recovery cannot rule out. */
  predicate StoreOrBudget(error: SessionError) {
    error == AppendRefused || error == BudgetExhausted
  }

  /** What every recovery leaves, also when it fails half way: a journal the next recovery can take over. */
  ghost predicate Recoverable(journal: Journal)
    reads journal
  {
    LawfulJournal(journal.entries) && Quiescent(Recovered(journal.entries))
  }

  /** Rebuilds a session from its journal and settles or continues the run it finds open. */
  method RecoverSession(journal: Journal, id: string, hash: (Transcript, seq<ToolUse>) -> string)
      returns (session: Session?, error: Option<SessionError>)
    requires Recoverable(journal)
    modifies journal
    ensures Recoverable(journal) && (error.None? <==> session != null)
    ensures var f := old(Recovered(journal.entries));
      (f.run.Some? ==> Mendable(f.view.messages, MessagesOf(Unapplied(f.queues)), f.run.value.calls))
      ==> error.None? || StoreOrBudget(error.value)
    ensures session != null ==> fresh(session) && session.journal == journal && session.Valid() && session.Live()
    ensures session != null ==>
      var f := old(Recovered(journal.entries));
      match f.run
      case None => session.state == Idle && session.Value() == Image(f)
      case Some(r) =>
        if f.phase.pendingInterrupt == r.id then
          // An interrupted run is closed without applying what it had drained.
          session.state == Idle && session.run.None? && Unapplied(Recovered(journal.entries).queues) == Unapplied(f.queues)
        else if f.phase.completed then session.state == Idle && session.run.None?
        else if f.phase.state == Suspended then
          session.state == Suspended && session.Value() == Image(f) && journal.entries == old(journal.entries)
        else
          var base := Extend(f.view.messages, MessagesOf(Unapplied(f.queues)));
          && Inspect(base).Some? && session.run.Some? && session.run.value.id == r.id
          && if Uncertain(Inspect(base).value, r.calls) != [] then
               && session.state == Suspended && session.messages == base
               && session.suspension.value.payload == RecoveryPayload(1, Uncertain(Inspect(base).value, r.calls))
             else
               && session.state == Running && !session.suspending && session.run == session.Value().run && FullyPaired(session.messages)
               && session.run.value.expected == [] && session.run.value.lastUsage == ZeroUsage
               && session.run.value.history == ProviderHistory(session.messages, session.contextMarkers)
  {
    session, error := null, None;
    ghost var f := Recovered(journal.entries);
    LawfulFolds(journal.entries);
    RecoveredHealthy(journal.entries);
    var folded, pending, unapplied := FoldEntries(journal.entries);
    var handle := new Session.Attach(journal, folded.value, pending, unapplied);
    assert Settled(handle.run) == Image(f).run && Holds(f, handle.Value(), handle.run);
    error := Resettle(handle, folded.value.phase, id, hash);
    if error.None? {
      session := handle;
    }
  }

  /** A durable interrupt: the run is closed, and what it had drained stays unapplied. */
  method CloseInterrupted(handle: Session) returns (error: Option<SessionError>)
    requires Recoverable(handle.journal) && handle.cursor == |handle.journal.entries| && !handle.acceptanceFault
    requires Holds(handle.Rebuilt(), handle.Value(), handle.run) && handle.run.Some? && handle.run.value.volatile.publicNewStart == 0
    modifies handle, handle.journal
    ensures Recoverable(handle.journal)
    ensures error.None? ==> handle.Valid() && handle.state == Idle && handle.run.None?
    ensures error.None? ==> Unapplied(handle.Rebuilt().queues) == old(Unapplied(handle.Rebuilt().queues))
    ensures Additions(old(handle.messages), old(handle.run).value.calls).Some? ==> error.None? || error == Some(AppendRefused)
  {
    hide Recovered, LawfulJournal, Quiescent, Unapplied, Additions, ClosedImage, InterruptBatch, WithRepair, UsedAfter, QueueAfter, UsageDelta,
      ValidateProjection, Healthy, Image;
    handle.run := Some(InterruptedRun(handle.run.value));
    handle.state := Interrupting;
    error := handle.FinishInterrupt(Some(Execution(ExecutionInterrupted, None, None)));
  }

  /** The driver already committed completion; only the native closure is missing. */
  method CloseCompleted(handle: Session) returns (error: Option<SessionError>)
    requires Recoverable(handle.journal) && handle.Standing() && OnlyNextTurn(handle.queue)
    modifies handle, handle.journal
    ensures Recoverable(handle.journal)
    ensures error.None? ==> handle.Valid() && handle.state == Idle && handle.run.None?
    ensures error.None? || error == Some(AppendRefused)
  {
    hide Recovered, LawfulJournal, Quiescent, Holds, OnlyNextTurn, ClosedImage, CloseBatch, UsedAfter, QueueAfter, UsageDelta,
      ValidateProjection;
    error := handle.FinishClosed(Some(Execution(ExecutionCompleted, None, None)), false);
  }

  /** The branches of Recover after the handle is built. */
  method Resettle(handle: Session, phase: Phase, id: string, hash: (Transcript, seq<ToolUse>) -> string) returns (error: Option<SessionError>)
    requires Recoverable(handle.journal)
    requires var f := Recovered(handle.journal.entries);
      && Holds(f, handle.Value(), handle.run) && handle.run == f.run && handle.state == f.phase.state
      && handle.cursor == |handle.journal.entries| && !handle.acceptanceFault && !handle.suspending
      && handle.recoveryInputs == Unapplied(f.queues) && phase == f.phase
    modifies handle, handle.journal
    ensures Recoverable(handle.journal)
    ensures var f := old(Recovered(handle.journal.entries));
      (f.run.Some? ==> Mendable(f.view.messages, MessagesOf(Unapplied(f.queues)), f.run.value.calls))
      ==> error.None? || StoreOrBudget(error.value)
    ensures error.None? ==> handle.Valid() && handle.Live()
    ensures error.None? ==>
      var f := old(Recovered(handle.journal.entries));
      match f.run
      case None => handle.state == Idle && handle.Value() == Image(f)
      case Some(r) =>
        if f.phase.pendingInterrupt == r.id then
          handle.state == Idle && handle.run.None? && Unapplied(Recovered(handle.journal.entries).queues) == Unapplied(f.queues)
        else if f.phase.completed then handle.state == Idle && handle.run.None?
        else if f.phase.state == Suspended then
          handle.state == Suspended && handle.Value() == Image(f) && handle.journal.entries == old(handle.journal.entries)
        else
          var base := Extend(f.view.messages, MessagesOf(Unapplied(f.queues)));
          && Inspect(base).Some? && handle.run.Some? && handle.run.value.id == r.id
          && if Uncertain(Inspect(base).value, r.calls) != [] then
               && handle.state == Suspended && handle.messages == base
               && handle.suspension.Some? && handle.suspension.value.payload == RecoveryPayload(1, Uncertain(Inspect(base).value, r.calls))
             else
               && handle.state == Running && !handle.suspending && handle.run == handle.Value().run && FullyPaired(handle.messages)
               && handle.run.value.expected == [] && handle.run.value.lastUsage == ZeroUsage
               && handle.run.value.history == ProviderHistory(handle.messages, handle.contextMarkers)
  {
    hide Recovered, LawfulJournal, Quiescent, Unapplied, Extend, Inspect, Additions, Repaired, ProviderHistory, OnlyNextTurn,
      ClosedImage, InterruptBatch, CloseBatch, WithRepair, UsedAfter, QueueAfter, UsageDelta, ValidateProjection, Uncertain, Run;
    ghost var f := Recovered(handle.journal.entries);
    RecoveredFacts(f, handle.Value(), handle.run);
    if handle.run.Some? && phase.pendingInterrupt == handle.run.value.id {
      error := CloseInterrupted(handle);
      return;
    }
    if handle.state == Faulted {
      handle.state := Running;
    }
    if handle.run.Some? && phase.completed {
      error := CloseCompleted(handle);
      return;
    }
    if handle.run.None? {
      handle.state := Idle;
      var ok := handle.CommitSilent(OpaqueEntry("session.recovered"), false);
      return if ok then None else Some(AppendRefused);
    }
    if handle.state == Suspended && handle.suspension.Some? {
      return None;
    }
    error := handle.RecoverOpenRun(id, hash);
  }
}
