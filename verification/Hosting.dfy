/** The session under a drive: what it does with each act of the driver while others use it beside. */
module Hosting {
  import opened Messages
  import opened ContextPolicy
  import opened Usages
  import opened Suspensions
  import opened Journals
  import opened Lawful
  import opened Batches
  import opened SessionSteps
  import opened SessionStates
  import T = Turns
  import P = Protocols
  import A = DriveAccounts
  import R = Projections

  /** A session inside a run: the fold of its journal, its durable values and its live state. */
  datatype Handle = Handle(f: Folded, d: Durable, state: State, suspending: bool, run: ActiveRun)

  ghost predicate Sound(h: Handle) {
    Refines(h.f, h.d, h.state, h.suspending, Some(h.run))
  }

  // ---------------------------------------------------------------------
  // What the session does with an act, when its store takes the batch.

  /** Emit. */
  predicate Emits(h: Handle, event: Event, after: Handle)
    requires h.d.run.Some?
  {
    var used := UsageAfter(h.d.usage, h.run.lastUsage, event);
    && used.Some?
    && FoldFrom(h.f, [EventEntry(event, EmitIds(h.run, event), used.value)]) == Some(after.f)
    && after.d == EmittedImage(h.d, event, used.value) && after.run == EmittedRun(h.run, event)
    && after.state == h.state && after.suspending == Suspending(h.suspending, event)
  }

  /** TurnHook. */
  predicate Hooks(h: Handle, candidate: bool, answer: HookAnswer, after: Handle) {
    if h.state != Running then answer == HookFailed(HookError(h.state)) && after == h
    else
      var inputs := HookInputs(h.d.queue, candidate, h.d.drainAll);
      var exhausted := ChildExhausted(h.d.budget, h.d.usage, h.run);
      if inputs == [] && candidate then answer == HookDefault && after == h.(state := Closing)
      else if exhausted then answer == HookFailed(BudgetExhausted) && after == h.(state := Closing)
      else if inputs == [] then answer == HookDefault && after == h
      else
        && answer == HookInject(MessagesOf(inputs))
        && FoldFrom(h.f, DrainBatch(inputs)) == Some(after.f)
        && after == h.(f := after.f, d := h.d.(queue := RemoveAll(h.d.queue, inputs)), run := WithInjection(h.run, IdsOf(inputs)))
  }

  /** The decision the loop is handed for a hook's answer. */
  predicate Conveys(answer: HookAnswer, reply: T.HookReply) {
    match answer
    case HookFailed(_) => reply.HookError?
    case HookDefault => reply == T.Decision(T.TurnDefault, [])
    case HookInject(messages) => reply == T.Decision(T.TurnContinue, messages)
  }

  /** What others may do with the session in the meantime. */
  datatype Other =
    | Accepting(entry: QueueEntry, command: Option<Command>)
    | Interrupts(command: Option<Command>)
    | Charging(charge: Usage)
    /** The history processor was handed the driver's transcript. */
    | Projecting(root: Transcript, additions: Transcript, recipe: Option<Compaction>)
    | Recording(silent: Entry)

  /** contextViewsLocked gives back the driver's transcript: the comparison in front of a projection. */
  predicate Viewed(h: Handle, root: Transcript) {
    ContextViews(h.d.messages, h.d.markers, h.run.markerCount, root).0 == root
  }

  ghost predicate Besides(h: Handle, other: Other, after: Handle) {
    match other
    case Accepting(entry, command) =>
      && AcceptanceError(h.state, entry.kind).None? && entry.message.role == RoleUser && PlainCommand(command)
      && entry.id != "" && entry.id !in h.f.queues.order
      && FoldFrom(h.f, AcceptBatch(entry, command)) == Some(after.f)
      && after == h.(f := after.f, d := h.d.(queue := h.d.queue + [entry]))
    case Interrupts(command) =>
      && (command.Some? ==> command.value.kind == CommandInterrupt && command.value.rejection == "")
      && FoldFrom(h.f, CommandTail(Stamped(command, h.run.id))) == Some(after.f)
      && after == h.(f := after.f, state := Interrupting, run := if h.state == Interrupting then h.run else InterruptedRun(h.run))
    case Charging(charge) =>
      && AtMost(ZeroCounters, charge.counters)
      && FoldFrom(h.f, [ChildUsage(charge, AddUsage(h.d.usage, charge))]) == Some(after.f)
      && var run := h.run.(childUsageCharged := true);
         after == h.(f := after.f, d := h.d.(usage := AddUsage(h.d.usage, charge), run := Settled(Some(run))), run := run)
    case Projecting(root, additions, recipe) =>
      && h.state == Running && Viewed(h, root) && ContextTail(additions)
      && FoldFrom(h.f, ContextStepBatch(|h.d.messages|, additions, recipe)) == Some(after.f)
      && after == h.(f := after.f, d := h.d.(markers := h.d.markers + MarkersAt(|h.d.messages|, additions),
                                             compaction := if recipe.Some? then recipe else h.d.compaction))
    case Recording(silent) =>
      && (silent.OpaqueEntry? || (silent.CommandAccepted? && PlainCommand(Some(silent.command))))
      && after == h
  }

  // ---------------------------------------------------------------------
  // The session keeps step with the drive.

  predicate Alive(state: State) {
    state == Running || state == Closing || state == Interrupting
  }

  /** What the session holds where the drive stands. */
  predicate Fitting(s: P.Stand, h: Handle) {
    && (h.run.volatile.pendingInjectionIds == [] || s.AtHandover?)
    && (s.AtHandover? ==> InjectionMatches(h.f.queues.drained, s.inject, h.run.volatile.pendingInjectionIds))
    && (ResumeWindow(h.run.volatile) ==> s.AtStart? || s.AtStop?)
    && (h.suspending <==> s.AtPause?) && (s.AtPause? ==> h.d.suspension == Some(s.suspension))
    && (h.f.phase.completed <==> s.AtCompletion? || s.AtEnd?)
    && (s.AtRelease? ==> h.state != Running && NoTargeted(h.f.queues.pending))
  }

  /** The handle after `said`, from a run that was `start`. */
  ghost predicate Hosts(start: ActiveRun, s: P.Stand, h: Handle, said: seq<Event>) {
    Sound(h) && Alive(h.state) && R.Followed(start, h.run, said) && Fitting(s, h)
  }

  lemma SoundFacts(h: Handle)
    requires Sound(h)
    ensures Healthy(h.f) && h.d == Image(h.f) && h.f.run.Some? && h.d.run == Settled(Some(h.run)) && h.d.run.Some?
    ensures h.f.run.value.id == h.run.id && h.d.queue == Pending(h.f.queues) && h.d.messages == h.f.view.messages && h.d.usage == h.f.usage
    ensures h.f.phase.completed ==> h.state != Running
    ensures h.run.volatile.publicNewStart <= |h.run.expected|
    ensures OnlyNextTurn(h.d.queue) <==> NoTargeted(h.f.queues.pending)
  {
    LiveFacts(h.f, h.d, h.state, h.suspending, Some(h.run));
  }

  /** The driver's next event is welcome: the session can take it. */
  ghost predicate Welcome(h: Handle, event: Event) {
    && EmitContract(h.f, h.state, h.suspending, h.run, event)
    && UsageAfter(h.d.usage, h.run.lastUsage, event).Some?
  }

  /** An event in order, committing no system message and reporting no less than the report before it. */
  predicate Speaks(last: Usage, event: Event) {
    && A.Speech(Committed(EventEntry(event, [], None)))
    && (event.TurnEnded? ==> Reportable(last, event.usage))
  }

  lemma EventWelcome(start: ActiveRun, s: P.Stand, h: Handle, said: seq<Event>, event: Event)
    requires Hosts(start, s, h, said) && P.Next(s, P.Said(event)).Some?
    requires Speaks(A.Reported(said, start.lastUsage), event)
    ensures Welcome(h, event)
  {
    hide Sound, A.Reported, UsageDelta;
  }

  lemma OneEntry(f: Folded, e: Entry, g: Folded)
    requires FoldFrom(f, [e]) == Some(g)
    ensures g == FoldStep(f, e)
  {
    assert [e][1..] == [];
  }

  /** What an event changes of the parts that matter to the drive. */
  predicate Moved(h: Handle, event: Event, after: Handle) {
    && after.state == h.state && after.suspending == Suspending(h.suspending, event)
    && after.f.phase.completed == (h.f.phase.completed || event.RunCompleted?)
    && (event.MessagesInjected? || after.f.queues == h.f.queues)
    && after.f.queues.pending == h.f.queues.pending
    && after.d.suspension == (if event.RunSuspended? then Some(event.suspension) else h.d.suspension)
    && after.run.volatile == EmittedRun(h.run, event).volatile
  }

  lemma EmitMoves(h: Handle, event: Event, after: Handle)
    requires Sound(h) && h.d.run.Some? && Emits(h, event, after)
    ensures Moved(h, event, after)
  {
    hide Sound, ViewStep, RunStep, UsageStep, CallStep, UsageAfter, Committed, Extend, EmitIds, FoldFrom, VolatileStep, Healthy;
    SoundFacts(h);
    OneEntry(h.f, EventEntry(event, EmitIds(h.run, event), UsageAfter(h.d.usage, h.run.lastUsage, event).value), after.f);
  }

  lemma MovedFits(s: P.Stand, h: Handle, event: Event, after: Handle)
    requires Fitting(s, h) && Moved(h, event, after) && P.Next(s, P.Said(event)).Some?
    ensures Fitting(P.Next(s, P.Said(event)).value, after)
  {
    hide InjectionMatches, NoTargeted, CallStep;
    InjectionNone(after.f.queues.drained);
  }

  lemma InjectionNone(drained: map<string, QueueEntry>)
    ensures forall messages :: InjectionMatches(drained, messages, [])
  {
  }

  lemma EmitHosted(start: ActiveRun, s: P.Stand, h: Handle, said: seq<Event>, event: Event, after: Handle)
    requires Hosts(start, s, h, said) && h.d.run.Some? && P.Next(s, P.Said(event)).Some?
    requires Speaks(A.Reported(said, start.lastUsage), event) && Emits(h, event, after)
    ensures Hosts(start, P.Next(s, P.Said(event)).value, after, said + [event])
  {
    EventWelcome(start, s, h, said, event);
    EmitMoves(h, event, after);
    MovedFits(s, h, event, after);
    R.FollowedStep(start, h.run, said, event);
    hide R.Followed, Fitting, P.Next, EmitContract, EmittedImage, EmittedRun, Speaks, UsageAfter;
    var g := EmitKeeps(h.f, h.d, h.state, h.suspending, h.run, event);
  }

  lemma InputsFromUsers(q: Queues, messages: Transcript, ids: seq<string>)
    requires QueueHealthy(q) && InjectionMatches(q.drained, messages, ids) && ids != []
    ensures forall i :: 0 <= i < |messages| ==> messages[i].role == RoleUser
  {
    forall i | 0 <= i < |messages| ensures messages[i].role == RoleUser {
      assert ids[i] in q.drained;
    }
  }

  /** What the loop makes of the session's three answers. */
  lemma AnswersTaken(candidate: bool, text: string, messages: Transcript)
    ensures P.Replied(candidate, T.HookError(text)) == P.AtStop
    ensures P.Replied(candidate, T.Decision(T.TurnDefault, [])) == if candidate then P.AtRelease else P.AtWork
    ensures messages != [] && (forall i :: 0 <= i < |messages| ==> messages[i].role == RoleUser) ==>
      P.Replied(candidate, T.Decision(T.TurnContinue, messages)) == P.AtHandover(messages)
  {
  }

  lemma HookHosted(start: ActiveRun, h: Handle, said: seq<Event>, candidate: bool, answer: HookAnswer, reply: T.HookReply, after: Handle)
    requires Hosts(start, P.AtTurnEnd, h, said) && Hooks(h, candidate, answer, after) && Conveys(answer, reply)
    ensures Hosts(start, P.Replied(candidate, reply), after, said)
  {
    hide R.Followed, Waits, RemoveAll, InjectionMatches, Refines, ChildExhausted, P.Replied, HookInputs, OnlyNextTurn,
      NoTargeted, Healthy;
    SoundFacts(h);
    AnswersTaken(candidate, if reply.HookError? then reply.text else "", []);
    if h.state == Running {
      var inputs := HookInputs(h.d.queue, candidate, h.d.drainAll);
      HookInputsWait(h.f, candidate, h.d.drainAll);
      ClosingKeeps(h.f, h.d, h.suspending, Some(h.run));
      if answer.HookInject? {
        DrainHosted(start, h, said, candidate, inputs, reply, after);
      }
    }
  }

  lemma DrainHosted(start: ActiveRun, h: Handle, said: seq<Event>, candidate: bool, inputs: seq<QueueEntry>, reply: T.HookReply, after: Handle)
    requires Hosts(start, P.AtTurnEnd, h, said) && h.state == Running && Waits(h.f.queues, inputs) && inputs != []
    requires reply == T.Decision(T.TurnContinue, MessagesOf(inputs)) && FoldFrom(h.f, DrainBatch(inputs)) == Some(after.f)
    requires after == h.(f := after.f, d := h.d.(queue := RemoveAll(h.d.queue, inputs)), run := WithInjection(h.run, IdsOf(inputs)))
    ensures Hosts(start, P.Replied(candidate, reply), after, said)
  {
    hide R.Followed, Waits, RemoveAll, InjectionMatches, Refines, P.Replied, Sound, DrainBatch, FoldFrom;
    R.FollowedHeld(start, h.run, said, IdsOf(inputs));
    DrainSound(h, inputs, after);
    SoundFacts(after);
    QueuesSound(after.f);
    InputsFromUsers(after.f.queues, MessagesOf(inputs), IdsOf(inputs));
    AnswersTaken(candidate, "", MessagesOf(inputs));
  }

  lemma DrainSound(h: Handle, inputs: seq<QueueEntry>, after: Handle)
    requires Sound(h) && h.state == Running && Waits(h.f.queues, inputs) && FoldFrom(h.f, DrainBatch(inputs)) == Some(after.f)
    requires after == h.(f := after.f, d := h.d.(queue := RemoveAll(h.d.queue, inputs)), run := WithInjection(h.run, IdsOf(inputs)))
    ensures Sound(after) && InjectionMatches(after.f.queues.drained, MessagesOf(inputs), IdsOf(inputs))
  {
    hide RemoveAll, InjectionMatches, Refines, Waits, DrainBatch;
    var g := HookKeeps(h.f, h.d, h.suspending, Some(h.run), inputs);
    SameFold(h.f, DrainBatch(inputs), g, g, after.f);
  }

  lemma QueuesSound(f: Folded)
    requires Healthy(f)
    ensures QueueHealthy(f.queues)
  {
  }

  lemma OtherHosted(start: ActiveRun, s: P.Stand, h: Handle, said: seq<Event>, other: Other, after: Handle)
    requires Hosts(start, s, h, said) && Besides(h, other, after)
    ensures Hosts(start, s, after, said)
  {
    SoundFacts(h);
    match other
    case Accepting(entry, command) => AcceptHosted(start, s, h, said, entry, command, after);
    case Interrupts(command) => InterruptHosted(start, s, h, said, command, after);
    case Charging(charge) => ChargeHosted(start, s, h, said, charge, after);
    case Projecting(root, additions, recipe) => ProjectHosted(start, s, h, said, root, additions, recipe, after);
    case Recording(_) =>
  }

  lemma AcceptHosted(start: ActiveRun, s: P.Stand, h: Handle, said: seq<Event>, entry: QueueEntry, command: Option<Command>, after: Handle)
    requires Hosts(start, s, h, said) && Healthy(h.f) && Besides(h, Accepting(entry, command), after)
    requires h.d == Image(h.f) && h.f.run.Some? && (h.f.phase.completed ==> h.state != Running)
    ensures Hosts(start, s, after, said)
  {
    hide Healthy, InjectionMatches, R.Followed, Refines, Follows, AcceptBatch, Image;
    var g := AcceptKeeps(h.f, h.d, h.state, h.suspending, Some(h.run), entry, command);
    var k := AcceptFollows(h.f, entry, command);
    SameFold(h.f, AcceptBatch(entry, command), g, k, after.f);
  }

  lemma SameFold(f: Folded, batch: seq<Entry>, g: Folded, k: Folded, after: Folded)
    requires Follows(f, batch, g) && Follows(f, batch, k) && FoldFrom(f, batch) == Some(after)
    ensures g == k == after
  {
  }

  lemma InterruptHosted(start: ActiveRun, s: P.Stand, h: Handle, said: seq<Event>, command: Option<Command>, after: Handle)
    requires Hosts(start, s, h, said) && Healthy(h.f) && h.f.run.Some? && h.f.run.value.id == h.run.id
    requires Besides(h, Interrupts(command), after)
    ensures Hosts(start, s, after, said)
  {
    var mid := h.(f := after.f);
    if command.Some? {
      var stamped := Stamped(command, h.run.id).value;
      var g := InterruptRequestKeeps(h.f, h.d, h.state, h.suspending, h.run, stamped);
      var k := InterruptRequestFollows(h.f, stamped);
      SameFold(h.f, [CommandAccepted(stamped)], g, k, after.f);
    }
    InterruptAgrees(mid.f, mid.d, mid.state, mid.suspending, mid.run);
    hide Healthy, InjectionMatches, Refines, Follows, NoTargeted;
    assert Fitting(s, after);
  }

  lemma ChargeHosted(start: ActiveRun, s: P.Stand, h: Handle, said: seq<Event>, charge: Usage, after: Handle)
    requires Hosts(start, s, h, said) && Healthy(h.f) && h.f.run.Some? && h.d.usage == h.f.usage && Besides(h, Charging(charge), after)
    ensures Hosts(start, s, after, said)
  {
    hide Healthy, InjectionMatches, Refines, Follows, AddUsage, AtMost;
    var g := ChildKeeps(h.f, h.d, h.state, h.suspending, h.run, charge);
    var k := ChildFollows(h.f, charge);
    SameFold(h.f, [ChildUsage(charge, AddUsage(h.d.usage, charge))], g, k, after.f);
  }

  lemma ProjectHosted(start: ActiveRun, s: P.Stand, h: Handle, said: seq<Event>, root: Transcript, additions: Transcript,
                      recipe: Option<Compaction>, after: Handle)
    requires Hosts(start, s, h, said) && Healthy(h.f) && h.f.run.Some? && h.d.messages == h.f.view.messages
    requires Besides(h, Projecting(root, additions, recipe), after)
    ensures Hosts(start, s, after, said)
  {
    hide Healthy, InjectionMatches, Refines, Follows, ContextStepBatch, Viewed;
    var g := ContextKeeps(h.f, h.d, h.state, h.suspending, Some(h.run), additions, recipe);
    var k := ContextStepFollows(h.f, additions, recipe);
    SameFold(h.f, ContextStepBatch(|h.d.messages|, additions, recipe), g, k, after.f);
  }

  // ---------------------------------------------------------------------
  // What the session expects of the driver's transcript.

  /** Whatever happened beside it, a driver whose transcript is the history and what it said finds its view reproduced. */
  lemma HostViews(start: ActiveRun, s: P.Stand, h: Handle, said: seq<Event>, system: Option<Message>)
    requires Hosts(start, s, h, said)
    requires system.Some? ==> system.value.role == RoleSystem && !StartsWithSystem(start.history)
    ensures Viewed(h, OptionalMessage(system) + start.history + (start.expected + T.CommittedAll(said)))
  {
    hide Sound, Fitting, T.CommittedAll, A.Reported;
    SoundRun(h);
    ViewsReproduceDriver(h.f, system);
  }

  lemma SoundRun(h: Handle)
    requires Sound(h)
    ensures Healthy(h.f) && h.f.run.Some? && h.d.messages == h.f.view.messages && h.d.markers == h.f.view.markers
    ensures var r := h.f.run.value; r.history == h.run.history && r.expected == h.run.expected && r.markerCount == h.run.markerCount
  {
    SoundFacts(h);
  }

  // ---------------------------------------------------------------------
  // A candidate that may stand.

  lemma SomeMember(entries: seq<QueueEntry>)
    ensures entries != [] ==> exists e :: e in entries
  {
    if entries != [] {
      assert entries[0] in entries;
    }
  }

  lemma NothingTargeted(queue: seq<QueueEntry>, drainAll: bool)
    requires OnlyNextTurn(queue)
    ensures HookInputs(queue, true, drainAll) == []
  {
    OfKindsMembers(queue, {QueueSteer});
    OfKindsMembers(queue, {QueueFollowUp});
    var steer, follow := OfKinds(queue, {QueueSteer}), OfKinds(queue, {QueueFollowUp});
    assert forall e :: e !in steer && e !in follow;
    SomeMember(steer);
    SomeMember(follow);
  }

  /** The session lets a candidate stand if and only if it is running and no steering or follow-up input waits. It then leaves Running. */
  lemma CandidateCloses(h: Handle, answer: HookAnswer, after: Handle)
    requires Sound(h) && Hooks(h, true, answer, after)
    ensures answer == HookDefault <==> h.state == Running && OnlyNextTurn(h.d.queue)
    ensures answer == HookDefault ==> after == h.(state := Closing)
  {
    SoundFacts(h);
    hide Sound, HookInputs, OfKinds, ChildExhausted;
    HookInputsWait(h.f, true, h.d.drainAll);
    if OnlyNextTurn(h.d.queue) {
      NothingTargeted(h.d.queue, h.d.drainAll);
    }
  }
}
