/** A drive under the session keeps the session's transcript in order: no moment at which a repair would rewrite what was committed. */
module TidyRuns {
  import opened Messages
  import opened Pairing
  import opened Usages
  import opened Suspensions
  import opened ToolControl
  import opened ResumePlan
  import opened Turns
  import opened Resuming
  import opened Drives
  import opened DriveLaws
  import opened DriveAccounts
  import opened Protocols
  import opened Projections
  import opened Hosting
  import opened Requests
  import opened HostedDrives
  import B = Batches
  import C = DriveChain
  import J = Journals
  import L = Lawful
  import P = Placement
  import R = Repair
  import Resolutions
  import S = SessionStates
  import T = SessionSteps

  // ---------------------------------------------------------------------
  // The driver's transcript and the session's.

  /** What the driver holds after these acts of a run, its own system message aside. */
  function TranscriptOf(run: J.ActiveRun, acts: seq<Act>): Transcript {
    run.history + run.expected + CommittedAll(EventsIn(acts))
  }

  /** The driver's side: a transcript the checker accepts, without bare tool messages, paired whenever the model is asked. */
  ghost predicate Composed(run: J.ActiveRun, acts: seq<Act>) {
    && Accepted(TranscriptOf(run, acts)) && Speech(CommittedAll(EventsIn(acts)))
    && forall n :: 0 <= n <= |acts| && Walk(acts[..n]) == Some(AtRequest) ==> FullyPaired(TranscriptOf(run, acts[..n]))
  }

  /** The same calls are open in the session's transcript and in the driver's. */
  lemma FrontierAgrees(h: Handle)
    requires Sound(h) && P.TidyImage(h.d)
    ensures Run(Pairing.Closed, h.run.history + h.run.expected) == Run(Pairing.Closed, h.d.messages)
  {
    hide Sound, Run, R.NoBareTool;
    SoundRun(h);
    var r := h.f.run.value;
    var seen := h.d.markers[..r.markerCount];
    assert J.ProviderHistory(h.d.messages, seen) == r.history + r.expected by {
      HealthyView(h.f);
    }
    P.HistoryKeepsFrontier(h.d.messages, seen);
  }

  lemma HealthyView(f: J.Folded)
    requires L.Healthy(f) && f.run.Some?
    ensures var r := f.run.value;
      r.markerCount <= |f.view.markers| && J.ProviderHistory(f.view.messages, f.view.markers[..r.markerCount]) == r.history + r.expected
  {
  }

  lemma HostTranscript(start: J.ActiveRun, s: Stand, h: Handle, acts: seq<Act>)
    requires Hosts(start, s, h, EventsIn(acts))
    ensures Sound(h) && h.run.history + h.run.expected == TranscriptOf(start, acts)
  {
    hide Sound, Fitting, CommittedAll, Reported;
    var committed := CommittedAll(EventsIn(acts));
    assert start.history + (start.expected + committed) == start.history + start.expected + committed;
  }

  lemma {:induction false} CommittedPrefix(a: seq<J.Event>, b: seq<J.Event>)
    requires a <= b
    ensures CommittedAll(a) <= CommittedAll(b)
    decreases |b|
  {
    hide J.Committed;
    if |a| < |b| {
      CommittedPrefix(a, b[..|b| - 1]);
    } else {
      assert a == b;
    }
  }

  lemma CommittedLast(events: seq<J.Event>, event: J.Event)
    ensures CommittedAll(events + [event]) == CommittedAll(events) + J.Committed(J.EventEntry(event, [], None))
  {
    assert (events + [event])[..|events|] == events;
  }

  /** What an act commits, between what the driver held before it and what it holds at the end. */
  lemma TranscriptSplits(run: J.ActiveRun, acts: seq<Act>, k: nat) returns (rest: Transcript)
    requires k < |acts| && acts[k].Said?
    ensures var added := J.Committed(J.EventEntry(acts[k].event, [], None));
      && TranscriptOf(run, acts) == TranscriptOf(run, acts[..k]) + added + rest
      && CommittedAll(EventsIn(acts)) == CommittedAll(EventsIn(acts[..k])) + added + rest
  {
    hide CommittedAll, J.Committed, EventsIn;
    var before, all := EventsIn(acts[..k]), EventsIn(acts);
    var added := J.Committed(J.EventEntry(acts[k].event, [], None));
    EventAt(acts, k);
    CommittedPrefix(before + [acts[k].event], all);
    CommittedLast(before, acts[k].event);
    var mid := CommittedAll(before) + added;
    rest := CommittedAll(all)[|mid|..];
    assert CommittedAll(all) == mid + rest;
    var base := run.history + run.expected;
    assert base + (CommittedAll(before) + added + rest) == base + CommittedAll(before) + added + rest;
  }

  /** A message sequence accepted to its end is accepted piece by piece. */
  lemma AcceptedPiece(before: Transcript, added: Transcript, rest: Transcript)
    requires Accepted(before + added + rest)
    ensures Accepted(before) && Run(FrontierOf(before), added).Some?
  {
    hide Run;
    PrefixAccepted(before + added, rest);
    PrefixAccepted(before, added);
    RunConcat(Pairing.Closed, before, added);
  }

  lemma SpeechPiece(before: Transcript, added: Transcript, rest: Transcript)
    requires Speech(before + added + rest)
    ensures Speech(added)
  {
    hide Inert;
    var all := before + added + rest;
    forall i | 0 <= i < |added| ensures added[i].role != RoleSystem && (added[i].role == RoleTool ==> !Inert(added[i])) {
      assert added[i] == all[|before| + i];
    }
  }

  lemma SpeechNotBare(f: Frontier, messages: Transcript)
    requires Speech(messages)
    ensures R.NoBareTool(f, messages)
  {
    P.NothingBare(f, messages);
  }

  // ---------------------------------------------------------------------
  // Step by step.

  lemma SaidTidy(start: J.ActiveRun, s: Stand, h: Handle, acts: seq<Act>, k: nat, after: Handle)
    requires k < |acts| && acts[k].Said? && Composed(start, acts) && Hosts(start, s, h, EventsIn(acts[..k]))
    requires P.TidyImage(h.d) && h.d.run.Some? && Emits(h, acts[k].event, after)
    ensures P.TidyImage(after.d)
  {
    hide Hosts, Composed, Accepted, Speech, P.TidyImage, J.Committed, CommittedAll, T.UsageAfter, S.EmittedRun, S.EmitIds, EventsIn, Run,
      J.FoldFrom;
    ComposedWhole(start, acts);
    var added := J.Committed(J.EventEntry(acts[k].event, [], None));
    var rest := TranscriptSplits(start, acts, k);
    AcceptedPiece(TranscriptOf(start, acts[..k]), added, rest);
    SpeechPiece(CommittedAll(EventsIn(acts[..k])), added, rest);
    HostTranscript(start, s, h, acts[..k]);
    FrontierAgrees(h);
    SameRun(TranscriptOf(start, acts[..k]), h.d.messages);
    SpeechNotBare(FrontierOf(h.d.messages), added);
    P.EmitTidy(h.d, acts[k].event, T.UsageAfter(h.d.usage, h.run.lastUsage, acts[k].event).value);
  }

  lemma ComposedWhole(run: J.ActiveRun, acts: seq<Act>)
    requires Composed(run, acts)
    ensures Accepted(TranscriptOf(run, acts)) && Speech(CommittedAll(EventsIn(acts)))
  {
  }

  lemma SameRun(a: Transcript, b: Transcript)
    requires Run(Pairing.Closed, a) == Run(Pairing.Closed, b)
    ensures Accepted(a) <==> Accepted(b)
    ensures FullyPaired(a) <==> FullyPaired(b)
    ensures Accepted(a) ==> FrontierOf(a) == FrontierOf(b)
  {
  }

  lemma ShownTidy(start: J.ActiveRun, h: Handle, acts: seq<Act>, k: nat, other: Other, after: Handle)
    requires k <= |acts| && Composed(start, acts) && Walk(acts[..k]) == Some(AtRequest)
    requires Hosts(start, AtRequest, h, EventsIn(acts[..k])) && P.TidyImage(h.d)
    requires other.Projecting? && Besides(h, other, after)
    ensures P.TidyImage(after.d)
  {
    hide Hosts, Accepted, Speech, Walk, CommittedAll, EventsIn, Viewed, J.FoldFrom, Run, R.NoBareTool, P.Sorted, P.AtBoundaries;
    HostTranscript(start, AtRequest, h, acts[..k]);
    FrontierAgrees(h);
    SameRun(TranscriptOf(start, acts[..k]), h.d.messages);
    P.ContextTidy(h.d, other.additions);
  }

  /** Nothing else touches the transcript or the markers. */
  lemma QuietTidy(h: Handle, beat: Beat, after: Handle)
    requires Steps(h, beat, after) && !(beat.Moves? && beat.act.Said?) && !(beat.Beside? && beat.other.Projecting?)
    ensures after.d.messages == h.d.messages && after.d.markers == h.d.markers
  {
    hide J.FoldFrom, S.HookInputs, S.ChildExhausted, B.RemoveAll;
  }

  /** Through every joint run the session's transcript stays tidy. */
  lemma {:induction false} JointTidy(start: J.ActiveRun, acts: seq<Act>, beats: seq<Beat>, handles: seq<Handle>)
    requires Walk(acts).Some? && Decent(acts, start.lastUsage) && Joint(beats, handles) && Taken(beats) <= acts
    requires Hosts(start, AtStart, handles[0], []) && Composed(start, acts) && P.TidyImage(handles[0].d)
    ensures P.TidyImage(handles[|beats|].d)
    decreases |beats|
  {
    hide Hosts, Steps, Composed, Walk, Decent, P.TidyImage, Next;
    if beats != [] {
      var n := |beats| - 1;
      var before, beat, h, after := beats[..n], beats[n], handles[n], handles[n + 1];
      JointPrefix(beats, handles, n);
      TakenPrefix(beats, n);
      JointHosts(start, acts, before, handles[..n + 1]);
      JointTidy(start, acts, before, handles[..n + 1]);
      assert Steps(h, beat, after) && Placed(before, beat);
      assert acts[..|Taken(before)|] == Taken(before);
      BeatTidy(start, acts, before, beat, h, after);
    }
  }

  lemma BeatTidy(start: J.ActiveRun, acts: seq<Act>, before: seq<Beat>, beat: Beat, h: Handle, after: Handle)
    requires Composed(start, acts) && Walk(Taken(before)).Some? && Taken(before) <= acts && acts[..|Taken(before)|] == Taken(before)
    requires beat.Moves? ==> |Taken(before)| < |acts| && acts[|Taken(before)|] == beat.act
    requires Hosts(start, Walk(Taken(before)).value, h, EventsIn(Taken(before))) && P.TidyImage(h.d)
    requires Steps(h, beat, after) && Placed(before, beat)
    ensures P.TidyImage(after.d)
  {
    hide Hosts, Composed, Walk, P.Tidy, Hooks, Emits, Besides;
    if beat.Moves? && beat.act.Said? {
      SaidTidy(start, Walk(Taken(before)).value, h, acts, |Taken(before)|, after);
    } else if beat.Beside? && beat.other.Projecting? {
      ShownTidy(start, h, acts, |Taken(before)|, beat.other, after);
    } else {
      QuietTidy(h, beat, after);
    }
  }

  // ---------------------------------------------------------------------
  // What a crash finds.

  /** Every input drained and not applied is one the driver was handed and has not committed yet. */
  predicate Owed(h: Handle) {
    forall id :: id in h.f.queues.drained ==> id in h.run.volatile.pendingInjectionIds
  }

  predicate DrainsWithin(batch: seq<J.Entry>, ids: seq<string>) {
    forall i :: 0 <= i < |batch| && batch[i].QueueDrained? ==> batch[i].id in ids
  }

  lemma {:induction false} DrainsOnly(f: J.Folded, batch: seq<J.Entry>, ids: seq<string>)
    requires J.FoldFrom(f, batch).Some? && DrainsWithin(batch, ids)
    ensures forall id :: id in J.FoldFrom(f, batch).value.queues.drained ==> id in f.queues.drained || id in ids
    decreases batch
  {
    hide J.ViewStep, J.PhaseStep, J.UsageStep, J.RunStep, J.Corrupt;
    if batch != [] {
      DrainsOnly(J.FoldStep(f, batch[0]), batch[1..], ids);
    }
  }

  lemma {:induction false} DrainBatchIds(entries: seq<J.QueueEntry>)
    ensures DrainsWithin(B.DrainBatch(entries), B.IdsOf(entries))
    decreases entries
  {
    if entries != [] {
      DrainBatchIds(entries[1..]);
      var batch, ids := B.DrainBatch(entries), B.IdsOf(entries);
      assert ids[0] == entries[0].id && ids[1..] == B.IdsOf(entries[1..]);
      assert forall i :: 0 < i < |batch| ==> batch[i] == B.DrainBatch(entries[1..])[i - 1];
      assert forall id :: id in ids[1..] ==> id in ids;
    }
  }

  lemma {:induction false} ContextDrainsNothing(after: nat, additions: Transcript, recipe: Option<ContextPolicy.Compaction>)
    ensures DrainsWithin(T.ContextStepBatch(after, additions, recipe), [])
    decreases additions
  {
    if additions != [] {
      ContextDrainsNothing(after, additions[1..], recipe);
      var batch := T.ContextStepBatch(after, additions, recipe);
      assert batch == [J.ContextMessage(after, additions[0])] + T.ContextStepBatch(after, additions[1..], recipe);
    }
  }

  lemma SaidOwed(h: Handle, event: J.Event, after: Handle)
    requires h.d.run.Some? && Emits(h, event, after) && Owed(h)
    ensures Owed(after)
  {
    hide J.ViewStep, J.PhaseStep, J.UsageStep, J.RunStep, J.Committed, T.EmittedImage, T.UsageAfter, J.CallStep;
    OneEntry(h.f, J.EventEntry(event, S.EmitIds(h.run, event), T.UsageAfter(h.d.usage, h.run.lastUsage, event).value), after.f);
    var ids := h.run.volatile.pendingInjectionIds;
    assert forall id :: id in ids ==> id in J.IdSet(ids);
  }

  lemma HeardOwed(h: Handle, candidate: bool, answer: S.HookAnswer, after: Handle)
    requires Hooks(h, candidate, answer, after) && Owed(h) && h.run.volatile.pendingInjectionIds == []
    ensures Owed(after)
  {
    hide J.FoldFrom, S.HookInputs, S.ChildExhausted, B.RemoveAll;
    var inputs := S.HookInputs(h.d.queue, candidate, h.d.drainAll);
    if answer.HookInject? {
      DrainBatchIds(inputs);
      DrainsOnly(h.f, B.DrainBatch(inputs), B.IdsOf(inputs));
    }
  }

  lemma BesideOwed(h: Handle, other: Other, after: Handle)
    requires Besides(h, other, after) && Owed(h)
    ensures Owed(after)
  {
    hide J.FoldFrom, Viewed, T.ContextStepBatch;
    match other
    case Accepting(entry, command) => DrainsOnly(h.f, T.AcceptBatch(entry, command), []);
    case Interrupts(command) => DrainsOnly(h.f, T.CommandTail(S.Stamped(command, h.run.id)), []);
    case Charging(charge) => DrainsOnly(h.f, [J.ChildUsage(charge, AddUsage(h.d.usage, charge))], []);
    case Projecting(root, additions, recipe) =>
      ContextDrainsNothing(|h.d.messages|, additions, recipe);
      DrainsOnly(h.f, T.ContextStepBatch(|h.d.messages|, additions, recipe), []);
    case Recording(_) =>
  }

  lemma BeatOwed(start: J.ActiveRun, s: Stand, h: Handle, said: seq<J.Event>, beat: Beat, after: Handle)
    requires Hosts(start, s, h, said) && Steps(h, beat, after) && Owed(h) && (beat.Moves? ==> Next(s, beat.act).Some?)
    ensures Owed(after)
  {
    hide Sound, Followed, Emits, Hooks, Besides, Conveys, Owed;
    match beat
    case Moves(Said(event)) => SaidOwed(h, event, after);
    case Moves(Heard(candidate, reply)) =>
      var answer :| Hooks(h, candidate, answer, after) && Conveys(answer, reply);
      HeardOwed(h, candidate, answer, after);
    case Beside(other) => BesideOwed(h, other, after);
  }

  lemma {:induction false} JointOwed(start: J.ActiveRun, acts: seq<Act>, beats: seq<Beat>, handles: seq<Handle>)
    requires Walk(acts).Some? && Decent(acts, start.lastUsage) && Joint(beats, handles) && Taken(beats) <= acts
    requires Hosts(start, AtStart, handles[0], []) && Owed(handles[0])
    ensures Owed(handles[|beats|])
    decreases |beats|
  {
    hide Hosts, Steps, Walk, Decent, Owed, Next, Placed;
    if beats != [] {
      var n := |beats| - 1;
      var before, beat, h, after := beats[..n], beats[n], handles[n], handles[n + 1];
      JointPrefix(beats, handles, n);
      TakenPrefix(beats, n);
      JointHosts(start, acts, before, handles[..n + 1]);
      JointOwed(start, acts, before, handles[..n + 1]);
      assert Steps(h, beat, after);
      var k := |Taken(before)|;
      assert acts[..k] == Taken(before);
      if beat.Moves? {
        WalkOn(acts, k);
      }
      BeatOwed(start, Walk(Taken(before)).value, h, EventsIn(Taken(before)), beat, after);
    }
  }

  /** The session as a recovery takes it over: the inputs it owes are applied. */
  function TakenOver(h: Handle): T.Durable {
    h.d.(messages := J.Extend(h.d.messages, B.MessagesOf(J.Unapplied(h.f.queues))))
  }

  /** An interrupt can repair the committed transcript here, and should the process die here, recovery can take it over and finds it tidy. */
  predicate Mends(h: Handle) {
    S.Mendable(h.d.messages, B.MessagesOf(J.Unapplied(h.f.queues)), h.run.calls) && P.TidyImage(TakenOver(h))
  }

  lemma TidyMends(h: Handle, inputs: Transcript)
    requires P.TidyImage(h.d) && inputs == B.MessagesOf(J.Unapplied(h.f.queues))
    requires inputs == [] || (FullyPaired(h.d.messages) && AllInert(inputs))
    ensures Mends(h)
  {
    hide R.Inspect, S.Additions, Inert, P.Sorted, P.AtBoundaries, J.Unapplied, B.MessagesOf;
    S.AdditionsExact(h.d.messages, h.run.calls);
    var base := J.Extend(h.d.messages, inputs);
    if inputs != [] {
      P.AllInertTidy(h.d.messages, h.d.markers, inputs);
    }
    S.AdditionsExact(base, h.run.calls);
    R.InspectExact(base);
  }

  /** A recovery that continues from there hands the driver a paired history. */
  lemma CrashPairs(h: Handle, run: string, limits: Option<Limits>, instructions: string)
    requires Mends(h)
    ensures var d := TakenOver(h);
      var recovered := T.RecoveredImage(d, S.Additions(d.messages, h.run.calls).value, run, limits, instructions);
      P.TidyImage(recovered) && FullyPaired(recovered.messages) && FullyPaired(recovered.run.value.history)
  {
    hide R.Inspect, S.Additions, P.Tidy, Run, T.RecoveredImage;
    P.RecoverPairs(TakenOver(h), h.run.calls, run, limits, instructions);
  }

  /** One that pauses on the uncertain calls hands the driver a paired history once they are answered, whatever the answers. */
  lemma CrashResolves(h: Handle, resolutions: seq<ToolResolution>, prompt: Option<Message>, run: string, limits: Option<Limits>,
                      instructions: string)
    requires Mends(h) && (prompt.Some? ==> Inert(prompt.value))
    requires Resolutions.CheckResolutions(S.Uncertain(R.Inspect(TakenOver(h).messages).value, h.run.calls), resolutions).Passed?
    ensures var d := TakenOver(h);
      var plan := Resolutions.CheckResolutions(S.Uncertain(R.Inspect(d.messages).value, h.run.calls), resolutions).value;
      && Accepted(d.messages) && S.ResolvedResults(d.messages, plan).Some?
      && var resolved := T.ResolvedImage(d, S.ResolvedResults(d.messages, plan).value + OptionalMessage(prompt), run, limits, instructions);
         P.TidyImage(resolved) && FullyPaired(resolved.messages) && FullyPaired(resolved.run.value.history)
  {
    hide S.Mendable, P.Sorted, P.AtBoundaries, Run, T.ResolvedImage, Resolutions.CheckResolutions, Inert, S.ResolvedResults, S.Uncertain,
      R.NoBareTool;
    var d := TakenOver(h);
    R.InspectExact(d.messages);
    var open := Unresolved(FrontierOf(d.messages));
    P.UncertainNamed(FrontierOf(d.messages), d.messages, h.run.calls);
    P.ResolvePairs(d, S.Uncertain(open, h.run.calls), resolutions, prompt, run, limits, instructions);
  }

  /** Nothing is owed but at a handover. */
  lemma NothingOwed(h: Handle)
    requires Owed(h) && h.run.volatile.pendingInjectionIds == []
    ensures J.Unapplied(h.f.queues) == []
  {
    S.NothingLive(h.f.queues.order, h.f.queues.drained);
  }

  lemma HandedInert(h: Handle, inject: Transcript)
    requires Owed(h) && L.QueueHealthy(h.f.queues) && AllInert(inject)
    requires L.InjectionMatches(h.f.queues.drained, inject, h.run.volatile.pendingInjectionIds)
    ensures AllInert(B.MessagesOf(J.Unapplied(h.f.queues)))
  {
    hide Inert;
    var q, ids := h.f.queues, h.run.volatile.pendingInjectionIds;
    B.InOrderWaits(q.order, q.drained);
    var owed := J.Unapplied(q);
    forall i | 0 <= i < |owed| ensures Inert(B.MessagesOf(owed)[i]) {
      assert owed[i].id in q.drained && q.drained[owed[i].id] == owed[i];
      var k :| 0 <= k < |ids| && ids[k] == owed[i].id;
      assert inject[k] == owed[i].message;
    }
  }

  /** What the hook handed over is a batch of user messages. */
  lemma HandoverUsers(acts: seq<Act>, inject: Transcript)
    requires Walk(acts) == Some(AtHandover(inject))
    ensures inject != [] && P.FromUsers(inject)
  {
  }

  lemma HandoverPaired(run: J.ActiveRun, acts: seq<Act>, k: nat, inject: Transcript)
    requires Composed(run, acts) && k < |acts| && acts[k] == Said(J.MessagesInjected(inject)) && Walk(acts[..k]) == Some(AtHandover(inject))
    ensures FullyPaired(TranscriptOf(run, acts[..k])) && AllInert(inject)
  {
    hide Composed, Run, Walk, CommittedAll, EventsIn, Inert;
    ComposedWhole(run, acts);
    var rest := TranscriptSplits(run, acts, k);
    var before := TranscriptOf(run, acts[..k]);
    AcceptedPiece(before, inject, rest);
    HandoverUsers(acts[..k], inject);
    RunKeepsShape(Pairing.Closed, before);
    P.UsersAdvance(FrontierOf(before), inject);
  }

  lemma HandoverNext(acts: seq<Act>, k: nat, inject: Transcript)
    requires Walk(acts).Some? && k < |acts| && Walk(acts[..k]) == Some(AtHandover(inject))
    ensures acts[k] == Said(J.MessagesInjected(inject))
  {
    WalkOn(acts, k);
  }

  /** At every point of every joint run, an interrupt and a crash can be mended. */
  lemma PointMends(start: J.ActiveRun, acts: seq<Act>, k: nat, s: Stand, h: Handle)
    requires Walk(acts).Some? && !Walk(acts).value.AtHandover? && k <= |acts| && Walk(acts[..k]) == Some(s) && Composed(start, acts)
    requires Hosts(start, s, h, EventsIn(acts[..k])) && P.TidyImage(h.d) && Owed(h)
    ensures Mends(h)
  {
    hide Sound, Composed, Run, Walk, Followed, P.TidyImage, Mends, Owed, L.InjectionMatches;
    if s.AtHandover? {
      assert k < |acts| by { assert acts[..|acts|] == acts; }
      HandoverNext(acts, k, s.inject);
      HandoverPaired(start, acts, k, s.inject);
      HostTranscript(start, s, h, acts[..k]);
      FrontierAgrees(h);
      SameRun(TranscriptOf(start, acts[..k]), h.d.messages);
      SoundFacts(h);
      QueuesSound(h.f);
      HandedInert(h, s.inject);
    } else {
      NothingOwed(h);
    }
    TidyMends(h, B.MessagesOf(J.Unapplied(h.f.queues)));
  }

  // ---------------------------------------------------------------------
  // The driver's side of a whole drive.

  lemma SystemRuns(system: Option<Message>, messages: Transcript)
    requires P.InertSystem(system)
    ensures Run(Pairing.Closed, OptionalMessage(system) + messages) == Run(Pairing.Closed, messages)
  {
    hide Inert;
    if system.Some? {
      P.InertHeadRuns(system.value, messages);
    } else {
      assert [] + messages == messages;
    }
  }

  lemma InsertedInert(system: string, history: Transcript)
    ensures P.InertSystem(Inserted(system, history))
  {
    if Inserted(system, history).Some? {
      R.OnePart(Text(system));
    }
  }

  /** A drive whose requests are recorded and paired, and whose transcript is accepted at the end. */
  lemma DriveComposed(run: J.ActiveRun, d: Drive, system: Option<Message>, from: int, below: int)
    requires var base := OptionalMessage(system) + run.history + run.expected;
      && Recorded(base, 0, 0, d) && PairedRequests(d.requests, from, below)
      && d.end.ls.messages == base + CommittedAll(d.end.ls.emitted)
    requires Accepted(d.end.ls.messages) && Speech(CommittedAll(d.end.ls.emitted)) && P.InertSystem(system)
    ensures Composed(run, Script(d)) && Run(Pairing.Closed, TranscriptOf(run, Script(d))) == Run(Pairing.Closed, d.end.ls.messages)
  {
    hide Recorded, CommittedAll, Run, Speech, P.InertSystem, Walk, Acts;
    var base, acts := OptionalMessage(system) + run.history + run.expected, Script(d);
    ScriptEvents(d.end.ls.emitted, d.end.ls.hooks);
    Regroup(run, system, EventsIn(acts));
    SystemRuns(system, TranscriptOf(run, acts));
    SameRun(TranscriptOf(run, acts), d.end.ls.messages);
    forall n | 0 <= n <= |acts| && Walk(acts[..n]) == Some(AtRequest) ensures FullyPaired(TranscriptOf(run, acts[..n])) {
      var i := RequestCarries(d, base, acts[..n]);
      Regroup(run, system, EventsIn(acts[..n]));
      SystemRuns(system, TranscriptOf(run, acts[..n]));
      SameRun(TranscriptOf(run, acts[..n]), d.requests[i].messages);
    }
  }

  lemma Regroup(run: J.ActiveRun, system: Option<Message>, said: seq<J.Event>)
    ensures OptionalMessage(system) + run.history + run.expected + CommittedAll(said)
      == OptionalMessage(system) + (run.history + run.expected + CommittedAll(said))
  {
  }

  lemma EndAccepted(env: Env, cfg: Config, end: Ended)
    requires Reliable(env) && PairedEnd(env, cfg, end)
    ensures Accepted(end.ls.messages) && (end.status != J.ExecutionSuspended ==> FullyPaired(end.ls.messages))
  {
  }

  lemma PromptInert(h: Handle, prompt: Message)
    requires Sound(h) && P.TidyImage(h.d) && h.run.expected == [prompt] && prompt.role == RoleUser && FullyPaired(h.run.history)
    ensures Inert(prompt)
  {
    hide Sound, Run, Inert, R.NoBareTool;
    FrontierAgrees(h);
    RunSnoc(Pairing.Closed, h.run.history, prompt);
    P.UserAdvances(Pairing.Closed, prompt);
  }

  lemma PairedInput(mode: InputMode, prompt: Option<Message>, history: Transcript)
    requires ValidInput(mode, prompt, history)
    ensures FullyPaired(history) && (prompt.Some? ==> prompt.value.role == RoleUser)
  {
    RunKeepsShape(Pairing.Closed, history);
  }

  lemma StartInput(env: Env, cfg: Config, system: string, mode: InputMode, prompt: Option<Message>, history: Transcript)
    requires StartDrive(env, cfg, system, mode, prompt, history).Some?
    ensures ValidInput(mode, prompt, history)
  {
  }

  lemma StartComposed(env: Env, cfg: Config, system: string, mode: InputMode, prompt: Option<Message>, d: Drive, h: Handle)
    requires Reliable(env) && Metered(env) && WellBehaved(env) && Opened(h, prompt) && P.TidyImage(h.d)
    requires StartDrive(env, cfg, system, mode, prompt, h.run.history) == Some(d)
    ensures Composed(h.run, Script(d)) && Run(Pairing.Closed, TranscriptOf(h.run, Script(d))) == Run(Pairing.Closed, d.end.ls.messages)
    ensures PairedEnd(env, cfg, d.end) && P.InertSystem(Inserted(system, h.run.history))
    ensures d.end.status != J.ExecutionSuspended ==> FullyPaired(d.end.ls.messages)
  {
    hide Reliable, Metered, WellBehaved, StartDrive, Sound, P.TidyImage, Kept, PairedEnd, Composed, Recorded, Inserted, Run, CommittedAll,
      PairedRequests, Inert, ValidInput, Speech;
    StartInput(env, cfg, system, mode, prompt, h.run.history);
    PairedInput(mode, prompt, h.run.history);
    if prompt.Some? {
      PromptInert(h, prompt.value);
    }
    StartPairs(env, cfg, system, mode, prompt, h.run.history);
    StartKept(env, cfg, system, mode, prompt, h.run.history);
    StartRecorded(env, cfg, system, mode, prompt, h.run.history);
    var inserted := Inserted(system, h.run.history);
    KeptMirrors(env, cfg, OptionalMessage(inserted) + h.run.history + OptionalMessage(prompt), ZeroUsage, d.end.ls);
    EndAccepted(env, cfg, d.end);
    InsertedInert(system, h.run.history);
    DriveComposed(h.run, d, inserted, 0, cfg.maxIterations);
  }
}
