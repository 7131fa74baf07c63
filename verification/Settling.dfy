/** What the settlement of a whole drive leaves: which ones fault, and which ones leave calls open. */
module Settlings {
  import opened Messages
  import opened Pairing
  import opened Usages
  import opened Suspensions
  import opened ToolControl
  import opened ResumePlan
  import opened Turns
  import opened Resuming
  import opened TurnBounds
  import opened Drives
  import opened DriveLaws
  import opened DriveAccounts
  import opened Protocols
  import opened Projections
  import opened Hosting
  import opened Requests
  import opened HostedDrives
  import opened TidyRuns
  import C = DriveChain
  import L = Lawful
  import B = Batches
  import J = Journals
  import P = Placement
  import R = Repair
  import S = SessionStates
  import T = SessionSteps

  // ---------------------------------------------------------------------
  // One settlement.

  /** How the session settles what the drive returned. */
  function SettlementHere(h: Handle, d: Drive, given: Transcript): S.Settlement {
    S.SettlementOf(h.state, h.run, Some(ExecutionOf(d, |given|)), ErrorOf(d.end.error))
  }

  /** The error at which that settlement faults before it asks the store. */
  function FaultHere(h: Handle, d: Drive, given: Transcript): Option<S.SessionError>
    requires h.run.volatile.publicNewStart <= |h.run.expected|
  {
    S.SettlementFailure(h.d.messages, h.state, h.run, Some(ExecutionOf(d, |given|)), ErrorOf(d.end.error))
  }

  /** Over a tidy transcript an accepted execution can only fail on its usage. */
  lemma OnlyUsageFails(h: Handle, d: Drive, given: Transcript, inserted: Option<Message>)
    requires Returns(h, d, given, inserted) && P.TidyImage(h.d)
    ensures FaultHere(h, d, given) ==
      if SettlementHere(h, d, given).SettleBounce? || UsageDelta(d.end.ls.usage, h.run.lastUsage).Some? then None
      else Some(S.UsageBackwards)
  {
    hide S.ValidateProjection, UsageDelta, S.Additions, R.NoBareTool, Run, S.ReportContract;
    S.AdditionsExact(h.d.messages, h.run.calls);
  }

  predicate FaultsWith(h: Handle, d: Drive, given: Transcript, fault: Option<S.SessionError>) {
    h.run.volatile.publicNewStart <= |h.run.expected| && FaultHere(h, d, given) == fault
  }

  /** The image a settlement leaves. */
  function ImageHere(h: Handle, d: Drive, given: Transcript): T.Durable
    requires h.d.run == T.Settled(Some(h.run)) && h.run.volatile.publicNewStart <= |h.run.expected| && FaultHere(h, d, given).None?
  {
    S.SettledImage(h.d, h.state, h.run, Some(ExecutionOf(d, |given|)), ErrorOf(d.end.error))
  }

  /** An interrupt pairs the transcript; every other settlement leaves it as open as it was. */
  lemma SettledTidy(h: Handle, d: Drive, given: Transcript, inserted: Option<Message>)
    requires Returns(h, d, given, inserted) && P.TidyImage(h.d) && P.InertSystem(inserted) && h.d.run == T.Settled(Some(h.run))
    requires FaultHere(h, d, given).None?
    ensures var image := ImageHere(h, d, given);
      && P.TidyImage(image)
      && (image.run.None? <==> SettlementHere(h, d, given).SettleInterrupt? || SettlementHere(h, d, given).SettleClose?)
      && if SettlementHere(h, d, given).SettleInterrupt? then FullyPaired(image.messages)
         else Run(Pairing.Closed, image.messages) == Run(Pairing.Closed, h.d.messages)
  {
    hide S.ValidateProjection, UsageDelta, S.Additions, P.TidyImage, Run, S.ReportContract, T.ClosedImage, S.PausedImage, T.UsedAfter,
      T.QueueAfter, AddUsage;
    var execution, error := Some(ExecutionOf(d, |given|)), ErrorOf(d.end.error);
    var used := S.ReportedUsage(execution);
    match SettlementHere(h, d, given)
    case SettleInterrupt =>
      P.InterruptPairs(h.d, h.run.calls, T.UsedAfter(h.d, used), inserted, T.QueueAfter(h.d.queue, true), S.INTERRUPTION);
      ClosedRun(T.WithRepair(h.d, S.Additions(h.d.messages, h.run.calls).value), T.UsedAfter(h.d, used), inserted,
                T.QueueAfter(h.d.queue, true), Some(S.INTERRUPTION));
    case SettleBounce =>
    case SettlePause =>
      P.PauseKeepsFrontier(h.d, h.run, used.value, inserted);
      PausedImageRun(h.d, h.run, used.value, inserted);
    case SettleClose =>
      var queue := T.QueueAfter(h.d.queue, S.Cancels(execution, error));
      P.CloseKeepsFrontier(h.d, T.UsedAfter(h.d, used), inserted, queue);
      ClosedRun(h.d, T.UsedAfter(h.d, used), inserted, queue, None);
  }

  lemma ClosedRun(d: T.Durable, used: Usage, system: Option<Message>, queue: seq<J.QueueEntry>, marker: Option<string>)
    ensures T.ClosedImage(d, used, system, queue, marker).run.None?
  {
  }

  lemma PausedImageRun(d: T.Durable, run: J.ActiveRun, reported: Usage, system: Option<Message>)
    requires UsageDelta(reported, run.lastUsage).Some?
    ensures S.PausedImage(d, run, reported, system).run.Some?
  {
  }

  /** Everything about a handle at the end of a script. */
  lemma AtTheEnd(start: J.ActiveRun, d: Drive, h: Handle)
    requires Walk(Script(d)).Some? && Hosts(start, Walk(Script(d)).value, h, EventsIn(Script(d))) && P.TidyImage(h.d)
    ensures Run(Pairing.Closed, h.d.messages) == Run(Pairing.Closed, TranscriptOf(start, Script(d)))
    ensures h.d.run == T.Settled(Some(h.run))
  {
    hide Hosts, Walk, Run, P.TidyImage, CommittedAll, EventsIn, Acts;
    HostTranscript(start, Walk(Script(d)).value, h, Script(d));
    FrontierAgrees(h);
    SoundFacts(h);
  }

  // ---------------------------------------------------------------------
  // Started drives.

  ghost predicate Begins(env: Env, cfg: Config, system: string, mode: InputMode, prompt: Option<Message>, d: Drive, h: Handle) {
    && Reliable(env) && Metered(env) && WellBehaved(env) && cfg.hooked
    && Opened(h, prompt) && StartDrive(env, cfg, system, mode, prompt, h.run.history) == Some(d)
  }

  /**
   * A started drive over a tidy transcript, under a session that others go on using. At every point of it the transcript is tidy, an
   * interrupt can repair it and a crash can be recovered. At the end only the store can refuse the settlement, interrupted or not: a run that
   * ends leaves a paired transcript, and one that pauses leaves open what the driver left open.
   */
  lemma StartStaysTidy(env: Env, cfg: Config, system: string, mode: InputMode, prompt: Option<Message>, d: Drive,
                       h: Handle, beats: seq<Beat>, handles: seq<Handle>, after: Handle)
    requires Begins(env, cfg, system, mode, prompt, d, h)
    requires Plays(Script(d), h, beats, handles, after) && P.TidyImage(h.d) && Owed(h)
    ensures P.TidyImage(after.d) && Mends(after)
    ensures Taken(beats) == Script(d) ==> Rests(after, d, h.run.history, true)
  {
    hide Reliable, Metered, WellBehaved, Plays, Hosts, Decent, Walk, StartDrive, Returns, Inserted, Sound, Composed, Ordered,
      PairedEnd, P.TidyImage, Owed, Mends, P.InertSystem, Rests, Run;
    StartReady(env, cfg, system, mode, prompt, d, h);
    StartComposed(env, cfg, system, mode, prompt, d, h);
    StartOrdered(env, cfg, system, mode, prompt, h.run.history);
    NoHandoverLeft(d.end);
    PlayedTidy(h.run, Script(d), h, beats, handles, after);
    if Taken(beats) == Script(d) {
      ScriptHosted(h.run, Script(d), h, beats, handles, after);
      StartRests(env, cfg, system, mode, prompt, d, h, after);
    }
  }

  /** The session keeps step with the driver to the end of its script. */
  ghost predicate Ends(start: J.ActiveRun, d: Drive, after: Handle) {
    Walk(Script(d)).Some? && Hosts(start, Walk(Script(d)).value, after, EventsIn(Script(d))) && P.TidyImage(after.d)
  }

  lemma StartRests(env: Env, cfg: Config, system: string, mode: InputMode, prompt: Option<Message>, d: Drive, h: Handle, after: Handle)
    requires Begins(env, cfg, system, mode, prompt, d, h) && P.TidyImage(h.d) && Ends(h.run, d, after)
    ensures Rests(after, d, h.run.history, true) && Returns(after, d, h.run.history, Inserted(system, h.run.history))
    ensures !SettlementHere(after, d, h.run.history).SettleBounce? && PairedEnd(env, cfg, d.end)
  {
    hide Reliable, Metered, WellBehaved, Hosts, Walk, StartDrive, Returns, Inserted, Sound, Composed, PairedEnd, P.TidyImage, P.InertSystem,
      Rests, Run, Acts;
    StartComposed(env, cfg, system, mode, prompt, d, h);
    StartSettles(env, cfg, system, mode, prompt, d, h, after);
    AtTheEnd(h.run, d, after);
    Rested(after, d, h.run.history, Inserted(system, h.run.history), true);
  }

  lemma NoHandoverLeft(end: Ended)
    requires Ordered(end)
    ensures Walk(Acts(end.ls.emitted, end.ls.hooks)).Some? && !Walk(Acts(end.ls.emitted, end.ls.hooks)).value.AtHandover?
  {
  }

  /** The points of a joint run. */
  lemma PlayedTidy(start: J.ActiveRun, acts: seq<Act>, h: Handle, beats: seq<Beat>, handles: seq<Handle>, after: Handle)
    requires Walk(acts).Some? && !Walk(acts).value.AtHandover? && Decent(acts, start.lastUsage) && Plays(acts, h, beats, handles, after)
    requires Hosts(start, AtStart, h, []) && Composed(start, acts) && P.TidyImage(h.d) && Owed(h)
    ensures P.TidyImage(after.d) && Mends(after)
  {
    hide Hosts, Walk, Decent, Composed, P.TidyImage, Owed, Mends, Steps, Placed;
    JointTidy(start, acts, beats, handles);
    JointOwed(start, acts, beats, handles);
    JointHosts(start, acts, beats, handles);
    var k := |Taken(beats)|;
    assert acts[..k] == Taken(beats);
    PointMends(start, acts, k, Walk(Taken(beats)).value, after);
  }

  /**
   * How a settled drive leaves the session. Nothing but the store refuses the settlement; a run that ends leaves its transcript paired, if
   * and only if it was interrupted or the driver had left it paired; one that goes on leaves open what the driver left open.
   */
  predicate Rests(h: Handle, d: Drive, given: Transcript, paired: bool) {
    && h.d.run == T.Settled(Some(h.run)) && h.run.volatile.publicNewStart <= |h.run.expected| && FaultHere(h, d, given).None?
    && var image := ImageHere(h, d, given);
       && P.TidyImage(image)
       && if image.run.None? then FullyPaired(image.messages) <==> SettlementHere(h, d, given).SettleInterrupt? || paired
          else Run(Pairing.Closed, image.messages) == Run(Pairing.Closed, d.end.ls.messages)
  }

  lemma Rested(h: Handle, d: Drive, given: Transcript, inserted: Option<Message>, paired: bool)
    requires Returns(h, d, given, inserted) && P.TidyImage(h.d) && P.InertSystem(inserted) && h.d.run == T.Settled(Some(h.run))
    requires SettlementHere(h, d, given).SettleBounce? || UsageDelta(d.end.ls.usage, h.run.lastUsage).Some?
    requires Run(Pairing.Closed, h.d.messages) == Run(Pairing.Closed, d.end.ls.messages)
    requires SettlementHere(h, d, given).SettleClose? ==> (FullyPaired(d.end.ls.messages) <==> paired)
    ensures Rests(h, d, given, paired)
  {
    hide S.ValidateProjection, S.ReturnContract, UsageDelta, P.TidyImage, Run, S.SettlementFailure, S.SettledImage, S.SettlementOf;
    OnlyUsageFails(h, d, given, inserted);
    SettledTidy(h, d, given, inserted);
    var image := ImageHere(h, d, given);
    if !SettlementHere(h, d, given).SettleInterrupt? {
      SameRun(image.messages, h.d.messages);
      SameRun(h.d.messages, d.end.ls.messages);
    }
  }

  // ---------------------------------------------------------------------
  // Resumed drives.

  /** A transcript as a pause leaves it: exactly the calls of its last message are open. */
  predicate Awaited(messages: Transcript) {
    && messages != [] && GetToolUses(messages[|messages| - 1]) != []
    && Run(Pairing.Closed, messages) == Some(Frontier(GetToolUses(messages[|messages| - 1]), {}))
  }

  lemma AwaitedOpen(messages: Transcript)
    requires Awaited(messages)
    ensures Accepted(messages) && !FullyPaired(messages)
  {
  }

  lemma EnterExtends(env: Env, cfg: Config, ls: Loop, entry: Entry)
    requires entry.Turn?
    ensures TurnExtends(ls, EnterTurn(env, cfg, ls, entry))
  {
    hide Extends, Emit, CompleteTurn, FinishTurn, Drives.Suspends;
    CompletionExtends(env, cfg, ls, entry.assistant, entry.regular);
    var c := CompleteTurn(env, cfg, ls, entry.assistant, entry.regular);
    OverExtends(env, ls, c.ls);
    if entry.prompt.Some? {
      var fed := c.ls.(messages := c.ls.messages + [entry.prompt.value]);
      ExtendsSame(c.ls, fed);
      EmitExtends(env, fed, J.MessagesInjected([entry.prompt.value]));
      ExtendsChain(ls, c.ls, fed);
      ExtendsChain(ls, fed, Emit(env, fed, J.MessagesInjected([entry.prompt.value])).0);
    }
    var prompted := WithPrompt(env, c, entry.prompt);
    FinishExtends(env, cfg, prompted.ls, prompted.outcome);
    TurnChain(ls, prompted.ls, FinishTurn(env, cfg, prompted.ls, prompted.outcome));
  }

  lemma LoopStarts(env: Env, cfg: Config, ls: Loop, entry: Entry)
    requires Reliable(env)
    ensures J.RunStarted in DriveLoop(env, cfg, ls, entry).end.ls.emitted
  {
    hide Extends, Reliable, DriveFrom, EnterTurn, Failed, Emit;
    EmitsReliably(env, ls, J.RunStarted);
    var started := Emit(env, ls, J.RunStarted).0;
    var end := DriveLoop(env, cfg, ls, entry).end.ls;
    if entry.Fresh? {
      var event := DriveExtends(env, cfg, started);
      EmitExtends(env, started, event);
      ExtendsChain(started, Emit(env, started, event).0, end);
    } else {
      EnterExtends(env, cfg, started, entry);
      match EnterTurn(env, cfg, started, entry)
      case Over(_) =>
      case Again(next) =>
        var on := next.(iteration := next.iteration + 1);
        var event := DriveExtends(env, cfg, on);
        EmitExtends(env, on, event);
        ExtendsSame(next, on);
        ExtendsChain(on, Emit(env, on, event).0, end);
        ExtendsChain(next, on, end);
        ExtendsChain(started, next, end);
    }
    StartedWithin(env, ls, end);
  }

  lemma StartedWithin(env: Env, ls: Loop, end: Loop)
    requires Reliable(env) && Extends(Emit(env, ls, J.RunStarted).0, end)
    ensures J.RunStarted in end.emitted
  {
    assert end.emitted[|ls.emitted|] == J.RunStarted;
  }

  lemma NeverStarted(env: Env, ls: Loop, error: DriveError)
    requires ls.emitted == [] && error != SinkFailed
    ensures var end := Failed(env, ls, error); J.RunStarted !in end.ls.emitted && end.ls.messages == ls.messages
    ensures Failed(env, ls, error).status == J.ExecutionFailed && Failed(env, ls, error).error == error
  {
  }

  /**
   * A resumed drive either starts, and then pairs or suspends like any other, or never starts and leaves everything as it was. It starts if
   * and only if the guards pass and the calls are resolved.
   */
  lemma ResumeShape(env: Env, cfg: Config, ls: Loop, s: Suspension, decisions: seq<ToolResumeDecision>, prompt: Option<Message>)
      returns (from: int)
    requires Reliable(env) && WellBehaved(env) && (prompt.Some? ==> Inert(prompt.value)) && Awaited(ls.messages) && ls.emitted == []
    ensures var d := ResumePrepared(env, cfg, ls, s, decisions, prompt);
      && PairedRequests(d.requests, from, cfg.maxIterations)
      && (J.RunStarted in d.end.ls.emitted <==>
            && ResumeGuards(env, cfg, ls.messages, s)
            && (s.payload.ToolPayload? ==>
                  ResolveTools(env, cfg, Restored(ls.messages, s.payload.tool), s.payload.tool, decisions).ResolvedAs?))
      && (J.RunStarted in d.end.ls.emitted ==> PairedEnd(env, cfg, d.end))
      && (J.RunStarted !in d.end.ls.emitted ==> d.end.ls.messages == ls.messages && d.end.status == J.ExecutionFailed)
  {
    hide DriveLoop, ResolveTools, PairedEnd, Reliable, WellBehaved, PairedRequests, GetToolUses, Failed, Inert, Run, ResumeGuards;
    ResumePairs(env, cfg, ls, s, decisions, prompt);
    NoRequests(cfg.maxIterations);
    NeverStarted(env, ls, SuspensionMismatch);
    from := 0;
    if ResumeGuards(env, cfg, ls.messages, s) {
      GuardsName(env, cfg, ls.messages, s);
      var restored := Restored(ls.messages, s.payload.tool);
      match ResolveTools(env, cfg, restored, s.payload.tool, decisions)
      case ResolveFailed(validation) =>
        NeverStarted(env, restored, ResolutionRefused(validation));
      case ResolvedAs(stage) =>
        from := s.payload.tool.iteration + 1;
        LoopStarts(env, cfg, stage.ls, Turn(ls.messages[|ls.messages| - 1], Some(stage.regular), prompt));
    }
  }

  lemma NoRequests(below: int)
    ensures PairedRequests([], 0, below)
  {
  }

  /** What a resumption of a paused run needs: its own suspension over the transcript the pause left, and a plain prompt. */
  ghost predicate Resumes(env: Env, cfg: Config, system: string, s: Suspension, decisions: seq<ToolResumeDecision>, prompt: Option<Message>,
                          d: Drive, paused: J.ActiveRun, h: Handle) {
    && Reliable(env) && Metered(env) && WellBehaved(env) && cfg.hooked && (prompt.Some? ==> Inert(prompt.value))
    && Reopened(h, paused) && Belongs(cfg, paused, s)
    && var history := paused.history + paused.expected;
       && (system == "" || HasSystem(history)) && Awaited(history)
       && ResumeDrive(env, cfg, system, history, s, decisions, prompt) == Some(d)
  }

  lemma ResumedMirrors(env: Env, cfg: Config, system: string, s: Suspension, decisions: seq<ToolResumeDecision>, prompt: Option<Message>,
                       d: Drive, run: J.ActiveRun)
    requires Reliable(env) && Metered(env) && WellBehaved(env) && Belongs(cfg, run, s)
    requires var history := run.history + run.expected;
      (system == "" || HasSystem(history)) && ResumeDrive(env, cfg, system, history, s, decisions, prompt) == Some(d)
    ensures d.end.ls.messages == run.history + run.expected + CommittedAll(d.end.ls.emitted) && Speech(CommittedAll(d.end.ls.emitted))
  {
    hide Reliable, Metered, WellBehaved, Kept, ResumeGuards, Bounded, Restored, ResolveTools, DriveLoop, Failed, Run, HasSystem, CommittedAll,
      Inserted, Speech;
    var history := run.history + run.expected;
    PreparedAsIs(system, history);
    var ls := Prepared(system, history, None);
    if ResumeGuards(env, cfg, history, s) {
      GuardsName(env, cfg, history, s);
      RestoredSame(ls.messages, history, s.payload.tool);
      ResumeKept(env, cfg, ls, s, decisions, prompt);
      KeptMirrors(env, cfg, history, s.payload.tool.usage, d.end.ls);
    } else {
      RefusedEnd(env, ls);
      TwoPlainEvents(run.lastUsage);
      NothingSpoken();
      assert history + [] == history;
    }
  }

  lemma NothingSpoken()
    ensures Speech([])
  {
  }

  lemma ResumeComposed(env: Env, cfg: Config, system: string, s: Suspension, decisions: seq<ToolResumeDecision>, prompt: Option<Message>,
                       d: Drive, paused: J.ActiveRun, h: Handle)
    requires Resumes(env, cfg, system, s, decisions, prompt, d, paused, h)
    ensures Composed(h.run, Script(d)) && Run(Pairing.Closed, TranscriptOf(h.run, Script(d))) == Run(Pairing.Closed, d.end.ls.messages)
    ensures d.end.status != J.ExecutionSuspended ==> (FullyPaired(d.end.ls.messages) <==> J.RunStarted in d.end.ls.emitted)
  {
    hide Reliable, Metered, WellBehaved, Belongs, Sound, HasSystem, Awaited, Inert, Composed, Recorded, PairedEnd, PairedRequests, Run, Speech,
      CommittedAll, ResumeGuards, ResumePrepared, Script;
    ReopenedRun(cfg, h, paused, s);
    var history := h.run.history + h.run.expected;
    PreparedAsIs(system, history);
    var ls := Prepared(system, history, None);
    var from := ResumeShape(env, cfg, ls, s, decisions, prompt);
    ResumedMirrors(env, cfg, system, s, decisions, prompt, d, h.run);
    BelongsBounded(env, cfg, h.run, s, ls);
    ResumeRecorded(env, cfg, ls, s, decisions, prompt);
    AwaitedOpen(history);
    if J.RunStarted in d.end.ls.emitted {
      EndAccepted(env, cfg, d.end);
    }
    assert OptionalMessage(None) + h.run.history + h.run.expected == history;
    DriveComposed(h.run, d, None, from, cfg.maxIterations);
  }

  lemma BelongsBounded(env: Env, cfg: Config, run: J.ActiveRun, s: Suspension, ls: Loop)
    requires Belongs(cfg, run, s) && ls.messages == run.history + run.expected
    ensures ResumeGuards(env, cfg, ls.messages, s) ==>
      s.payload.ToolPayload? && Bounded(cfg, s.payload.tool.usage.counters.toolCalls, Restored(ls.messages, s.payload.tool))
  {
    hide Bounded;
    if ResumeGuards(env, cfg, ls.messages, s) {
      GuardsName(env, cfg, ls.messages, s);
      RestoredSame(ls.messages, run.history + run.expected, s.payload.tool);
    }
  }

  /** A resumed run that the driver has not reported as started is still in its window. */
  lemma WindowOpen(paused: J.ActiveRun, h: Handle, d: Drive, after: Handle)
    requires Reopened(h, paused) && Followed(h.run, after.run, d.end.ls.emitted)
    ensures ResumeWindowOf(after) <==> J.RunStarted !in d.end.ls.emitted
  {
    hide Sound, CommittedAll, Reported;
  }

  predicate ResumeWindowOf(h: Handle) {
    S.ResumeWindow(h.run.volatile)
  }

  /** At the end of the script of a resumed drive. */
  lemma ResumeEnds(env: Env, cfg: Config, system: string, s: Suspension, decisions: seq<ToolResumeDecision>, prompt: Option<Message>,
                   d: Drive, paused: J.ActiveRun, h: Handle, after: Handle)
    requires Resumes(env, cfg, system, s, decisions, prompt, d, paused, h) && P.TidyImage(h.d) && Ends(h.run, d, after)
    ensures after.d.run == T.Settled(Some(after.run)) && Returns(after, d, paused.history + paused.expected, None)
    ensures Reports(ResumeGuards(env, cfg, paused.history + paused.expected, s), d, paused.lastUsage, after.run.lastUsage)
    ensures Run(Pairing.Closed, after.d.messages) == Run(Pairing.Closed, d.end.ls.messages)
    ensures (ResumeWindowOf(after) <==> J.RunStarted !in d.end.ls.emitted) && Followed(h.run, after.run, d.end.ls.emitted)
  {
    hide Reliable, Metered, WellBehaved, Hosts, Walk, ResumeDrive, Returns, Reports, Reopened, Belongs, HasSystem, Awaited, Inert, Composed,
      P.TidyImage, Run, ResumeGuards, Acts, ResumeWindowOf, Followed;
    ResumeComposed(env, cfg, system, s, decisions, prompt, d, paused, h);
    ResumeSettles(env, cfg, system, s, decisions, prompt, d, paused, h, after);
    AtTheEnd(h.run, d, after);
    ScriptEvents(d.end.ls.emitted, d.end.ls.hooks);
    HostsFollowed(h.run, Walk(Script(d)).value, after, d.end.ls.emitted);
    WindowOpen(paused, h, d, after);
  }

  /** Through a joint run on a resumed drive. */
  lemma ResumePlays(env: Env, cfg: Config, system: string, s: Suspension, decisions: seq<ToolResumeDecision>, prompt: Option<Message>,
                    d: Drive, paused: J.ActiveRun, h: Handle, beats: seq<Beat>, handles: seq<Handle>, after: Handle)
    requires Resumes(env, cfg, system, s, decisions, prompt, d, paused, h)
    requires Plays(Script(d), h, beats, handles, after) && P.TidyImage(h.d) && Owed(h)
    ensures P.TidyImage(after.d) && Mends(after) && (Taken(beats) == Script(d) ==> Ends(h.run, d, after))
  {
    hide Reliable, Metered, WellBehaved, Plays, Hosts, Decent, Walk, ResumeDrive, Reopened, Belongs, HasSystem, Awaited, Inert, Composed,
      Ordered, P.TidyImage, Owed, Mends, Run, Acts;
    ResumeReady(env, cfg, system, s, decisions, prompt, d, paused, h);
    ResumeComposed(env, cfg, system, s, decisions, prompt, d, paused, h);
    ResumeOrdered(env, cfg, system, paused.history + paused.expected, s, decisions, prompt);
    NoHandoverLeft(d.end);
    PlayedTidy(h.run, Script(d), h, beats, handles, after);
    ScriptHosted(h.run, Script(d), h, beats, handles, after);
  }

  predicate Nothing(used: Usage) {
    AtMost(used.counters, ZeroCounters) && used.perRequest == []
  }

  /**
   * The settlement of a resumed drive faults the session before the store is asked if and only if the driver's guards refused the
   * resumption, the session was interrupted before it settled that, and the run had reported some usage before it paused: the refused
   * execution reports none, which an interrupt takes for counters that moved backwards.
   */
  lemma ResumeFaults(env: Env, cfg: Config, system: string, s: Suspension, decisions: seq<ToolResumeDecision>, prompt: Option<Message>,
                     d: Drive, paused: J.ActiveRun, h: Handle, beats: seq<Beat>, handles: seq<Handle>, after: Handle)
    requires Resumes(env, cfg, system, s, decisions, prompt, d, paused, h)
    requires Plays(Script(d), h, beats, handles, after) && Taken(beats) == Script(d) && P.TidyImage(h.d) && Owed(h)
    ensures FaultsWith(after, d, paused.history + paused.expected,
      if !ResumeGuards(env, cfg, paused.history + paused.expected, s) && after.state == J.Interrupting && !Nothing(paused.lastUsage)
      then Some(S.UsageBackwards) else None)
  {
    hide Resumes, Plays, Ends, FaultsWith, ResumeGuards, Nothing;
    ResumePlays(env, cfg, system, s, decisions, prompt, d, paused, h, beats, handles, after);
    FaultsAt(env, cfg, system, s, decisions, prompt, d, paused, h, after);
  }

  lemma FaultsAt(env: Env, cfg: Config, system: string, s: Suspension, decisions: seq<ToolResumeDecision>, prompt: Option<Message>,
                 d: Drive, paused: J.ActiveRun, h: Handle, after: Handle)
    requires Resumes(env, cfg, system, s, decisions, prompt, d, paused, h) && P.TidyImage(h.d) && Ends(h.run, d, after)
    ensures FaultsWith(after, d, paused.history + paused.expected,
      if !ResumeGuards(env, cfg, paused.history + paused.expected, s) && after.state == J.Interrupting && !Nothing(paused.lastUsage)
      then Some(S.UsageBackwards) else None)
  {
    hide Reliable, Metered, WellBehaved, ResumeDrive, Reopened, Belongs, HasSystem, Awaited, Inert, P.TidyImage, Run, Hosts, Walk, Followed,
      ResumeGuards, S.ValidateProjection, S.ReturnContract, UsageDelta, S.SettlementFailure, Script;
    var history := paused.history + paused.expected;
    ResumeEnds(env, cfg, system, s, decisions, prompt, d, paused, h, after);
    OnlyUsageFails(after, d, history, None);
    if !ResumeGuards(env, cfg, history, s) {
      RefusedHere(env, cfg, system, history, s, decisions, prompt, d);
    }
  }

  lemma RefusedHere(env: Env, cfg: Config, system: string, history: Transcript, s: Suspension, decisions: seq<ToolResumeDecision>,
                    prompt: Option<Message>, d: Drive)
    requires Reliable(env) && (system == "" || HasSystem(history)) && !ResumeGuards(env, cfg, history, s)
    requires ResumeDrive(env, cfg, system, history, s, decisions, prompt) == Some(d)
    ensures d.end.status == J.ExecutionFailed && d.end.error == SuspensionMismatch && J.RunStarted !in d.end.ls.emitted
  {
    hide ResumeGuards, HasSystem, Run, Failed, ResolveTools, DriveLoop, Inserted;
    PreparedAsIs(system, history);
    NeverStarted(env, Prepared(system, history, None), SuspensionMismatch);
  }

  /**
   * A resumed drive, whatever the decisions, in the same company: tidy and mendable at every point. When its settlement goes through, a run
   * that ends leaves its transcript paired if and only if it was interrupted or the driver had started it.
   */
  lemma ResumeStaysTidy(env: Env, cfg: Config, system: string, s: Suspension, decisions: seq<ToolResumeDecision>, prompt: Option<Message>,
                        d: Drive, paused: J.ActiveRun, h: Handle, beats: seq<Beat>, handles: seq<Handle>, after: Handle)
    requires Resumes(env, cfg, system, s, decisions, prompt, d, paused, h)
    requires Plays(Script(d), h, beats, handles, after) && P.TidyImage(h.d) && Owed(h)
    ensures P.TidyImage(after.d) && Mends(after)
    ensures Taken(beats) == Script(d) && FaultsWith(after, d, paused.history + paused.expected, None) ==>
      Rests(after, d, paused.history + paused.expected, J.RunStarted in d.end.ls.emitted)
  {
    hide Resumes, Plays, Ends, FaultsWith, P.TidyImage, Mends, Rests;
    ResumePlays(env, cfg, system, s, decisions, prompt, d, paused, h, beats, handles, after);
    if Taken(beats) == Script(d) && FaultsWith(after, d, paused.history + paused.expected, None) {
      ResumeRests(env, cfg, system, s, decisions, prompt, d, paused, h, after);
    }
  }

  lemma ResumeRests(env: Env, cfg: Config, system: string, s: Suspension, decisions: seq<ToolResumeDecision>, prompt: Option<Message>,
                    d: Drive, paused: J.ActiveRun, h: Handle, after: Handle)
    requires Resumes(env, cfg, system, s, decisions, prompt, d, paused, h) && P.TidyImage(h.d) && Ends(h.run, d, after)
    requires FaultsWith(after, d, paused.history + paused.expected, None)
    ensures Rests(after, d, paused.history + paused.expected, J.RunStarted in d.end.ls.emitted)
  {
    hide Reliable, Metered, WellBehaved, Hosts, Walk, ResumeDrive, Returns, Reports, Reopened, Belongs, HasSystem, Awaited, Inert, Composed,
      P.TidyImage, Run, ResumeGuards, Acts, Rests, S.SettlementFailure, UsageDelta, Followed;
    var history := paused.history + paused.expected;
    ResumeComposed(env, cfg, system, s, decisions, prompt, d, paused, h);
    ResumeEnds(env, cfg, system, s, decisions, prompt, d, paused, h, after);
    OnlyUsageFails(after, d, history, None);
    Rested(after, d, history, None, J.RunStarted in d.end.ls.emitted);
  }

  /** The settlement closes the run and leaves calls open. */
  predicate Strands(h: Handle, d: Drive, given: Transcript) {
    && h.d.run == T.Settled(Some(h.run)) && FaultsWith(h, d, given, None)
    && ImageHere(h, d, given).run.None? && !FullyPaired(ImageHere(h, d, given).messages)
  }

  /** The guards pass, and the calls cannot be resolved for a reason other than validation. */
  predicate Unresolvable(env: Env, cfg: Config, history: Transcript, s: Suspension, decisions: seq<ToolResumeDecision>) {
    && ResumeGuards(env, cfg, history, s) && s.payload.ToolPayload?
    && ResolveTools(env, cfg, Restored(history, s.payload.tool), s.payload.tool, decisions) == ResolveFailed(false)
  }

  /**
   * A resumption ends its run over open calls if and only if the driver passed its guards, failed to resolve the calls for a reason other
   * than validation, such as the tool-call limit, and nobody interrupted it.
   */
  lemma StrandsExactly(env: Env, cfg: Config, system: string, s: Suspension, decisions: seq<ToolResumeDecision>, prompt: Option<Message>,
                       d: Drive, paused: J.ActiveRun, h: Handle, beats: seq<Beat>, handles: seq<Handle>, after: Handle)
    requires Resumes(env, cfg, system, s, decisions, prompt, d, paused, h)
    requires Plays(Script(d), h, beats, handles, after) && Taken(beats) == Script(d) && P.TidyImage(h.d) && Owed(h)
    ensures Strands(after, d, paused.history + paused.expected)
      <==> after.state != J.Interrupting && Unresolvable(env, cfg, paused.history + paused.expected, s, decisions)
  {
    hide Resumes, Plays, Ends, Strands, Unresolvable, P.TidyImage;
    ResumePlays(env, cfg, system, s, decisions, prompt, d, paused, h, beats, handles, after);
    StrandsAt(env, cfg, system, s, decisions, prompt, d, paused, h, after);
  }

  lemma StrandsAt(env: Env, cfg: Config, system: string, s: Suspension, decisions: seq<ToolResumeDecision>, prompt: Option<Message>,
                  d: Drive, paused: J.ActiveRun, h: Handle, after: Handle)
    requires Resumes(env, cfg, system, s, decisions, prompt, d, paused, h) && P.TidyImage(h.d) && Ends(h.run, d, after)
    ensures Strands(after, d, paused.history + paused.expected)
      <==> after.state != J.Interrupting && Unresolvable(env, cfg, paused.history + paused.expected, s, decisions)
  {
    hide Reliable, Metered, WellBehaved, ResumeDrive, Returns, Reports, Reopened, Belongs, HasSystem, Awaited, Inert, P.TidyImage, Hosts,
      Walk, Run, ResumeGuards, Script, S.SettlementFailure, S.SettledImage, ResolveTools, Followed;
    var history := paused.history + paused.expected;
    ResumeEnds(env, cfg, system, s, decisions, prompt, d, paused, h, after);
    FaultsAt(env, cfg, system, s, decisions, prompt, d, paused, h, after);
    if FaultsWith(after, d, history, None) {
      ResumeRests(env, cfg, system, s, decisions, prompt, d, paused, h, after);
      SettledTidy(after, d, history, None);
    }
    EndedAs(env, cfg, system, s, decisions, prompt, d, paused, h);
  }

  /** How a resumed drive that never starts ends. */
  lemma EndedAs(env: Env, cfg: Config, system: string, s: Suspension, decisions: seq<ToolResumeDecision>, prompt: Option<Message>,
                d: Drive, paused: J.ActiveRun, h: Handle)
    requires Resumes(env, cfg, system, s, decisions, prompt, d, paused, h)
    ensures var history := paused.history + paused.expected;
      && (Unresolvable(env, cfg, history, s, decisions) ==> J.RunStarted !in d.end.ls.emitted)
      && (J.RunStarted !in d.end.ls.emitted ==>
            && d.end.status == J.ExecutionFailed
            && (ErrorOf(d.end.error) != S.ResumeValidation <==> Unresolvable(env, cfg, history, s, decisions)))
  {
    hide Reliable, Metered, WellBehaved, Reopened, Belongs, HasSystem, Awaited, Inert, Run, ResumeGuards, ResolveTools, DriveLoop, PairedEnd,
      PairedRequests, Failed, Inserted;
    var history := paused.history + paused.expected;
    PreparedAsIs(system, history);
    var ls := Prepared(system, history, None);
    var from := ResumeShape(env, cfg, ls, s, decisions, prompt);
    if !ResumeGuards(env, cfg, history, s) {
      NeverStarted(env, ls, SuspensionMismatch);
    } else {
      GuardsName(env, cfg, history, s);
      RestoredSame(ls.messages, history, s.payload.tool);
      match ResolveTools(env, cfg, Restored(history, s.payload.tool), s.payload.tool, decisions)
      case ResolveFailed(validation) => NeverStarted(env, Restored(history, s.payload.tool), ResolutionRefused(validation));
      case ResolvedAs(_) =>
    }
  }

  /**
   * A resumption the driver cannot even prepare, for a reason other than validation: there is no execution, and unless the session was
   * interrupted the run is closed with its calls open.
   */
  lemma UnpreparedStrands(paused: J.ActiveRun, h: Handle, beats: seq<Beat>, handles: seq<Handle>, after: Handle)
    requires Reopened(h, paused) && Awaited(paused.history + paused.expected) && P.TidyImage(h.d)
    requires Plays([], h, beats, handles, after) && after.state != J.Interrupting
    ensures after.run.volatile.publicNewStart <= |after.run.expected| && after.d.run == T.Settled(Some(after.run))
    ensures S.SettlementFailure(after.d.messages, after.state, after.run, None, S.OtherError).None?
    ensures var image := S.SettledImage(after.d, after.state, after.run, None, S.OtherError);
      image.run.None? && P.TidyImage(image) && !FullyPaired(image.messages)
  {
    hide Plays, Reopened, Awaited, P.TidyImage, Hosts, Run, T.ClosedImage, T.QueueAfter, Inert;
    ReopenedHosts(h, paused);
    NothingScripted(h.run);
    AwaitedOpen(paused.history + paused.expected);
    ReopenedTranscript(h, paused);
    UnplayedTidy(h.run, h, beats, handles, after);
    SameRun(after.d.messages, paused.history + paused.expected);
    var queue := T.QueueAfter(after.d.queue, true);
    P.CloseKeepsFrontier(after.d, after.d.usage, None, queue);
    ClosedRun(after.d, after.d.usage, None, queue, None);
  }

  lemma ReopenedTranscript(h: Handle, paused: J.ActiveRun)
    requires Reopened(h, paused)
    ensures h.run.history + h.run.expected == paused.history + paused.expected
    ensures TranscriptOf(h.run, []) == h.run.history + h.run.expected && ResumeWindowOf(h)
  {
    assert CommittedAll(EventsIn([])) == [];
    assert h.run.history + h.run.expected + [] == h.run.history + h.run.expected;
  }

  lemma NothingScripted(run: J.ActiveRun)
    ensures Walk([]) == Some(AtStart) && Decent([], run.lastUsage) && EventsIn([]) == []
  {
  }

  lemma UnplayedTidy(start: J.ActiveRun, h: Handle, beats: seq<Beat>, handles: seq<Handle>, after: Handle)
    requires Hosts(start, AtStart, h, []) && Plays([], h, beats, handles, after) && P.TidyImage(h.d)
    requires Accepted(start.history + start.expected) && TranscriptOf(start, []) == start.history + start.expected
    requires Walk([]) == Some(AtStart) && Decent([], start.lastUsage) && EventsIn([]) == []
    ensures P.TidyImage(after.d) && Hosts(start, AtStart, after, [])
    ensures Run(Pairing.Closed, after.d.messages) == Run(Pairing.Closed, start.history + start.expected)
    ensures after.run.volatile.publicNewStart <= |after.run.expected| && after.d.run == T.Settled(Some(after.run)) && Alive(after.state)
  {
    hide Hosts, P.TidyImage, Run, Decent, Walk, Steps, Placed;
    NothingSpoken();
    JointHosts(start, [], beats, handles);
    JointTidy(start, [], beats, handles);
    assert Taken(beats) == [];
    HostTranscript(start, AtStart, after, []);
    FrontierAgrees(after);
    SoundFacts(after);
    HostsFollowed(start, AtStart, after, []);
  }

  // ---------------------------------------------------------------------
  // From one drive to the next.

  /** A run waiting on a suspension of this driver, over the transcript the pause left and with the counters the envelope holds. */
  ghost predicate Waits(cfg: Config, system: string, run: J.ActiveRun, s: Suspension) {
    && run.volatile.pendingInjectionIds == [] && Awaited(run.history + run.expected) && C.Seeded(system, run.history + run.expected)
    && (s.payload.ToolPayload? ==>
          run.lastUsage == s.payload.tool.usage && Bounded(cfg, 0, Restored(run.history + run.expected, s.payload.tool)))
  }

  lemma WaitsBelongs(cfg: Config, system: string, run: J.ActiveRun, s: Suspension)
    requires Waits(cfg, system, run, s)
    ensures Belongs(cfg, run, s) && (system == "" || HasSystem(run.history + run.expected))
  {
    hide Bounded, Restored, Awaited;
    if s.payload.ToolPayload? {
      C.OwnBounds(cfg, Restored(run.history + run.expected, s.payload.tool));
      RestoredSame(run.history + run.expected, run.history + run.expected, s.payload.tool);
    }
  }

  /** A settled pause leaves the run waiting. */
  lemma PauseWaits(env: Env, cfg: Config, system: string, d: Drive, h: Handle, given: nat, inserted: Option<Message>)
    requires PairedEnd(env, cfg, d.end) && d.end.suspension.Some? && Bounded(cfg, 0, d.end.ls) && C.Seeded(system, d.end.ls.messages)
    requires Fitting(AtPause(d.end.suspension.value), h) && h.run.volatile.publicNewStart <= |h.run.expected|
    requires S.ValidateProjection(h.run, ResultOf(d.end.ls, given)) == S.Match(inserted)
    ensures Waits(cfg, system, S.PausedRun(h.run, d.end.ls.usage, inserted), d.end.suspension.value)
  {
    hide Bounded, S.ValidateProjection, Run, HasSystem, Fitting, C.Seeded, GetToolUses;
    C.PairedSettles(env, cfg, d);
    PauseHandsOver(cfg, system, d, h, given, inserted);
    SettledBounds(cfg, d);
  }

  lemma SettledBounds(cfg: Config, d: Drive)
    requires C.Settled(cfg, d) && d.end.suspension.Some?
    ensures var s := d.end.suspension.value;
      s.payload.ToolPayload? && d.end.ls.usage == s.payload.tool.usage && Bounded(cfg, 0, Restored(d.end.ls.messages, s.payload.tool))
  {
    hide Bounded;
    SameBounds(cfg, 0, d.end.ls, Restored(d.end.ls.messages, d.end.suspension.value.payload.tool));
  }

  lemma StartBounds(env: Env, cfg: Config, system: string, mode: InputMode, prompt: Option<Message>, history: Transcript, d: Drive)
    requires StartDrive(env, cfg, system, mode, prompt, history) == Some(d)
    ensures Bounded(cfg, 0, d.end.ls) && C.Seeded(system, d.end.ls.messages)
  {
    hide Bounded, Kept, StartDrive, Inserted, C.Seeded;
    StartKept(env, cfg, system, mode, prompt, history);
    var base := OptionalMessage(Inserted(system, history)) + history + OptionalMessage(prompt);
    KeptBounds(env, cfg, base, ZeroUsage, d.end.ls);
    C.PreparedSeeded(system, history, prompt);
    C.SeededStays(system, base, d.end.ls.messages);
  }

  lemma ResumeBounds(env: Env, cfg: Config, system: string, s: Suspension, decisions: seq<ToolResumeDecision>, prompt: Option<Message>,
                     d: Drive, run: J.ActiveRun)
    requires Waits(cfg, system, run, s) && ResumeDrive(env, cfg, system, run.history + run.expected, s, decisions, prompt) == Some(d)
    requires ResumeGuards(env, cfg, run.history + run.expected, s)
    ensures Bounded(cfg, 0, d.end.ls) && C.Seeded(system, d.end.ls.messages)
  {
    hide Bounded, Kept, ResumePrepared, ResumeGuards, C.Seeded, Awaited, Run, Restored;
    var history := run.history + run.expected;
    C.SeededAsIs(system, history);
    var ls := Prepared(system, history, None);
    GuardsName(env, cfg, history, s);
    var restored := Restored(history, s.payload.tool);
    RestoredSame(history, history, s.payload.tool);
    C.OwnBounds(cfg, restored);
    ResumeKept(env, cfg, ls, s, decisions, prompt);
    KeptBounds(env, cfg, history, s.payload.tool.usage, d.end.ls);
    C.BoundsAdd(cfg, 0, restored, d.end.ls);
    C.SeededStays(system, history, d.end.ls.messages);
  }

  /** A drive that never started leaves the run as it was waiting. */
  lemma BounceWaits(cfg: Config, system: string, paused: J.ActiveRun, s: Suspension, d: Drive, h: Handle, after: Handle)
    requires Waits(cfg, system, paused, s) && Reopened(h, paused) && Followed(h.run, after.run, d.end.ls.emitted)
    requires d.end.ls.emitted == [J.RunFailed, J.RunEnded] && after.run.volatile.pendingInjectionIds == []
    ensures Waits(cfg, system, after.run.(volatile := after.run.volatile.(resumeInProgress := false)), s)
  {
    hide Bounded, Restored, Awaited, C.Seeded, Sound, CommittedAll, Reported;
    TwoPlainEvents(h.run.lastUsage);
    assert h.run.expected + [] == h.run.expected;
  }

  lemma NeverStartedSays(env: Env, cfg: Config, system: string, s: Suspension, decisions: seq<ToolResumeDecision>, prompt: Option<Message>,
                         d: Drive, paused: J.ActiveRun, h: Handle)
    requires Resumes(env, cfg, system, s, decisions, prompt, d, paused, h) && J.RunStarted !in d.end.ls.emitted
    ensures d.end.ls.emitted == [J.RunFailed, J.RunEnded] && d.end.ls.hooks == [] && d.end.suspension.None?
  {
    hide Reliable, Metered, WellBehaved, Reopened, Belongs, HasSystem, Awaited, Inert, Run, ResumeGuards, ResolveTools, DriveLoop, PairedEnd,
      PairedRequests, Failed, Inserted;
    var history := paused.history + paused.expected;
    PreparedAsIs(system, history);
    var ls := Prepared(system, history, None);
    var from := ResumeShape(env, cfg, ls, s, decisions, prompt);
    FailedSays(env, ls, SuspensionMismatch);
    if ResumeGuards(env, cfg, history, s) {
      GuardsName(env, cfg, history, s);
      RestoredSame(ls.messages, history, s.payload.tool);
      var restored := Restored(ls.messages, s.payload.tool);
      match ResolveTools(env, cfg, restored, s.payload.tool, decisions)
      case ResolveFailed(validation) => FailedSays(env, restored, ResolutionRefused(validation));
      case ResolvedAs(_) =>
    }
  }

  lemma FailedSays(env: Env, ls: Loop, error: DriveError)
    requires Reliable(env) && ls.emitted == [] && ls.hooks == [] && error != SinkFailed
    ensures var end := Failed(env, ls, error);
      end.ls.emitted == [J.RunFailed, J.RunEnded] && end.ls.hooks == [] && end.suspension.None?
  {
  }

  // ---------------------------------------------------------------------
  // A settlement drains nothing.

  lemma {:induction false} CancelsDrainNothing(entries: seq<J.QueueEntry>)
    ensures DrainsWithin(B.CancelBatch(entries), [])
    decreases entries
  {
    if entries != [] {
      CancelsDrainNothing(entries[1..]);
      DrainsJoin([J.QueueCancelled(entries[0].id)], B.CancelBatch(entries[1..]));
    }
  }

  lemma {:induction false} RepairsDrainNothing(messages: Transcript)
    ensures DrainsWithin(B.RepairBatch(messages), [])
    decreases messages
  {
    if messages != [] {
      RepairsDrainNothing(messages[1..]);
      DrainsJoin([J.RepairMessage(messages[0])], B.RepairBatch(messages[1..]));
    }
  }

  lemma DrainsJoin(a: seq<J.Entry>, b: seq<J.Entry>)
    requires DrainsWithin(a, []) && DrainsWithin(b, [])
    ensures DrainsWithin(a + b, [])
  {
  }

  lemma CloseDrainsNothing(d: T.Durable, reported: Option<Usage>, system: Option<Message>, cancel: bool, marker: Option<string>,
                           status: J.Status)
    requires d.run.Some? && (reported.Some? ==> UsageDelta(reported.value, d.run.value.lastUsage).Some?)
    ensures DrainsWithin(T.CloseBatch(d, reported, system, cancel, marker, status), [])
  {
    hide UsageDelta, AddUsage, DrainsWithin;
    var usage, cancels := T.ReportTail(d.usage, d.run.value.lastUsage, reported), T.CancelTail(d.queue, cancel);
    UsageDrainsNothing(d.usage, d.run.value.lastUsage, reported);
    CancelsDrainNothing(B.OfKinds(d.queue, B.Targeted));
    TailsDrainNothing(system, marker, J.RunClosed(d.run.value.id, status));
    DrainsJoin(usage, T.SystemTail(system));
    DrainsJoin(usage + T.SystemTail(system), cancels);
    DrainsJoin(usage + T.SystemTail(system) + cancels, T.MarkerTail(marker));
    DrainsJoin(usage + T.SystemTail(system) + cancels + T.MarkerTail(marker), [J.RunClosed(d.run.value.id, status)]);
  }

  lemma UsageDrainsNothing(used: Usage, last: Usage, reported: Option<Usage>)
    requires reported.Some? ==> UsageDelta(reported.value, last).Some?
    ensures DrainsWithin(T.ReportTail(used, last, reported), []) && DrainsWithin([], [])
  {
  }

  lemma TailsDrainNothing(system: Option<Message>, marker: Option<string>, closing: J.Entry)
    requires closing.RunClosed?
    ensures DrainsWithin(T.SystemTail(system), []) && DrainsWithin(T.MarkerTail(marker), []) && DrainsWithin([closing], [])
  {
  }

  lemma SettlementDrainsNothing(h: Handle, d: Drive, given: Transcript)
    requires h.d.run == T.Settled(Some(h.run)) && FaultsWith(h, d, given, None)
    ensures DrainsWithin(S.SettlementBatch(h.d, h.state, h.run, Some(ExecutionOf(d, |given|)), ErrorOf(d.end.error)), [])
  {
    hide S.ValidateProjection, UsageDelta, S.Additions, T.CloseBatch, B.RepairBatch, DrainsWithin, Run;
    var execution, error := Some(ExecutionOf(d, |given|)), ErrorOf(d.end.error);
    var projected, used := S.ProjectedSystem(h.run, execution), S.ReportedUsage(execution);
    match SettlementHere(h, d, given)
    case SettleInterrupt =>
      var added := S.Additions(h.d.messages, h.run.calls).value;
      RepairsDrainNothing(added);
      CloseDrainsNothing(T.WithRepair(h.d, added), used, projected.system, true, Some(S.INTERRUPTION), J.ExecutionInterrupted);
      DrainsJoin(B.RepairBatch(added),
                 T.CloseBatch(T.WithRepair(h.d, added), used, projected.system, true, Some(S.INTERRUPTION), J.ExecutionInterrupted));
    case SettleBounce => UsageDrainsNothing(h.d.usage, h.run.lastUsage, None);
    case SettlePause =>
      UsageDrainsNothing(h.d.usage, h.run.lastUsage, used);
      TailsDrainNothing(projected.system, None, J.RunClosed("", J.ExecutionFailed));
      DrainsJoin(T.UsageTail(h.d.usage, h.run.lastUsage, used.value), T.SystemTail(projected.system));
    case SettleClose =>
      CloseDrainsNothing(h.d, used, projected.system, S.Cancels(execution, error), None, S.StatusOf(execution));
  }
}
