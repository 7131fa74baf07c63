/** A paused run, journal entry by journal entry, and two resumptions of it that go wrong. */
module StrandedRuns {
  import opened Messages
  import opened Pairing
  import opened Usages
  import opened Suspensions
  import opened ToolControl
  import opened ResumePlan
  import opened Turns
  import opened Resuming
  import opened TurnBounds
  import opened Drives
  import opened DriveLaws
  import opened DriveAccounts
  import opened Protocols
  import opened Projections
  import opened Hosting
  import opened HostedDrives
  import opened TidyRuns
  import opened Settlings
  import C = DriveChain
  import B = Batches
  import J = Journals
  import L = Lawful
  import P = Placement
  import R = Repair
  import S = SessionStates
  import T = SessionSteps
  import W = RecoveryWitnesses

  // ---------------------------------------------------------------------
  // The journal of the paused run.

  const Calls := [C.FirstCall, C.SecondCall]

  const History := [W.Hello, C.TwoCalls]

  /** What one request of a provider that counts no tokens adds up to. */
  const OneRequest := Usage(ZeroCounters.(requests := 1), [RequestUsage(0, 0, 0, 0, 0, 0)])

  /** The suspension of both calls at the gate. */
  function Envelope(frontier: string, strategy: EndStrategy, fingerprint: string): Suspension {
    Suspension("s", "approval", frontier, ToolPayload(ToolSuspension(
      1, "s", false, Calls, CallIds(Calls), 0, OneRequest, map[], 0, 0, strategy, fingerprint, FinishToolUse,
      Deferral("approval", OpaqueDeferral("")))))
  }

  const NoQueue := J.Queues(map[], map[], [])

  /** The fold inside the run. */
  function Stage(messages: Transcript, planned: seq<ToolUse>, phase: J.Phase, used: Usage): J.Folded {
    J.Folded(true, None, false, J.View(messages, [], None), NoQueue, phase, used, None,
             Some(J.ActiveRun("r", J.DriveStart, [], messages, used, J.CallLog(planned, {}, {}), 0, None, false, "", J.Quiet)))
  }

  const Working := J.Phase(J.Running, None, false, "")

  function Pausing(s: Suspension): J.Phase {
    J.Phase(J.Suspended, Some(s), false, "")
  }

  /** A prompt, an answer that calls two tools, the pause, its usage, and an accepted resolution. */
  function Paused(s: Suspension): seq<J.Entry> {
    W.Opening + [Plain(J.RunStarted)] + [Plain(J.TurnStarted)] + [Plain(J.AssistantCommitted(C.TwoCalls))]
    + [Plain(J.ToolBatchPlanned(Calls))] + [Plain(J.RunSuspended(s))] + [J.UsageCommitted(OneRequest, OneRequest)]
    + [J.ResolutionAccepted(s.id)]
  }

  function Plain(event: J.Event): J.Entry {
    J.EventEntry(event, [], None)
  }

  ghost predicate Is(entries: seq<J.Entry>, f: J.Folded) {
    L.LawfulJournal(entries) && L.Recovered(entries) == f
  }

  lemma Then(entries: seq<J.Entry>, f: J.Folded, e: J.Entry, g: J.Folded)
    requires Is(entries, f) && L.Legal(f, e) && J.FoldStep(f, e) == g
    ensures Is(entries + [e], g)
  {
    hide L.LawfulJournal, L.Recovered, L.Legal, J.FoldStep;
    W.Stepped(entries, e);
  }

  lemma OpeningIs()
    ensures Is(W.Opening, Stage([W.Hello], [], Working, ZeroUsage))
  {
    var created := [J.SessionCreated(None, false)];
    var opening, prompted := J.RunOpened("r", J.DriveStart, None, ""), J.MessageEntry(W.Hello, J.FromPrompt, "");
    assert created[1..] == [] && L.LawfulJournal(created) && L.Recovered(created) == L.CreatedFold(None, false);
    assert |"r"| == 1 && [] + [W.Hello] == [W.Hello];
    hide L.LawfulJournal, L.Recovered;
    Then(created, L.CreatedFold(None, false), opening, Stage([], [], Working, ZeroUsage));
    Then(created + [opening], Stage([], [], Working, ZeroUsage), prompted, Stage([W.Hello], [], Working, ZeroUsage));
    assert W.Opening == created + [opening] + [prompted];
  }

  predicate Simple(event: J.Event) {
    event.RunStarted? || event.TurnStarted? || event.AssistantCommitted? || event.ToolBatchPlanned? || event.RunSuspended?
  }

  function PlannedBy(event: J.Event): seq<ToolUse> {
    if event.ToolBatchPlanned? then event.calls else []
  }

  lemma EventThen(entries: seq<J.Entry>, messages: Transcript, planned: seq<ToolUse>, event: J.Event)
    requires Is(entries, Stage(messages, planned, Working, ZeroUsage)) && messages != [] && Simple(event)
    ensures Is(entries + [Plain(event)],
               Stage(messages + J.Committed(Plain(event)), planned + PlannedBy(event),
                     if event.RunSuspended? then Pausing(event.suspension) else Working, ZeroUsage))
  {
    var after := Stage(messages + J.Committed(Plain(event)), planned + PlannedBy(event),
                       if event.RunSuspended? then Pausing(event.suspension) else Working, ZeroUsage);
    assert planned + [] == planned && messages + [] == messages;
    hide L.LawfulJournal, L.Recovered;
    Then(entries, Stage(messages, planned, Working, ZeroUsage), Plain(event), after);
  }

  lemma Settles(entries: seq<J.Entry>, s: Suspension)
    requires Is(entries, Stage(History, Calls, Pausing(s), ZeroUsage))
    ensures Is(entries + [J.UsageCommitted(OneRequest, OneRequest)] + [J.ResolutionAccepted(s.id)], Stage(History, Calls, Pausing(s), OneRequest))
  {
    FirstReport();
    var used := J.UsageCommitted(OneRequest, OneRequest);
    hide L.LawfulJournal, L.Recovered, L.Report;
    Then(entries, Stage(History, Calls, Pausing(s), ZeroUsage), used, Stage(History, Calls, Pausing(s), OneRequest));
    Then(entries + [used], Stage(History, Calls, Pausing(s), OneRequest), J.ResolutionAccepted(s.id),
         Stage(History, Calls, Pausing(s), OneRequest));
  }

  /** The journal is lawful, and folds to the run that waits to be resumed. */
  lemma PausedIs(s: Suspension)
    ensures Is(Paused(s), Stage(History, Calls, Pausing(s), OneRequest))
  {
    hide Is, Stage;
    OpeningIs();
    var a := W.Opening + [Plain(J.RunStarted)];
    var b := a + [Plain(J.TurnStarted)];
    var c := b + [Plain(J.AssistantCommitted(C.TwoCalls))];
    var d := c + [Plain(J.ToolBatchPlanned(Calls))];
    assert [W.Hello] + [] == [W.Hello] && [W.Hello] + [C.TwoCalls] == History && History + [] == History;
    var none: seq<ToolUse> := [];
    assert none + none == none && none + Calls == Calls && Calls + [] == Calls;
    EventThen(W.Opening, [W.Hello], [], J.RunStarted);
    EventThen(a, [W.Hello], [], J.TurnStarted);
    EventThen(b, [W.Hello], [], J.AssistantCommitted(C.TwoCalls));
    EventThen(c, History, [], J.ToolBatchPlanned(Calls));
    EventThen(d, History, Calls, J.RunSuspended(s));
    Settles(d + [Plain(J.RunSuspended(s))], s);
  }

  lemma FirstReport()
    ensures L.Report(ZeroUsage, ZeroUsage, OneRequest, OneRequest)
  {
    var delta := UsageDelta(OneRequest, ZeroUsage).value;
    assert delta == OneRequest;
    assert [] + OneRequest.perRequest == OneRequest.perRequest;
  }

  // ---------------------------------------------------------------------
  // The live handle over it.

  function RunOf(s: Suspension): J.ActiveRun {
    Stage(History, Calls, Pausing(s), OneRequest).run.value
  }

  /** The handle that has just accepted the resolution. */
  function Handed(s: Suspension): Handle {
    var f := Stage(History, Calls, Pausing(s), OneRequest);
    Handle(f, T.Image(f), J.Running, false, S.ResumedRun(f.run.value))
  }

  lemma HistoryOpen()
    ensures Awaited(History) && Run(Pairing.Closed, History) == Some(Frontier(Calls, {})) && DistinctIds(Calls)
    ensures GetToolUses(C.TwoCalls) == Calls && P.Tidy(History, [])
  {
    C.TwoCallsOpen();
    HelloInert();
    hide Run, GetToolUses, GetToolResults, R.NoBareTool, DistinctIds;
    P.InertHeadRuns(W.Hello, [C.TwoCalls]);
    assert [W.Hello] + [C.TwoCalls] == History;
    RunKeepsShape(Pairing.Closed, History);
    P.NothingBare(Pairing.Closed, History);
  }

  lemma HelloInert()
    ensures Inert(W.Hello) && W.Hello.role == RoleUser
  {
    R.OnePart(Text("hello"));
    assert W.Hello.content == [Text("hello")];
  }

  lemma HandedSound(s: Suspension)
    ensures Reopened(Handed(s), RunOf(s)) && Owed(Handed(s)) && P.TidyImage(Handed(s).d)
  {
    HistoryOpen();
    PausedIs(s);
    L.RecoveredHealthy(Paused(s));
    var h := Handed(s);
    assert L.Quiescent(h.f) && T.Image(h.f) == h.d && h.d.run == T.Settled(Some(h.run));
  }

  lemma NoRetries(cfg: Config, history: Transcript, frontier: string, strategy: EndStrategy, fingerprint: string)
    ensures var s := Envelope(frontier, strategy, fingerprint);
      Bounded(cfg, OneRequest.counters.toolCalls, Restored(history, s.payload.tool))
  {
  }

  // ---------------------------------------------------------------------
  // A drive that says no more than that it failed.

  function SaidBy(h: Handle, event: J.Event): Handle
    requires h.d.run.Some?
  {
    Handle(J.FoldStep(h.f, Plain(event)), T.EmittedImage(h.d, event, None), h.state, S.Suspending(h.suspending, event),
           S.EmittedRun(h.run, event))
  }

  lemma FailureSteps(h: Handle, event: J.Event)
    requires h.d.run.Some? && (event.RunFailed? || event.RunEnded?)
    ensures Steps(h, Moves(Said(event)), SaidBy(h, event))
    ensures SaidBy(h, event).d.run.Some? && SaidBy(h, event).d.queue == h.d.queue
  {
    FoldsOne(h.f, Plain(event));
    hide J.FoldStep, J.FoldFrom, S.EmittedRun, T.EmittedImage;
    var after := SaidBy(h, event);
    assert T.UsageAfter(h.d.usage, h.run.lastUsage, event) == Some(None) && S.EmitIds(h.run, event) == [];
    assert T.EmittedImage(h.d, event, None) == after.d;
    assert Emits(h, event, after);
    assert after.d.run.Some? && after.d.queue == h.d.queue by { EmittedKeeps(h.d, event); }
  }

  lemma EmittedKeeps(d: T.Durable, event: J.Event)
    requires d.run.Some?
    ensures var image := T.EmittedImage(d, event, None); image.run.Some? && image.queue == d.queue
  {
  }

  lemma FoldsOne(f: J.Folded, e: J.Entry)
    requires !J.Corrupt(f, e)
    ensures J.FoldFrom(f, [e]) == Some(J.FoldStep(f, e))
  {
    assert [e][1..] == [];
    var f' := J.FoldStep(f, e);
    assert J.FoldFrom(f', []) == Some(f');
  }

  function InterruptedHandle(h: Handle): Handle {
    h.(state := J.Interrupting, run := if h.state == J.Interrupting then h.run else S.InterruptedRun(h.run))
  }

  lemma InterruptSteps(h: Handle)
    ensures Steps(h, Beside(Interrupts(None)), InterruptedHandle(h))
  {
  }

  const Failing := [Said(J.RunFailed), Said(J.RunEnded)]

  lemma FailingScript(d: Drive)
    requires d.end.ls.emitted == [J.RunFailed, J.RunEnded] && d.end.ls.hooks == []
    ensures Script(d) == Failing
  {
    var events := [J.RunFailed, J.RunEnded];
    assert events[..1] == [J.RunFailed] && events[..1][..0] == [];
    assert Acts([J.RunFailed], []) == [Said(J.RunFailed)];
  }

  /** The joint run in which such a drive is played, on a handle that is interrupted first or is not. */
  lemma FailurePlays(h: Handle, interrupted: bool) returns (beats: seq<Beat>, handles: seq<Handle>, after: Handle)
    requires h.d.run.Some?
    ensures Plays(Failing, h, beats, handles, after) && Taken(beats) == Failing
    ensures after.d.queue == h.d.queue && after.state == if interrupted then J.Interrupting else h.state
  {
    hide SaidBy, InterruptedHandle, Steps, Walk;
    var moves := [Moves(Said(J.RunFailed)), Moves(Said(J.RunEnded))];
    FailingTaken();
    if interrupted {
      var first := InterruptedHandle(h);
      InterruptSteps(h);
      InterruptedKeeps(h);
      FailureSteps(first, J.RunFailed);
      var second := SaidBy(first, J.RunFailed);
      FailureSteps(second, J.RunEnded);
      after := SaidBy(second, J.RunEnded);
      SaidKeeps(first, J.RunFailed);
      SaidKeeps(second, J.RunEnded);
      beats, handles := [Beside(Interrupts(None))] + moves, [h, first, second, after];
    } else {
      FailureSteps(h, J.RunFailed);
      var second := SaidBy(h, J.RunFailed);
      FailureSteps(second, J.RunEnded);
      after := SaidBy(second, J.RunEnded);
      SaidKeeps(h, J.RunFailed);
      SaidKeeps(second, J.RunEnded);
      beats, handles := moves, [h, second, after];
    }
  }

  lemma InterruptedKeeps(h: Handle)
    ensures InterruptedHandle(h).d == h.d && InterruptedHandle(h).state == J.Interrupting
  {
  }

  lemma SaidKeeps(h: Handle, event: J.Event)
    requires h.d.run.Some?
    ensures SaidBy(h, event).state == h.state
  {
  }

  lemma FailingTaken()
    ensures var moves := [Moves(Said(J.RunFailed)), Moves(Said(J.RunEnded))];
      Taken(moves) == Failing && Taken([Beside(Interrupts(None))] + moves) == Failing
  {
    var moves := [Moves(Said(J.RunFailed)), Moves(Said(J.RunEnded))];
    var all := [Beside(Interrupts(None))] + moves;
    assert moves[..1] == [Moves(Said(J.RunFailed))] && moves[..1][..0] == [];
    assert Taken(moves[..1]) == [Said(J.RunFailed)];
    assert all[..2] == [Beside(Interrupts(None)), Moves(Said(J.RunFailed))] && all[..2][..1] == [Beside(Interrupts(None))];
    assert all[..2][..1][..0] == [] && Taken(all[..2][..1]) == [] && Taken(all[..2]) == [Said(J.RunFailed)];
  }

  // ---------------------------------------------------------------------
  // A resumption that never starts.

  /** The resumption of the paused run, played to its end on the handle that accepted it. */
  ghost predicate Played(env: Env, cfg: Config, s: Suspension, decisions: seq<ToolResumeDecision>, d: Drive, beats: seq<Beat>,
                         handles: seq<Handle>, after: Handle) {
    && Is(Paused(s), Handed(s).f) && Resumes(env, cfg, "", s, decisions, None, d, RunOf(s), Handed(s))
    && Plays(Script(d), Handed(s), beats, handles, after) && Taken(beats) == Script(d)
  }

  lemma FailsAtOnce(env: Env, cfg: Config, frontier: string, fingerprint: string, decisions: seq<ToolResumeDecision>, interrupted: bool)
      returns (d: Drive, beats: seq<Beat>, handles: seq<Handle>, after: Handle)
    requires Reliable(env) && Metered(env) && WellBehaved(env) && cfg.hooked
    requires var s := Envelope(frontier, cfg.endStrategy, fingerprint);
      !ResumeGuards(env, cfg, History, s) || Unresolvable(env, cfg, History, s, decisions)
    ensures Played(env, cfg, Envelope(frontier, cfg.endStrategy, fingerprint), decisions, d, beats, handles, after)
    ensures J.RunStarted !in d.end.ls.emitted && after.d.queue == []
    ensures after.state == if interrupted then J.Interrupting else J.Running
  {
    hide Reliable, Metered, WellBehaved, Is, Plays, Resumes, Stage, Paused, Script, Unresolvable, ResumeGuards;
    var s := Envelope(frontier, cfg.endStrategy, fingerprint);
    PausedIs(s);
    HandedRun(s);
    d := Resumed(env, cfg, frontier, fingerprint, decisions);
    NeverBegins(env, cfg, s, decisions, d);
    NeverStartedSays(env, cfg, "", s, decisions, None, d, RunOf(s), Handed(s));
    FailingScript(d);
    beats, handles, after := FailurePlays(Handed(s), interrupted);
  }

  lemma NeverBegins(env: Env, cfg: Config, s: Suspension, decisions: seq<ToolResumeDecision>, d: Drive)
    requires Resumes(env, cfg, "", s, decisions, None, d, RunOf(s), Handed(s))
    requires !ResumeGuards(env, cfg, History, s) || Unresolvable(env, cfg, History, s, decisions)
    ensures J.RunStarted !in d.end.ls.emitted
  {
    hide Reliable, Metered, WellBehaved, ResumeDrive, Reopened, Belongs, Awaited, Unresolvable, ResumeGuards, HasSystem;
    HandedRun(s);
    EndedAs(env, cfg, "", s, decisions, None, d, RunOf(s), Handed(s));
    if !ResumeGuards(env, cfg, History, s) {
      RefusedHere(env, cfg, "", History, s, decisions, None, d);
    }
  }

  /**
   * The tools were reconfigured while the run was paused. The driver refuses the resumption, and the session, interrupted before it settles
   * that, faults on the refused execution's zero usage.
   */
  lemma RefusedFaults(env: Env, cfg: Config, frontier: string, fingerprint: string, decisions: seq<ToolResumeDecision>)
      returns (d: Drive, beats: seq<Beat>, handles: seq<Handle>, after: Handle)
    requires Reliable(env) && Metered(env) && WellBehaved(env) && cfg.hooked && fingerprint != cfg.fingerprint
    ensures Played(env, cfg, Envelope(frontier, cfg.endStrategy, fingerprint), decisions, d, beats, handles, after)
    ensures after.state == J.Interrupting && FaultsWith(after, d, History, Some(S.UsageBackwards))
  {
    hide Reliable, Metered, WellBehaved, Is, Plays, Resumes, Owed, P.TidyImage, FaultsWith, Stage, Paused, Script, ResumeGuards;
    var s := Envelope(frontier, cfg.endStrategy, fingerprint);
    HandedSound(s);
    HandedRun(s);
    GuardsRefuse(env, cfg, frontier, fingerprint);
    d, beats, handles, after := FailsAtOnce(env, cfg, frontier, fingerprint, decisions, true);
    ResumeFaults(env, cfg, "", s, decisions, None, d, RunOf(s), Handed(s), beats, handles, after);
  }

  lemma HandedRun(s: Suspension)
    ensures Handed(s).d.run.Some? && Handed(s).d.queue == [] && Handed(s).state == J.Running
    ensures RunOf(s).history + RunOf(s).expected == History && RunOf(s).lastUsage == OneRequest && !Nothing(OneRequest)
  {
    assert [] + History == History;
  }

  /** The drive of the resumption, whichever way it goes. */
  lemma Resumed(env: Env, cfg: Config, frontier: string, fingerprint: string, decisions: seq<ToolResumeDecision>) returns (d: Drive)
    requires Reliable(env) && Metered(env) && WellBehaved(env) && cfg.hooked
    ensures var s := Envelope(frontier, cfg.endStrategy, fingerprint);
      && ResumeDrive(env, cfg, "", History, s, decisions, None) == Some(d)
      && Resumes(env, cfg, "", s, decisions, None, d, RunOf(s), Handed(s))
  {
    hide Reliable, Metered, WellBehaved, Bounded, ResumePrepared, Awaited, Reopened, Owed, P.TidyImage;
    var s := Envelope(frontier, cfg.endStrategy, fingerprint);
    HistoryOpen();
    HandedSound(s);
    HandedRun(s);
    NoRetries(cfg, History, frontier, cfg.endStrategy, fingerprint);
    d := ResumeDrive(env, cfg, "", History, s, decisions, None).value;
  }

  lemma GuardsRefuse(env: Env, cfg: Config, frontier: string, fingerprint: string)
    requires fingerprint != cfg.fingerprint
    ensures !ResumeGuards(env, cfg, History, Envelope(frontier, cfg.endStrategy, fingerprint))
  {
  }

  // ---------------------------------------------------------------------
  // A tool-call limit that the approved calls pass.

  predicate OneCallAllowed(cfg: Config) {
    cfg.outputs == {} && "t" in cfg.registered && cfg.limits.Some? && cfg.limits.value.maxToolCalls == Some(1)
  }

  /**
   * Both calls are approved although one is allowed, and nobody interrupts: the run ends over its open calls. Whatever start the session
   * journals next, its run can be neither interrupted nor recovered.
   */
  lemma StrandedByLimit(env: Env, cfg: Config) returns (d: Drive, beats: seq<Beat>, handles: seq<Handle>, after: Handle)
    requires Reliable(env) && Metered(env) && WellBehaved(env) && cfg.hooked && OneCallAllowed(cfg) && env.hash(History, Calls) != ""
    ensures Played(env, cfg, Envelope(env.hash(History, Calls), cfg.endStrategy, cfg.fingerprint), ExecuteAll(Calls), d, beats, handles, after)
    ensures StrandsForGood(after, d)
  {
    hide Reliable, Metered, WellBehaved, Is, Plays, Resumes, Owed, P.TidyImage, FaultsWith, Stage, Paused, Script, ResumeGuards, Unresolvable,
      OneCallAllowed, Strands, StrandsForGood, Rests;
    var s := Envelope(env.hash(History, Calls), cfg.endStrategy, cfg.fingerprint);
    HandedSound(s);
    HandedRun(s);
    PassesLimit(env, cfg);
    d, beats, handles, after := FailsAtOnce(env, cfg, env.hash(History, Calls), cfg.fingerprint, ExecuteAll(Calls), false);
    StrandsExactly(env, cfg, "", s, ExecuteAll(Calls), None, d, RunOf(s), Handed(s), beats, handles, after);
    StrandsNoFault(after, d);
    ResumeStaysTidy(env, cfg, "", s, ExecuteAll(Calls), None, d, RunOf(s), Handed(s), beats, handles, after);
    StartsStuck(after, d);
  }

  /** A start from here leaves a run that an interrupt cannot repair and recovery cannot inspect. */
  predicate StuckAt(d: T.Durable, id: string, limits: Option<Limits>, instructions: string, prompt: Message, log: J.CallLog) {
    var started := T.StartedImage(d, id, limits, instructions, prompt);
    S.Additions(started.messages, log) == None && R.Inspect(started.messages) == None
  }

  /** So does every one. */
  ghost predicate StuckAfter(d: T.Durable) {
    forall id: string, limits: Option<Limits>, instructions: string, prompt: Message, log: J.CallLog
      | prompt.role == RoleUser && Inert(prompt) :: StuckAt(d, id, limits, instructions, prompt, log)
  }

  /** The run is closed over its open calls, and no run can be started well any more. */
  ghost predicate StrandsForGood(h: Handle, d: Drive) {
    Strands(h, d, History) && StuckAfter(ImageHere(h, d, History))
  }

  lemma StartsStuck(h: Handle, d: Drive)
    requires Strands(h, d, History) && Rests(h, d, History, false) && h.d.queue == []
    ensures StrandsForGood(h, d)
  {
    hide FaultHere, FaultsWith, P.TidyImage, Run, S.Additions, R.Inspect, Inert, T.StartedImage, ImageHere;
    var image := ImageHere(h, d, History);
    SettledQueue(h, d);
    forall id: string, limits: Option<Limits>, instructions: string, prompt: Message, log: J.CallLog
      | prompt.role == RoleUser && Inert(prompt)
      ensures StuckAt(image, id, limits, instructions, prompt, log)
    {
      NoInputs(image, prompt);
      P.StartOverOpen(image, id, limits, instructions, prompt, log);
    }
  }

  lemma StrandsNoFault(h: Handle, d: Drive)
    requires Strands(h, d, History)
    ensures FaultsWith(h, d, History, None)
  {
  }

  lemma NoInputs(d: T.Durable, prompt: Message)
    requires d.queue == [] && Inert(prompt)
    ensures P.StartInputs(d) == [] && P.FromUsers(B.MessagesOf(d.queue)) && AllInert(P.StartInputs(d) + [prompt])
  {
  }

  lemma SettledQueue(h: Handle, d: Drive)
    requires Strands(h, d, History) && h.d.queue == []
    ensures ImageHere(h, d, History).queue == []
  {
    hide FaultHere, P.TidyImage, Run, S.Additions, S.SettlementFailure, UsageDelta;
  }

  lemma PassesLimit(env: Env, cfg: Config)
    requires OneCallAllowed(cfg) && env.hash(History, Calls) != ""
    ensures Unresolvable(env, cfg, History, Envelope(env.hash(History, Calls), cfg.endStrategy, cfg.fingerprint), ExecuteAll(Calls))
  {
    hide Run, SortDecisions, ExecutableCalls, DistinctDecisions, Admit, NewSuspension, SuspendableAlone, GetToolUses;
    HistoryOpen();
    NamesExecutable(cfg, Calls, Calls);
    SortsToAll(cfg, Calls, 2);
    assert Calls[..2] == Calls;
    AllDistinct(Calls);
  }

  // ---------------------------------------------------------------------
  // The same as a journal.

  const Closed := J.Phase(J.Idle, None, false, "")

  const Again := NewTextMessage(RoleUser, "again")

  lemma AgainInert()
    ensures AllInert([Again]) && P.FromUsers([Again])
  {
    R.OnePart(Text("again"));
    assert Again.content == [Text("again")];
    assert GetToolUses(Again) == [] && GetToolResults(Again) == [];
  }

  lemma HistoryProvided()
    ensures J.ProviderHistory(History, []) == History
  {
    assert J.Place(History, [], 2) == [];
    assert J.Place(History, [], 1) == [C.TwoCalls];
  }

  /** The fold between the runs. */
  function Between(messages: Transcript, used: Usage): J.Folded {
    J.Folded(true, None, false, J.View(messages, [], None), NoQueue, Closed, used, None, None)
  }

  function Restarted(messages: Transcript, expected: Transcript): J.Folded {
    J.Folded(true, None, false, J.View(messages + expected, [], None), NoQueue, Working, OneRequest, None,
             Some(J.ActiveRun("q", J.DriveStart, messages, expected, ZeroUsage, J.NoCalls, 0, None, false, "", J.Quiet)))
  }

  /** The paused run fails over its open calls, and the next one starts. */
  function Stuck(s: Suspension): seq<J.Entry> {
    Paused(s) + [Plain(J.RunFailed)] + [Plain(J.RunEnded)] + [J.RunClosed("r", J.ExecutionFailed)]
    + [J.RunOpened("q", J.DriveStart, None, "")] + [J.MessageEntry(Again, J.FromPrompt, "")]
  }

  /** That journal is lawful, and its open run can be neither interrupted nor recovered. */
  lemma StuckIs(s: Suspension, log: J.CallLog)
    ensures Is(Stuck(s), Restarted(History, [Again]))
    ensures S.Additions(History + [Again], log) == None && R.Inspect(History + [Again]) == None
  {
    hide Stage, Restarted, Between, S.Additions, R.Inspect, Run, Inert, P.Tidy, L.LawfulJournal, L.Recovered, L.Legal, J.FoldStep, Paused;
    PausedIs(s);
    Fails(Paused(s), s);
    Restarts(Paused(s) + [Plain(J.RunFailed)] + [Plain(J.RunEnded)] + [J.RunClosed("r", J.ExecutionFailed)]);
    HistoryOpen();
    AgainInert();
    P.OverOpenStuck(History, [], [Again], log);
  }

  lemma Fails(entries: seq<J.Entry>, s: Suspension)
    requires Is(entries, Stage(History, Calls, Pausing(s), OneRequest))
    ensures Is(entries + [Plain(J.RunFailed)] + [Plain(J.RunEnded)] + [J.RunClosed("r", J.ExecutionFailed)], Between(History, OneRequest))
  {
    var f := Stage(History, Calls, Pausing(s), OneRequest);
    assert History + [] == History && Calls + [] == Calls;
    hide L.LawfulJournal, L.Recovered;
    Then(entries, f, Plain(J.RunFailed), f);
    Then(entries + [Plain(J.RunFailed)], f, Plain(J.RunEnded), f);
    Then(entries + [Plain(J.RunFailed)] + [Plain(J.RunEnded)], f, J.RunClosed("r", J.ExecutionFailed), Between(History, OneRequest));
  }

  lemma Restarts(entries: seq<J.Entry>)
    requires Is(entries, Between(History, OneRequest))
    ensures Is(entries + [J.RunOpened("q", J.DriveStart, None, "")] + [J.MessageEntry(Again, J.FromPrompt, "")],
               Restarted(History, [Again]))
  {
    var opening, prompted := J.RunOpened("q", J.DriveStart, None, ""), J.MessageEntry(Again, J.FromPrompt, "");
    assert |"q"| == 1 && History + [] == History && [] + [Again] == [Again];
    HistoryProvided();
    hide L.LawfulJournal, L.Recovered;
    Then(entries, Between(History, OneRequest), opening, Restarted(History, []));
    Then(entries + [opening], Restarted(History, []), prompted, Restarted(History, [Again]));
  }
}
