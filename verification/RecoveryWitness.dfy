/** Journals of runs that recovery cannot make good, entry by entry. */
module RecoveryWitnesses {
  import opened Messages
  import opened Pairing
  import opened Repair
  import opened Usages
  import opened Suspensions
  import opened Journals
  import opened Lawful
  import opened Batches
  import opened SessionStates
  import opened Placement
  import opened Uncertainty

  // ---------------------------------------------------------------------
  // What such a journal folds to.

  datatype Snap = Snap(messages: Transcript, calls: CallLog, last: Usage, used: Usage, queues: Queues, phase: Phase, id: string)

  /** The journal is lawful and its fold is inside a run with these values. */
  ghost predicate At(entries: seq<Entry>, s: Snap) {
    && LawfulJournal(entries)
    && var f := Recovered(entries);
       && f.run.Some? && f.view.messages == s.messages && f.usage == s.used && f.queues == s.queues && f.phase == s.phase
       && f.run.value.calls == s.calls && f.run.value.lastUsage == s.last && f.run.value.id == s.id
  }

  function Next(s: Snap, e: Event, used: Option<Usage>): Snap {
    s.(messages := Extend(s.messages, Committed(EventEntry(e, [], used))), calls := CallStep(s.calls, e),
       last := if e.TurnEnded? then e.usage else s.last, used := if e.TurnEnded? then used.GetOr(s.used) else s.used)
  }

  predicate Plain(e: Event) {
    !e.MessagesInjected? && !e.RunCompleted? && !e.RunSuspended?
  }

  lemma Stepped(entries: seq<Entry>, e: Entry)
    requires LawfulJournal(entries) && Legal(Recovered(entries), e)
    ensures LawfulJournal(entries + [e]) && Recovered(entries + [e]) == FoldStep(Recovered(entries), e)
  {
    hide Healthy, Legal, FoldStep;
    RecoveredHealthy(entries);
    LegalKeepsHealthy(Recovered(entries), e);
    assert [e][1..] == [];
    AppendBatch(entries, [e]);
  }

  lemma Emitted(entries: seq<Entry>, s: Snap, e: Event, used: Option<Usage>)
    requires At(entries, s) && s.messages != [] && s.phase.state == Running && Plain(e)
    requires e.TurnEnded? ==> used.Some? && Report(s.used, s.last, e.usage, used.value)
    ensures At(entries + [EventEntry(e, [], used)], Next(s, e, used))
  {
    hide LawfulJournal, Recovered, VolatileStep, Report, CallStep;
    Stepped(entries, EventEntry(e, [], used));
  }

  const Hello := NewTextMessage(RoleUser, "hello")

  /** A session created and a run opened on its first prompt. */
  const Opening := [SessionCreated(None, false), RunOpened("r", DriveStart, None, ""), MessageEntry(Hello, FromPrompt, "")]

  const Opened := Snap([Hello], NoCalls, ZeroUsage, ZeroUsage, Queues(map[], map[], []), Phase(Running, None, false, ""), "r")

  lemma OpeningLawful()
    ensures At(Opening, Opened)
  {
    var created := [SessionCreated(None, false)];
    assert created[1..] == [] && LawfulJournal(created);
    var f := CreatedFold(None, false);
    assert Recovered(created) == f;
    var opening, prompted := RunOpened("r", DriveStart, None, ""), MessageEntry(Hello, FromPrompt, "");
    assert |"r"| == 1;
    Stepped(created, opening);
    var g := FoldStep(f, opening);
    assert Legal(g, prompted);
    Stepped(created + [opening], prompted);
    assert Opening == created + [opening] + [prompted];
  }

  function Events(events: seq<Event>): seq<Entry> {
    if events == [] then [] else Events(events[..|events| - 1]) + [EventEntry(events[|events| - 1], [], None)]
  }

  /** The events of a turn that calls the tool, up to its start. */
  const TurnStart := [TurnStarted, AssistantCommitted(CallA), ToolBatchPlanned([UseA]), ToolStarted(UseA)]

  const Done := ToolResult("a", "t", "done", false)

  /** One turn calls the tool and commits its result. The next calls it again under the same ID, starts it, and the process dies. */
  function LostEffect(usage: Usage, session: Usage): (entries: seq<Entry>) {
    Opening + Events([RunStarted] + TurnStart + [ToolResultCommitted(Done)]) + [EventEntry(TurnEnded(usage), [], Some(session))]
    + Events(TurnStart)
  }

  lemma {:induction false} EventsAt(entries: seq<Entry>, s: Snap, events: seq<Event>) returns (next: Snap)
    requires At(entries, s) && s.messages != [] && s.phase.state == Running
    requires forall i :: 0 <= i < |events| ==> Plain(events[i]) && !events[i].TurnEnded?
    ensures At(entries + Events(events), next) && next == After(s, events) && next.messages != [] && next.phase == s.phase
    decreases |events|
  {
    if events == [] {
      assert entries + [] == entries;
      next := s;
    } else {
      var rest, last := events[..|events| - 1], events[|events| - 1];
      var mid := EventsAt(entries, s, rest);
      Emitted(entries + Events(rest), mid, last, None);
      assert entries + Events(rest) + [EventEntry(last, [], None)] == entries + Events(events);
      next := Next(mid, last, None);
    }
  }

  function After(s: Snap, events: seq<Event>): Snap {
    if events == [] then s else Next(After(s, events[..|events| - 1]), events[|events| - 1], None)
  }

  lemma AfterThen(s: Snap, events: seq<Event>, last: Event)
    ensures After(s, events + [last]) == Next(After(s, events), last, None)
  {
    var all := events + [last];
    assert all[..|all| - 1] == events;
  }

  lemma AfterFirstTurn(s: Snap)
    ensures var t := After(s, [RunStarted] + TurnStart + [ToolResultCommitted(Done)]);
      t == s.(messages := s.messages + [CallA, ResultMessage(Done)],
              calls := CallLog(s.calls.planned + [UseA], s.calls.started + {"a"}, s.calls.results + {"a"}))
  {
    hide After;
    AfterNone(s);
    AfterThen(s, [], RunStarted);
    AfterTurnStart(s, [RunStarted]);
    AfterThen(s, [RunStarted] + TurnStart, ToolResultCommitted(Done));
    assert [] + [RunStarted] == [RunStarted];
  }

  lemma AfterNone(s: Snap)
    ensures After(s, []) == s
  {
  }

  lemma AfterTurnStart(s: Snap, events: seq<Event>)
    ensures var t := After(s, events);
      After(s, events + TurnStart)
        == t.(messages := t.messages + [CallA], calls := CallLog(t.calls.planned + [UseA], t.calls.started + {"a"}, t.calls.results))
  {
    hide After;
    AfterThen(s, events, TurnStarted);
    AfterThen(s, events + [TurnStarted], AssistantCommitted(CallA));
    AfterThen(s, events + [TurnStarted] + [AssistantCommitted(CallA)], ToolBatchPlanned([UseA]));
    AfterThen(s, events + [TurnStarted] + [AssistantCommitted(CallA)] + [ToolBatchPlanned([UseA])], ToolStarted(UseA));
    assert events + TurnStart == events + [TurnStarted] + [AssistantCommitted(CallA)] + [ToolBatchPlanned([UseA])] + [ToolStarted(UseA)];
  }

  const LostTranscript := [Hello, CallA, ResultMessage(Done), CallA]

  lemma LostLawful(usage: Usage, session: Usage)
    requires Report(ZeroUsage, ZeroUsage, usage, session)
    ensures At(LostEffect(usage, session),
               Opened.(messages := LostTranscript, calls := CallLog([UseA, UseA], {"a"}, {"a"}), last := usage, used := session))
  {
    hide At, Report, After, Events;
    OpeningLawful();
    var s := Opened;
    var first := [RunStarted] + TurnStart + [ToolResultCommitted(Done)];
    AfterFirstTurn(s);
    var t := EventsAt(Opening, s, first);
    Emitted(Opening + Events(first), t, TurnEnded(usage), Some(session));
    var u := Next(t, TurnEnded(usage), Some(session));
    AfterNone(u);
    AfterTurnStart(u, []);
    assert [] + TurnStart == TurnStart;
    var v := EventsAt(Opening + Events(first) + [EventEntry(TurnEnded(usage), [], Some(session))], u, TurnStart);
    assert {"a"} + {"a"} == {"a"} && {} + {"a"} == {"a"} && [UseA] + [UseA] == [UseA, UseA] && [] + [UseA] == [UseA];
    assert [Hello] + [CallA, ResultMessage(Done)] + [CallA] == LostTranscript;
    assert LostEffect(usage, session) == Opening + Events(first) + [EventEntry(TurnEnded(usage), [], Some(session))] + Events(TurnStart);
  }

  lemma LostFrontier()
    ensures Run(Pairing.Closed, LostTranscript) == Some(Frontier([UseA], {})) && NoBareTool(Pairing.Closed, LostTranscript)
    ensures Unresolved(Frontier([UseA], {})) == [UseA]
  {
    WitnessParts();
    CallOpens(NoPending);
    OnePart(Text("hello"));
    ResultMessageParts("a", "t", "done", false);
    AnswerCloses();
    hide Advance, GetToolUses, GetToolResults;
    var f := Frontier([UseA], {});
    var d, c, b := [CallA], [ResultMessage(Done), CallA], [CallA, ResultMessage(Done), CallA];
    assert LostTranscript[1..] == b && b[1..] == c && c[1..] == d && d[1..] == [];
    assert Run(f, []) == Some(f) && Run(Pairing.Closed, d) == Some(f) && Run(f, c) == Some(f) && Run(Pairing.Closed, b) == Some(f);
    assert NoBareTool(f, []) && NoBareTool(Pairing.Closed, d) && !Bare(f, ResultMessage(Done));
    assert NoBareTool(f, c) && NoBareTool(Pairing.Closed, b);
  }

  lemma AnswerCloses()
    ensures Advance(Frontier([UseA], {}), ResultMessage(Done)) == Some(Pairing.Closed) && !Inert(ResultMessage(Done))
    ensures Advance(Pairing.Closed, Hello) == Some(Pairing.Closed)
    ensures Unresolved(Frontier([UseA], {})) == [UseA]
  {
    ResultMessageParts("a", "t", "done", false);
    OnePart(Text("hello"));
    IndexFindsCall([UseA], 0);
    var index := IndexById([UseA]);
    assert [Done][1..] == [] && {} + {"a"} == {"a"} && [UseA][1..] == [];
    assert ResolveResults(index, {"a"}, []) == Some({"a"});
    assert ResolveResults(index, {}, [Done]) == ResolveResults(index, {"a"}, []);
    assert UnresolvedFrom([UseA], {}) == [UseA] + UnresolvedFrom([], {});
  }

  /** The effect may have happened; nothing reports it, recovery continues, and the model is told that the tool never started. */
  lemma EffectLost(usage: Usage, session: Usage)
    requires Report(ZeroUsage, ZeroUsage, usage, session)
    ensures LawfulJournal(LostEffect(usage, session)) && IsStart(LostEffect(usage, session)[|LostEffect(usage, session)| - 1], "a")
    ensures var f := Recovered(LostEffect(usage, session));
      && Inspect(f.view.messages) == Some([UseA]) && Uncertain([UseA], LogOf(f.run)) == []
      && Additions(f.view.messages, LogOf(f.run)) == Some([NewToolResultMessageFor("a", "t", Abandoned, true)])
  {
    LostLawful(usage, session);
    LostFrontier();
    var entries := LostEffect(usage, session);
    hide Report, Run, NoBareTool;
    var f := Recovered(entries);
    InspectExact(LostTranscript);
    AdditionsExact(LostTranscript, LogOf(f.run));
    var open := [UseA];
    assert open[1..] == [];
    assert CallState(LogOf(f.run), UseA) == PendingPlanned;
    PlannedState(open, LogOf(f.run), 0);
    OneSynthetic(PendingCalls(PendingOf(open, LogOf(f.run)), ""));
    assert TurnStart[|TurnStart| - 1] == ToolStarted(UseA);
  }

  // ---------------------------------------------------------------------
  // A journal no recovery gets past.

  const Steer := QueueEntry("q", QueueSteer, NewTextMessage(RoleUser, "also"))

  /** A steering input is accepted and drained for the driver, a keyed interrupt is accepted, and the process dies. */
  const Interrupted := [
    QueueAccepted(Steer), QueueDrained("q"), CommandAccepted(Command("c", CommandInterrupt, "key", "digest", "r", "", ""))]

  /** Recovery closes the run without the drained input. */
  const ClosedByRecovery := [InterruptMarker(INTERRUPTION), RunClosed("r", ExecutionInterrupted)]

  /** A second run is prompted. */
  const Reopening := [RunOpened("s", DriveStart, None, ""), MessageEntry(Hello, FromPrompt, "")]

  const Held := Queues(map[], map["q" := Steer], ["q"])

  lemma InterruptedAt(entries: seq<Entry>)
    requires At(entries, Opened)
    ensures At(entries + Interrupted, Opened.(queues := Held, phase := Opened.phase.(pendingInterrupt := "r")))
  {
    hide LawfulJournal, Recovered;
    assert |"q"| == 1;
    Stepped(entries, Interrupted[0]);
    Stepped(entries + [Interrupted[0]], Interrupted[1]);
    Stepped(entries + [Interrupted[0]] + [Interrupted[1]], Interrupted[2]);
    assert entries + [Interrupted[0]] + [Interrupted[1]] + [Interrupted[2]] == entries + Interrupted;
    assert map["q" := Steer] - {"q"} == map[] && [] + ["q"] == ["q"];
  }

  lemma ReopenedAt(entries: seq<Entry>, s: Snap)
    requires At(entries, s) && s.id == "r" && s.messages == [Hello] && s.phase == Phase(Running, None, false, "r") && s.calls == NoCalls
    ensures At(entries + ClosedByRecovery + Reopening,
               Snap([Hello, Hello], NoCalls, ZeroUsage, s.used, s.queues, Phase(Running, None, false, ""), "s"))
  {
    hide LawfulJournal, Recovered, ProviderHistory;
    assert |"s"| == 1;
    var all := entries;
    Stepped(entries, ClosedByRecovery[0]);
    Stepped(entries + [ClosedByRecovery[0]], ClosedByRecovery[1]);
    var closed := entries + [ClosedByRecovery[0]] + [ClosedByRecovery[1]];
    assert closed == entries + ClosedByRecovery;
    Stepped(closed, Reopening[0]);
    Stepped(closed + [Reopening[0]], Reopening[1]);
    assert closed + [Reopening[0]] + [Reopening[1]] == entries + ClosedByRecovery + Reopening;
    assert [Hello] + [Hello] == [Hello, Hello];
  }

  const StuckTranscript := [Hello, Hello, CallA]

  function Stuck(): seq<Entry> {
    Opening + Interrupted + ClosedByRecovery + Reopening + Events([RunStarted] + TurnStart)
  }

  lemma StuckLawful()
    ensures At(Stuck(), Snap(StuckTranscript, CallLog([UseA], {"a"}, {}), ZeroUsage, ZeroUsage, Held, Phase(Running, None, false, ""), "s"))
  {
    hide At, After, Events;
    OpeningLawful();
    InterruptedAt(Opening);
    ReopenedAt(Opening + Interrupted, Opened.(queues := Held, phase := Opened.phase.(pendingInterrupt := "r")));
    var entries := Opening + Interrupted + ClosedByRecovery + Reopening;
    var s := Snap([Hello, Hello], NoCalls, ZeroUsage, ZeroUsage, Held, Phase(Running, None, false, ""), "s");
    AfterNone(s);
    AfterThen(s, [], RunStarted);
    assert [] + [RunStarted] == [RunStarted];
    AfterTurnStart(s, [RunStarted]);
    var t := EventsAt(entries, s, [RunStarted] + TurnStart);
    assert [Hello, Hello] + [CallA] == StuckTranscript && [] + [UseA] == [UseA] && {} + {"a"} == {"a"};
  }

  /**
   * A call of the second run is open when the process dies again. Recovery first applies the input drained for the first run, and can
   * then no longer inspect the transcript it has extended: it fails.
   */
  lemma ReinjectionStuck()
    ensures LawfulJournal(Stuck()) && Unapplied(Recovered(Stuck()).queues) == [Steer]
    ensures var f := Recovered(Stuck());
      && f.phase == Phase(Running, None, false, "") && f.run.Some?
      && Inspect(Extend(f.view.messages, MessagesOf(Unapplied(f.queues)))) == None
  {
    StuckLawful();
    StuckTranscriptOpen();
    hide LawfulJournal, Recovered, Inspect, Tidy;
    OnePart(Text("also"));
    ReinjectionNeedsClosedFrontier(StuckTranscript, [], Steer.message);
    HeldOrder();
  }

  lemma HeldOrder()
    ensures Unapplied(Held) == [Steer] && MessagesOf([Steer]) == [Steer.message]
  {
    assert ["q"][1..] == [];
    assert InOrder([], Held.drained) == [];
  }

  lemma StuckTranscriptOpen()
    ensures Tidy(StuckTranscript, []) && !FullyPaired(StuckTranscript)
  {
    CallOpens(NoPending);
    AnswerCloses();
    OnePart(Text("hello"));
    hide Advance, GetToolUses, GetToolResults;
    var f, b, c := Frontier([UseA], {}), [CallA], [Hello, CallA];
    assert StuckTranscript[1..] == c && c[1..] == b && b[1..] == [];
    assert Run(f, []) == Some(f) && Run(Pairing.Closed, b) == Some(f) && Run(Pairing.Closed, c) == Some(f);
    assert NoBareTool(f, []) && NoBareTool(Pairing.Closed, b) && NoBareTool(Pairing.Closed, c);
  }
}
