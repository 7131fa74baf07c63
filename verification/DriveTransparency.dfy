/** Suspending a batch and resuming it unchanged is, to the end of the drive, the run that was never suspended. */
module DriveTransparency {
  import opened Messages
  import opened Pairing
  import opened Usages
  import opened Suspensions
  import opened ToolControl
  import opened ResumePlan
  import opened Turns
  import opened Resuming
  import opened TurnLaws
  import opened TurnBounds
  import opened Drives
  import opened DriveLaws
  import J = Journals

  predicate AlikeEnds(a: Ended, b: Ended) {
    Alike(a.ls, b.ls) && a.status == b.status && a.suspension == b.suspension && a.error == b.error
  }

  predicate AlikeTurns(a: TurnEnd, b: TurnEnd) {
    match (a, b)
    case (Again(x), Again(y)) => Alike(x, y)
    case (Over(x), Over(y)) => AlikeEnds(x, y)
    case _ => false
  }

  predicate AlikeDrives(a: Drive, b: Drive) {
    AlikeEnds(a.end, b.end) && a.requests == b.requests
  }

  // ---------------------------------------------------------------------
  // A loop that differs only in its event log runs the same.

  lemma EmitAlike(env: Env, a: Loop, b: Loop, event: J.Event)
    requires Reliable(env) && Alike(a, b)
    ensures Emit(env, a, event).1 && Emit(env, b, event).1 && Alike(Emit(env, a, event).0, Emit(env, b, event).0)
    ensures Alike(Emit(env, a, event).0, a)
  {
  }

  lemma EndsAlike(env: Env, a: Loop, b: Loop)
    requires Reliable(env) && Alike(a, b)
    ensures forall error: DriveError :: AlikeEnds(Failed(env, a, error), Failed(env, b, error))
    ensures AlikeEnds(Interrupted(env, a), Interrupted(env, b))
    ensures AlikeEnds(Completes(env, a), Completes(env, b)) && AlikeEnds(Stops(env, a), Stops(env, b))
    ensures forall s: Suspension :: AlikeEnds(Drives.Suspends(env, a, s), Drives.Suspends(env, b, s))
  {
    hide Reliable, Emit, Alike;
    EmitAlike(env, a, b, J.RunFailed);
    EmitAlike(env, Emit(env, a, J.RunFailed).0, Emit(env, b, J.RunFailed).0, J.RunEnded);
    EmitAlike(env, a, b, J.RunInterrupted);
    EmitAlike(env, Emit(env, a, J.RunInterrupted).0, Emit(env, b, J.RunInterrupted).0, J.RunEnded);
    EmitAlike(env, a, b, J.RunCompleted);
    EmitAlike(env, Emit(env, a, J.RunCompleted).0, Emit(env, b, J.RunCompleted).0, J.RunEnded);
    EmitAlike(env, a, b, J.RunEnded);
    forall s: Suspension ensures AlikeEnds(Drives.Suspends(env, a, s), Drives.Suspends(env, b, s)) {
      EmitAlike(env, a, b, J.RunSuspended(s));
    }
  }

  lemma FinishAlike(env: Env, cfg: Config, a: Loop, b: Loop, outcome: Outcome)
    requires Reliable(env) && Alike(a, b)
    ensures AlikeTurns(FinishTurn(env, cfg, a, outcome), FinishTurn(env, cfg, b, outcome))
  {
    hide Reliable, Emit, Failed, Completes, Stops, ValidDecision;
    EmitAlike(env, a, b, J.TurnEnded(a.usage));
    var x, y := Emit(env, a, J.TurnEnded(a.usage)).0, Emit(env, b, J.TurnEnded(b.usage)).0;
    EndsAlike(env, x, y);
    var answer := HookAnswer(env, cfg, x, outcome.candidate);
    var told, tale := Consulted(env, cfg, x, outcome.candidate), Consulted(env, cfg, y, outcome.candidate);
    EndsAlike(env, told, tale);
    if answer.Decision? {
      var p, q := told.(messages := told.messages + answer.inject), tale.(messages := tale.messages + answer.inject);
      EmitAlike(env, p, q, J.MessagesInjected(answer.inject));
    }
  }

  lemma EnvelopeAlike(env: Env, cfg: Config, a: Loop, b: Loop, calls: seq<ToolUse>, executable: seq<ToolUse>, deferral: Deferral, handler: bool)
    requires Alike(a, b)
    ensures NewSuspension(env, cfg, a, calls, executable, deferral, handler) == NewSuspension(env, cfg, b, calls, executable, deferral, handler)
  {
    assert a.messages == b.messages && a.iteration == b.iteration && a.usage == b.usage;
  }

  lemma RunAdmittedAlike(env: Env, cfg: Config, a: Stage, b: Stage, calls: seq<ToolUse>, regular: seq<ToolUse>, executable: seq<ToolUse>)
    requires Reliable(env) && AlikeStages(a, b)
    ensures AlikeStages(RunAdmitted(env, cfg, a, calls, regular, executable), RunAdmitted(env, cfg, b, calls, regular, executable))
  {
    hide Reliable, Admit, NewSuspension, FailAll, SuspendableAlone, WithinToolLimit;
    assert a.ls.usage == b.ls.usage;
    AdmitAlike(env, cfg, a, b, executable, false);
    var x, y := Admit(env, cfg, a, executable, false), Admit(env, cfg, b, executable, false);
    if x.Asked? {
      EnvelopeAlike(env, cfg, x.ls, y.ls, calls, executable, x.deferral, true);
    }
  }

  lemma StageAlike(env: Env, cfg: Config, a: Loop, b: Loop, calls: seq<ToolUse>)
    requires Reliable(env) && Alike(a, b)
    ensures AlikeStages(RegularStage(env, cfg, a, calls), RegularStage(env, cfg, b, calls))
  {
    hide Reliable, Emit, Alike, RunAdmitted, NewSuspension, FailAll, ToolControl.Suspends, Acceptable, RegularCalls, Returned, Executable, OutputIndex;
    var regular := RegularCalls(cfg, calls);
    var event := J.ToolBatchPlanned(regular);
    EmitAlike(env, a, b, event);
    var x, y := Emit(env, a, event).0, Emit(env, b, event).0;
    SameIteration(x, y);
    var reply := env.gate(x.iteration, regular);
    if regular != [] && reply.Decided? && Acceptable(regular, reply.decision) {
      var decision := reply.decision;
      AcceptableShape(regular, decision);
      if ToolControl.Suspends(decision) {
        EnvelopeAlike(env, cfg, x, y, calls, regular, decision.deferral.value, false);
      } else {
        var taken := Returned(NoRegular, regular, decision.calls);
        RunAdmittedAlike(env, cfg, Stage(x, taken), Stage(y, taken), calls, regular, Executable(regular, decision.calls));
      }
    }
  }

  lemma SameIteration(a: Loop, b: Loop)
    requires Alike(a, b)
    ensures a.iteration == b.iteration && a.messages == b.messages && a.usage == b.usage
  {
  }

  lemma AcceptableShape(calls: seq<ToolUse>, decision: BatchDecision)
    requires Acceptable(calls, decision)
    ensures |calls| == |decision.calls| && (ToolControl.Suspends(decision) ==> decision.deferral.Some?)
  {
  }

  lemma EndTurnAlike(env: Env, cfg: Config, a: Completed, b: Completed)
    requires Reliable(env) && Alike(a.ls, b.ls) && a.outcome == b.outcome
    ensures AlikeTurns(EndTurn(env, cfg, a), EndTurn(env, cfg, b))
  {
    hide Reliable, Alike, FinishTurn, Drives.Suspends;
    EndsAlike(env, a.ls, b.ls);
    FinishAlike(env, cfg, a.ls, b.ls, a.outcome);
  }

  lemma TurnAlike(env: Env, cfg: Config, a: Loop, b: Loop, assistant: Message)
    requires Reliable(env) && Alike(a, b)
    ensures AlikeTurns(EndTurn(env, cfg, CompleteTurn(env, cfg, a, assistant, None)), EndTurn(env, cfg, CompleteTurn(env, cfg, b, assistant, None)))
  {
    hide Reliable, Alike, EndTurn, CompleteWith, RegularStage, GetToolUses;
    var calls := GetToolUses(assistant);
    StageAlike(env, cfg, a, b, calls);
    var x, y := RegularStage(env, cfg, a, calls), RegularStage(env, cfg, b, calls);
    CompleteAlike(env, cfg, x.ls, y.ls, assistant, x.regular);
    EndTurnAlike(env, cfg, CompleteTurn(env, cfg, a, assistant, None), CompleteTurn(env, cfg, b, assistant, None));
  }

  lemma AnswerAlike(env: Env, cfg: Config, a: Loop, b: Loop, message: Message, usage: Counters, finish: FinishReason)
    requires Reliable(env) && Alike(a, b)
    ensures AlikeTurns(TakeAnswer(env, cfg, a, message, usage, finish), TakeAnswer(env, cfg, b, message, usage, finish))
  {
    hide Reliable, CompleteTurn, EndTurn, Unusable, AfterResponse, AddResponse, Emit, Failed;
    var p, q := a.(usage := AddResponse(a.usage, usage)), b.(usage := AddResponse(b.usage, usage));
    var over := AfterResponse(cfg.limits, p.usage.counters).Some?;
    var x, y := if over then p else p.(finish := finish), if over then q else q.(finish := finish);
    EndsAlike(env, x, y);
    var m, n := x.(messages := x.messages + [message]), y.(messages := y.messages + [message]);
    EmitAlike(env, m, n, J.AssistantCommitted(message));
    TurnAlike(env, cfg, Emit(env, m, J.AssistantCommitted(message)).0, Emit(env, n, J.AssistantCommitted(message)).0, message);
  }

  lemma RoundAlike(env: Env, cfg: Config, a: Loop, b: Loop)
    requires Reliable(env) && Alike(a, b)
    ensures AlikeTurns(Round(env, cfg, a), Round(env, cfg, b)) && Asks(env, cfg, a) == Asks(env, cfg, b)
  {
    hide Reliable, TakeAnswer, Emit, Failed, Interrupted, BeforeRequest;
    EndsAlike(env, a, b);
    EmitAlike(env, a, b, J.TurnStarted);
    var x, y := Emit(env, a, J.TurnStarted).0, Emit(env, b, J.TurnStarted).0;
    EndsAlike(env, x, y);
    var reply := env.respond(x.iteration, x.messages);
    if reply.Answered? {
      AnswerAlike(env, cfg, x, y, reply.message, reply.usage, reply.finish);
    }
  }

  lemma {:induction false} DriveAlike(env: Env, cfg: Config, a: Loop, b: Loop)
    requires Reliable(env) && Alike(a, b)
    ensures AlikeDrives(DriveFrom(env, cfg, a), DriveFrom(env, cfg, b))
    decreases if a.iteration < cfg.maxIterations then cfg.maxIterations - a.iteration else 0
  {
    hide Reliable, Round, Asks;
    RoundAlike(env, cfg, a, b);
    RoundIteration(env, cfg, a);
    RoundIteration(env, cfg, b);
    match (Round(env, cfg, a), Round(env, cfg, b)) {
      case (Again(x), Again(y)) =>
        DriveAlike(env, cfg, x.(iteration := x.iteration + 1), y.(iteration := y.iteration + 1));
      case _ =>
    }
  }

  /** The drive that goes on after a turn. */
  function Continue(env: Env, cfg: Config, t: TurnEnd): Drive {
    match t
    case Over(end) => Drive(end, [])
    case Again(next) => DriveFrom(env, cfg, next.(iteration := next.iteration + 1))
  }

  lemma ContinueAlike(env: Env, cfg: Config, a: TurnEnd, b: TurnEnd)
    requires Reliable(env) && AlikeTurns(a, b)
    ensures AlikeDrives(Continue(env, cfg, a), Continue(env, cfg, b))
  {
    hide Reliable, DriveFrom;
    if a.Again? {
      DriveAlike(env, cfg, a.ls.(iteration := a.ls.iteration + 1), b.ls.(iteration := b.ls.iteration + 1));
    }
  }

  /** Re-entering with a completed stage is ending the same turn, one RunStarted later. */
  lemma EnterIsTurn(env: Env, cfg: Config, ls: Loop, assistant: Message, regular: Regular)
    requires Reliable(env)
    ensures AlikeDrives(DriveLoop(env, cfg, ls, Turn(assistant, Some(regular), None)),
                        Continue(env, cfg, EndTurn(env, cfg, CompleteWith(env, cfg, ls, assistant, regular))))
  {
    hide Reliable, Emit, CompleteWith, DriveFrom, FinishTurn, Drives.Suspends;
    AlikeSelf(ls);
    EmitAlike(env, ls, ls, J.RunStarted);
    var started := Emit(env, ls, J.RunStarted).0;
    CompleteAlike(env, cfg, started, ls, assistant, regular);
    var x, y := CompleteWith(env, cfg, started, assistant, regular), CompleteWith(env, cfg, ls, assistant, regular);
    EndTurnAlike(env, cfg, x, y);
    ContinueAlike(env, cfg, EndTurn(env, cfg, x), EndTurn(env, cfg, y));
  }

  lemma AlikeSelf(ls: Loop)
    ensures Alike(ls, ls)
  {
  }

  lemma AlikeChain(a: Drive, b: Drive, c: Drive)
    requires AlikeDrives(a, b) && AlikeDrives(b, c)
    ensures AlikeDrives(a, c)
  {
  }

  // ---------------------------------------------------------------------
  // Transparency of a whole drive.

  /** A gate that suspends this batch, in a world that is otherwise the same as one whose gate admits it. */
  ghost predicate SuspendsThenAdmits(asking: Env, allowing: Env, iteration: nat, regular: seq<ToolUse>) {
    && allowing == asking.(gate := allowing.gate)
    && allowing.gate(iteration, regular) == Decided(AllowAll(|regular|))
    && asking.gate(iteration, regular).Decided?
    && var decision := asking.gate(iteration, regular).decision;
       Acceptable(regular, decision) && ToolControl.Suspends(decision)
  }

  /** The configuration did not change and no limit is hit. */
  predicate Unhindered(cfg: Config, ls: Loop, calls: seq<ToolUse>) {
    var regular := RegularCalls(cfg, calls);
    && !cfg.noTools && regular != [] && (OutputIndex(cfg, calls) == |calls| || cfg.endStrategy != Early)
    && (forall i :: 0 <= i < |regular| ==> regular[i].name in cfg.registered)
    && WithinToolLimit(cfg, ls.usage, |regular|) && SuspendableAlone(cfg, regular, regular)
  }

  /** Where the gate suspends, the turn ends waiting with an envelope of the planned state. */
  lemma AskingSuspends(asking: Env, allowing: Env, cfg: Config, ls: Loop, assistant: Message)
    requires Reliable(asking) && Unhindered(cfg, ls, GetToolUses(assistant))
    requires Run(Closed, ls.messages) == Some(Frontier(GetToolUses(assistant), {}))
    requires SuspendsThenAdmits(asking, allowing, ls.iteration, RegularCalls(cfg, GetToolUses(assistant)))
    ensures var calls := GetToolUses(assistant);
      var regular := RegularCalls(cfg, calls);
      var planned := Emit(asking, ls, J.ToolBatchPlanned(regular)).0;
      var s := NewSuspension(asking, cfg, planned, calls, regular, asking.gate(ls.iteration, regular).decision.deferral.value, false);
      s.Some? && CompleteTurn(asking, cfg, ls, assistant, None) == Completed(planned, Outcome([], false, false, s, None))
  {
    hide GetToolUses, RegularCalls, OutputIndex, RunAdmitted, Acceptable, WithinToolLimit, SuspendableAlone, ToolControl.Suspends, NewSuspension;
    var calls := GetToolUses(assistant);
    var regular := RegularCalls(cfg, calls);
    SuspendedByGate(asking, cfg, ls, calls, asking.gate(ls.iteration, regular).decision);
  }

  /**
   * Whatever the rest of the drive does, resuming the suspended batch with "execute" for every call gives the requests, the
   * transcript, the usage, the retry counts and the ending of the drive whose gate admitted the batch at once.
   */
  lemma DriveTransparent(asking: Env, allowing: Env, cfg: Config, ls: Loop, assistant: Message)
    requires Reliable(asking) && Unhindered(cfg, ls, GetToolUses(assistant))
    requires ls.messages != [] && ls.messages[|ls.messages| - 1] == assistant && DistinctIds(GetToolUses(assistant))
    requires Run(Closed, ls.messages) == Some(Frontier(GetToolUses(assistant), {})) && GetToolUses(assistant) != []
    requires SuspendsThenAdmits(asking, allowing, ls.iteration, RegularCalls(cfg, GetToolUses(assistant)))
    requires asking.suspensionId(ls.iteration) != "" && asking.hash(ls.messages, GetToolUses(assistant)) != ""
    ensures var regular := RegularCalls(cfg, GetToolUses(assistant));
      var waiting := CompleteTurn(asking, cfg, ls, assistant, None);
      && waiting.outcome.suspension.Some? && waiting.ls.messages == ls.messages
      && AlikeDrives(
           ResumePrepared(allowing, cfg, waiting.ls, waiting.outcome.suspension.value, ExecuteAll(regular), None),
           Continue(allowing, cfg, EndTurn(allowing, cfg, CompleteTurn(allowing, cfg, ls, assistant, None))))
  {
    hide GetToolUses, RegularCalls, OutputIndex, RunAdmitted, Acceptable, WithinToolLimit, SuspendableAlone, CompleteWith, EndTurn,
      Continue, DriveLoop, ResolveTools, Run, AlikeDrives, Reliable, ToolControl.Suspends, DistinctIds, NewSuspension, AlikeStages, ResumeGuards;
    var calls := GetToolUses(assistant);
    var regular := RegularCalls(cfg, calls);
    AskingSuspends(asking, allowing, cfg, ls, assistant);
    var planned := Emit(asking, ls, J.ToolBatchPlanned(regular)).0;
    AcceptableShape(regular, asking.gate(ls.iteration, regular).decision);
    var deferral := asking.gate(ls.iteration, regular).decision.deferral.value;
    var s := NewSuspension(asking, cfg, planned, calls, regular, deferral, false).value;
    ReliableToo(asking, allowing);
    NewEnvelopeId(asking, allowing, cfg, planned, calls, regular, deferral);
    SuspensionTransparent(allowing, cfg, planned, assistant, deferral, s);
    AdmittedDirectly(allowing, cfg, ls, calls);
    assert Emit(allowing, ls, J.ToolBatchPlanned(regular)).0 == planned by { EmitSame(asking, allowing, ls, J.ToolBatchPlanned(regular)); }
    var direct := RunAdmitted(allowing, cfg, Stage(planned, NoRegular), calls, regular, regular);
    assert RegularStage(allowing, cfg, ls, calls) == direct;
    ResumedLikeDirect(allowing, cfg, planned, assistant, s, ExecuteAll(regular), direct);
  }

  lemma ReliableToo(asking: Env, allowing: Env)
    requires Reliable(asking) && allowing == asking.(gate := allowing.gate)
    ensures Reliable(allowing)
  {
  }

  lemma EmitSame(asking: Env, allowing: Env, ls: Loop, event: J.Event)
    requires allowing == asking.(gate := allowing.gate)
    ensures Emit(asking, ls, event) == Emit(allowing, ls, event)
  {
  }

  lemma NewEnvelopeId(asking: Env, allowing: Env, cfg: Config, ls: Loop, calls: seq<ToolUse>, regular: seq<ToolUse>, deferral: Deferral)
    requires allowing == asking.(gate := allowing.gate) && Run(Closed, ls.messages) == Some(Frontier(calls, {}))
    requires asking.suspensionId(ls.iteration) != "" && asking.hash(ls.messages, calls) != ""
    ensures var s := NewSuspension(asking, cfg, ls, calls, regular, deferral, false);
      && s.Some? && s.value.id != "" && s.value.frontierHash != "" && NewSuspension(allowing, cfg, ls, calls, regular, deferral, false) == s
      && s.value.payload.ToolPayload?
  {
  }

  lemma ResumedLikeDirect(env: Env, cfg: Config, planned: Loop, assistant: Message, s: Suspension, decisions: seq<ToolResumeDecision>, direct: Stage)
    requires Reliable(env) && planned.messages != [] && planned.messages[|planned.messages| - 1] == assistant
    requires ResumeGuards(env, cfg, planned.messages, s) && s.payload.ToolPayload?
    requires var resumed := ResolveTools(env, cfg, Restored(planned.messages, s.payload.tool), s.payload.tool, decisions);
      resumed.ResolvedAs? && AlikeStages(resumed.stage, direct)
    ensures AlikeDrives(ResumePrepared(env, cfg, planned, s, decisions, None),
                        Continue(env, cfg, EndTurn(env, cfg, CompleteWith(env, cfg, direct.ls, assistant, direct.regular))))
  {
    hide CompleteWith, EndTurn, Continue, DriveLoop, ResolveTools, AlikeDrives, Reliable, ResumeGuards, Alike;
    var resumed := ResolveTools(env, cfg, Restored(planned.messages, s.payload.tool), s.payload.tool, decisions).stage;
    EnterIsTurn(env, cfg, resumed.ls, assistant, resumed.regular);
    CompleteAlike(env, cfg, resumed.ls, direct.ls, assistant, direct.regular);
    var x := CompleteWith(env, cfg, resumed.ls, assistant, resumed.regular);
    var y := CompleteWith(env, cfg, direct.ls, assistant, direct.regular);
    EndTurnAlike(env, cfg, x, y);
    ContinueAlike(env, cfg, EndTurn(env, cfg, x), EndTurn(env, cfg, y));
    AlikeChain(DriveLoop(env, cfg, resumed.ls, Turn(assistant, Some(resumed.regular), None)),
               Continue(env, cfg, EndTurn(env, cfg, x)), Continue(env, cfg, EndTurn(env, cfg, y)));
  }
}
