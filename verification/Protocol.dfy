/** What a driver says to its sink and asks its hook, act by act: the order every drive keeps. */
module Protocols {
  import opened Messages
  import opened Pairing
  import opened Usages
  import opened Suspensions
  import opened ToolControl
  import opened ResumePlan
  import opened Turns
  import opened Resuming
  import opened TurnLaws
  import opened Drives
  import opened DriveAccounts
  import J = Journals

  datatype Act = Said(event: J.Event) | Heard(candidate: bool, reply: HookReply)

  /** The events and the hook calls of a loop in the order in which they left it. */
  function Acts(events: seq<J.Event>, hooks: seq<HookCall>): seq<Act>
    decreases |events| + |hooks|
  {
    if hooks != [] && hooks[|hooks| - 1].at >= |events| then
      Acts(events, hooks[..|hooks| - 1]) + [Heard(hooks[|hooks| - 1].candidate, hooks[|hooks| - 1].reply)]
    else if events != [] then Acts(events[..|events| - 1], hooks) + [Said(events[|events| - 1])]
    else []
  }

  /** Where a drive stands between two acts. */
  datatype Stand =
    | AtStart
    | AtWork
    /** The model is being asked. */
    | AtRequest
    | AtTurnEnd
    /** The hook gave messages to inject, and the loop has not said so yet. */
    | AtHandover(inject: Transcript)
    /** The hook let a completion candidate stand. */
    | AtRelease
    | AtCompletion
    | AtEnd
    | AtPause(suspension: Suspension)
    /** Nothing is left but to report the failure or the end. */
    | AtStop

  function Replied(candidate: bool, reply: HookReply): Stand {
    match reply
    case HookError(_) => AtStop
    case Decision(action, inject) =>
      if !ValidDecision(action, inject) then AtStop
      else match action
        case TurnContinue => AtHandover(inject)
        case TurnDefault => if candidate then AtRelease else AtWork
        case _ => if candidate then AtRelease else AtStop
  }

  /** None is an act out of order. */
  function Next(s: Stand, act: Act): Option<Stand> {
    match act
    case Heard(candidate, reply) => if s.AtTurnEnd? then Some(Replied(candidate, reply)) else None
    case Said(event) =>
      match s
      case AtStart =>
        if event.RunStarted? then Some(AtWork)
        else if Routine(event) then Some(AtStart)
        else if event.RunFailed? || event.RunEnded? then Some(AtStop)
        else None
      case AtHandover(inject) => if event == J.MessagesInjected(inject) then Some(AtWork) else None
      case AtCompletion => if event.RunEnded? then Some(AtEnd) else None
      case AtEnd => None
      case AtPause(_) => None
      case _ => Spoken(s, event)
  }

  /** An event said at work, at a request, at a turn end, after a release, or while stopping. */
  function Spoken(s: Stand, event: J.Event): Option<Stand> {
    match event
    case RunFailed => Some(AtStop)
    case RunInterrupted => Some(AtStop)
    case RunEnded => Some(AtStop)
    case RunCompleted => if s.AtRelease? then Some(AtCompletion) else None
    case TurnEnded(_) => if s.AtWork? then Some(AtTurnEnd) else None
    case RunSuspended(suspension) => if s.AtWork? then Some(AtPause(suspension)) else None
    case TurnStarted => if s.AtWork? || s.AtRelease? then Some(AtRequest) else None
    case AssistantCommitted(_) => if s.AtRequest? then Some(AtWork) else None
    case _ => if Routine(event) && s.AtWork? then Some(AtWork) else None
  }

  function Walk(acts: seq<Act>): Option<Stand> {
    if acts == [] then Some(AtStart)
    else match Walk(acts[..|acts| - 1]) case None => None case Some(s) => Next(s, acts[|acts| - 1])
  }

  /** The hook was last called before whatever is said next. */
  predicate Timely(ls: Loop) {
    ls.hooks != [] ==> ls.hooks[|ls.hooks| - 1].at <= |ls.emitted|
  }

  /** The loop's acts so far are in order and leave it there. */
  predicate Stands(ls: Loop, s: Stand) {
    Walk(Acts(ls.emitted, ls.hooks)) == Some(s) && Timely(ls)
  }

  /** A drive reports a suspension or a completion exactly when it announced it. */
  predicate Fits(s: Stand, end: Ended) {
    && (end.status == J.ExecutionSuspended <==> s.AtPause?) && (s.AtPause? ==> end.suspension == Some(s.suspension))
    && (end.status == J.ExecutionCompleted <==> s.AtEnd?) && !s.AtHandover?
  }

  ghost predicate Ordered(end: Ended) {
    exists s :: Stands(end.ls, s) && Fits(s, end)
  }

  // ---------------------------------------------------------------------
  // One act.

  lemma WalkThen(acts: seq<Act>, act: Act)
    ensures Walk(acts + [act]) == (match Walk(acts) case None => None case Some(s) => Next(s, act))
  {
    assert (acts + [act])[..|acts|] == acts;
  }

  lemma ActsSaid(env: Env, ls: Loop, event: J.Event)
    requires Reliable(env) && Timely(ls)
    ensures var next := Emit(env, ls, event);
      next.1 && Timely(next.0) && Acts(next.0.emitted, next.0.hooks) == Acts(ls.emitted, ls.hooks) + [Said(event)]
  {
    var next := Emit(env, ls, event).0;
    assert next.emitted[..|next.emitted| - 1] == ls.emitted;
  }

  lemma ActsHeard(env: Env, cfg: Config, ls: Loop, candidate: bool)
    requires cfg.hooked
    ensures var told := Consulted(env, cfg, ls, candidate);
      Timely(told) && Acts(told.emitted, told.hooks) == Acts(ls.emitted, ls.hooks) + [Heard(candidate, HookAnswer(env, cfg, ls, candidate))]
  {
    hide HookAnswer;
    var told := Consulted(env, cfg, ls, candidate);
    assert told.hooks[..|told.hooks| - 1] == ls.hooks;
  }

  lemma SayStands(env: Env, ls: Loop, event: J.Event, s: Stand)
    requires Reliable(env) && Stands(ls, s) && Next(s, Said(event)).Some?
    ensures Emit(env, ls, event).1 && Stands(Emit(env, ls, event).0, Next(s, Said(event)).value)
  {
    hide Next, Acts, Emit, Timely;
    ActsSaid(env, ls, event);
    WalkThen(Acts(ls.emitted, ls.hooks), Said(event));
  }

  lemma HearStands(env: Env, cfg: Config, ls: Loop, candidate: bool)
    requires cfg.hooked && Stands(ls, AtTurnEnd)
    ensures Stands(Consulted(env, cfg, ls, candidate), Replied(candidate, HookAnswer(env, cfg, ls, candidate)))
  {
    hide Replied, HookAnswer, Consulted, Acts, Timely;
    ActsHeard(env, cfg, ls, candidate);
    WalkThen(Acts(ls.emitted, ls.hooks), Heard(candidate, HookAnswer(env, cfg, ls, candidate)));
  }

  /** Work on a turn leaves a drive at its start, or at work. */
  lemma {:induction false} SilentStands(a: Loop, b: Loop, s: Stand)
    requires Silent(a, b) && Stands(a, s) && (s.AtStart? || s.AtWork?)
    ensures Stands(b, s)
    decreases |b.emitted|
  {
    if |a.emitted| == |b.emitted| {
      assert a.emitted == b.emitted;
    } else {
      var last := b.emitted[|b.emitted| - 1];
      var before := b.(emitted := b.emitted[..|b.emitted| - 1]);
      SilentStands(a, before, s);
      assert Acts(b.emitted, b.hooks) == Acts(before.emitted, before.hooks) + [Said(last)];
      WalkThen(Acts(before.emitted, before.hooks), Said(last));
    }
  }

  // ---------------------------------------------------------------------
  // Ending.

  predicate MayFail(s: Stand) {
    s.AtStart? || s.AtWork? || s.AtRequest? || s.AtTurnEnd? || s.AtRelease? || s.AtStop?
  }

  lemma FailedOrdered(env: Env, ls: Loop, error: DriveError, s: Stand)
    requires Reliable(env) && Stands(ls, s) && MayFail(s)
    ensures Ordered(Failed(env, ls, error))
  {
    hide Stands, Emit, Reliable;
    if error == SinkFailed {
      assert Fits(s, Failed(env, ls, error));
    } else {
      SayStands(env, ls, J.RunFailed, s);
      SayStands(env, Emit(env, ls, J.RunFailed).0, J.RunEnded, AtStop);
      assert Fits(AtStop, Failed(env, ls, error));
    }
  }

  lemma InterruptedOrdered(env: Env, ls: Loop, s: Stand)
    requires Reliable(env) && Stands(ls, s) && (s.AtWork? || s.AtRequest? || s.AtRelease?)
    ensures Ordered(Interrupted(env, ls))
  {
    hide Stands, Emit, Reliable;
    SayStands(env, ls, J.RunInterrupted, s);
    SayStands(env, Emit(env, ls, J.RunInterrupted).0, J.RunEnded, AtStop);
    assert Fits(AtStop, Interrupted(env, ls));
  }

  lemma CompletesOrdered(env: Env, ls: Loop)
    requires Reliable(env) && Stands(ls, AtRelease)
    ensures Ordered(Completes(env, ls))
  {
    hide Stands, Emit, Reliable;
    SayStands(env, ls, J.RunCompleted, AtRelease);
    SayStands(env, Emit(env, ls, J.RunCompleted).0, J.RunEnded, AtCompletion);
    assert Fits(AtEnd, Completes(env, ls));
  }

  lemma StopsOrdered(env: Env, ls: Loop)
    requires Reliable(env) && Stands(ls, AtStop)
    ensures Ordered(Stops(env, ls))
  {
    hide Stands, Emit, Reliable;
    SayStands(env, ls, J.RunEnded, AtStop);
    assert Fits(AtStop, Stops(env, ls));
  }

  lemma SuspendsOrdered(env: Env, ls: Loop, suspension: Suspension)
    requires Reliable(env) && Stands(ls, AtWork)
    ensures Ordered(Drives.Suspends(env, ls, suspension))
  {
    hide Stands, Emit, Reliable;
    SayStands(env, ls, J.RunSuspended(suspension), AtWork);
    assert Fits(AtPause(suspension), Drives.Suspends(env, ls, suspension));
  }

  // ---------------------------------------------------------------------
  // A turn and the loop.

  /** Ready for another round. */
  predicate Ready(ls: Loop) {
    Stands(ls, AtWork) || Stands(ls, AtRelease)
  }

  ghost predicate OrderedTurn(t: TurnEnd) {
    match t
    case Again(next) => Ready(next)
    case Over(end) => Ordered(end)
  }

  lemma FinishOrdered(env: Env, cfg: Config, ls: Loop, outcome: Outcome)
    requires Reliable(env) && cfg.hooked && Stands(ls, AtWork)
    ensures OrderedTurn(FinishTurn(env, cfg, ls, outcome))
  {
    hide Stands, Emit, Reliable, Ordered, Failed, Completes, Stops, HookAnswer, Consulted, ValidDecision, Decide;
    SayStands(env, ls, J.TurnEnded(ls.usage), AtWork);
    var ended := Emit(env, ls, J.TurnEnded(ls.usage)).0;
    if outcome.fatal.Some? {
      FailedOrdered(env, ended, TurnFailed(outcome.fatal.value), AtTurnEnd);
    } else {
      HearStands(env, cfg, ended, outcome.candidate);
      var told, reply := Consulted(env, cfg, ended, outcome.candidate), HookAnswer(env, cfg, ended, outcome.candidate);
      match reply
      case HookError(text) => FailedOrdered(env, told, TurnHookFailed(text), AtStop);
      case Decision(action, inject) =>
        if ValidDecision(action, inject) {
          DecideOrdered(env, told, outcome, action, inject);
        } else {
          FailedOrdered(env, told, DecisionRefused, AtStop);
        }
    }
  }

  lemma DecideOrdered(env: Env, ls: Loop, outcome: Outcome, action: TurnAction, inject: Transcript)
    requires Reliable(env) && ValidDecision(action, inject) && Stands(ls, Replied(outcome.candidate, Decision(action, inject)))
    ensures OrderedTurn(Decide(env, ls, outcome, action, inject))
  {
    hide Stands, Emit, Reliable, Ordered, Failed, Completes, Stops;
    match action
    case TurnContinue =>
      var fed := ls.(messages := ls.messages + inject);
      TranscriptStands(ls, fed, AtHandover(inject));
      SayStands(env, fed, J.MessagesInjected(inject), AtHandover(inject));
    case TurnStop =>
      if outcome.candidate { CompletesOrdered(env, ls); } else { StopsOrdered(env, ls); }
    case TurnDefault =>
      if outcome.candidate && !outcome.continues { CompletesOrdered(env, ls); }
    case TurnUnknown =>
  }

  lemma TranscriptStands(a: Loop, b: Loop, s: Stand)
    requires Stands(a, s) && a.emitted == b.emitted && a.hooks == b.hooks
    ensures Stands(b, s)
  {
  }

  lemma CompleteStands(env: Env, cfg: Config, ls: Loop, assistant: Message, resumed: Option<Regular>)
    requires Stands(ls, AtWork)
    ensures Stands(CompleteTurn(env, cfg, ls, assistant, resumed).ls, AtWork)
  {
    hide Stands, Silent, CompleteWith, RegularStage, GetToolUses;
    if resumed.Some? {
      CompleteSilent(env, cfg, ls, assistant, resumed.value);
      SilentStands(ls, CompleteTurn(env, cfg, ls, assistant, resumed).ls, AtWork);
    } else {
      var calls := GetToolUses(assistant);
      var stage := RegularStage(env, cfg, ls, calls);
      StageSilent(env, cfg, ls, calls);
      SilentStands(ls, stage.ls, AtWork);
      CompleteSilent(env, cfg, stage.ls, assistant, stage.regular);
      SilentStands(stage.ls, CompleteTurn(env, cfg, ls, assistant, resumed).ls, AtWork);
    }
  }

  lemma AnswerOrdered(env: Env, cfg: Config, ls: Loop, message: Message, usage: Counters, finish: FinishReason)
    requires Reliable(env) && cfg.hooked && Stands(ls, AtRequest)
    ensures OrderedTurn(TakeAnswer(env, cfg, ls, message, usage, finish))
  {
    hide Stands, Emit, Reliable, Ordered, Failed, CompleteTurn, FinishTurn, Drives.Suspends, Unusable, AfterResponse, AddResponse;
    var counted := ls.(usage := AddResponse(ls.usage, usage));
    var marked := if AfterResponse(cfg.limits, counted.usage.counters).Some? then counted else counted.(finish := finish);
    TranscriptStands(ls, marked, AtRequest);
    match Unusable(cfg, counted.usage, message, finish)
    case Some(error) => FailedOrdered(env, marked, error, AtRequest);
    case None =>
      var answered := marked.(messages := marked.messages + [message]);
      TranscriptStands(ls, answered, AtRequest);
      SayStands(env, answered, J.AssistantCommitted(message), AtRequest);
      var committed := Emit(env, answered, J.AssistantCommitted(message)).0;
      CompleteStands(env, cfg, committed, message, None);
      EndTurnOrdered(env, cfg, CompleteTurn(env, cfg, committed, message, None));
  }

  lemma EndTurnOrdered(env: Env, cfg: Config, c: Turns.Completed)
    requires Reliable(env) && cfg.hooked && Stands(c.ls, AtWork)
    ensures OrderedTurn(EndTurn(env, cfg, c))
  {
    hide Stands, Reliable, Ordered, FinishTurn, Drives.Suspends;
    if c.outcome.suspension.Some? {
      SuspendsOrdered(env, c.ls, c.outcome.suspension.value);
    } else {
      FinishOrdered(env, cfg, c.ls, c.outcome);
    }
  }

  lemma RoundOrdered(env: Env, cfg: Config, ls: Loop)
    requires Reliable(env) && cfg.hooked && Ready(ls)
    ensures OrderedTurn(Round(env, cfg, ls))
  {
    hide Stands, Emit, Reliable, Ordered, Failed, Interrupted, TakeAnswer, Halt;
    var s := if Stands(ls, AtWork) then AtWork else AtRelease;
    match Halt(env, cfg, ls)
    case Some(error) =>
      InterruptedOrdered(env, ls, s);
      FailedOrdered(env, ls, error, s);
    case None =>
      SayStands(env, ls, J.TurnStarted, s);
      var started := Emit(env, ls, J.TurnStarted).0;
      var reply := env.respond(started.iteration, started.messages);
      match reply
      case ModelCanceled => InterruptedOrdered(env, started, AtRequest);
      case ModelFailed(text) => FailedOrdered(env, started, ProviderFailed(text), AtRequest);
      case Answered(message, usage, finish) => AnswerOrdered(env, cfg, started, message, usage, finish);
  }

  lemma {:induction false} DriveOrdered(env: Env, cfg: Config, ls: Loop)
    requires Reliable(env) && cfg.hooked && Ready(ls)
    ensures Ordered(DriveFrom(env, cfg, ls).end)
    decreases if ls.iteration < cfg.maxIterations then cfg.maxIterations - ls.iteration else 0
  {
    hide Round, Asks, Reliable, Ordered, Stands;
    RoundOrdered(env, cfg, ls);
    RoundIteration(env, cfg, ls);
    match Round(env, cfg, ls)
    case Over(end) =>
    case Again(next) =>
      NextReady(next);
      DriveOrdered(env, cfg, next.(iteration := next.iteration + 1));
  }

  lemma NextReady(ls: Loop)
    requires Ready(ls)
    ensures Ready(ls.(iteration := ls.iteration + 1))
  {
  }

  lemma EnterOrdered(env: Env, cfg: Config, ls: Loop, entry: Entry)
    requires Reliable(env) && cfg.hooked && Stands(ls, AtWork) && entry.Turn?
    ensures OrderedTurn(EnterTurn(env, cfg, ls, entry))
  {
    hide Stands, Emit, Reliable, Ordered, CompleteTurn, FinishTurn, Drives.Suspends;
    CompleteStands(env, cfg, ls, entry.assistant, entry.regular);
    var c := CompleteTurn(env, cfg, ls, entry.assistant, entry.regular);
    if c.outcome.suspension.Some? {
      SuspendsOrdered(env, c.ls, c.outcome.suspension.value);
    } else {
      if entry.prompt.Some? {
        var fed := c.ls.(messages := c.ls.messages + [entry.prompt.value]);
        TranscriptStands(c.ls, fed, AtWork);
        SayStands(env, fed, J.MessagesInjected([entry.prompt.value]), AtWork);
      }
      var prompted := WithPrompt(env, c, entry.prompt);
      FinishOrdered(env, cfg, prompted.ls, prompted.outcome);
    }
  }

  lemma LoopOrdered(env: Env, cfg: Config, ls: Loop, entry: Entry)
    requires Reliable(env) && cfg.hooked && Stands(ls, AtStart)
    ensures Ordered(DriveLoop(env, cfg, ls, entry).end)
  {
    hide Stands, Emit, Reliable, Ordered, DriveFrom, EnterTurn, Failed;
    SayStands(env, ls, J.RunStarted, AtStart);
    var started := Emit(env, ls, J.RunStarted).0;
    if entry.Fresh? {
      DriveOrdered(env, cfg, started);
    } else {
      EnterOrdered(env, cfg, started, entry);
      var t := EnterTurn(env, cfg, started, entry);
      if t.Again? {
        NextReady(t.ls);
        DriveOrdered(env, cfg, t.ls.(iteration := t.ls.iteration + 1));
      }
    }
  }

  lemma Unspoken(ls: Loop)
    requires ls.emitted == [] && ls.hooks == []
    ensures Stands(ls, AtStart)
  {
  }

  /** Every drive on an accepted input keeps the order: a start, a continuation or a recovery. */
  lemma StartOrdered(env: Env, cfg: Config, system: string, mode: InputMode, prompt: Option<Message>, history: Transcript)
    requires Reliable(env) && cfg.hooked
    ensures var d := StartDrive(env, cfg, system, mode, prompt, history); d.Some? ==> Ordered(d.value.end)
  {
    hide DriveLoop, Ordered, Inserted, Run;
    var ls := Prepared(system, history, prompt);
    Unspoken(ls);
    LoopOrdered(env, cfg, ls, Fresh);
    if history != [] {
      assert |ls.messages| >= |history|;
      LoopOrdered(env, cfg, ls, Turn(ls.messages[|ls.messages| - 1], None, None));
    }
  }

  /** And so does every resumed one, whatever the decisions. */
  lemma ResumeOrdered(env: Env, cfg: Config, system: string, history: Transcript, s: Suspension, decisions: seq<ToolResumeDecision>,
                      prompt: Option<Message>)
    requires Reliable(env) && cfg.hooked
    ensures var d := ResumeDrive(env, cfg, system, history, s, decisions, prompt); d.Some? ==> Ordered(d.value.end)
  {
    hide DriveLoop, Ordered, ResumeGuards, ResolveTools, Stands, Failed;
    var ls := Prepared(system, history, None);
    if history != [] {
      PreparedNonEmpty(system, history);
      Unspoken(ls);
      FailedOrdered(env, ls, SuspensionMismatch, AtStart);
      if ResumeGuards(env, cfg, ls.messages, s) {
        GuardsName(env, cfg, ls.messages, s);
        ResolvedOrdered(env, cfg, ls, s.payload.tool, decisions, prompt);
      }
    }
  }

  lemma PreparedNonEmpty(system: string, history: Transcript)
    requires history != []
    ensures Prepared(system, history, None).messages != []
  {
  }

  lemma ResolvedOrdered(env: Env, cfg: Config, ls: Loop, tool: ToolSuspension, decisions: seq<ToolResumeDecision>, prompt: Option<Message>)
    requires Reliable(env) && cfg.hooked && ls.messages != []
    ensures match ResolveTools(env, cfg, Restored(ls.messages, tool), tool, decisions)
      case ResolveFailed(validation) => Ordered(Failed(env, Restored(ls.messages, tool), ResolutionRefused(validation)))
      case ResolvedAs(stage) => Ordered(DriveLoop(env, cfg, stage.ls, Turn(ls.messages[|ls.messages| - 1], Some(stage.regular), prompt)).end)
  {
    hide DriveLoop, Ordered, ResolveTools, Stands, Failed, Silent;
    var restored := Restored(ls.messages, tool);
    Unspoken(restored);
    ResolvedSilent(env, cfg, restored, tool, decisions);
    match ResolveTools(env, cfg, restored, tool, decisions)
    case ResolveFailed(validation) => FailedOrdered(env, restored, ResolutionRefused(validation), AtStart);
    case ResolvedAs(stage) =>
      SilentStands(restored, stage.ls, AtStart);
      LoopOrdered(env, cfg, stage.ls, Turn(ls.messages[|ls.messages| - 1], Some(stage.regular), prompt));
  }

  // ---------------------------------------------------------------------
  // A drive only adds to its script.

  predicate Extends(a: Loop, b: Loop) {
    && a.emitted <= b.emitted && a.hooks <= b.hooks
    && forall j :: |a.hooks| <= j < |b.hooks| ==> b.hooks[j].at >= |a.emitted|
  }

  lemma ExtendsChain(a: Loop, b: Loop, c: Loop)
    requires Extends(a, b) && Extends(b, c)
    ensures Extends(a, c)
  {
    forall j | |a.hooks| <= j < |c.hooks| ensures c.hooks[j].at >= |a.emitted| {
      assert j < |b.hooks| ==> c.hooks[j] == b.hooks[j];
    }
  }

  lemma ExtendsSame(a: Loop, b: Loop)
    requires a.emitted == b.emitted && a.hooks == b.hooks
    ensures Extends(a, b)
  {
  }

  lemma EmitExtends(env: Env, ls: Loop, event: J.Event)
    ensures Extends(ls, Emit(env, ls, event).0)
  {
  }

  lemma SilentExtends(a: Loop, b: Loop)
    requires Silent(a, b)
    ensures Extends(a, b)
  {
  }

  lemma ConsultExtends(env: Env, cfg: Config, ls: Loop, candidate: bool)
    ensures Extends(ls, Consulted(env, cfg, ls, candidate))
  {
    hide HookAnswer;
  }

  predicate TurnExtends(ls: Loop, t: TurnEnd) {
    match t
    case Again(next) => Extends(ls, next)
    case Over(end) => Extends(ls, end.ls)
  }

  lemma EndsExtend(env: Env, ls: Loop)
    ensures forall error: DriveError :: Extends(ls, Failed(env, ls, error).ls)
    ensures Extends(ls, Interrupted(env, ls).ls) && Extends(ls, Completes(env, ls).ls) && Extends(ls, Stops(env, ls).ls)
    ensures forall s: Suspension :: Extends(ls, Drives.Suspends(env, ls, s).ls)
  {
    hide Emit, Extends;
    ExtendsSame(ls, ls);
    TwoEmits(env, ls, J.RunFailed, J.RunEnded);
    TwoEmits(env, ls, J.RunInterrupted, J.RunEnded);
    TwoEmits(env, ls, J.RunCompleted, J.RunEnded);
    EmitExtends(env, ls, J.RunEnded);
    forall s: Suspension ensures Extends(ls, Drives.Suspends(env, ls, s).ls) {
      EmitExtends(env, ls, J.RunSuspended(s));
    }
  }

  lemma TwoEmits(env: Env, ls: Loop, first: J.Event, second: J.Event)
    ensures Extends(ls, Emit(env, ls, first).0) && Extends(ls, Emit(env, Emit(env, ls, first).0, second).0)
  {
    hide Emit, Extends;
    EmitExtends(env, ls, first);
    EmitExtends(env, Emit(env, ls, first).0, second);
    ExtendsChain(ls, Emit(env, ls, first).0, Emit(env, Emit(env, ls, first).0, second).0);
  }

  lemma OverExtends(env: Env, a: Loop, ls: Loop)
    requires Extends(a, ls)
    ensures forall error: DriveError :: Extends(a, Failed(env, ls, error).ls)
    ensures Extends(a, Interrupted(env, ls).ls) && Extends(a, Completes(env, ls).ls) && Extends(a, Stops(env, ls).ls)
    ensures forall s: Suspension :: Extends(a, Drives.Suspends(env, ls, s).ls)
  {
    hide Failed, Interrupted, Completes, Stops, Drives.Suspends, Extends;
    EndsExtend(env, ls);
    forall error: DriveError ensures Extends(a, Failed(env, ls, error).ls) {
      ExtendsChain(a, ls, Failed(env, ls, error).ls);
    }
    ExtendsChain(a, ls, Interrupted(env, ls).ls);
    ExtendsChain(a, ls, Completes(env, ls).ls);
    ExtendsChain(a, ls, Stops(env, ls).ls);
    forall s: Suspension ensures Extends(a, Drives.Suspends(env, ls, s).ls) {
      ExtendsChain(a, ls, Drives.Suspends(env, ls, s).ls);
    }
  }

  lemma FinishExtends(env: Env, cfg: Config, ls: Loop, outcome: Outcome)
    ensures TurnExtends(ls, FinishTurn(env, cfg, ls, outcome))
  {
    hide Emit, Extends, Failed, Completes, Stops, Consulted, HookAnswer, ValidDecision;
    var ended := Emit(env, ls, J.TurnEnded(ls.usage)).0;
    EmitExtends(env, ls, J.TurnEnded(ls.usage));
    OverExtends(env, ls, ended);
    var told := Consulted(env, cfg, ended, outcome.candidate);
    ConsultExtends(env, cfg, ended, outcome.candidate);
    ExtendsChain(ls, ended, told);
    OverExtends(env, ls, told);
    var reply := HookAnswer(env, cfg, ended, outcome.candidate);
    if reply.Decision? {
      var fed := told.(messages := told.messages + reply.inject);
      ExtendsSame(told, fed);
      EmitExtends(env, fed, J.MessagesInjected(reply.inject));
      var next := Emit(env, fed, J.MessagesInjected(reply.inject)).0;
      ExtendsChain(ls, told, fed);
      ExtendsChain(ls, fed, next);
      OverExtends(env, ls, next);
    }
  }

  lemma CompletionExtends(env: Env, cfg: Config, ls: Loop, assistant: Message, resumed: Option<Regular>)
    ensures Extends(ls, CompleteTurn(env, cfg, ls, assistant, resumed).ls)
  {
    hide Silent, CompleteWith, RegularStage, GetToolUses, Extends;
    if resumed.Some? {
      CompleteSilent(env, cfg, ls, assistant, resumed.value);
      SilentExtends(ls, CompleteTurn(env, cfg, ls, assistant, resumed).ls);
    } else {
      var calls := GetToolUses(assistant);
      var stage := RegularStage(env, cfg, ls, calls);
      StageSilent(env, cfg, ls, calls);
      SilentExtends(ls, stage.ls);
      CompleteSilent(env, cfg, stage.ls, assistant, stage.regular);
      SilentExtends(stage.ls, CompleteTurn(env, cfg, ls, assistant, resumed).ls);
      ExtendsChain(ls, stage.ls, CompleteTurn(env, cfg, ls, assistant, resumed).ls);
    }
  }

  lemma AnswerExtends(env: Env, cfg: Config, ls: Loop, message: Message, usage: Counters, finish: FinishReason)
    ensures TurnExtends(ls, TakeAnswer(env, cfg, ls, message, usage, finish))
  {
    hide Extends, Emit, Failed, CompleteTurn, FinishTurn, Drives.Suspends, Unusable, AfterResponse, AddResponse;
    var counted := ls.(usage := AddResponse(ls.usage, usage));
    var marked := if AfterResponse(cfg.limits, counted.usage.counters).Some? then counted else counted.(finish := finish);
    ExtendsSame(ls, marked);
    OverExtends(env, ls, marked);
    var answered := marked.(messages := marked.messages + [message]);
    ExtendsSame(ls, answered);
    EmitExtends(env, answered, J.AssistantCommitted(message));
    var committed := Emit(env, answered, J.AssistantCommitted(message)).0;
    ExtendsChain(ls, answered, committed);
    OverExtends(env, ls, committed);
    var c := CompleteTurn(env, cfg, committed, message, None);
    CompletionExtends(env, cfg, committed, message, None);
    ExtendsChain(ls, committed, c.ls);
    OverExtends(env, ls, c.ls);
    FinishExtends(env, cfg, c.ls, c.outcome);
    TurnChain(ls, c.ls, FinishTurn(env, cfg, c.ls, c.outcome));
  }

  lemma TurnChain(a: Loop, b: Loop, t: TurnEnd)
    requires Extends(a, b) && TurnExtends(b, t)
    ensures TurnExtends(a, t)
  {
    hide Extends;
    match t
    case Again(next) => ExtendsChain(a, b, next);
    case Over(end) => ExtendsChain(a, b, end.ls);
  }

  /** The first thing a round says is that a turn started, or why none does. */
  predicate BeginsRound(event: J.Event) {
    event.TurnStarted? || event.RunFailed? || event.RunInterrupted?
  }

  lemma RoundExtends(env: Env, cfg: Config, ls: Loop) returns (event: J.Event)
    requires Reliable(env)
    ensures BeginsRound(event) && TurnExtends(Emit(env, ls, event).0, Round(env, cfg, ls))
  {
    hide Extends, Emit, TakeAnswer, Halt, Reliable;
    match Halt(env, cfg, ls)
    case Some(error) =>
      event := if error == ContextCanceled then J.RunInterrupted else J.RunFailed;
      HaltReports(env, cfg, ls, error);
      ExtendsSame(Emit(env, ls, event).0, Emit(env, ls, event).0);
      EmitExtends(env, Emit(env, ls, event).0, J.RunEnded);
    case None =>
      event := J.TurnStarted;
      EmitsReliably(env, ls, event);
      var started := Emit(env, ls, J.TurnStarted).0;
      EndsExtend(env, started);
      var reply := env.respond(started.iteration, started.messages);
      if reply.Answered? {
        AnswerExtends(env, cfg, started, reply.message, reply.usage, reply.finish);
      }
  }

  lemma EmitsReliably(env: Env, ls: Loop, event: J.Event)
    requires Reliable(env)
    ensures Emit(env, ls, event).1
  {
  }

  lemma HaltReports(env: Env, cfg: Config, ls: Loop, error: DriveError)
    requires Halt(env, cfg, ls) == Some(error)
    ensures error != SinkFailed
  {
  }

  lemma {:induction false} DriveExtends(env: Env, cfg: Config, ls: Loop) returns (event: J.Event)
    requires Reliable(env)
    ensures BeginsRound(event) && Extends(Emit(env, ls, event).0, DriveFrom(env, cfg, ls).end.ls)
    decreases if ls.iteration < cfg.maxIterations then cfg.maxIterations - ls.iteration else 0
  {
    hide Round, Asks, Extends, Emit, Reliable;
    event := RoundExtends(env, cfg, ls);
    RoundIteration(env, cfg, ls);
    match Round(env, cfg, ls)
    case Over(end) =>
    case Again(next) =>
      var on := next.(iteration := next.iteration + 1);
      var later := DriveExtends(env, cfg, on);
      var end := DriveFrom(env, cfg, ls).end.ls;
      ExtendsSame(next, on);
      EmitExtends(env, on, later);
      ExtendsChain(on, Emit(env, on, later).0, end);
      ExtendsChain(next, on, end);
      ExtendsChain(Emit(env, ls, event).0, next, end);
  }

  /** A longer run's script begins with the shorter one's. */
  lemma {:induction false} ScriptExtends(a: Loop, b: Loop)
    requires Extends(a, b) && Timely(a)
    ensures Acts(a.emitted, a.hooks) <= Acts(b.emitted, b.hooks)
    decreases |b.emitted| + |b.hooks|
  {
    if a.emitted == b.emitted && a.hooks == b.hooks {
    } else if b.hooks != [] && b.hooks[|b.hooks| - 1].at >= |b.emitted| && |b.hooks| > |a.hooks| {
      ScriptExtends(a, b.(hooks := b.hooks[..|b.hooks| - 1]));
    } else {
      assert |b.emitted| > |a.emitted|;
      assert b.hooks != [] && b.hooks[|b.hooks| - 1].at >= |b.emitted| ==> |b.hooks| > |a.hooks|;
      ScriptExtends(a, b.(emitted := b.emitted[..|b.emitted| - 1]));
    }
  }
}
