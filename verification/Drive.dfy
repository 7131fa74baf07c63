/** The driver's loop: input checks, model requests, turn endings, and re-entry of a suspended batch (execution_loop.go, run_state.go). */
module Drives {
  import opened Messages
  import opened Pairing
  import opened Usages
  import opened Suspensions
  import opened ToolControl
  import opened ResumePlan
  import opened Turns
  import opened Resuming
  import opened TurnLaws
  import J = Journals

  // ---------------------------------------------------------------------
  // Usage limits.

  /** Name of the limit that forbids another request. */
  function BeforeRequest(limits: Option<Limits>, used: Counters): Option<string> {
    if limits.None? then None
    else if AtLimit(limits.value.maxRequests, used.requests) then Some("requests")
    else if PastLimit(limits.value.maxRequestTokens, used.promptTokens) then Some("request_tokens")
    else if PastLimit(limits.value.maxTotalTokens, used.totalTokens) then Some("total_tokens")
    else None
  }

  /** Name of the limit a response went past. */
  function AfterResponse(limits: Option<Limits>, used: Counters): Option<string> {
    if limits.None? then None
    else if PastLimit(limits.value.maxRequestTokens, used.promptTokens) then Some("request_tokens")
    else if PastLimit(limits.value.maxResponseTokens, used.completionTokens) then Some("response_tokens")
    else if PastLimit(limits.value.maxTotalTokens, used.totalTokens) then Some("total_tokens")
    else None
  }

  // ---------------------------------------------------------------------
  // Ending a drive.

  datatype DriveError =
    | NoDriveError | SinkFailed | ContextCanceled | MaxIterationsReached | LimitExceeded(limit: string)
    | ProviderFailed(reason: string) | TurnFailed(text: string) | TurnHookFailed(text: string) | DecisionRefused
    | SuspensionMismatch | ResolutionRefused(validation: bool)

  datatype Ended = Ended(ls: Loop, status: J.Status, suspension: Option<Suspension>, error: DriveError)

  function Failed(env: Env, ls: Loop, error: DriveError): Ended {
    if error == SinkFailed then Ended(ls, J.ExecutionFailed, None, error)
    else
      var reported := Emit(env, ls, J.RunFailed).0;
      Ended(Emit(env, reported, J.RunEnded).0, J.ExecutionFailed, None, error)
  }

  function Interrupted(env: Env, ls: Loop): Ended {
    var reported := Emit(env, ls, J.RunInterrupted).0;
    Ended(Emit(env, reported, J.RunEnded).0, J.ExecutionInterrupted, None, ContextCanceled)
  }

  function Completes(env: Env, ls: Loop): Ended {
    var (reported, ok) := Emit(env, ls, J.RunCompleted);
    if !ok then Failed(env, reported, SinkFailed)
    else
      var (ended, also) := Emit(env, reported, J.RunEnded);
      if also then Ended(ended, J.ExecutionCompleted, None, NoDriveError) else Failed(env, ended, SinkFailed)
  }

  function Stops(env: Env, ls: Loop): Ended {
    var (ended, ok) := Emit(env, ls, J.RunEnded);
    if ok then Ended(ended, J.ExecutionStopped, None, NoDriveError) else Failed(env, ended, SinkFailed)
  }

  function Suspends(env: Env, ls: Loop, suspension: Suspension): Ended {
    var (reported, ok) := Emit(env, ls, J.RunSuspended(suspension));
    if ok then Ended(reported, J.ExecutionSuspended, Some(suspension), NoDriveError) else Failed(env, reported, SinkFailed)
  }

  // ---------------------------------------------------------------------
  // Ending a turn.

  predicate ValidDecision(action: TurnAction, inject: Transcript) {
    && action != TurnUnknown
    && (action == TurnContinue <==> inject != [])
    && forall i :: 0 <= i < |inject| ==> inject[i].role == RoleUser
  }

  datatype TurnEnd = Over(end: Ended) | Again(ls: Loop)

  function HookAnswer(env: Env, cfg: Config, ls: Loop, candidate: bool): HookReply {
    if cfg.hooked then env.hook(ls.iteration, ls.messages, candidate) else Decision(TurnDefault, [])
  }

  /** The loop once the hook, if there is one, has been called. */
  function Consulted(env: Env, cfg: Config, ls: Loop, candidate: bool): Loop {
    if cfg.hooked then ls.(hooks := ls.hooks + [HookCall(|ls.emitted|, candidate, HookAnswer(env, cfg, ls, candidate))]) else ls
  }

  /** What the hook's decision makes of the turn. */
  function Decide(env: Env, ls: Loop, outcome: Outcome, action: TurnAction, inject: Transcript): TurnEnd {
    match action
    case TurnContinue =>
      var (next, ok) := Emit(env, ls.(messages := ls.messages + inject), J.MessagesInjected(inject));
      if ok then Again(next) else Over(Failed(env, next, SinkFailed))
    case TurnStop => Over(if outcome.candidate then Completes(env, ls) else Stops(env, ls))
    case TurnDefault => if outcome.candidate && !outcome.continues then Over(Completes(env, ls)) else Again(ls)
    case TurnUnknown => Over(Failed(env, ls, DecisionRefused))
  }

  /** finishTurn. */
  function FinishTurn(env: Env, cfg: Config, ls: Loop, outcome: Outcome): TurnEnd {
    var (ended, ok) := Emit(env, ls, J.TurnEnded(ls.usage));
    if !ok then Over(Failed(env, ended, SinkFailed))
    else if outcome.fatal.Some? then Over(Failed(env, ended, TurnFailed(outcome.fatal.value)))
    else
      var told := Consulted(env, cfg, ended, outcome.candidate);
      match HookAnswer(env, cfg, ended, outcome.candidate)
      case HookError(text) => Over(Failed(env, told, TurnHookFailed(text)))
      case Decision(action, inject) =>
        if ValidDecision(action, inject) then Decide(env, told, outcome, action, inject)
        else Over(Failed(env, told, DecisionRefused))
  }

  // ---------------------------------------------------------------------
  // One round of the loop.

  /** Limits and cancellation before a request; None lets it go ahead. */
  function Halt(env: Env, cfg: Config, ls: Loop): Option<DriveError> {
    if env.canceled(ls.iteration) then Some(ContextCanceled)
    else if ls.iteration >= cfg.maxIterations then Some(MaxIterationsReached)
    else
      match BeforeRequest(cfg.limits, ls.usage.counters)
      case Some(limit) => Some(LimitExceeded(limit))
      case None => None
  }

  /** Why an answer ends the drive before it is committed. */
  function Unusable(cfg: Config, usage: Usage, message: Message, finish: FinishReason): Option<DriveError> {
    match AfterResponse(cfg.limits, usage.counters)
    case Some(limit) => Some(LimitExceeded(limit))
    case None =>
      if finish == FinishError then Some(ProviderFailed("provider error"))
      else if finish == FinishLength then Some(ProviderFailed("output limit"))
      else if message.content == [] then Some(ProviderFailed("empty response from provider"))
      else None
  }

  function EndTurn(env: Env, cfg: Config, c: Completed): TurnEnd {
    if c.outcome.suspension.Some? then Over(Suspends(env, c.ls, c.outcome.suspension.value))
    else FinishTurn(env, cfg, c.ls, c.outcome)
  }

  /** The state an answer leaves: usage counted always, finish reason unless a limit was passed, transcript when committed. */
  function TakeAnswer(env: Env, cfg: Config, ls: Loop, message: Message, usage: Counters, finish: FinishReason): TurnEnd {
    var counted := ls.(usage := AddResponse(ls.usage, usage));
    var marked := if AfterResponse(cfg.limits, counted.usage.counters).Some? then counted else counted.(finish := finish);
    match Unusable(cfg, counted.usage, message, finish)
    case Some(error) => Over(Failed(env, marked, error))
    case None =>
      var (committed, ok) := Emit(env, marked.(messages := marked.messages + [message]), J.AssistantCommitted(message));
      if !ok then Over(Failed(env, committed, SinkFailed))
      else EndTurn(env, cfg, CompleteTurn(env, cfg, committed, message, None))
  }

  function TakeReply(env: Env, cfg: Config, ls: Loop, reply: ModelReply): TurnEnd {
    match reply
    case ModelCanceled => Over(Interrupted(env, ls))
    case ModelFailed(text) => Over(Failed(env, ls, ProviderFailed(text)))
    case Answered(message, usage, finish) => TakeAnswer(env, cfg, ls, message, usage, finish)
  }

  function Round(env: Env, cfg: Config, ls: Loop): TurnEnd {
    match Halt(env, cfg, ls)
    case Some(ContextCanceled) => Over(Interrupted(env, ls))
    case Some(error) => Over(Failed(env, ls, error))
    case None =>
      var (started, ok) := Emit(env, ls, J.TurnStarted);
      if !ok then Over(Failed(env, started, SinkFailed))
      else TakeReply(env, cfg, started, env.respond(started.iteration, started.messages))
  }

  /** The round reaches the model. */
  predicate Asks(env: Env, cfg: Config, ls: Loop) {
    Halt(env, cfg, ls).None? && Emit(env, ls, J.TurnStarted).1
  }

  // ---------------------------------------------------------------------
  // No round touches the iteration counter.

  lemma CompleteIteration(env: Env, cfg: Config, ls: Loop, assistant: Message, regular: Regular)
    ensures CompleteWith(env, cfg, ls, assistant, regular).ls.iteration == ls.iteration
  {
    hide GetToolUses, TurnResults, OutputIndex, WithVerdict, JudgeTurn, CommittedAll, Inert;
    var calls := GetToolUses(assistant);
    if regular.suspension.None? {
      var added := JudgedTranscript(env, cfg, ls, assistant, calls, regular);
      var judged := JudgeTurn(env, cfg, ls, assistant, calls, regular);
      var results := WithVerdict(TurnResults(cfg, calls, regular), OutputIndex(cfg, calls), judged.verdict);
      ResultsCommit(env, judged.ls.(messages := judged.ls.messages + ResultMessages(results)), results);
    }
  }

  lemma TurnIteration(env: Env, cfg: Config, ls: Loop, assistant: Message, resumed: Option<Regular>)
    ensures CompleteTurn(env, cfg, ls, assistant, resumed).ls.iteration == ls.iteration
  {
    hide CompleteWith, RegularStage, GetToolUses, CommittedAll;
    if resumed.Some? {
      CompleteIteration(env, cfg, ls, assistant, resumed.value);
    } else {
      var stage := RegularStage(env, cfg, ls, GetToolUses(assistant));
      StageSame(env, cfg, ls, GetToolUses(assistant));
      CompleteIteration(env, cfg, stage.ls, assistant, stage.regular);
    }
  }

  lemma FinishIteration(env: Env, cfg: Config, ls: Loop, outcome: Outcome)
    ensures FinishTurn(env, cfg, ls, outcome).Again? ==> FinishTurn(env, cfg, ls, outcome).ls.iteration == ls.iteration
  {
  }

  lemma RoundIteration(env: Env, cfg: Config, ls: Loop)
    ensures Round(env, cfg, ls).Again? ==> Round(env, cfg, ls).ls.iteration == ls.iteration < cfg.maxIterations
    ensures Round(env, cfg, ls).Again? ==> Asks(env, cfg, ls)
  {
    hide CompleteTurn, FinishTurn, AfterResponse, BeforeRequest;
    var started := Emit(env, ls, J.TurnStarted).0;
    var reply := env.respond(started.iteration, started.messages);
    if reply.Answered? {
      var answered := started.(usage := AddResponse(ls.usage, reply.usage), finish := reply.finish,
                               messages := started.messages + [reply.message]);
      var committed := Emit(env, answered, J.AssistantCommitted(reply.message)).0;
      TurnIteration(env, cfg, committed, reply.message, None);
      var c := CompleteTurn(env, cfg, committed, reply.message, None);
      FinishIteration(env, cfg, c.ls, c.outcome);
    }
  }

  // ---------------------------------------------------------------------
  // The loop, with every model request it makes.

  datatype Request = Request(iteration: nat, messages: Transcript)

  datatype Drive = Drive(end: Ended, requests: seq<Request>)

  function DriveFrom(env: Env, cfg: Config, ls: Loop): Drive
    decreases if ls.iteration < cfg.maxIterations then cfg.maxIterations - ls.iteration else 0
  {
    var asked := if Asks(env, cfg, ls) then [Request(ls.iteration, ls.messages)] else [];
    match Round(env, cfg, ls)
    case Over(end) => Drive(end, asked)
    case Again(next) =>
      RoundIteration(env, cfg, ls);
      var rest := DriveFrom(env, cfg, next.(iteration := next.iteration + 1));
      rest.(requests := asked + rest.requests)
  }

  /** driveLoop: a fresh start, or a turn to complete first. */
  datatype Entry = Fresh | Turn(assistant: Message, regular: Option<Regular>, prompt: Option<Message>)

  function WithPrompt(env: Env, c: Completed, prompt: Option<Message>): Completed {
    if prompt.None? || c.outcome.fatal.Some? then c
    else
      var (next, ok) := Emit(env, c.ls.(messages := c.ls.messages + [prompt.value]), J.MessagesInjected([prompt.value]));
      Completed(next, c.outcome.(continues := true, fatal := if ok then None else Some("event sink")))
  }

  function EnterTurn(env: Env, cfg: Config, ls: Loop, entry: Entry): TurnEnd
    requires entry.Turn?
  {
    var c := CompleteTurn(env, cfg, ls, entry.assistant, entry.regular);
    if c.outcome.suspension.Some? then Over(Suspends(env, c.ls, c.outcome.suspension.value))
    else
      var prompted := WithPrompt(env, c, entry.prompt);
      FinishTurn(env, cfg, prompted.ls, prompted.outcome)
  }

  function DriveLoop(env: Env, cfg: Config, ls: Loop, entry: Entry): Drive {
    var (started, ok) := Emit(env, ls, J.RunStarted);
    if !ok then Drive(Failed(env, started, SinkFailed), [])
    else if entry.Fresh? then DriveFrom(env, cfg, started)
    else
      match EnterTurn(env, cfg, started, entry)
      case Over(end) => Drive(end, [])
      case Again(next) => DriveFrom(env, cfg, next.(iteration := next.iteration + 1))
  }

  // ---------------------------------------------------------------------
  // Entry points.

  datatype InputMode = InputStart | InputContinue | InputRecover | InputUnknown

  /** validateDriveInput. */
  predicate ValidInput(mode: InputMode, prompt: Option<Message>, history: Transcript) {
    match Run(Closed, history)
    case None => false
    case Some(f) =>
      match mode
      case InputStart => prompt.Some? && prompt.value.role == RoleUser && f.calls == []
      case InputUnknown => false
      case _ =>
        && prompt.None? && history != [] && f.calls == []
        && var last := history[|history| - 1];
           || last.role == RoleUser || last.role == RoleTool
           || (mode == InputRecover && last.role == RoleAssistant && GetToolUses(last) == [])
  }

  predicate HasSystem(history: Transcript) {
    exists i :: 0 <= i < |history| && history[i].role == RoleSystem
  }

  /** The driver's own system message, inserted only into a history that has none. */
  function Inserted(system: string, history: Transcript): Option<Message> {
    if HasSystem(history) || system == "" then None else Some(NewTextMessage(RoleSystem, system))
  }

  /** prepareLoopWithHistory. */
  function Prepared(system: string, history: Transcript, prompt: Option<Message>): Loop {
    Loop(OptionalMessage(Inserted(system, history)) + history + OptionalMessage(prompt),
         0, ZeroUsage, map[], 0, 0, FinishOther(""), [], [])
  }

  /** Drive; None is an input error, before any event. */
  function StartDrive(env: Env, cfg: Config, system: string, mode: InputMode, prompt: Option<Message>, history: Transcript): Option<Drive> {
    if !ValidInput(mode, prompt, history) then None
    else
      var ls := Prepared(system, history, prompt);
      if mode == InputRecover && history[|history| - 1].role == RoleAssistant then
        Some(DriveLoop(env, cfg, ls, Turn(ls.messages[|ls.messages| - 1], None, None)))
      else Some(DriveLoop(env, cfg, ls, Fresh))
  }

  /** What resume does once the loop state is prepared. */
  function ResumePrepared(env: Env, cfg: Config, ls: Loop, s: Suspension, decisions: seq<ToolResumeDecision>, prompt: Option<Message>): Drive {
    if !ResumeGuards(env, cfg, ls.messages, s) then Drive(Failed(env, ls, SuspensionMismatch), [])
    else
      var restored := Restored(ls.messages, s.payload.tool);
      match ResolveTools(env, cfg, restored, s.payload.tool, decisions)
      case ResolveFailed(validation) => Drive(Failed(env, restored, ResolutionRefused(validation)), [])
      case ResolvedAs(stage) =>
        DriveLoop(env, cfg, stage.ls, Turn(ls.messages[|ls.messages| - 1], Some(stage.regular), prompt))
  }

  /** Resume; None is an input error, before any event. */
  function ResumeDrive(env: Env, cfg: Config, system: string, history: Transcript, s: Suspension, decisions: seq<ToolResumeDecision>,
                       prompt: Option<Message>): Option<Drive> {
    if (prompt.Some? && prompt.value.role != RoleUser) || history == [] || !Accepted(history) then None
    else Some(ResumePrepared(env, cfg, Prepared(system, history, None), s, decisions, prompt))
  }
}
