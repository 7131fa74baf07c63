/** One assistant turn of the driver: gate, tools, retries, output validation and result commit (turn.go, execution_loop.go). */
module Turns {
  import opened Messages
  import opened Pairing
  import opened Usages
  import opened Suspensions
  import opened ToolControl
  import opened Scheduler
  import opened ResumePlan
  import J = Journals

  datatype ModelReply =
    | ModelCanceled
    | ModelFailed(text: string)
    | Answered(message: Message, usage: Counters, finish: FinishReason)

  datatype TurnAction = TurnDefault | TurnContinue | TurnStop | TurnUnknown

  datatype HookReply = HookError(text: string) | Decision(action: TurnAction, inject: Transcript)

  /** Everything outside the loop, as functions of what it is asked: two drives that ask the same are told the same. */
  datatype Env = Env(
    sink: (nat, J.Event) -> bool,
    gate: (nat, seq<ToolUse>) -> GateOutcome,
    handler: (nat, ToolUse, nat, bool) -> HandlerReply,
    abandons: (nat, ToolUse) -> bool,
    process: (ToolUse, Executed) -> ProcessReply,
    evaluate: (nat, Message) -> Option<string>,
    hook: (nat, Transcript, bool) -> HookReply,
    respond: (nat, Transcript) -> ModelReply,
    canceled: nat -> bool,
    suspensionId: nat -> string,
    hash: (Transcript, seq<ToolUse>) -> string)

  datatype Config = Config(
    outputs: set<string>, endStrategy: EndStrategy, maxIterations: int, limits: Option<Limits>,
    maxValidationRetries: nat, maxRetries: string -> nat, registered: set<string>, suspendable: set<string>,
    noTools: bool, processor: bool, fingerprint: string, hooked: bool)

  /** One call of the turn hook: how many events had been emitted, whether a candidate stood, and what the hook said. */
  datatype HookCall = HookCall(at: nat, candidate: bool, reply: HookReply)

  /** The mutable part of loopState, with the events and the hook calls that left it. */
  datatype Loop = Loop(
    messages: Transcript, iteration: nat, usage: Usage, retryCounts: map<string, nat>, totalRetries: nat,
    validationRetries: nat, finish: FinishReason, emitted: seq<J.Event>, hooks: seq<HookCall>)

  /** regularTurnState. */
  datatype Regular = Regular(results: map<string, Executed>, continues: bool, suspension: Option<Suspension>, fatal: Option<string>)

  const NoRegular := Regular(map[], false, None, None)

  datatype Outcome = Outcome(results: seq<Executed>, candidate: bool, continues: bool, suspension: Option<Suspension>, fatal: Option<string>)

  // ---------------------------------------------------------------------
  // Emission.

  function Emit(env: Env, ls: Loop, event: J.Event): (Loop, bool) {
    if env.sink(|ls.emitted|, event) then (ls.(emitted := ls.emitted + [event]), true) else (ls, false)
  }

  /** Messages a sequence of events commits. */
  function CommittedAll(events: seq<J.Event>): Transcript {
    if events == [] then []
    else CommittedAll(events[..|events| - 1]) + J.Committed(J.EventEntry(events[|events| - 1], [], None))
  }

  function EmitStarted(env: Env, ls: Loop, calls: seq<ToolUse>): (Loop, bool)
    decreases calls
  {
    if calls == [] then (ls, true)
    else
      var (next, ok) := Emit(env, ls, J.ToolStarted(calls[0]));
      if !ok then (next, false) else EmitStarted(env, next, calls[1..])
  }

  function EmitResults(env: Env, ls: Loop, results: seq<Executed>): (Loop, bool)
    decreases results
  {
    if results == [] then (ls, true)
    else
      var (next, ok) := Emit(env, ls, J.ToolResultCommitted(results[0].result));
      if !ok then (next, false) else EmitResults(env, next, results[1..])
  }

  function ResultMessages(results: seq<Executed>): (messages: Transcript)
    ensures |messages| == |results|
  {
    seq(|results|, i requires 0 <= i < |results| => J.ResultMessage(results[i].result))
  }

  /** commitToolResults: the transcript first, then one event per result. */
  function CommitResults(env: Env, ls: Loop, results: seq<Executed>): (Loop, bool) {
    EmitResults(env, ls.(messages := ls.messages + ResultMessages(results)), results)
  }

  // ---------------------------------------------------------------------
  // Running an admitted batch.

  function CountOf(counts: map<string, nat>, name: string): nat {
    if name in counts then counts[name] else 0
  }

  /** What a call's goroutine sends. */
  function Reply(env: Env, cfg: Config, ls: Loop, call: ToolUse, resumed: bool): Settled {
    SettleReply(call, call.name in cfg.suspendable,
                env.handler(ls.iteration, call, CountOf(ls.retryCounts, call.name) + 1, resumed))
  }

  /** What the scheduler leaves for one call. */
  function Slot(env: Env, cfg: Config, ls: Loop, call: ToolUse, resumed: bool): Settled {
    if env.abandons(ls.iteration, call) then Settled(Abandoned(call), false, None) else Reply(env, cfg, ls, call, resumed)
  }

  function Slots(env: Env, cfg: Config, ls: Loop, calls: seq<ToolUse>, resumed: bool): (slots: seq<Settled>)
    ensures |slots| == |calls|
  {
    seq(|calls|, i requires 0 <= i < |calls| => Slot(env, cfg, ls, calls[i], resumed))
  }

  function FirstDeferral(slots: seq<Settled>): Option<Deferral> {
    if slots == [] then None else if slots[0].deferral.Some? then slots[0].deferral else FirstDeferral(slots[1..])
  }

  predicate AnyFailed(slots: seq<Settled>) {
    exists i :: 0 <= i < |slots| && slots[i].failed
  }

  /** Loop state and regular state while results are taken in. */
  datatype Stage = Stage(ls: Loop, regular: Regular)

  predicate Retries(cfg: Config, counts: map<string, nat>, call: ToolUse, result: Executed) {
    result.cause == RetryCause && CountOf(counts, call.name) < cfg.maxRetries(call.name)
  }

  /** Projects, records and counts one result, granting a retry while the tool's budget lasts. */
  function TakeResult(env: Env, cfg: Config, s: Stage, call: ToolUse, result: Executed): Stage {
    var (projected, broken) := Project(call, result, if cfg.processor then Some(env.process(call, result)) else None);
    var retry := Retries(cfg, s.ls.retryCounts, call, projected);
    var counts := s.ls.retryCounts;
    Stage(
      s.ls.(usage := s.ls.usage.(counters := s.ls.usage.counters.(toolCalls := s.ls.usage.counters.toolCalls + 1)),
            retryCounts := if retry then counts[call.name := CountOf(counts, call.name) + 1] else counts,
            totalRetries := if retry then s.ls.totalRetries + 1 else s.ls.totalRetries),
      s.regular.(results := s.regular.results[call.id := projected],
                 continues := s.regular.continues || retry,
                 fatal := if broken && s.regular.fatal.None? then Some("tool result processor") else s.regular.fatal))
  }

  function TakeResults(env: Env, cfg: Config, s: Stage, calls: seq<ToolUse>, slots: seq<Settled>): Stage
    requires |slots| == |calls|
    decreases calls
  {
    if calls == [] then s
    else TakeResults(env, cfg, TakeResult(env, cfg, s, calls[0], slots[0].result), calls[1..], slots[1..])
  }

  datatype Admitted = Ran(stage: Stage) | Asked(ls: Loop, deferral: Deferral)

  /** executeAdmittedTools and the loop over its results. */
  function Admit(env: Env, cfg: Config, s: Stage, calls: seq<ToolUse>, resumed: bool): Admitted {
    var (started, ok) := EmitStarted(env, s.ls, calls);
    if !ok then Ran(Stage(started, s.regular.(fatal := if s.regular.fatal.None? then Some("event sink") else s.regular.fatal)))
    else
      var slots := Slots(env, cfg, started, calls, resumed);
      var asked := FirstDeferral(slots);
      if asked.Some? then Asked(started, asked.value)
      else
        var taken := TakeResults(env, cfg, Stage(started, s.regular), calls, slots);
        if AnyFailed(slots) && taken.regular.fatal.None? then Ran(taken.(regular := taken.regular.(fatal := Some("execute tool"))))
        else Ran(taken)
  }

  /** A suspendable handler must be the only regular call of its batch. */
  predicate SuspendableAlone(cfg: Config, regular: seq<ToolUse>, executable: seq<ToolUse>) {
    forall i :: 0 <= i < |executable| && executable[i].name in cfg.suspendable ==> |regular| == 1 && |executable| == 1
  }

  predicate WithinToolLimit(cfg: Config, used: Usage, pending: nat) {
    cfg.limits.Some? && cfg.limits.value.maxToolCalls.Some? ==>
      used.counters.toolCalls + pending <= cfg.limits.value.maxToolCalls.value
  }

  /** newToolSuspension: the durable envelope; None when the transcript cannot be inspected. */
  function NewSuspension(env: Env, cfg: Config, ls: Loop, calls: seq<ToolUse>, executable: seq<ToolUse>, deferral: Deferral,
                         handler: bool): Option<Suspension> {
    match Run(Closed, ls.messages)
    case None => None
    case Some(f) =>
      var id := env.suspensionId(ls.iteration);
      Some(Suspension(id, deferral.kind, env.hash(ls.messages, f.calls), ToolPayload(ToolSuspension(
        1, id, handler, calls, CallIds(executable), ls.iteration, ls.usage, ls.retryCounts, ls.totalRetries, ls.validationRetries,
        cfg.endStrategy, cfg.fingerprint, ls.finish, deferral))))
  }

  /** Error results for every call of a batch that did not run. */
  function FailAll(results: map<string, Executed>, calls: seq<ToolUse>, text: string): map<string, Executed>
    decreases calls
  {
    if calls == [] then results
    else FailAll(results[calls[0].id := ErrorResult(calls[0], text, OtherCause)], calls[1..], text)
  }

  function Failing(s: Stage, calls: seq<ToolUse>, text: string): Stage {
    s.(regular := s.regular.(results := FailAll(s.regular.results, calls, text), fatal := Some(text)))
  }

  function RegularCalls(cfg: Config, calls: seq<ToolUse>): seq<ToolUse> {
    if calls == [] then []
    else (if calls[0].name in cfg.outputs then [] else [calls[0]]) + RegularCalls(cfg, calls[1..])
  }

  /** Dispositions of an admitted batch: returned results, continuation requests, and the calls left to execute. */
  function Returned(s: Regular, calls: seq<ToolUse>, dispositions: seq<Disposition>): Regular
    requires |calls| == |dispositions|
    decreases calls
  {
    if calls == [] then s
    else
      var d := dispositions[0];
      var next := s.(continues := s.continues || d.continues,
                     results := if d.kind == DispositionReturn && d.result.Some? then s.results[calls[0].id := d.result.value] else s.results);
      Returned(next, calls[1..], dispositions[1..])
  }

  function Executable(calls: seq<ToolUse>, dispositions: seq<Disposition>): seq<ToolUse>
    requires |calls| == |dispositions|
    decreases calls
  {
    if calls == [] then []
    else (if dispositions[0].kind == DispositionExecute then [calls[0]] else []) + Executable(calls[1..], dispositions[1..])
  }

  /** Runs the calls the gate admitted, on top of what it returned. */
  function RunAdmitted(env: Env, cfg: Config, s: Stage, calls: seq<ToolUse>, regular: seq<ToolUse>, executable: seq<ToolUse>): Stage {
    if executable == [] then s
    else if cfg.noTools then Failing(s, executable, "model requested tool calls but no tools are registered")
    else if !WithinToolLimit(cfg, s.ls.usage, |executable|) then Failing(s, executable, "usage limit exceeded: tool_calls")
    else if !SuspendableAlone(cfg, regular, executable) then Failing(s, executable, "suspendable handler must be alone")
    else
      match Admit(env, cfg, s, executable, false)
      case Ran(stage) => stage
      case Asked(ls, deferral) =>
        match NewSuspension(env, cfg, ls, calls, executable, deferral, true)
        case None => Failing(s.(ls := ls), executable, "Unable to persist tool suspension.")
        case Some(suspension) => Stage(ls, s.regular.(suspension := Some(suspension)))
  }

  /** executeRegularTurn. */
  function ExecuteRegular(env: Env, cfg: Config, ls: Loop, calls: seq<ToolUse>): Stage {
    var regular := RegularCalls(cfg, calls);
    if regular == [] then Stage(ls, NoRegular)
    else
      var (planned, ok) := Emit(env, ls, J.ToolBatchPlanned(regular));
      if !ok then Failing(Stage(planned, NoRegular), regular, "Tool batch planning failed.")
      else
        match env.gate(planned.iteration, regular)
        case GateFailed(text) => Failing(Stage(planned, NoRegular), regular, "Tool batch denied because the tool gate failed: " + text)
        case Decided(decision) =>
          if !Acceptable(regular, decision) then
            Failing(Stage(planned, NoRegular), regular, "Tool batch denied because the tool gate returned an invalid decision.")
          else if Suspends(decision) then
            match NewSuspension(env, cfg, planned, calls, regular, decision.deferral.value, false)
            case None => Failing(Stage(planned, NoRegular), regular, "Unable to persist tool suspension.")
            case Some(suspension) => Stage(planned, NoRegular.(suspension := Some(suspension)))
          else
            RunAdmitted(env, cfg, Stage(planned, Returned(NoRegular, regular, decision.calls)), calls, regular,
                        Executable(regular, decision.calls))
  }

  // ---------------------------------------------------------------------
  // Completing the turn.

  /** Index of the first output tool call, or the number of calls. */
  function OutputIndex(cfg: Config, calls: seq<ToolUse>): (i: nat)
    ensures i <= |calls| && (i < |calls| ==> calls[i].name in cfg.outputs)
  {
    if calls == [] then 0 else if calls[0].name in cfg.outputs then 0 else 1 + OutputIndex(cfg, calls[1..])
  }

  /** What a call's slot holds before the output candidate is judged. */
  function TurnResult(cfg: Config, calls: seq<ToolUse>, i: nat, regular: Regular): Executed
    requires i < |calls|
  {
    var call := calls[i];
    if call.name in cfg.outputs then
      ErrorResult(call, "Skipped because the first output tool is the completion candidate.", OtherCause)
    else if OutputIndex(cfg, calls) < |calls| && cfg.endStrategy == Early then
      ErrorResult(call, "Skipped because early output ended the tool batch.", OtherCause)
    else if call.id in regular.results then regular.results[call.id]
    else ErrorResult(call, "Tool execution did not produce a paired result.", OtherCause)
  }

  function TurnResults(cfg: Config, calls: seq<ToolUse>, regular: Regular): (results: seq<Executed>)
    ensures |results| == |calls|
  {
    seq(|calls|, i requires 0 <= i < |calls| => TurnResult(cfg, calls, i, regular))
  }

  /** The judged candidate: state, its slot's text and error flag, and the flags of the outcome. */
  datatype Judged = Judged(ls: Loop, verdict: Option<Executed>, candidate: bool, continues: bool, fatal: Option<string>)

  function FeedbackMessage(text: string): Message {
    NewTextMessage(RoleUser, "Output validation error: " + text + "\nPlease try again.")
  }

  /** Judges the completion candidate: `out` is the output tool call, None for plain text. */
  function Judge(env: Env, cfg: Config, ls: Loop, assistant: Message, out: Option<ToolUse>): Judged {
    match env.evaluate(ls.iteration, assistant)
    case Some(text) =>
      var counted := ls.(validationRetries := ls.validationRetries + 1);
      var exhausted := if counted.validationRetries > cfg.maxValidationRetries then Some("output validation failed") else None;
      if out.Some? then
        Judged(counted, Some(ErrorResult(out.value, "Output validation failed: " + text, OtherCause)), false, true, exhausted)
      else
        var fed := counted.(messages := counted.messages + [FeedbackMessage(text)]);
        var (next, ok) := Emit(env, fed, J.MessagesInjected([FeedbackMessage(text)]));
        Judged(next, None, false, true, if exhausted.Some? then exhausted else if ok then None else Some("event sink"))
    case None =>
      var (next, ok) := Emit(env, ls, J.OutputValidated);
      Judged(next,
             if out.Some? then Some(Executed(ToolResult(out.value.id, out.value.name, "Output accepted.", false), NoCause)) else None,
             true, false, if ok then None else Some("event sink"))
  }

  function JudgeTurn(env: Env, cfg: Config, ls: Loop, assistant: Message, calls: seq<ToolUse>, regular: Regular): Judged {
    var index := OutputIndex(cfg, calls);
    var out := if index < |calls| then Some(calls[index]) else None;
    if regular.fatal.Some? then
      Judged(ls, if out.Some? then Some(ErrorResult(out.value, "Output discarded because tool execution failed.", OtherCause)) else None,
             false, true, regular.fatal)
    else if (calls == [] || out.Some?) && !regular.continues then Judge(env, cfg, ls, assistant, out)
    else if out.Some? then
      Judged(ls, Some(ErrorResult(out.value, "Output discarded because another tool requires continuation.", OtherCause)),
             false, true, None)
    else Judged(ls, None, false, false, None)
  }

  function WithVerdict(results: seq<Executed>, index: nat, verdict: Option<Executed>): seq<Executed> {
    if verdict.Some? && index < |results| then results[index := verdict.value] else results
  }

  datatype Completed = Completed(ls: Loop, outcome: Outcome)

  /** completeAssistantTurn after the regular stage. */
  function CompleteWith(env: Env, cfg: Config, ls: Loop, assistant: Message, regular: Regular): Completed {
    var calls := GetToolUses(assistant);
    if regular.suspension.Some? then Completed(ls, Outcome([], false, false, regular.suspension, None))
    else
      var judged := JudgeTurn(env, cfg, ls, assistant, calls, regular);
      var results := WithVerdict(TurnResults(cfg, calls, regular), OutputIndex(cfg, calls), judged.verdict);
      var (committed, ok) := CommitResults(env, judged.ls, results);
      Completed(committed, Outcome(results, judged.candidate, judged.continues || regular.continues, None,
        if judged.fatal.Some? then judged.fatal else if ok then None else Some("event sink")))
  }

  function RegularStage(env: Env, cfg: Config, ls: Loop, calls: seq<ToolUse>): Stage {
    if OutputIndex(cfg, calls) == |calls| || cfg.endStrategy != Early then ExecuteRegular(env, cfg, ls, calls)
    else Stage(ls, NoRegular)
  }

  /** completeAssistantTurn; `resumed` replaces the regular stage. */
  function CompleteTurn(env: Env, cfg: Config, ls: Loop, assistant: Message, resumed: Option<Regular>): Completed {
    match resumed
    case Some(regular) => CompleteWith(env, cfg, ls, assistant, regular)
    case None =>
      var stage := RegularStage(env, cfg, ls, GetToolUses(assistant));
      CompleteWith(env, cfg, stage.ls, assistant, stage.regular)
  }
}
