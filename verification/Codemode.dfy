/** A checkpointed program of nested tool calls, bounded in steps and output (harness/codemode/handler.go, planner.go). */
module Codemode {
  import opened Messages
  import opened Suspensions
  import opened ToolControl
  import opened NestedIds
  import StableOrder

  datatype CodeLimits = CodeLimits(maxSteps: nat, maxCallsPerStep: nat, maxCheckpoint: nat, maxValue: nat, maxStdout: nat)

  /** One move of the executor: finished, or calls behind a checkpoint. */
  datatype Step = Step(checkpoint: string, calls: seq<ToolUse>, output: Option<string>, stdout: string, done: bool)

  datatype CallResult = CallResult(id: string, name: string, content: string, isError: bool)

  datatype Program = Program(version: int, outer: string, step: int, checkpoint: string, calls: seq<ToolUse>,
                             dispositions: seq<Disposition>, stdout: string)

  datatype Resolution = Resolution(callId: string, action: ResumeAction, override: Option<string>, result: Option<ToolResult>)

  /** Executor, gate, tools, result processor and operation log, as functions of what they are asked. */
  datatype World = World(
    resume: (nat, string, seq<CallResult>) -> Option<Step>,
    gate: (nat, seq<ToolUse>) -> GateOutcome,
    execute: ToolUse -> Executed,
    project: (ToolUse, Executed) -> Option<Executed>,
    record: (string, string) -> bool,
    registered: string -> bool,
    storable: Program -> bool)

  // ---------------------------------------------------------------------
  // What a step and a program must look like.

  predicate Blank(text: string) {
    forall i :: 0 <= i < |text| ==> StableOrder.IsSpace(text[i])
  }

  predicate IdentifierChar(c: char) {
    'a' <= c <= 'z' || 'A' <= c <= 'Z' || c == '_' || '0' <= c <= '9'
  }

  /** ^[A-Za-z_][A-Za-z0-9_]*$ */
  predicate Identifier(name: string) {
    name != "" && !('0' <= name[0] <= '9') && forall i :: 0 <= i < |name| ==> IdentifierChar(name[i])
  }

  predicate ValidCalls(world: World, lim: CodeLimits, calls: seq<ToolUse>) {
    && (forall i :: 0 <= i < |calls| ==>
          !Blank(calls[i].id) && Identifier(calls[i].name) && world.registered(calls[i].name) && |calls[i].input| <= lim.maxValue)
    && (forall i, j :: 0 <= i < j < |calls| ==> calls[i].id != calls[j].id)
  }

  /** validateStep. */
  predicate ValidStep(world: World, lim: CodeLimits, step: Step) {
    && (step.done <==> step.calls == []) && |step.stdout| <= lim.maxStdout
    && if step.done then step.checkpoint == "" && (step.output.Some? ==> |step.output.value| <= lim.maxValue)
       else
         && step.output.None? && step.checkpoint != "" && |step.checkpoint| <= lim.maxCheckpoint
         && |step.calls| <= lim.maxCallsPerStep && ValidCalls(world, lim, step.calls)
  }

  predicate HasSuspension(dispositions: seq<Disposition>) {
    exists i :: 0 <= i < |dispositions| && dispositions[i].kind == DispositionSuspend
  }

  /** validateProgram. */
  predicate ValidProgram(world: World, lim: CodeLimits, p: Program, outer: string) {
    && p.version == 1 && p.outer == outer && 0 <= p.step < lim.maxSteps
    && p.calls != [] && |p.calls| == |p.dispositions| && p.checkpoint != "" && |p.checkpoint| <= lim.maxCheckpoint
    && |p.stdout| <= lim.maxStdout && |p.calls| <= lim.maxCallsPerStep && ValidCalls(world, lim, p.calls)
    && HasSuspension(p.dispositions)
  }

  /** validateDecision: the root driver's rule, and returned results that fit. */
  predicate Decides(lim: CodeLimits, calls: seq<ToolUse>, decision: BatchDecision) {
    && Acceptable(calls, decision)
    && forall i :: 0 <= i < |calls| && decision.calls[i].kind == DispositionReturn && decision.calls[i].result.Some? ==>
         |decision.calls[i].result.value.result.content| <= lim.maxValue
  }

  // ---------------------------------------------------------------------
  // One batch.

  function HostUse(p: Program, call: ToolUse): ToolUse
    requires p.step >= 0
  {
    call.(id := NestedCallId(p.outer, p.step, call.id))
  }

  /** What a call of the batch leaves: the call as run, the result under its host identity, and whether a tool was executed. */
  datatype Chosen = Refused | Chosen(call: ToolUse, result: Executed, executed: bool)

  function Run(world: World, p: Program, call: ToolUse): Chosen
    requires p.step >= 0
  {
    if !world.record(CallOperationId(p.outer, p.step, call.id), "started") then Refused
    else Chosen(call, world.execute(HostUse(p, call)), true)
  }

  /** fromWireResult and reidentifyResult. */
  function Returned(p: Program, call: ToolUse, result: Option<ToolResult>): Chosen
    requires p.step >= 0
  {
    if result.None? || result.value.toolUseId == "" || result.value.name == "" then Refused
    else if result.value.toolUseId != call.id || result.value.name != call.name then Refused
    else Chosen(call, Executed(result.value.(toolUseId := HostUse(p, call).id), NoCause), false)
  }

  function Choose(world: World, p: Program, call: ToolUse, d: Disposition, left: map<string, Resolution>): Chosen
    requires p.step >= 0
  {
    match d.kind
    case DispositionExecute => Run(world, p, call)
    case DispositionReturn => Returned(p, call, match d.result case None => None case Some(e) => Some(e.result))
    case DispositionSuspend =>
      if call.id !in left then Refused
      else
        var r := left[call.id];
        (match r.action
         case ResumeExecute => Run(world, p, if r.override.Some? then call.(input := r.override.value) else call)
         case ResumeReturn => Returned(p, call, r.result)
         case ResumeInvalid => Refused)
    case DispositionInvalid => Refused
  }

  /** Projection, size and record of one result. */
  function Report(world: World, lim: CodeLimits, p: Program, chosen: Chosen): Option<CallResult>
    requires p.step >= 0 && chosen.Chosen?
  {
    var host := HostUse(p, chosen.call);
    match world.project(host, chosen.result)
    case None => None
    case Some(projected) =>
      if !Identified(host, projected) || |projected.result.content| > lim.maxValue
         || !world.record(CallOperationId(p.outer, p.step, chosen.call.id), "result") then None
      else Some(CallResult(chosen.call.id, chosen.call.name, projected.result.content, projected.result.isError))
  }

  datatype Mark = MarkStarted | MarkResult

  /** One entry of the operation log about a call. */
  datatype Record = Record(id: string, mark: Mark)

  /**
   * `executed` lists the host calls of tools that ran, in order; `left` the resolutions nobody asked for yet; `records` what was entered into
   * the operation log.
   */
  datatype Batch = Batch(ok: bool, results: seq<CallResult>, executed: seq<ToolUse>, left: map<string, Resolution>, records: seq<Record>)

  /** The records of one call: its start, if it ran, and its result, if there is one. */
  function RecordsOf(p: Program, chosen: Chosen, reported: bool): seq<Record>
    requires p.step >= 0 && chosen.Chosen?
  {
    var id := CallOperationId(p.outer, p.step, chosen.call.id);
    (if chosen.executed then [Record(id, MarkStarted)] else []) + (if reported then [Record(id, MarkResult)] else [])
  }

  /** The first `n` calls of a batch; it stops at the first failure. */
  function RunCalls(world: World, lim: CodeLimits, p: Program, resolved: map<string, Resolution>, n: nat): Batch
    requires p.step >= 0 && n <= |p.calls| == |p.dispositions|
    decreases n
  {
    if n == 0 then Batch(true, [], [], resolved, [])
    else
      var b := RunCalls(world, lim, p, resolved, n - 1);
      if !b.ok then b else NextCall(world, lim, p, p.calls[n - 1], p.dispositions[n - 1], b)
  }

  function NextCall(world: World, lim: CodeLimits, p: Program, call: ToolUse, d: Disposition, b: Batch): Batch
    requires p.step >= 0
  {
    var chosen := Choose(world, p, call, d, b.left);
    if chosen.Refused? then b.(ok := false, left := if d.kind == DispositionSuspend then b.left - {call.id} else b.left)
    else
      var after := b.(executed := if chosen.executed then b.executed + [HostUse(p, chosen.call)] else b.executed,
                      left := if d.kind == DispositionSuspend then b.left - {call.id} else b.left);
      match Report(world, lim, p, chosen)
      case None => after.(ok := false, records := b.records + RecordsOf(p, chosen, false))
      case Some(result) => after.(results := b.results + [result], records := b.records + RecordsOf(p, chosen, true))
  }

  /** Resolutions by call ID; None when one is empty or given twice. */
  function ById(resolutions: seq<Resolution>): Option<map<string, Resolution>> {
    if resolutions == [] then Some(map[])
    else
      match ById(resolutions[..|resolutions| - 1])
      case None => None
      case Some(before) =>
        var last := resolutions[|resolutions| - 1];
        if last.callId == "" || last.callId in before then None else Some(before[last.callId := last])
  }

  /** completeBatch: every call in order, and no resolution left over. */
  function Complete(world: World, lim: CodeLimits, p: Program, resolutions: seq<Resolution>): Batch
    requires p.step >= 0 && |p.calls| == |p.dispositions|
  {
    match ById(resolutions)
    case None => Batch(false, [], [], map[], [])
    case Some(resolved) =>
      var b := RunCalls(world, lim, p, resolved, |p.calls|);
      if b.ok && b.left == map[] then b else b.(ok := false)
  }

  // ---------------------------------------------------------------------
  // The loop.

  datatype Outcome = Failure | Finished(output: Option<string>, stdout: string) | Deferred(program: Program)

  /** How the handler ended, how often it resumed the executor, and the host calls it ran. */
  datatype Trace = Trace(outcome: Outcome, resumes: nat, executed: seq<ToolUse>)

  const FailedAtOnce := Trace(Failure, 0, [])

  function Planned(outer: string, n: nat, stdout: string, step: Step): Program {
    Program(1, outer, n, step.checkpoint, step.calls, [], stdout)
  }

  /** What the gate makes of a planned program: None refuses it. */
  function Decide(world: World, lim: CodeLimits, p: Program): Option<Program>
    requires p.step >= 0
  {
    if !world.storable(p) || !world.record(ProgramOperationId(p.outer, p.step), "planned") then None
    else
      match world.gate(p.step, p.calls)
      case GateFailed(_) => None
      case Decided(decision) => if Decides(lim, p.calls, decision) then Some(p.(dispositions := decision.calls)) else None
  }

  /** A suspended program is recorded and stored, or the handler fails. */
  function Suspend(world: World, p: Program): Outcome
    requires p.step >= 0
  {
    if world.storable(p) && world.record(ProgramOperationId(p.outer, p.step), "suspended") then Deferred(p) else Failure
  }

  /** drive: `n` counts the executor's steps since the program started. */
  function Drive(world: World, lim: CodeLimits, outer: string, n: nat, stdout: string, step: Step): Trace
    decreases if n <= lim.maxSteps then lim.maxSteps - n else 0
  {
    if !ValidStep(world, lim, step) || |stdout| + |step.stdout| > lim.maxStdout then FailedAtOnce
    else
      var printed := stdout + step.stdout;
      if step.done then
        if world.record(ProgramOperationId(outer, n), "completed") then Trace(Finished(step.output, printed), 0, []) else FailedAtOnce
      else if n >= lim.maxSteps then FailedAtOnce
      else
        match Decide(world, lim, Planned(outer, n, printed, step))
        case None => FailedAtOnce
        case Some(p) =>
          if HasSuspension(p.dispositions) then Trace(Suspend(world, p), 0, [])
          else
            var b := Complete(world, lim, p, []);
            if !b.ok then Trace(Failure, 0, b.executed)
            else
              match world.resume(n, p.checkpoint, b.results)
              case None => Trace(Failure, 1, b.executed)
              case Some(next) =>
                var rest := Drive(world, lim, outer, n + 1, printed, next);
                Trace(rest.outcome, rest.resumes + 1, b.executed + rest.executed)
  }

  /** resume: the suspended batch first, then the loop from the next step. */
  function Resume(world: World, lim: CodeLimits, outer: string, p: Program, resolutions: seq<Resolution>): Trace {
    if !ValidProgram(world, lim, p, outer) then FailedAtOnce
    else
      var b := Complete(world, lim, p, resolutions);
      if !b.ok then Trace(Failure, 0, b.executed)
      else
        match world.resume(p.step, p.checkpoint, b.results)
        case None => Trace(Failure, 1, b.executed)
        case Some(next) =>
          var rest := Drive(world, lim, outer, p.step + 1, p.stdout, next);
          Trace(rest.outcome, rest.resumes + 1, b.executed + rest.executed)
  }

  /** All traces of one program: its start, and each resumption of what the last one deferred. */
  function Resumptions(world: World, lim: CodeLimits, outer: string, t: Trace, answers: seq<seq<Resolution>>): seq<Trace>
    decreases answers
  {
    if answers == [] || !t.outcome.Deferred? then []
    else
      var next := Resume(world, lim, outer, t.outcome.program, answers[0]);
      [next] + Resumptions(world, lim, outer, next, answers[1..])
  }

  function TotalResumes(traces: seq<Trace>): nat {
    if traces == [] then 0 else traces[0].resumes + TotalResumes(traces[1..])
  }

  function AllExecuted(traces: seq<Trace>): seq<ToolUse> {
    if traces == [] then [] else traces[0].executed + AllExecuted(traces[1..])
  }
}
