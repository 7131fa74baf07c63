/** The driver as it runs: one mutable loop state, updated in place, refining the turn and drive specifications. */
module Drivers {
  import opened Messages
  import opened Pairing
  import opened Usages
  import opened Suspensions
  import opened ToolControl
  import Scheduler
  import opened ResumePlan
  import opened Turns
  import opened Resuming
  import opened TurnLaws
  import opened Drives
  import opened DriveLaws
  import J = Journals

  class LoopState {
    const env: Env
    const cfg: Config

    var messages: Transcript
    var iteration: nat
    var totalUsage: Usage
    var retryCounts: map<string, nat>
    var totalRetries: nat
    var validationRetries: nat
    var lastFinishReason: FinishReason
    var emitted: seq<J.Event>
    /** Every call of the turn hook, with its answer. */
    var hooks: seq<HookCall>
    /** Every model request made through this state. */
    ghost var requests: seq<Request>

    /** prepareLoopWithHistory. */
    constructor (env: Env, cfg: Config, system: string, history: Transcript, prompt: Option<Message>)
      ensures this.env == env && this.cfg == cfg
      ensures Value() == Prepared(system, history, prompt) && requests == []
    {
      this.env, this.cfg := env, cfg;
      var all := history;
      if !HasSystem(history) && system != "" {
        all := [NewTextMessage(RoleSystem, system)] + all;
      }
      if prompt.Some? {
        all := all + [prompt.value];
      }
      messages, iteration, totalUsage, retryCounts := all, 0, ZeroUsage, map[];
      totalRetries, validationRetries, lastFinishReason, emitted, hooks, requests := 0, 0, FinishOther(""), [], [], [];
      assert all == OptionalMessage(Inserted(system, history)) + history + OptionalMessage(prompt);
    }

    function Value(): Loop
      reads this
    {
      Loop(messages, iteration, totalUsage, retryCounts, totalRetries, validationRetries, lastFinishReason, emitted, hooks)
    }

    // -------------------------------------------------------------------
    // Events.

    method Emit(event: J.Event) returns (ok: bool)
      modifies `emitted
      ensures (Value(), ok) == Turns.Emit(env, old(Value()), event)
    {
      ok := env.sink(|emitted|, event);
      if ok {
        emitted := emitted + [event];
      }
    }

    method EmitToolStarts(calls: seq<ToolUse>) returns (ok: bool)
      modifies `emitted
      ensures (Value(), ok) == EmitStarted(env, old(Value()), calls)
    {
      ok := true;
      for i := 0 to |calls|
        invariant ok && EmitStarted(env, old(Value()), calls) == EmitStarted(env, Value(), calls[i..])
        invariant messages == old(messages)
      {
        assert calls[i..][0] == calls[i] && calls[i..][1..] == calls[i + 1..];
        ok := Emit(J.ToolStarted(calls[i]));
        if !ok {
          return;
        }
      }
      assert calls[|calls|..] == [];
    }

    /** commitToolResults: the transcript first, then one event per result. */
    method CommitToolResults(results: seq<Executed>) returns (ok: bool)
      modifies `messages, `emitted
      ensures (Value(), ok) == CommitResults(env, old(Value()), results)
    {
      ghost var before := Value();
      for i := 0 to |results|
        invariant Value() == before.(messages := before.messages + ResultMessages(results)[..i])
      {
        messages := messages + [J.ResultMessage(results[i].result)];
        assert ResultMessages(results)[..i + 1] == ResultMessages(results)[..i] + [J.ResultMessage(results[i].result)];
      }
      assert ResultMessages(results)[..|results|] == ResultMessages(results);
      ghost var appended := Value();
      ok := true;
      for i := 0 to |results|
        invariant ok && EmitResults(env, appended, results) == EmitResults(env, Value(), results[i..])
        invariant messages == appended.messages
      {
        assert results[i..][0] == results[i] && results[i..][1..] == results[i + 1..];
        ok := Emit(J.ToolResultCommitted(results[i].result));
        if !ok {
          return;
        }
      }
      assert results[|results|..] == [];
    }

    // -------------------------------------------------------------------
    // Running an admitted batch.

    /** applyRetryState. */
    method ApplyRetryState(call: ToolUse, result: Executed) returns (retry: bool)
      modifies `retryCounts, `totalRetries
      ensures retry == Retries(cfg, old(retryCounts), call, result)
      ensures retryCounts == if retry then old(retryCounts)[call.name := CountOf(old(retryCounts), call.name) + 1] else old(retryCounts)
      ensures totalRetries == old(totalRetries) + if retry then 1 else 0
    {
      retry := false;
      if result.cause != RetryCause {
        return;
      }
      if CountOf(retryCounts, call.name) >= cfg.maxRetries(call.name) {
        return;
      }
      retryCounts := retryCounts[call.name := CountOf(retryCounts, call.name) + 1];
      totalRetries := totalRetries + 1;
      retry := true;
    }

    method TakeToolResult(state: Regular, call: ToolUse, result: Executed) returns (next: Regular)
      modifies `retryCounts, `totalRetries, `totalUsage
      ensures Stage(Value(), next) == TakeResult(env, cfg, Stage(old(Value()), state), call, result)
    {
      hide Scheduler.Project, Retries, CountOf;
      var (projected, broken) := Scheduler.Project(call, result, if cfg.processor then Some(env.process(call, result)) else None);
      next := state.(results := state.results[call.id := projected]);
      if broken && next.fatal.None? {
        next := next.(fatal := Some("tool result processor"));
      }
      var retry := ApplyRetryState(call, projected);
      if retry {
        next := next.(continues := true);
      }
      totalUsage := totalUsage.(counters := totalUsage.counters.(toolCalls := totalUsage.counters.toolCalls + 1));
    }

    method TakeToolResults(state: Regular, calls: seq<ToolUse>, slots: seq<Scheduler.Settled>) returns (next: Regular)
      requires |slots| == |calls|
      modifies `retryCounts, `totalRetries, `totalUsage
      ensures Stage(Value(), next) == TakeResults(env, cfg, Stage(old(Value()), state), calls, slots)
    {
      hide TakeResult;
      next := state;
      for i := 0 to |calls|
        invariant TakeResults(env, cfg, Stage(old(Value()), state), calls, slots)
               == TakeResults(env, cfg, Stage(Value(), next), calls[i..], slots[i..])
      {
        assert calls[i..][0] == calls[i] && calls[i..][1..] == calls[i + 1..];
        assert slots[i..][0] == slots[i] && slots[i..][1..] == slots[i + 1..];
        next := TakeToolResult(next, calls[i], slots[i].result);
      }
      assert calls[|calls|..] == [];
    }

    /** executeAdmittedTools and the loop over its results; `asked` is a handler's own suspension. */
    method ExecuteAdmitted(state: Regular, calls: seq<ToolUse>, resumed: bool) returns (next: Regular, asked: Option<Deferral>)
      modifies `retryCounts, `totalRetries, `totalUsage, `emitted
      ensures match Admit(env, cfg, Stage(old(Value()), state), calls, resumed)
        case Ran(stage) => asked.None? && stage == Stage(Value(), next)
        case Asked(ls, deferral) => asked == Some(deferral) && ls == Value()
    {
      hide EmitStarted, Slots, TakeResults, FirstDeferral, AnyFailed;
      next, asked := state, None;
      var ok := EmitToolStarts(calls);
      if !ok {
        if next.fatal.None? {
          next := next.(fatal := Some("event sink"));
        }
        return;
      }
      var slots := Slots(env, cfg, Value(), calls, resumed);
      asked := FirstDeferral(slots);
      if asked.Some? {
        return;
      }
      next := TakeToolResults(state, calls, slots);
      if AnyFailed(slots) && next.fatal.None? {
        next := next.(fatal := Some("execute tool"));
      }
    }

    method FailCalls(state: Regular, calls: seq<ToolUse>, text: string) returns (next: Regular)
      ensures next == Failing(Stage(Value(), state), calls, text).regular
    {
      var results := state.results;
      for i := 0 to |calls|
        invariant FailAll(state.results, calls, text) == FailAll(results, calls[i..], text)
      {
        assert calls[i..][0] == calls[i] && calls[i..][1..] == calls[i + 1..];
        results := results[calls[i].id := ErrorResult(calls[i], text, OtherCause)];
      }
      assert calls[|calls|..] == [];
      next := state.(results := results, fatal := Some(text));
    }

    // -------------------------------------------------------------------
    // The regular stage.

    method SelectRegular(calls: seq<ToolUse>) returns (regular: seq<ToolUse>)
      ensures regular == RegularCalls(cfg, calls)
    {
      hide RegularCalls;
      regular := [];
      for i := 0 to |calls|
        invariant RegularCalls(cfg, calls) == regular + RegularCalls(cfg, calls[i..])
      {
        RegularStep(cfg, calls, i);
        if calls[i].name !in cfg.outputs {
          regular := regular + [calls[i]];
        }
      }
      RegularEnd(cfg, calls[|calls|..]);
    }

    /** Takes the gate's dispositions in: returned results, continuation requests, and the calls left to execute. */
    method TakeDispositions(calls: seq<ToolUse>, dispositions: seq<Disposition>) returns (state: Regular, executable: seq<ToolUse>)
      requires |calls| == |dispositions|
      ensures state == Returned(NoRegular, calls, dispositions) && executable == Executable(calls, dispositions)
    {
      hide Returned, Executable;
      state, executable := NoRegular, [];
      for i := 0 to |calls|
        invariant Returned(NoRegular, calls, dispositions) == Returned(state, calls[i..], dispositions[i..])
        invariant Executable(calls, dispositions) == executable + Executable(calls[i..], dispositions[i..])
      {
        var call, d := calls[i], dispositions[i];
        DispositionStep(state, calls, dispositions, i);
        state := state.(continues := state.continues || d.continues);
        if d.kind == DispositionReturn && d.result.Some? {
          state := state.(results := state.results[call.id := d.result.value]);
        }
        if d.kind == DispositionExecute {
          executable := executable + [call];
        }
      }
      DispositionsEnd(state, calls[|calls|..], dispositions[|calls|..]);
    }

    method RunExecutable(state: Regular, calls: seq<ToolUse>, regular: seq<ToolUse>, executable: seq<ToolUse>) returns (next: Regular)
      modifies `retryCounts, `totalRetries, `totalUsage, `emitted
      ensures Stage(Value(), next) == RunAdmitted(env, cfg, Stage(old(Value()), state), calls, regular, executable)
    {
      hide Admit, FailAll, NewSuspension, SuspendableAlone, WithinToolLimit;
      if executable == [] {
        return state;
      }
      if cfg.noTools {
        next := FailCalls(state, executable, "model requested tool calls but no tools are registered");
        return;
      }
      if !WithinToolLimit(cfg, totalUsage, |executable|) {
        next := FailCalls(state, executable, "usage limit exceeded: tool_calls");
        return;
      }
      if !SuspendableAlone(cfg, regular, executable) {
        next := FailCalls(state, executable, "suspendable handler must be alone");
        return;
      }
      var asked;
      next, asked := ExecuteAdmitted(state, executable, false);
      if asked.Some? {
        var suspension := NewSuspension(env, cfg, Value(), calls, executable, asked.value, true);
        if suspension.None? {
          next := FailCalls(state, executable, "Unable to persist tool suspension.");
        } else {
          next := state.(suspension := suspension);
        }
      }
    }

    /** executeRegularTurn. */
    method ExecuteRegularTurn(calls: seq<ToolUse>) returns (state: Regular)
      modifies `retryCounts, `totalRetries, `totalUsage, `emitted
      ensures Stage(Value(), state) == ExecuteRegular(env, cfg, old(Value()), calls)
    {
      hide RunAdmitted, NewSuspension, Returned, Executable, RegularCalls, FailAll, ToolControl.Suspends;
      state := NoRegular;
      var regular := SelectRegular(calls);
      if regular == [] {
        return;
      }
      var ok := Emit(J.ToolBatchPlanned(regular));
      if !ok {
        state := FailCalls(NoRegular, regular, "Tool batch planning failed.");
        return;
      }
      match env.gate(iteration, regular)
      case GateFailed(text) =>
        state := FailCalls(NoRegular, regular, "Tool batch denied because the tool gate failed: " + text);
      case Decided(decision) =>
        if !Acceptable(regular, decision) {
          state := FailCalls(NoRegular, regular, "Tool batch denied because the tool gate returned an invalid decision.");
        } else if ToolControl.Suspends(decision) {
          var suspension := NewSuspension(env, cfg, Value(), calls, regular, decision.deferral.value, false);
          if suspension.None? {
            state := FailCalls(NoRegular, regular, "Unable to persist tool suspension.");
          } else {
            state := NoRegular.(suspension := suspension);
          }
        } else {
          var executable;
          state, executable := TakeDispositions(regular, decision.calls);
          state := RunExecutable(state, calls, regular, executable);
        }
    }

    // -------------------------------------------------------------------
    // Completing the turn.

    method FindOutput(calls: seq<ToolUse>) returns (index: nat)
      ensures index == OutputIndex(cfg, calls)
    {
      index := 0;
      while index < |calls| && calls[index].name !in cfg.outputs
        invariant index <= |calls| && OutputIndex(cfg, calls) == index + OutputIndex(cfg, calls[index..])
      {
        assert calls[index..][0] == calls[index] && calls[index..][1..] == calls[index + 1..];
        index := index + 1;
      }
      assert index < |calls| ==> calls[index..][0] == calls[index];
    }

    /** Fills one slot per call. */
    method FillResults(calls: seq<ToolUse>, output: nat, regular: Regular) returns (results: seq<Executed>)
      requires output == OutputIndex(cfg, calls)
      ensures results == TurnResults(cfg, calls, regular)
    {
      results := [];
      for i := 0 to |calls|
        invariant results == TurnResults(cfg, calls, regular)[..i]
      {
        var call := calls[i];
        var result;
        if call.name in cfg.outputs {
          result := ErrorResult(call, "Skipped because the first output tool is the completion candidate.", OtherCause);
        } else if output < |calls| && cfg.endStrategy == Early {
          result := ErrorResult(call, "Skipped because early output ended the tool batch.", OtherCause);
        } else if call.id in regular.results {
          result := regular.results[call.id];
        } else {
          result := ErrorResult(call, "Tool execution did not produce a paired result.", OtherCause);
        }
        results := results + [result];
      }
      assert TurnResults(cfg, calls, regular)[..|calls|] == TurnResults(cfg, calls, regular);
    }

    /** Judges the completion candidate of the turn. */
    method JudgeCandidate(assistant: Message, out: Option<ToolUse>) returns (verdict: Option<Executed>, candidate: bool, continues: bool, fatal: Option<string>)
      modifies `messages, `validationRetries, `emitted
      ensures Judged(Value(), verdict, candidate, continues, fatal) == Judge(env, cfg, old(Value()), assistant, out)
    {
      verdict, candidate, continues, fatal := None, false, false, None;
      var refused := env.evaluate(iteration, assistant);
      if refused.Some? {
        continues := true;
        validationRetries := validationRetries + 1;
        if out.Some? {
          verdict := Some(ErrorResult(out.value, "Output validation failed: " + refused.value, OtherCause));
        } else {
          var feedback := FeedbackMessage(refused.value);
          messages := messages + [feedback];
          var ok := Emit(J.MessagesInjected([feedback]));
          if !ok {
            fatal := Some("event sink");
          }
        }
        if validationRetries > cfg.maxValidationRetries {
          fatal := Some("output validation failed");
        }
      } else {
        if out.Some? {
          verdict := Some(Executed(ToolResult(out.value.id, out.value.name, "Output accepted.", false), NoCause));
        }
        candidate := true;
        var ok := Emit(J.OutputValidated);
        if !ok {
          fatal := Some("event sink");
        }
      }
    }

    method JudgeResults(assistant: Message, calls: seq<ToolUse>, index: nat, regular: Regular)
      returns (verdict: Option<Executed>, candidate: bool, continues: bool, fatal: Option<string>)
      requires index == OutputIndex(cfg, calls)
      modifies `messages, `validationRetries, `emitted
      ensures Judged(Value(), verdict, candidate, continues, fatal) == JudgeTurn(env, cfg, old(Value()), assistant, calls, regular)
    {
      hide Judge, OutputIndex;
      verdict, candidate, continues, fatal := None, false, false, None;
      var out := if index < |calls| then Some(calls[index]) else None;
      if regular.fatal.Some? {
        fatal, continues := regular.fatal, true;
        if out.Some? {
          verdict := Some(ErrorResult(out.value, "Output discarded because tool execution failed.", OtherCause));
        }
      } else if (|calls| == 0 || out.Some?) && !regular.continues {
        verdict, candidate, continues, fatal := JudgeCandidate(assistant, out);
      } else if out.Some? {
        verdict := Some(ErrorResult(out.value, "Output discarded because another tool requires continuation.", OtherCause));
        continues := true;
      }
    }

    /** completeAssistantTurn. */
    method CompleteAssistantTurn(assistant: Message, resumed: Option<Regular>) returns (outcome: Outcome)
      modifies `messages, `validationRetries, `emitted, `retryCounts, `totalRetries, `totalUsage
      ensures Completed(Value(), outcome) == CompleteTurn(env, cfg, old(Value()), assistant, resumed)
    {
      hide JudgeTurn, ExecuteRegular, TurnResults, OutputIndex, EmitResults, PartUses;
      var calls := GetToolUses(assistant);
      var index := FindOutput(calls);
      var regular := NoRegular;
      if resumed.Some? {
        regular := resumed.value;
      } else if index == |calls| || cfg.endStrategy != Early {
        regular := ExecuteRegularTurn(calls);
      }
      if regular.suspension.Some? {
        return Outcome([], false, false, regular.suspension, None);
      }
      var results := FillResults(calls, index, regular);
      var verdict, candidate, continues, fatal := JudgeResults(assistant, calls, index, regular);
      if verdict.Some? && index < |results| {
        results := results[index := verdict.value];
      }
      var ok := CommitToolResults(results);
      if !ok && fatal.None? {
        fatal := Some("event sink");
      }
      outcome := Outcome(results, candidate, continues || regular.continues, None, fatal);
    }

    // -------------------------------------------------------------------
    // Ending a drive.

    method FailedExecution(error: DriveError) returns (end: Ended)
      modifies `emitted
      ensures end == Failed(env, old(Value()), error) && end.ls == Value()
    {
      if error != SinkFailed {
        var _ := Emit(J.RunFailed);
        var _ := Emit(J.RunEnded);
      }
      end := Ended(Value(), J.ExecutionFailed, None, error);
    }

    method InterruptedExecution() returns (end: Ended)
      modifies `emitted
      ensures end == Interrupted(env, old(Value())) && end.ls == Value()
    {
      var _ := Emit(J.RunInterrupted);
      var _ := Emit(J.RunEnded);
      end := Ended(Value(), J.ExecutionInterrupted, None, ContextCanceled);
    }

    method CompletedExecution() returns (end: Ended)
      modifies `emitted
      ensures end == Completes(env, old(Value())) && end.ls == Value()
    {
      var ok := Emit(J.RunCompleted);
      if ok {
        ok := Emit(J.RunEnded);
      }
      if !ok {
        end := FailedExecution(SinkFailed);
      } else {
        end := Ended(Value(), J.ExecutionCompleted, None, NoDriveError);
      }
    }

    method StoppedExecution() returns (end: Ended)
      modifies `emitted
      ensures end == Stops(env, old(Value())) && end.ls == Value()
    {
      var ok := Emit(J.RunEnded);
      if !ok {
        end := FailedExecution(SinkFailed);
      } else {
        end := Ended(Value(), J.ExecutionStopped, None, NoDriveError);
      }
    }

    method SuspendedExecution(suspension: Suspension) returns (end: Ended)
      modifies `emitted
      ensures end == Drives.Suspends(env, old(Value()), suspension) && end.ls == Value()
    {
      var ok := Emit(J.RunSuspended(suspension));
      if !ok {
        end := FailedExecution(SinkFailed);
      } else {
        end := Ended(Value(), J.ExecutionSuspended, Some(suspension), NoDriveError);
      }
    }

    /** How a method hands a turn's ending back: None is "the loop goes on". */
    predicate Gives(end: Option<Ended>, t: TurnEnd)
      reads this
    {
      match t
      case Over(expected) => end == Some(expected) && expected.ls == Value()
      case Again(next) => end.None? && next == Value()
    }

    method ApplyDecision(outcome: Outcome, action: TurnAction, inject: Transcript) returns (end: Option<Ended>)
      modifies `messages, `emitted
      ensures Gives(end, Decide(env, old(Value()), outcome, action, inject))
    {
      hide Failed, Completes, Stops;
      end := None;
      match action
      case TurnContinue =>
        messages := messages + inject;
        var ok := Emit(J.MessagesInjected(inject));
        if !ok {
          var failed := FailedExecution(SinkFailed);
          end := Some(failed);
        }
      case TurnStop =>
        var stopped;
        if outcome.candidate {
          stopped := CompletedExecution();
        } else {
          stopped := StoppedExecution();
        }
        end := Some(stopped);
      case TurnDefault =>
        if outcome.candidate && !outcome.continues {
          var completed := CompletedExecution();
          end := Some(completed);
        }
      case TurnUnknown =>
        var failed := FailedExecution(DecisionRefused);
        end := Some(failed);
    }

    method ConsultHook(candidate: bool) returns (answer: HookReply)
      modifies `hooks
      ensures answer == HookAnswer(env, cfg, old(Value()), candidate) && Value() == Consulted(env, cfg, old(Value()), candidate)
    {
      if !cfg.hooked {
        return Decision(TurnDefault, []);
      }
      answer := env.hook(iteration, messages, candidate);
      hooks := hooks + [HookCall(|emitted|, candidate, answer)];
    }

    /** finishTurn. */
    method EndOfTurn(outcome: Outcome) returns (end: Option<Ended>)
      modifies `messages, `emitted, `hooks
      ensures Gives(end, FinishTurn(env, cfg, old(Value()), outcome))
    {
      hide Failed, Decide, ValidDecision;
      var ok := Emit(J.TurnEnded(totalUsage));
      var failed;
      if !ok {
        failed := FailedExecution(SinkFailed);
        return Some(failed);
      }
      if outcome.fatal.Some? {
        failed := FailedExecution(TurnFailed(outcome.fatal.value));
        return Some(failed);
      }
      var answer := ConsultHook(outcome.candidate);
      match answer
      case HookError(text) =>
        failed := FailedExecution(TurnHookFailed(text));
        end := Some(failed);
      case Decision(action, inject) =>
        if ValidDecision(action, inject) {
          end := ApplyDecision(outcome, action, inject);
        } else {
          failed := FailedExecution(DecisionRefused);
          end := Some(failed);
        }
    }

    // -------------------------------------------------------------------
    // The loop.

    method CommitAnswer(message: Message) returns (end: Option<Ended>)
      modifies `messages, `validationRetries, `emitted, `retryCounts, `totalRetries, `totalUsage, `hooks
      ensures
        var (committed, ok) := Turns.Emit(env, old(Value()).(messages := old(messages) + [message]), J.AssistantCommitted(message));
        Gives(end, if ok then EndTurn(env, cfg, CompleteTurn(env, cfg, committed, message, None)) else Over(Failed(env, committed, SinkFailed)))
    {
      hide Failed, CompleteTurn, FinishTurn, Drives.Suspends;
      messages := messages + [message];
      var ok := Emit(J.AssistantCommitted(message));
      if !ok {
        var failed := FailedExecution(SinkFailed);
        return Some(failed);
      }
      var outcome := CompleteAssistantTurn(message, None);
      if outcome.suspension.Some? {
        var suspended := SuspendedExecution(outcome.suspension.value);
        return Some(suspended);
      }
      end := EndOfTurn(outcome);
    }

    method TakeModelAnswer(message: Message, usage: Counters, finish: FinishReason) returns (end: Option<Ended>)
      modifies `messages, `validationRetries, `emitted, `retryCounts, `totalRetries, `totalUsage, `lastFinishReason, `hooks
      ensures Gives(end, TakeAnswer(env, cfg, old(Value()), message, usage, finish))
    {
      hide Failed, CompleteTurn, EndTurn, AfterResponse, AddResponse, Gives;
      totalUsage := AddResponse(totalUsage, usage);
      var failed;
      var passed := AfterResponse(cfg.limits, totalUsage.counters);
      if passed.Some? {
        failed := FailedExecution(LimitExceeded(passed.value));
        GivesOver(failed);
        return Some(failed);
      }
      lastFinishReason := finish;
      if finish == FinishError {
        failed := FailedExecution(ProviderFailed("provider error"));
        GivesOver(failed);
        return Some(failed);
      }
      if finish == FinishLength {
        failed := FailedExecution(ProviderFailed("output limit"));
        GivesOver(failed);
        return Some(failed);
      }
      if |message.content| == 0 {
        failed := FailedExecution(ProviderFailed("empty response from provider"));
        GivesOver(failed);
        return Some(failed);
      }
      end := CommitAnswer(message);
    }

    lemma GivesOver(end: Ended)
      requires end.ls == Value()
      ensures Gives(Some(end), Over(end))
    {
    }

    /** One round: guards, request, answer. */
    method OneRound() returns (end: Option<Ended>)
      modifies this
      ensures Gives(end, Round(env, cfg, old(Value())))
      ensures requests == old(requests) + if Asks(env, cfg, old(Value())) then [Request(old(iteration), old(messages))] else []
    {
      hide Failed, Interrupted, TakeAnswer, BeforeRequest, Gives;
      var failed;
      ghost var ls := Value();
      if env.canceled(iteration) {
        failed := InterruptedExecution();
        GivesOver(failed);
        return Some(failed);
      }
      if iteration >= cfg.maxIterations {
        failed := FailedExecution(MaxIterationsReached);
        GivesOver(failed);
        return Some(failed);
      }
      var reached := BeforeRequest(cfg.limits, totalUsage.counters);
      if reached.Some? {
        failed := FailedExecution(LimitExceeded(reached.value));
        GivesOver(failed);
        return Some(failed);
      }
      var ok := Emit(J.TurnStarted);
      if !ok {
        failed := FailedExecution(SinkFailed);
        GivesOver(failed);
        return Some(failed);
      }
      requests := requests + [Request(iteration, messages)];
      match env.respond(iteration, messages)
      case ModelCanceled =>
        failed := InterruptedExecution();
        GivesOver(failed);
        end := Some(failed);
      case ModelFailed(text) =>
        failed := FailedExecution(ProviderFailed(text));
        GivesOver(failed);
        end := Some(failed);
      case Answered(message, usage, finish) =>
        end := TakeModelAnswer(message, usage, finish);
    }

    /** The for-loop of driveLoop. It terminates: every round that goes on is one iteration nearer to the maximum. */
    method RunRounds() returns (end: Ended)
      modifies this
      ensures var d := DriveFrom(env, cfg, old(Value())); end == d.end && end.ls == Value() && requests == old(requests) + d.requests
    {
      hide DriveFrom, Round, Asks;
      ghost var start := Value();
      ghost var asked: seq<Request> := [];
      assert asked + DriveFrom(env, cfg, start).requests == DriveFrom(env, cfg, start).requests;
      while true
        invariant requests == old(requests) + asked
        invariant DriveFrom(env, cfg, start).end == DriveFrom(env, cfg, Value()).end
        invariant DriveFrom(env, cfg, start).requests == asked + DriveFrom(env, cfg, Value()).requests
        decreases if iteration < cfg.maxIterations then cfg.maxIterations - iteration else 0
      {
        ghost var ls := Value();
        RoundIteration(env, cfg, ls);
        DriveRound(env, cfg, ls);
        var over := OneRound();
        ghost var mine := if Asks(env, cfg, ls) then [Request(ls.iteration, ls.messages)] else [];
        assert old(requests) + asked + mine == old(requests) + (asked + mine);
        if over.Some? {
          return over.value;
        }
        iteration := iteration + 1;
        assert asked + (mine + DriveFrom(env, cfg, Value()).requests) == (asked + mine) + DriveFrom(env, cfg, Value()).requests;
        asked := asked + mine;
      }
    }

    method EnterWithTurn(entry: Entry) returns (end: Option<Ended>)
      requires entry.Turn?
      modifies `messages, `validationRetries, `emitted, `retryCounts, `totalRetries, `totalUsage, `hooks
      ensures Gives(end, EnterTurn(env, cfg, old(Value()), entry))
    {
      hide CompleteTurn, FinishTurn, Drives.Suspends;
      var outcome := CompleteAssistantTurn(entry.assistant, entry.regular);
      if outcome.suspension.Some? {
        var suspended := SuspendedExecution(outcome.suspension.value);
        return Some(suspended);
      }
      if entry.prompt.Some? && outcome.fatal.None? {
        messages := messages + [entry.prompt.value];
        var ok := Emit(J.MessagesInjected([entry.prompt.value]));
        outcome := outcome.(continues := true, fatal := if ok then None else Some("event sink"));
      }
      end := EndOfTurn(outcome);
    }

    /** driveLoop. */
    method Run(entry: Entry) returns (end: Ended)
      modifies this
      ensures var d := DriveLoop(env, cfg, old(Value()), entry); end == d.end && end.ls == Value() && requests == old(requests) + d.requests
    {
      hide DriveFrom, EnterTurn, Failed;
      var ok := Emit(J.RunStarted);
      if !ok {
        end := FailedExecution(SinkFailed);
        return;
      }
      if entry.Turn? {
        var over := EnterWithTurn(entry);
        if over.Some? {
          return over.value;
        }
        iteration := iteration + 1;
      }
      end := RunRounds();
    }

    // -------------------------------------------------------------------
    // Resuming.

    /** Sorts the decisions into results and calls to execute; `usable` is false for a refused decision. */
    method SortCalls(executable: seq<ToolUse>, handler: bool, decisions: seq<ToolResumeDecision>) returns (sorted: Option<Sorted>)
      ensures sorted == SortDecisions(cfg, executable, handler, decisions)
    {
      hide DecisionOf, ExecuteUsable;
      var results: map<string, Executed> := map[];
      var toExecute: seq<ToolUse> := [];
      for i := 0 to |executable|
        invariant SortDecisions(cfg, executable[..i], handler, decisions) == Some(Sorted(results, toExecute))
      {
        var call := executable[i];
        assert executable[..i + 1][..i] == executable[..i] && executable[..i + 1][i] == call;
        var decision := DecisionOf(decisions, call.id);
        if decision.None?
           || (decision.value.action == ResumeExecute && !ExecuteUsable(cfg, call, handler, decision.value))
           || (decision.value.action == ResumeReturn && !ReturnUsable(call, decision.value))
           || decision.value.action == ResumeInvalid {
          assert SortDecisions(cfg, executable[..i + 1], handler, decisions).None?;
          OneRefusalRefusesAll(cfg, executable, handler, decisions, i + 1);
          return None;
        }
        if decision.value.action == ResumeExecute {
          toExecute := toExecute + [Overridden(call, decision.value)];
        } else {
          results := results[call.id := decision.value.result.value];
        }
      }
      assert executable[..|executable|] == executable;
      sorted := Some(Sorted(results, toExecute));
    }

    /** resolveSuspendedTools. */
    method ResolveSuspended(tool: ToolSuspension, decisions: seq<ToolResumeDecision>) returns (resolved: Resolved)
      modifies `retryCounts, `totalRetries, `totalUsage, `emitted
      ensures resolved == ResolveTools(env, cfg, old(Value()), tool, decisions)
      ensures resolved.ResolvedAs? ==> resolved.stage.ls == Value()
      ensures resolved.ResolveFailed? && Accepted(old(messages)) ==> Value() == old(Value())
    {
      hide Admit, NewSuspension, SuspendableAlone, WithinToolLimit, SortDecisions, ExecutableCalls, DistinctDecisions;
      var executable := ExecutableCalls(cfg, tool.calls, tool.executableIds);
      if executable.None? || |decisions| != |executable.value| || !DistinctDecisions(decisions) {
        return ResolveFailed(true);
      }
      var sorted := SortCalls(executable.value, tool.handlerSuspension, decisions);
      if sorted.None? {
        return ResolveFailed(true);
      }
      var state := NoRegular.(results := sorted.value.results);
      if sorted.value.toExecute == [] {
        return ResolvedAs(Stage(Value(), state));
      }
      if !WithinToolLimit(cfg, totalUsage, |sorted.value.toExecute|)
         || !SuspendableAlone(cfg, executable.value, sorted.value.toExecute) {
        return ResolveFailed(false);
      }
      var asked;
      AskedPersists(env, cfg, Stage(Value(), state), tool.calls, sorted.value.toExecute, tool.handlerSuspension);
      state, asked := ExecuteAdmitted(state, sorted.value.toExecute, tool.handlerSuspension);
      if asked.Some? {
        var suspension := NewSuspension(env, cfg, Value(), tool.calls, sorted.value.toExecute, asked.value, true);
        if suspension.None? {
          return ResolveFailed(true);
        }
        state := NoRegular.(suspension := suspension);
      }
      resolved := ResolvedAs(Stage(Value(), state));
    }

    method Restore(tool: ToolSuspension)
      requires emitted == [] && hooks == []
      modifies `iteration, `totalUsage, `retryCounts, `totalRetries, `validationRetries, `lastFinishReason
      ensures Value() == Restored(messages, tool)
    {
      totalUsage, retryCounts, totalRetries := tool.usage, tool.retryCounts, tool.totalRetries;
      validationRetries, iteration, lastFinishReason := tool.validationRetries, tool.iteration, tool.lastFinishReason;
    }

    /** Resume, on a state prepared from the history it was given. */
    method Resume(s: Suspension, decisions: seq<ToolResumeDecision>, prompt: Option<Message>) returns (end: Ended)
      requires emitted == [] && hooks == [] && Accepted(messages) && messages != []
      modifies this
      ensures var d := ResumePrepared(env, cfg, old(Value()), s, decisions, prompt);
        end == d.end && end.ls == Value() && requests == old(requests) + d.requests
    {
      hide ResumeGuards, ResolveTools, DriveLoop, Failed;
      if !ResumeGuards(env, cfg, messages, s) {
        end := FailedExecution(SuspensionMismatch);
        return;
      }
      GuardsDecode(env, cfg, messages, s);
      Restore(s.payload.tool);
      ghost var restored := Value();
      var resolved := ResolveSuspended(s.payload.tool, decisions);
      if resolved.ResolveFailed? {
        end := FailedExecution(ResolutionRefused(resolved.validation));
        return;
      }
      end := Run(Turn(messages[|messages| - 1], Some(resolved.stage.regular), prompt));
    }
  }

  /** An abandoned call is one no completion reached before the wait was cut short. */
  predicate Schedules(env: Env, ls: Loop, calls: seq<ToolUse>, ticks: seq<Scheduler.Tick>) {
    && Scheduler.Fair(|calls|, ticks) && Scheduler.Within(|calls|, ticks)
    && forall i :: 0 <= i < |calls| ==>
         (Scheduler.DoneBy(ticks, Scheduler.Cutoff(ticks, false), i) <==> !env.abandons(ls.iteration, calls[i]))
  }

  /** The collecting loop, on any schedule, leaves for each call, and for the batch, what ExecuteAdmitted takes from the slots. */
  method CollectSlots(env: Env, cfg: Config, ls: Loop, calls: seq<ToolUse>, resumed: bool, ticks: seq<Scheduler.Tick>)
      returns (results: seq<Executed>, deferral: Option<Deferral>, failed: bool)
    requires Schedules(env, ls, calls, ticks) && SuspendableAlone(cfg, calls, calls)
    ensures var slots := Slots(env, cfg, ls, calls, resumed);
      && |results| == |slots| && (forall i :: 0 <= i < |slots| ==> results[i] == slots[i].result)
      && deferral == FirstDeferral(slots) && (failed <==> AnyFailed(slots))
  {
    hide Scheduler.Fair, Scheduler.Within, Scheduler.DoneBy, Scheduler.SettleReply, Scheduler.Abandoned, CountOf, FirstDeferral, AnyFailed,
      Scheduler.Collected, Scheduler.Outcome, Scheduler.Tracks;
    var settled := seq(|calls|, i requires 0 <= i < |calls| => Reply(env, cfg, ls, calls[i], resumed));
    ghost var done;
    results, deferral, failed, done := Scheduler.Collect(calls, settled, ticks);
    CollectedAgrees(env, cfg, ls, calls, resumed, ticks, settled, results, deferral, failed, done);
  }

  lemma CollectedAgrees(env: Env, cfg: Config, ls: Loop, calls: seq<ToolUse>, resumed: bool, ticks: seq<Scheduler.Tick>,
                        settled: seq<Scheduler.Settled>, results: seq<Executed>, deferral: Option<Deferral>, failed: bool, done: seq<bool>)
    requires Schedules(env, ls, calls, ticks) && SuspendableAlone(cfg, calls, calls) && |settled| == |calls| == |done|
    requires forall i :: 0 <= i < |calls| ==> settled[i] == Reply(env, cfg, ls, calls[i], resumed)
    requires Scheduler.Tracks(ticks, Scheduler.Cutoff(ticks, false), done)
    requires Scheduler.Outcome(calls, settled, ticks, Scheduler.Cutoff(ticks, false), results)
    requires Scheduler.Collected(settled, results, done, deferral, failed)
    ensures var slots := Slots(env, cfg, ls, calls, resumed);
      && |results| == |slots| && (forall i :: 0 <= i < |slots| ==> results[i] == slots[i].result)
      && deferral == FirstDeferral(slots) && (failed <==> AnyFailed(slots))
  {
    hide Scheduler.Fair, Scheduler.Within, Scheduler.DoneBy, Scheduler.SettleReply, Scheduler.Abandoned, CountOf, FirstDeferral;
    var slots := Slots(env, cfg, ls, calls, resumed);
    forall i | 0 <= i < |calls|
      ensures slots[i] == if done[i] then settled[i] else Scheduler.Settled(Scheduler.Abandoned(calls[i]), false, None)
      ensures slots[i].deferral.Some? ==> |calls| == 1
    {
      OnlySuspendableDefers(calls[i], calls[i].name in cfg.suspendable,
                            env.handler(ls.iteration, calls[i], CountOf(ls.retryCounts, calls[i].name) + 1, resumed));
    }
    if failed {
      var i :| 0 <= i < |settled| && done[i] && settled[i].failed;
      assert slots[i].failed;
    }
    NoneDefers(slots);
    if deferral.Some? {
      assert slots[0].deferral == deferral;
      FirstDefers(slots);
    }
  }

  lemma OnlySuspendableDefers(call: ToolUse, suspendable: bool, reply: Scheduler.HandlerReply)
    ensures Scheduler.SettleReply(call, suspendable, reply).deferral.Some? ==> suspendable
  {
  }

  lemma {:induction false} NoneDefers(slots: seq<Scheduler.Settled>)
    ensures (forall i :: 0 <= i < |slots| ==> slots[i].deferral.None?) ==> FirstDeferral(slots) == None
    decreases slots
  {
    if slots != [] {
      NoneDefers(slots[1..]);
    }
  }

  lemma FirstDefers(slots: seq<Scheduler.Settled>)
    requires slots != []
    ensures slots[0].deferral.Some? ==> FirstDeferral(slots) == slots[0].deferral
  {
  }

  /** One round of the loop, unrolled. */
  lemma DriveRound(env: Env, cfg: Config, ls: Loop)
    ensures var mine := if Asks(env, cfg, ls) then [Request(ls.iteration, ls.messages)] else [];
      match Round(env, cfg, ls)
      case Over(end) => DriveFrom(env, cfg, ls) == Drive(end, mine)
      case Again(next) =>
        var rest := DriveFrom(env, cfg, next.(iteration := next.iteration + 1));
        DriveFrom(env, cfg, ls) == rest.(requests := mine + rest.requests)
  {
    hide Round, Asks;
  }

  lemma RegularStep(cfg: Config, calls: seq<ToolUse>, i: nat)
    requires i < |calls|
    ensures RegularCalls(cfg, calls[i..]) == (if calls[i].name in cfg.outputs then [] else [calls[i]]) + RegularCalls(cfg, calls[i + 1..])
  {
    assert calls[i..][0] == calls[i] && calls[i..][1..] == calls[i + 1..];
  }

  lemma RegularEnd(cfg: Config, calls: seq<ToolUse>)
    requires calls == []
    ensures RegularCalls(cfg, calls) == []
  {
  }

  lemma DispositionStep(s: Regular, calls: seq<ToolUse>, dispositions: seq<Disposition>, i: nat)
    requires |calls| == |dispositions| && i < |calls|
    ensures var d := dispositions[i];
      var next := s.(continues := s.continues || d.continues,
                     results := if d.kind == DispositionReturn && d.result.Some? then s.results[calls[i].id := d.result.value] else s.results);
      Returned(s, calls[i..], dispositions[i..]) == Returned(next, calls[i + 1..], dispositions[i + 1..])
    ensures Executable(calls[i..], dispositions[i..])
         == (if dispositions[i].kind == DispositionExecute then [calls[i]] else []) + Executable(calls[i + 1..], dispositions[i + 1..])
  {
    assert calls[i..][0] == calls[i] && calls[i..][1..] == calls[i + 1..];
    assert dispositions[i..][0] == dispositions[i] && dispositions[i..][1..] == dispositions[i + 1..];
  }

  lemma DispositionsEnd(s: Regular, calls: seq<ToolUse>, dispositions: seq<Disposition>)
    requires calls == [] && dispositions == []
    ensures Returned(s, calls, dispositions) == s && Executable(calls, dispositions) == []
  {
  }

  lemma GuardsDecode(env: Env, cfg: Config, messages: Transcript, s: Suspension)
    requires ResumeGuards(env, cfg, messages, s)
    ensures s.payload.ToolPayload?
  {
  }

  lemma {:induction false} OneRefusalRefusesAll(cfg: Config, executable: seq<ToolUse>, handler: bool, decisions: seq<ToolResumeDecision>, n: nat)
    requires n <= |executable| && SortDecisions(cfg, executable[..n], handler, decisions).None?
    ensures SortDecisions(cfg, executable, handler, decisions).None?
    decreases |executable| - n
  {
    hide DecisionOf, ExecuteUsable, ReturnUsable;
    if n == |executable| {
      assert executable[..n] == executable;
    } else {
      assert executable[..n + 1][..n] == executable[..n];
      OneRefusalRefusesAll(cfg, executable, handler, decisions, n + 1);
    }
  }

  /** Drive: checks its input, prepares the loop and runs it. */
  method DriveWith(env: Env, cfg: Config, system: string, mode: InputMode, prompt: Option<Message>, history: Transcript)
    returns (end: Option<Ended>, ghost requests: seq<Request>)
    ensures end == match StartDrive(env, cfg, system, mode, prompt, history) case None => None case Some(d) => Some(d.end)
    ensures requests == match StartDrive(env, cfg, system, mode, prompt, history) case None => [] case Some(d) => d.requests
  {
    hide DriveLoop, ValidInput, Inserted;
    end, requests := None, [];
    if ValidInput(mode, prompt, history) {
      var ls := new LoopState(env, cfg, system, history, prompt);
      InputHasHistory(mode, prompt, history);
      var over;
      if mode == InputRecover && history[|history| - 1].role == RoleAssistant {
        over := ls.Run(Turn(ls.messages[|ls.messages| - 1], None, None));
      } else {
        over := ls.Run(Fresh);
      }
      end, requests := Some(over), ls.requests;
    }
  }

  lemma InputHasHistory(mode: InputMode, prompt: Option<Message>, history: Transcript)
    requires ValidInput(mode, prompt, history)
    ensures mode == InputRecover ==> history != [] && prompt.None?
  {
  }

  /** Resume: checks its input, prepares the loop and re-enters the suspended turn. */
  method ResumeWith(env: Env, cfg: Config, system: string, history: Transcript, s: Suspension, decisions: seq<ToolResumeDecision>,
                    prompt: Option<Message>)
    returns (end: Option<Ended>, ghost requests: seq<Request>)
    ensures end == match ResumeDrive(env, cfg, system, history, s, decisions, prompt) case None => None case Some(d) => Some(d.end)
    ensures requests == match ResumeDrive(env, cfg, system, history, s, decisions, prompt) case None => [] case Some(d) => d.requests
  {
    hide ResumePrepared, Inserted, Run;
    end, requests := None, [];
    if (prompt.Some? && prompt.value.role != RoleUser) || history == [] || !Accepted(history) {
      return;
    }
    var ls := new LoopState(env, cfg, system, history, None);
    PreparedAccepted(system, history);
    var over := ls.Resume(s, decisions, prompt);
    end, requests := Some(over), ls.requests;
  }

  lemma PreparedAccepted(system: string, history: Transcript)
    requires Accepted(history) && history != []
    ensures Accepted(Prepared(system, history, None).messages) && Prepared(system, history, None).messages != []
  {
    PreparedFrontier(system, history);
    var inserted := OptionalMessage(Inserted(system, history)) + history;
    assert inserted + [] == inserted;
  }
}
