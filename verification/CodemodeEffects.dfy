/** What a codemode program runs and what its executor is told, by what the gate and the operator decided. */
module CodemodeEffects {
  import opened Messages
  import opened Suspensions
  import opened ToolControl
  import opened NestedIds
  import opened Codemode
  import opened CodemodeLaws

  /** One call: a tool to run on these arguments, or a result supplied in its place. */
  datatype Verdict = Executes(call: ToolUse) | Supplies(result: ToolResult)

  /** What was decided about the call: by the gate, or, where the gate suspended it, by the one resolution given for it. */
  predicate Decreed(p: Program, resolutions: seq<Resolution>, i: nat, v: Verdict)
    requires i < |p.calls| == |p.dispositions|
  {
    var call, d := p.calls[i], p.dispositions[i];
    match d.kind
    case DispositionExecute => v == Executes(call)
    case DispositionReturn => d.result.Some? && v == Supplies(d.result.value.result)
    case DispositionSuspend => exists r :: r in resolutions && r.callId == call.id && Resolved(call, r, v)
    case DispositionInvalid => false
  }

  predicate Resolved(call: ToolUse, r: Resolution, v: Verdict) {
    match r.action
    case ResumeExecute => v == Executes(if r.override.Some? then call.(input := r.override.value) else call)
    case ResumeReturn => r.result.Some? && v == Supplies(r.result.value)
    case ResumeInvalid => false
  }

  /** The host calls of the verdicts that run a tool, in order. */
  function HostCalls(p: Program, verdicts: seq<Verdict>): seq<ToolUse>
    requires p.step >= 0
  {
    if verdicts == [] then []
    else
      var last := verdicts[|verdicts| - 1];
      HostCalls(p, verdicts[..|verdicts| - 1]) + (if last.Executes? then [HostUse(p, last.call)] else [])
  }

  /** The operations recorded as started. */
  function StartedIds(records: seq<Record>): seq<string> {
    if records == [] then []
    else
      var last := records[|records| - 1];
      StartedIds(records[..|records| - 1]) + (if last.mark.MarkStarted? then [last.id] else [])
  }

  /** Those of the verdicts that run a tool, in order. */
  function OperationIds(p: Program, verdicts: seq<Verdict>): seq<string>
    requires p.step >= 0
  {
    if verdicts == [] then []
    else
      var last := verdicts[|verdicts| - 1];
      OperationIds(p, verdicts[..|verdicts| - 1]) + (if last.Executes? then [CallOperationId(p.outer, p.step, last.call.id)] else [])
  }

  /** The executor is told the projection of what the tool gave, or of what was supplied, under its own name for the call. */
  predicate Tells(world: World, p: Program, call: ToolUse, v: Verdict, r: CallResult)
    requires p.step >= 0
  {
    var raw := match v
      case Executes(run) => world.execute(HostUse(p, run))
      case Supplies(result) => Executed(result.(toolUseId := HostUse(p, call).id), NoCause);
    var shown := world.project(HostUse(p, if v.Executes? then v.call else call), raw);
    && shown.Some? && r == CallResult(call.id, call.name, shown.value.result.content, shown.value.result.isError)
    && (v.Supplies? ==> v.result.toolUseId == call.id && v.result.name == call.name)
  }

  /** A batch has done what the first calls' verdicts ask, and nothing else. */
  predicate Obeys(world: World, p: Program, resolutions: seq<Resolution>, verdicts: seq<Verdict>, b: Batch)
    requires p.step >= 0 && |p.calls| == |p.dispositions|
  {
    && |verdicts| <= |p.calls| && (forall i :: 0 <= i < |verdicts| ==> Decreed(p, resolutions, i, verdicts[i]))
    && b.executed == HostCalls(p, verdicts) && StartedIds(b.records) == OperationIds(p, verdicts)
    && |b.results| <= |verdicts| && (forall i :: 0 <= i < |b.results| ==> Tells(world, p, p.calls[i], verdicts[i], b.results[i]))
  }

  lemma {:induction false} ByIdNames(resolutions: seq<Resolution>)
    ensures var resolved := ById(resolutions);
      resolved.Some? ==> forall id :: id in resolved.value ==> resolved.value[id] in resolutions && resolved.value[id].callId == id
    decreases |resolutions|
  {
    if resolutions != [] {
      ByIdNames(resolutions[..|resolutions| - 1]);
    }
  }

  /** Resolutions not asked for yet are as they were given. */
  predicate Given(resolutions: seq<Resolution>, left: map<string, Resolution>) {
    forall id :: id in left ==> left[id] in resolutions && left[id].callId == id
  }

  lemma ChoiceDecreed(world: World, p: Program, resolutions: seq<Resolution>, i: nat, left: map<string, Resolution>) returns (v: Verdict)
    requires p.step >= 0 && i < |p.calls| == |p.dispositions| && Given(resolutions, left)
    requires Choose(world, p, p.calls[i], p.dispositions[i], left).Chosen?
    ensures Decreed(p, resolutions, i, v)
    ensures var chosen := Choose(world, p, p.calls[i], p.dispositions[i], left);
      && chosen.executed == v.Executes? && (v.Executes? ==> chosen.call == v.call && chosen.result == world.execute(HostUse(p, v.call)))
      && (v.Supplies? ==>
            && chosen.call == p.calls[i] && v.result.toolUseId == p.calls[i].id && v.result.name == p.calls[i].name
            && chosen.result == Executed(v.result.(toolUseId := HostUse(p, p.calls[i]).id), NoCause))
      && chosen.call.id == p.calls[i].id && chosen.call.name == p.calls[i].name
  {
    hide HostUse, CallOperationId;
    var call, d := p.calls[i], p.dispositions[i];
    match d.kind
    case DispositionExecute => v := Executes(call);
    case DispositionReturn => v := Supplies(d.result.value.result);
    case DispositionSuspend =>
      var r := left[call.id];
      v := if r.action == ResumeExecute then Executes(if r.override.Some? then call.(input := r.override.value) else call)
           else Supplies(r.result.value);
      assert r in resolutions && Resolved(call, r, v);
    case DispositionInvalid =>
  }

  lemma VerdictsSnoc(p: Program, verdicts: seq<Verdict>, v: Verdict)
    requires p.step >= 0
    ensures HostCalls(p, verdicts + [v]) == HostCalls(p, verdicts) + (if v.Executes? then [HostUse(p, v.call)] else [])
    ensures OperationIds(p, verdicts + [v])
      == OperationIds(p, verdicts) + (if v.Executes? then [CallOperationId(p.outer, p.step, v.call.id)] else [])
  {
    hide HostUse, CallOperationId;
    assert (verdicts + [v])[..|verdicts|] == verdicts;
  }

  lemma RecordedStarts(p: Program, records: seq<Record>, chosen: Chosen, reported: bool)
    requires p.step >= 0 && chosen.Chosen?
    ensures StartedIds(records + RecordsOf(p, chosen, reported))
      == StartedIds(records) + (if chosen.executed then [CallOperationId(p.outer, p.step, chosen.call.id)] else [])
  {
    hide CallOperationId;
    var id := CallOperationId(p.outer, p.step, chosen.call.id);
    var start, result := Record(id, MarkStarted), Record(id, MarkResult);
    StartedSnoc(records, start);
    StartedSnoc(records, result);
    StartedSnoc(records + [start], result);
    hide StartedIds;
    var after := RecordsOf(p, chosen, reported);
    if chosen.executed && reported {
      assert after == [start, result] && records + after == records + [start] + [result];
    } else if chosen.executed {
      assert after == [start];
    } else if reported {
      assert after == [result];
    } else {
      assert after == [] && records + after == records;
    }
  }

  lemma StartedSnoc(records: seq<Record>, last: Record)
    ensures StartedIds(records + [last]) == StartedIds(records) + (if last.mark.MarkStarted? then [last.id] else [])
  {
    assert (records + [last])[..|records|] == records;
  }

  lemma ReportTells(world: World, lim: CodeLimits, p: Program, call: ToolUse, v: Verdict, chosen: Chosen)
    requires p.step >= 0 && chosen.Chosen? && chosen.call.id == call.id && chosen.call.name == call.name
    requires v.Executes? ==> chosen.call == v.call && chosen.result == world.execute(HostUse(p, v.call))
    requires v.Supplies? ==>
      && chosen.call == call && v.result.toolUseId == call.id && v.result.name == call.name
      && chosen.result == Executed(v.result.(toolUseId := HostUse(p, call).id), NoCause)
    ensures Report(world, lim, p, chosen).Some? ==> Tells(world, p, call, v, Report(world, lim, p, chosen).value)
  {
    hide HostUse, CallOperationId;
  }

  lemma NothingAsked(world: World, p: Program, resolutions: seq<Resolution>, resolved: map<string, Resolution>)
    requires p.step >= 0 && |p.calls| == |p.dispositions|
    ensures Obeys(world, p, resolutions, [], Batch(true, [], [], resolved, []))
  {
  }

  lemma NextObeys(world: World, lim: CodeLimits, p: Program, resolutions: seq<Resolution>, i: nat, verdicts: seq<Verdict>, v: Verdict, b: Batch)
    requires p.step >= 0 && i < |p.calls| == |p.dispositions| && |verdicts| == |b.results| == i
    requires Obeys(world, p, resolutions, verdicts, b) && Decreed(p, resolutions, i, v)
    requires var chosen := Choose(world, p, p.calls[i], p.dispositions[i], b.left);
      && chosen.Chosen? && chosen.executed == v.Executes? && chosen.call.id == p.calls[i].id && chosen.call.name == p.calls[i].name
      && (v.Executes? ==> chosen.call == v.call && chosen.result == world.execute(HostUse(p, v.call)))
      && (v.Supplies? ==>
            && chosen.call == p.calls[i] && v.result.toolUseId == p.calls[i].id && v.result.name == p.calls[i].name
            && chosen.result == Executed(v.result.(toolUseId := HostUse(p, p.calls[i]).id), NoCause))
    ensures Obeys(world, p, resolutions, verdicts + [v], NextCall(world, lim, p, p.calls[i], p.dispositions[i], b))
  {
    hide Choose, Report, RecordsOf, Decreed, Tells, HostUse, CallOperationId, HostCalls, OperationIds, StartedIds;
    var chosen := Choose(world, p, p.calls[i], p.dispositions[i], b.left);
    VerdictsSnoc(p, verdicts, v);
    RecordedStarts(p, b.records, chosen, Report(world, lim, p, chosen).Some?);
    ReportTells(world, lim, p, p.calls[i], v, chosen);
    assert b.executed + [] == b.executed;
  }

  lemma {:induction false} CallsObey(world: World, lim: CodeLimits, p: Program, resolutions: seq<Resolution>, resolved: map<string, Resolution>,
                                     n: nat) returns (verdicts: seq<Verdict>)
    requires p.step >= 0 && n <= |p.calls| == |p.dispositions| && Given(resolutions, resolved)
    ensures var b := RunCalls(world, lim, p, resolved, n);
      && Obeys(world, p, resolutions, verdicts, b) && Given(resolutions, b.left) && |verdicts| <= n
      && (b.ok ==> |verdicts| == n == |b.results|)
    decreases n
  {
    hide Obeys, NextCall;
    if n == 0 {
      NothingAsked(world, p, resolutions, resolved);
      verdicts := [];
    } else {
      verdicts := CallsObey(world, lim, p, resolutions, resolved, n - 1);
      var b := RunCalls(world, lim, p, resolved, n - 1);
      if b.ok {
        verdicts := OneObeys(world, lim, p, resolutions, n - 1, verdicts, b);
      }
    }
  }

  lemma {:induction false} OneObeys(world: World, lim: CodeLimits, p: Program, resolutions: seq<Resolution>, i: nat, before: seq<Verdict>, b: Batch)
      returns (verdicts: seq<Verdict>)
    requires p.step >= 0 && i < |p.calls| == |p.dispositions| && |before| == |b.results| == i && b.ok
    requires Obeys(world, p, resolutions, before, b) && Given(resolutions, b.left)
    ensures var next := NextCall(world, lim, p, p.calls[i], p.dispositions[i], b);
      && Obeys(world, p, resolutions, verdicts, next) && Given(resolutions, next.left) && |verdicts| <= i + 1
      && (next.ok ==> |verdicts| == i + 1 == |next.results|)
  {
    hide Choose, RecordsOf, Decreed, Tells, HostUse, CallOperationId, HostCalls, OperationIds, StartedIds;
    if Choose(world, p, p.calls[i], p.dispositions[i], b.left).Chosen? {
      var v := ChoiceDecreed(world, p, resolutions, i, b.left);
      NextObeys(world, lim, p, resolutions, i, before, v, b);
      hide Obeys;
      verdicts := before + [v];
    } else {
      verdicts := before;
    }
  }

  /**
   * A batch runs exactly the calls that the gate or the operator decided to execute, in call order and on the arguments they decided on, and
   * records exactly those as started; it stops only where something fails. What it answers for a call is the projection of the tool's own
   * result or of the supplied one.
   */
  lemma BatchObeys(world: World, lim: CodeLimits, p: Program, resolutions: seq<Resolution>) returns (verdicts: seq<Verdict>)
    requires p.step >= 0 && |p.calls| == |p.dispositions|
    ensures var b := Complete(world, lim, p, resolutions);
      Obeys(world, p, resolutions, verdicts, b) && (b.ok ==> |verdicts| == |p.calls| == |b.results|)
  {
    hide RunCalls, Decreed, Tells, HostUse;
    ByIdNames(resolutions);
    var resolved := ById(resolutions);
    if resolved.Some? {
      verdicts := CallsObey(world, lim, p, resolutions, resolved.value, |p.calls|);
    } else {
      verdicts := [];
    }
  }

  // ---------------------------------------------------------------------
  // Whole programs.

  /** A verdict that runs a tool accounts for each host call. */
  lemma {:induction false} HostCallFrom(p: Program, verdicts: seq<Verdict>, host: ToolUse) returns (i: nat)
    requires p.step >= 0 && host in HostCalls(p, verdicts)
    ensures i < |verdicts| && verdicts[i].Executes? && host == HostUse(p, verdicts[i].call)
    decreases |verdicts|
  {
    hide HostUse;
    var before, last := verdicts[..|verdicts| - 1], verdicts[|verdicts| - 1];
    if last.Executes? && host == HostUse(p, last.call) {
      i := |verdicts| - 1;
    } else {
      i := HostCallFrom(p, before, host);
    }
  }

  /** The gate was asked about these calls at some step from `from` on, and decided that this one runs. */
  ghost predicate GateRuns(world: World, outer: string, from: int, host: ToolUse) {
    exists p: Program, decision: BatchDecision, i: nat :: GateRunsAt(world, outer, from, host, p, decision, i)
  }

  predicate GateRunsAt(world: World, outer: string, from: int, host: ToolUse, p: Program, decision: BatchDecision, i: nat) {
    && p.outer == outer && 0 <= from <= p.step && world.gate(p.step, p.calls) == Decided(decision)
    && i < |p.calls| == |decision.calls| && decision.calls[i].kind == DispositionExecute && host == HostUse(p, p.calls[i])
  }

  lemma GateRunsLater(world: World, outer: string, from: int, later: int, executed: seq<ToolUse>)
    requires 0 <= from <= later && forall host :: host in executed ==> GateRuns(world, outer, later, host)
    ensures forall host :: host in executed ==> GateRuns(world, outer, from, host)
  {
    hide HostUse;
    forall host | host in executed ensures GateRuns(world, outer, from, host) {
      var p: Program, decision: BatchDecision, i: nat :| GateRunsAt(world, outer, later, host, p, decision, i);
      assert GateRunsAt(world, outer, from, host, p, decision, i);
    }
  }

  lemma StepObeys(world: World, lim: CodeLimits, planned: Program)
    requires planned.step >= 0 && Decide(world, lim, planned).Some? && !HasSuspension(Decide(world, lim, planned).value.dispositions)
    requires |Decide(world, lim, planned).value.dispositions| == |planned.calls|
    ensures var p := Decide(world, lim, planned).value;
      p.step >= 0 && |p.calls| == |p.dispositions|
      && forall host :: host in Complete(world, lim, p, []).executed ==> GateRuns(world, planned.outer, planned.step, host)
  {
    hide Complete, HostUse, ProgramOperationId, Tells, Fits;
    var p := Decide(world, lim, planned).value;
    var verdicts := BatchObeys(world, lim, p, []);
    forall host | host in Complete(world, lim, p, []).executed ensures GateRuns(world, planned.outer, planned.step, host) {
      var i := HostCallFrom(p, verdicts, host);
      assert Decreed(p, [], i, verdicts[i]);
      var decision := world.gate(planned.step, planned.calls).decision;
      assert GateRunsAt(world, planned.outer, planned.step, host, planned, decision, i) by { SameHosts(p, planned, p.calls[i]); }
    }
  }

  lemma SameHosts(p: Program, q: Program, call: ToolUse)
    requires p.step >= 0 && p.step == q.step && p.outer == q.outer
    ensures HostUse(p, call) == HostUse(q, call)
  {
  }

  /** Every tool a program runs is one the gate decided to execute, at a step and for calls it was asked about. */
  lemma {:induction false} DriveObeys(world: World, lim: CodeLimits, outer: string, n: nat, stdout: string, step: Step)
    ensures forall host :: host in Drive(world, lim, outer, n, stdout, step).executed ==> GateRuns(world, outer, n, host)
    decreases if n <= lim.maxSteps then lim.maxSteps - n else 0
  {
    hide ValidStep, Decide, Complete, HasSuspension, ProgramOperationId, GateRuns, Suspend;
    if ValidStep(world, lim, step) && |stdout| + |step.stdout| <= lim.maxStdout && !step.done && n < lim.maxSteps {
      var printed := stdout + step.stdout;
      var planned := Planned(outer, n, printed, step);
      DecidedShape(world, lim, planned);
      var decided := Decide(world, lim, planned);
      if decided.Some? && !HasSuspension(decided.value.dispositions) {
        StepObeys(world, lim, planned);
        var b := Complete(world, lim, decided.value, []);
        var next := world.resume(n, decided.value.checkpoint, b.results);
        if b.ok && next.Some? {
          DriveObeys(world, lim, outer, n + 1, printed, next.value);
          GateRunsLater(world, outer, n, n + 1, Drive(world, lim, outer, n + 1, printed, next.value).executed);
        }
      }
    }
  }

  /** The suspended batch decided that this call runs. */
  ghost predicate BatchRuns(p: Program, resolutions: seq<Resolution>, host: ToolUse)
    requires p.step >= 0 && |p.calls| == |p.dispositions|
  {
    exists i: nat, call :: i < |p.calls| && Decreed(p, resolutions, i, Executes(call)) && host == HostUse(p, call)
  }

  /** So it is on a resumption, where the operator's resolutions decide about the suspended calls. */
  lemma ResumeObeys(world: World, lim: CodeLimits, outer: string, p: Program, resolutions: seq<Resolution>)
    requires ValidProgram(world, lim, p, outer)
    ensures forall host :: host in Resume(world, lim, outer, p, resolutions).executed ==>
      BatchRuns(p, resolutions, host) || GateRuns(world, outer, p.step + 1, host)
  {
    hide Complete, Drive, HostUse, ValidCalls, HasSuspension, GateRuns, Decreed, Tells;
    var b := Complete(world, lim, p, resolutions);
    var verdicts := BatchObeys(world, lim, p, resolutions);
    forall host | host in b.executed ensures BatchRuns(p, resolutions, host) {
      var i := HostCallFrom(p, verdicts, host);
      assert Decreed(p, resolutions, i, Executes(verdicts[i].call));
    }
    var next := world.resume(p.step, p.checkpoint, b.results);
    if b.ok && next.Some? {
      DriveObeys(world, lim, outer, p.step + 1, p.stdout, next.value);
    }
  }
}
