/** Bounds and identities of a codemode program through any number of suspensions. */
module CodemodeLaws {
  import opened Messages
  import opened Suspensions
  import opened ToolControl
  import opened NestedIds
  import opened Codemode

  // ---------------------------------------------------------------------
  // Identities within a batch.

  /** Host calls of the first `n` calls of step `step`, at most one each. */
  predicate OfBatch(executed: seq<ToolUse>, p: Program, n: nat)
    requires p.step >= 0 && n <= |p.calls|
  {
    && (forall i :: 0 <= i < |executed| ==> exists k :: 0 <= k < n && executed[i].id == HostUse(p, p.calls[k]).id)
    && (forall i, j :: 0 <= i < j < |executed| ==> executed[i].id != executed[j].id)
  }

  predicate DistinctCalls(calls: seq<ToolUse>) {
    forall i, j :: 0 <= i < j < |calls| ==> calls[i].id != calls[j].id
  }

  lemma ChosenKeepsId(world: World, p: Program, call: ToolUse, d: Disposition, left: map<string, Resolution>)
    requires p.step >= 0
    ensures var c := Choose(world, p, call, d, left); c.Chosen? ==> c.call.id == call.id && c.call.name == call.name
  {
  }

  lemma HostIdsDiffer(p: Program, i: nat, j: nat)
    requires p.step >= 0 && DistinctCalls(p.calls) && i < j < |p.calls|
    ensures HostUse(p, p.calls[i]).id != HostUse(p, p.calls[j]).id
  {
    NestedIdInjective(p.outer, p.step, p.calls[i].id, p.outer, p.step, p.calls[j].id);
  }

  lemma BatchGrows(p: Program, executed: seq<ToolUse>, n: nat, run: ToolUse)
    requires p.step >= 0 && n < |p.calls| && DistinctCalls(p.calls)
    requires OfBatch(executed, p, n) && run.id == HostUse(p, p.calls[n]).id
    ensures OfBatch(executed, p, n + 1) && OfBatch(executed + [run], p, n + 1)
  {
    hide HostUse;
    var longer := executed + [run];
    forall i | 0 <= i < |executed| ensures executed[i].id != run.id {
      var k := CallOf(executed, p, n, i);
      HostIdsDiffer(p, k, n);
    }
    forall i | 0 <= i < |longer| ensures exists k :: 0 <= k < n + 1 && longer[i].id == HostUse(p, p.calls[k]).id {
      if i < |executed| {
        var k := CallOf(executed, p, n, i);
        assert longer[i] == executed[i];
      }
    }
    forall i | 0 <= i < |executed| ensures exists k :: 0 <= k < n + 1 && executed[i].id == HostUse(p, p.calls[k]).id {
      var k := CallOf(executed, p, n, i);
    }
  }

  lemma CallOf(executed: seq<ToolUse>, p: Program, n: nat, i: nat) returns (k: nat)
    requires p.step >= 0 && n <= |p.calls| && OfBatch(executed, p, n) && i < |executed|
    ensures k < n && executed[i].id == HostUse(p, p.calls[k]).id
  {
    hide HostUse;
    var id := executed[i].id;
    assert exists k :: 0 <= k < n && id == HostUse(p, p.calls[k]).id;
    k :| 0 <= k < n && id == HostUse(p, p.calls[k]).id;
  }

  /** Every result answers the executor under its own call ID; every tool that ran did so under a host ID of its own. */
  lemma {:induction false} CallsSound(world: World, lim: CodeLimits, p: Program, resolved: map<string, Resolution>, n: nat)
    requires p.step >= 0 && n <= |p.calls| == |p.dispositions| && DistinctCalls(p.calls)
    ensures var b := RunCalls(world, lim, p, resolved, n);
      && OfBatch(b.executed, p, n)
      && (b.ok ==> |b.results| == n && forall i :: 0 <= i < n ==> b.results[i].id == p.calls[i].id && b.results[i].name == p.calls[i].name)
    decreases n
  {
    hide Choose, OfBatch, HostUse;
    if n == 0 {
      NoneExecuted(p);
    } else {
      CallsSound(world, lim, p, resolved, n - 1);
      var b := RunCalls(world, lim, p, resolved, n - 1);
      var chosen := Choose(world, p, p.calls[n - 1], p.dispositions[n - 1], b.left);
      ChosenKeepsId(world, p, p.calls[n - 1], p.dispositions[n - 1], b.left);
      if chosen.Chosen? {
        SameHost(p, chosen.call, p.calls[n - 1]);
        BatchGrows(p, b.executed, n - 1, HostUse(p, chosen.call));
      } else {
        SameHost(p, p.calls[n - 1], p.calls[n - 1]);
        BatchGrows(p, b.executed, n - 1, HostUse(p, p.calls[n - 1]));
      }
    }
  }

  lemma NoneExecuted(p: Program)
    requires p.step >= 0
    ensures OfBatch([], p, 0)
  {
  }

  lemma SameHost(p: Program, a: ToolUse, b: ToolUse)
    requires p.step >= 0 && a.id == b.id
    ensures HostUse(p, a).id == HostUse(p, b).id
  {
  }

  lemma CompleteSound(world: World, lim: CodeLimits, p: Program, resolutions: seq<Resolution>)
    requires p.step >= 0 && |p.calls| == |p.dispositions| && DistinctCalls(p.calls)
    ensures var b := Complete(world, lim, p, resolutions);
      && OfSteps(b.executed, p.outer, p.step, p.step + 1)
      && (b.ok ==>
           |b.results| == |p.calls| && forall i :: 0 <= i < |p.calls| ==> b.results[i].id == p.calls[i].id && b.results[i].name == p.calls[i].name)
  {
    hide RunCalls, OfBatch, OfSteps;
    var resolved := ById(resolutions);
    if resolved.Some? {
      CallsSound(world, lim, p, resolved.value, |p.calls|);
      BatchOfStep(p, RunCalls(world, lim, p, resolved.value, |p.calls|).executed);
    } else {
      NothingRan(p.outer, p.step, p.step + 1);
    }
  }

  // ---------------------------------------------------------------------
  // Identities across steps.

  /** A host ID of one of the steps `from` up to `to`. */
  ghost predicate OfStep(id: string, outer: string, from: int, to: int) {
    exists k: nat, call: string :: from <= k < to && NestedCallId(outer, k, call) == id
  }

  /** Distinct host calls of steps `from` up to `to`. */
  ghost predicate OfSteps(executed: seq<ToolUse>, outer: string, from: int, to: int) {
    && (forall i :: 0 <= i < |executed| ==> OfStep(executed[i].id, outer, from, to))
    && (forall i, j :: 0 <= i < j < |executed| ==> executed[i].id != executed[j].id)
  }

  lemma NothingRan(outer: string, from: int, to: int)
    ensures OfSteps([], outer, from, to)
  {
  }

  lemma BatchOfStep(p: Program, executed: seq<ToolUse>)
    requires p.step >= 0 && OfBatch(executed, p, |p.calls|)
    ensures OfSteps(executed, p.outer, p.step, p.step + 1)
  {
    hide NestedCallId;
    forall i | 0 <= i < |executed| ensures OfStep(executed[i].id, p.outer, p.step, p.step + 1) {
      var k :| 0 <= k < |p.calls| && executed[i].id == HostUse(p, p.calls[k]).id;
      assert NestedCallId(p.outer, p.step, p.calls[k].id) == executed[i].id;
    }
  }

  lemma StepWidens(id: string, outer: string, from: int, to: int, lower: int, wider: int)
    requires OfStep(id, outer, from, to) && lower <= from && to <= wider
    ensures OfStep(id, outer, lower, wider)
  {
    hide NestedCallId;
    var k: nat, call: string :| from <= k < to && NestedCallId(outer, k, call) == id;
    assert NestedCallId(outer, k, call) == id;
  }

  lemma StepsWiden(executed: seq<ToolUse>, outer: string, from: int, to: int, wider: int)
    requires OfSteps(executed, outer, from, to) && to <= wider
    ensures OfSteps(executed, outer, from, wider)
  {
    hide OfStep;
    forall i | 0 <= i < |executed| ensures OfStep(executed[i].id, outer, from, wider) {
      StepWidens(executed[i].id, outer, from, to, from, wider);
    }
  }

  lemma StepsApart(a: string, b: string, outer: string, from: int, middle: int, to: int)
    requires OfStep(a, outer, from, middle) && OfStep(b, outer, middle, to)
    ensures a != b
  {
    hide NestedCallId;
    var k: nat, x: string :| from <= k < middle && NestedCallId(outer, k, x) == a;
    var m: nat, y: string :| middle <= m < to && NestedCallId(outer, m, y) == b;
    NestedIdInjective(outer, k, x, outer, m, y);
  }

  /** Calls of earlier and later steps never share a host ID. */
  lemma StepsJoin(a: seq<ToolUse>, b: seq<ToolUse>, outer: string, from: int, middle: int, to: int)
    requires OfSteps(a, outer, from, middle) && OfSteps(b, outer, middle, to) && from <= middle <= to
    ensures OfSteps(a + b, outer, from, to)
  {
    hide OfStep;
    var all := a + b;
    forall i | 0 <= i < |all| ensures OfStep(all[i].id, outer, from, to) {
      if i < |a| {
        StepWidens(a[i].id, outer, from, middle, from, to);
      } else {
        StepWidens(b[i - |a|].id, outer, middle, to, from, to);
      }
    }
    forall i, j | 0 <= i < j < |all| ensures all[i].id != all[j].id {
      if i < |a| <= j {
        StepsApart(a[i].id, b[j - |a|].id, outer, from, middle, to);
      }
    }
  }

  // ---------------------------------------------------------------------
  // The loop.

  /** A trace that began at step `from`: bounded resumes, host calls of its own steps, and an outcome within the limits. */
  ghost predicate Sound(world: World, lim: CodeLimits, outer: string, from: int, t: Trace) {
    && from + t.resumes <= lim.maxSteps
    && match t.outcome
       case Failure => OfSteps(t.executed, outer, from, from + t.resumes + 1)
       case Finished(_, stdout) => OfSteps(t.executed, outer, from, from + t.resumes) && |stdout| <= lim.maxStdout
       case Deferred(p) =>
         OfSteps(t.executed, outer, from, from + t.resumes) && ValidProgram(world, lim, p, outer) && p.step == from + t.resumes
  }

  lemma SoundNow(world: World, lim: CodeLimits, outer: string, n: nat, outcome: Outcome)
    requires n <= lim.maxSteps
    requires outcome.Finished? ==> |outcome.stdout| <= lim.maxStdout
    requires outcome.Deferred? ==> ValidProgram(world, lim, outcome.program, outer) && outcome.program.step == n
    ensures Sound(world, lim, outer, n, Trace(outcome, 0, []))
  {
    hide ValidProgram;
  }

  /** A batch, a resume of the executor, and the rest. */
  lemma SoundNext(world: World, lim: CodeLimits, outer: string, n: nat, executed: seq<ToolUse>, rest: Trace)
    requires n < lim.maxSteps && OfSteps(executed, outer, n, n + 1) && Sound(world, lim, outer, n + 1, rest)
    ensures Sound(world, lim, outer, n, Trace(rest.outcome, rest.resumes + 1, executed + rest.executed))
  {
    hide ValidProgram, OfSteps;
    if rest.outcome.Failure? {
      StepsJoin(executed, rest.executed, outer, n, n + 1, n + 1 + rest.resumes + 1);
    } else {
      StepsJoin(executed, rest.executed, outer, n, n + 1, n + 1 + rest.resumes);
    }
  }

  lemma SoundFailure(world: World, lim: CodeLimits, outer: string, n: nat, executed: seq<ToolUse>, resumes: nat)
    requires n < lim.maxSteps && OfSteps(executed, outer, n, n + 1) && resumes <= 1
    ensures Sound(world, lim, outer, n, Trace(Failure, resumes, executed))
  {
    hide OfSteps;
    StepsWiden(executed, outer, n, n + 1, n + resumes + 1);
  }

  lemma DecidedShape(world: World, lim: CodeLimits, p: Program)
    requires p.step >= 0
    ensures var d := Decide(world, lim, p);
      d.Some? ==> |d.value.dispositions| == |d.value.calls| && d.value == p.(dispositions := d.value.dispositions)
  {
    hide ProgramOperationId, Fits;
  }

  lemma {:induction false} DriveSound(world: World, lim: CodeLimits, outer: string, n: nat, stdout: string, step: Step)
    requires n <= lim.maxSteps
    ensures Sound(world, lim, outer, n, Drive(world, lim, outer, n, stdout, step))
    decreases lim.maxSteps - n
  {
    hide Sound, OfSteps, Complete, Decide, ValidCalls, HasSuspension, ProgramOperationId;
    SoundNow(world, lim, outer, n, Failure);
    if ValidStep(world, lim, step) && |stdout| + |step.stdout| <= lim.maxStdout {
      var printed := stdout + step.stdout;
      SoundNow(world, lim, outer, n, Finished(step.output, printed));
      var decided := Decide(world, lim, Planned(outer, n, printed, step));
      DecidedShape(world, lim, Planned(outer, n, printed, step));
      if !step.done && n < lim.maxSteps && decided.Some? {
        var p := decided.value;
        if HasSuspension(p.dispositions) {
          SoundNow(world, lim, outer, n, Deferred(p));
        } else {
          AfterBatch(world, lim, outer, n, printed, p);
        }
      }
    }
  }

  lemma {:induction false} AfterBatch(world: World, lim: CodeLimits, outer: string, n: nat, printed: string, p: Program)
    requires n < lim.maxSteps && p.step == n && p.outer == outer && |p.calls| == |p.dispositions| && ValidCalls(world, lim, p.calls)
    ensures var b := Complete(world, lim, p, []);
      && (!b.ok ==> Sound(world, lim, outer, n, Trace(Failure, 0, b.executed)))
      && (b.ok ==>
           match world.resume(n, p.checkpoint, b.results)
           case None => Sound(world, lim, outer, n, Trace(Failure, 1, b.executed))
           case Some(next) =>
             var rest := Drive(world, lim, outer, n + 1, printed, next);
             Sound(world, lim, outer, n, Trace(rest.outcome, rest.resumes + 1, b.executed + rest.executed)))
    decreases lim.maxSteps - n, 0
  {
    hide Sound, OfSteps, Complete, Drive;
    CompleteSound(world, lim, p, []);
    var b := Complete(world, lim, p, []);
    SoundFailure(world, lim, outer, n, b.executed, 0);
    SoundFailure(world, lim, outer, n, b.executed, 1);
    var next := world.resume(n, p.checkpoint, b.results);
    if next.Some? {
      DriveSound(world, lim, outer, n + 1, printed, next.value);
      SoundNext(world, lim, outer, n, b.executed, Drive(world, lim, outer, n + 1, printed, next.value));
    }
  }

  lemma ResumeSound(world: World, lim: CodeLimits, outer: string, p: Program, resolutions: seq<Resolution>)
    requires ValidProgram(world, lim, p, outer)
    ensures Sound(world, lim, outer, p.step, Resume(world, lim, outer, p, resolutions))
  {
    hide Sound, OfSteps, Complete, Drive;
    CompleteSound(world, lim, p, resolutions);
    var b := Complete(world, lim, p, resolutions);
    SoundFailure(world, lim, outer, p.step, b.executed, 0);
    SoundFailure(world, lim, outer, p.step, b.executed, 1);
    var next := world.resume(p.step, p.checkpoint, b.results);
    if next.Some? {
      DriveSound(world, lim, outer, p.step + 1, p.stdout, next.value);
      SoundNext(world, lim, outer, p.step, b.executed, Drive(world, lim, outer, p.step + 1, p.stdout, next.value));
    }
  }

  // ---------------------------------------------------------------------
  // The whole program.

  ghost predicate AllSound(world: World, lim: CodeLimits, outer: string, traces: seq<Trace>) {
    forall i :: 0 <= i < |traces| ==>
      match traces[i].outcome
      case Failure => true
      case Finished(_, stdout) => |stdout| <= lim.maxStdout
      case Deferred(p) => ValidProgram(world, lim, p, outer)
  }

  lemma {:induction false} ResumptionsSound(world: World, lim: CodeLimits, outer: string, from: int, t: Trace, answers: seq<seq<Resolution>>)
    requires Sound(world, lim, outer, from, t)
    ensures var traces := [t] + Resumptions(world, lim, outer, t, answers);
      && from + TotalResumes(traces) <= lim.maxSteps && AllSound(world, lim, outer, traces)
      && OfSteps(AllExecuted(traces), outer, from, from + TotalResumes(traces) + 1)
    decreases answers
  {
    hide OfSteps, ValidProgram, Resume;
    var rest := Resumptions(world, lim, outer, t, answers);
    var traces := [t] + rest;
    assert traces[1..] == rest;
    if answers == [] || !t.outcome.Deferred? {
      assert t.executed + [] == t.executed;
      StepsWiden(t.executed, outer, from, if t.outcome.Failure? then from + t.resumes + 1 else from + t.resumes, from + t.resumes + 1);
    } else {
      var p := t.outcome.program;
      var next := Resume(world, lim, outer, p, answers[0]);
      ResumeSound(world, lim, outer, p, answers[0]);
      ResumptionsSound(world, lim, outer, p.step, next, answers[1..]);
      StepsJoin(t.executed, AllExecuted(rest), outer, from, p.step, p.step + TotalResumes(rest) + 1);
    }
  }

  /**
   * One program from its start through any number of suspensions: the executor is resumed at most MaxSteps times in all, every nested
   * tool runs under a host ID that no other call of the program shares, and output, at the end or in any deferred program, stays within
   * its limit.
   */
  lemma ProgramBounded(world: World, lim: CodeLimits, outer: string, first: Step, answers: seq<seq<Resolution>>)
    ensures var t := Drive(world, lim, outer, 0, "", first);
      var traces := [t] + Resumptions(world, lim, outer, t, answers);
      && TotalResumes(traces) <= lim.maxSteps
      && (forall i, j :: 0 <= i < j < |AllExecuted(traces)| ==> AllExecuted(traces)[i].id != AllExecuted(traces)[j].id)
      && AllSound(world, lim, outer, traces)
  {
    hide AllSound, Sound, Drive, Resumptions;
    DriveSound(world, lim, outer, 0, "", first);
    ResumptionsSound(world, lim, outer, 0, Drive(world, lim, outer, 0, "", first), answers);
  }

  // ---------------------------------------------------------------------
  // Planner and handler agree.

  /** The calls an operator must resolve. */
  predicate Required(p: Program, id: string)
    requires |p.calls| == |p.dispositions|
  {
    exists i :: 0 <= i < |p.calls| && p.calls[i].id == id && p.dispositions[i].kind == DispositionSuspend
  }

  /** A resolution the planner can carry out. */
  predicate Usable(lim: CodeLimits, r: ToolResolution) {
    match r.action
    case ResolutionApprove => r.overrideArgs.Some? ==> |r.overrideArgs.value| <= lim.maxValue
    case ResolutionDeny => true
    case ResolutionExternalResult => r.result.Some? ==> |r.result.value| <= lim.maxValue
    case ResolutionInvalid => false
  }

  function Plan(call: ToolUse, r: ToolResolution): Resolution {
    match r.action
    case ResolutionApprove => Resolution(call.id, ResumeExecute, r.overrideArgs, None)
    case ResolutionDeny =>
      Resolution(call.id, ResumeReturn, None,
                 Some(ToolResult(call.id, call.name, "Tool call denied: " + if r.reason == "" then "denied by operator" else r.reason, true)))
    case ResolutionExternalResult => Resolution(call.id, ResumeReturn, None, Some(ToolResult(call.id, call.name, r.result.GetOr(""), false)))
    case ResolutionInvalid => Resolution(call.id, ResumeInvalid, None, None)
  }

  predicate AnsweredBy(resolutions: seq<ToolResolution>, id: string) {
    exists i :: 0 <= i < |resolutions| && resolutions[i].callId == id
  }

  /** The resolutions answer each required call exactly once, and nothing else. */
  predicate Answers(lim: CodeLimits, p: Program, resolutions: seq<ToolResolution>)
    requires |p.calls| == |p.dispositions|
  {
    && (forall i :: 0 <= i < |resolutions| ==> Required(p, resolutions[i].callId) && Usable(lim, resolutions[i]))
    && (forall i, j :: 0 <= i < j < |resolutions| ==> resolutions[i].callId != resolutions[j].callId)
    && (forall k :: 0 <= k < |p.calls| && p.dispositions[k].kind == DispositionSuspend ==> AnsweredBy(resolutions, p.calls[k].id))
  }

  /** A deferred disposition the planner can read: nothing to execute has a result, and a returned result is its call's. */
  predicate Readable(call: ToolUse, d: Disposition) {
    match d.kind
    case DispositionExecute => d.result.None?
    case DispositionReturn => d.result.Some? && Identified(call, d.result.value)
    case DispositionSuspend => true
    case DispositionInvalid => false
  }

  predicate ReadableCalls(p: Program)
    requires |p.calls| == |p.dispositions|
  {
    && (forall i :: 0 <= i < |p.calls| ==> p.calls[i].id != "" && p.calls[i].name != "" && Readable(p.calls[i], p.dispositions[i]))
    && DistinctCalls(p.calls)
  }

  /** What the planner asks of a deferred program of the outer call. */
  predicate Plannable(lim: CodeLimits, p: Program, outer: string) {
    && p.version == 1 && p.outer == outer && 0 <= p.step < lim.maxSteps && p.calls != [] && |p.calls| == |p.dispositions|
    && p.checkpoint != "" && |p.checkpoint| <= lim.maxCheckpoint && |p.stdout| <= lim.maxStdout
    && ReadableCalls(p) && HasSuspension(p.dispositions)
  }

  /** The index loop of the planner: required calls by ID, or a program it cannot read. */
  method RequiredCalls(p: Program) returns (ok: bool, required: map<string, ToolUse>)
    requires |p.calls| == |p.dispositions|
    ensures ok <==> ReadableCalls(p)
    ensures ok ==> forall id :: id in required <==> Required(p, id)
    ensures ok ==> forall id :: id in required ==> required[id] in p.calls && required[id].id == id
  {
    required := map[];
    var seen: set<string> := {};
    for i := 0 to |p.calls|
      invariant forall k :: 0 <= k < i ==> p.calls[k].id != "" && p.calls[k].name != "" && Readable(p.calls[k], p.dispositions[k])
      invariant forall k, m :: 0 <= k < m < i ==> p.calls[k].id != p.calls[m].id
      invariant forall id :: id in seen <==> exists k :: 0 <= k < i && p.calls[k].id == id
      invariant forall id :: id in required <==> exists k :: 0 <= k < i && p.calls[k].id == id && p.dispositions[k].kind == DispositionSuspend
      invariant forall id :: id in required ==> required[id] in p.calls && required[id].id == id
    {
      var call, disposition := p.calls[i], p.dispositions[i];
      if call.id == "" || call.name == "" || call.id in seen || !Readable(call, disposition) {
        assert call.id in seen ==> exists k :: 0 <= k < i && p.calls[k].id == call.id;
        return false, required;
      }
      seen := seen + {call.id};
      if disposition.kind == DispositionSuspend {
        required := required[call.id := call];
      }
    }
    ok := true;
  }

  /** PlanResume of codemode on a decoded program: reads the program, and accepts exactly the complete, usable, duplicate-free answers. */
  method PlanResolutions(lim: CodeLimits, p: Program, outer: string, resolutions: seq<ToolResolution>)
      returns (planned: Option<seq<Resolution>>)
    ensures planned.Some? <==> Plannable(lim, p, outer) && Answers(lim, p, resolutions)
    ensures planned.Some? ==> Carries(p, resolutions, planned.value)
  {
    hide ReadableCalls, Usable, Plan, Answers, CarriesOne, SoFar;
    if p.version != 1 || p.outer != outer || p.step < 0 || p.step >= lim.maxSteps || |p.calls| == 0 || |p.calls| != |p.dispositions|
       || |p.checkpoint| == 0 || |p.checkpoint| > lim.maxCheckpoint || |p.stdout| > lim.maxStdout {
      return None;
    }
    var ok, required := RequiredCalls(p);
    if !ok {
      return None;
    }
    if required == map[] {
      NoneRequired(p);
      return None;
    }
    SomeRequired(p, required);
    planned := PlanAnswers(lim, p, resolutions, required);
  }

  lemma NoneRequired(p: Program)
    requires |p.calls| == |p.dispositions| && forall id :: !Required(p, id)
    ensures !HasSuspension(p.dispositions)
  {
    if HasSuspension(p.dispositions) {
      var k :| 0 <= k < |p.dispositions| && p.dispositions[k].kind == DispositionSuspend;
      assert Required(p, p.calls[k].id);
    }
  }

  lemma SomeRequired(p: Program, required: map<string, ToolUse>)
    requires |p.calls| == |p.dispositions| && required != map[] && ReadableCalls(p) && forall id :: id in required <==> Required(p, id)
    ensures HasSuspension(p.dispositions) && DistinctCalls(p.calls)
  {
    var id :| id in required;
    assert Required(p, id);
  }

  method PlanAnswers(lim: CodeLimits, p: Program, resolutions: seq<ToolResolution>, required: map<string, ToolUse>)
      returns (planned: Option<seq<Resolution>>)
    requires |p.calls| == |p.dispositions| && DistinctCalls(p.calls)
    requires forall id :: id in required <==> Required(p, id)
    requires forall id :: id in required ==> required[id] in p.calls && required[id].id == id
    ensures planned.Some? <==> Answers(lim, p, resolutions)
    ensures planned.Some? ==> Carries(p, resolutions, planned.value)
  {
    hide Usable, Plan, Required, Answers, CarriesOne, SoFar;
    var resolved: set<string> := {};
    var resume: seq<Resolution> := [];
    NothingYet(lim, p, resolutions);
    for i := 0 to |resolutions|
      invariant SoFar(lim, p, resolutions, i, resolved) && resolved <= required.Keys
      invariant |resume| == i && forall k :: 0 <= k < i ==> CarriesOne(p, resolutions[k], resume[k])
    {
      var r := resolutions[i];
      OneMore(lim, p, resolutions, i, resolved);
      if r.callId !in required || r.callId in resolved || !Usable(lim, r) {
        return None;
      }
      Carried(lim, p, required[r.callId], r);
      resolved := resolved + {r.callId};
      resume := resume + [Plan(required[r.callId], r)];
    }
    AllAnswered(lim, p, resolutions, required, resolved);
    if resolved != required.Keys {
      return None;
    }
    planned := Some(resume);
  }

  /** The first `n` resolutions are usable, required and different; `resolved` are their IDs. */
  predicate SoFar(lim: CodeLimits, p: Program, resolutions: seq<ToolResolution>, n: nat, resolved: set<string>)
    requires |p.calls| == |p.dispositions| && n <= |resolutions|
  {
    && (forall i :: 0 <= i < n ==> Required(p, resolutions[i].callId) && Usable(lim, resolutions[i]) && resolutions[i].callId in resolved)
    && (forall i, j :: 0 <= i < j < n ==> resolutions[i].callId != resolutions[j].callId)
    && (forall id :: id in resolved ==> AnsweredBy(resolutions[..n], id))
  }

  lemma NothingYet(lim: CodeLimits, p: Program, resolutions: seq<ToolResolution>)
    requires |p.calls| == |p.dispositions|
    ensures SoFar(lim, p, resolutions, 0, {})
  {
  }

  lemma OneMore(lim: CodeLimits, p: Program, resolutions: seq<ToolResolution>, n: nat, resolved: set<string>)
    requires |p.calls| == |p.dispositions| && n < |resolutions| && SoFar(lim, p, resolutions, n, resolved)
    ensures var r := resolutions[n];
      if Required(p, r.callId) && r.callId !in resolved && Usable(lim, r) then SoFar(lim, p, resolutions, n + 1, resolved + {r.callId})
      else !Answers(lim, p, resolutions)
  {
    hide Usable, Required;
    var r := resolutions[n];
    forall id | AnsweredBy(resolutions[..n], id) || id == r.callId ensures AnsweredBy(resolutions[..n + 1], id) {
      if id == r.callId {
        assert resolutions[..n + 1][n].callId == id;
      } else {
        var i :| 0 <= i < n && resolutions[..n][i].callId == id;
        assert resolutions[..n + 1][i].callId == id;
      }
    }
    if r.callId in resolved {
      var i :| 0 <= i < n && resolutions[..n][i].callId == r.callId;
      assert resolutions[i].callId == resolutions[n].callId;
    }
  }

  lemma Carried(lim: CodeLimits, p: Program, call: ToolUse, r: ToolResolution)
    requires call in p.calls && call.id == r.callId && Usable(lim, r)
    ensures CarriesOne(p, r, Plan(call, r))
  {
  }

  lemma AllAnswered(lim: CodeLimits, p: Program, resolutions: seq<ToolResolution>, required: map<string, ToolUse>, resolved: set<string>)
    requires |p.calls| == |p.dispositions| && SoFar(lim, p, resolutions, |resolutions|, resolved) && resolved <= required.Keys
    requires forall id :: id in required <==> Required(p, id)
    ensures resolved == required.Keys <==> Answers(lim, p, resolutions)
  {
    hide Usable;
    assert resolutions[..|resolutions|] == resolutions;
    if resolved == required.Keys {
      forall k | 0 <= k < |p.calls| && p.dispositions[k].kind == DispositionSuspend ensures AnsweredBy(resolutions, p.calls[k].id) {
        assert Required(p, p.calls[k].id);
      }
    } else {
      var id :| id in required.Keys && id !in resolved;
      assert Required(p, id);
      var k :| 0 <= k < |p.calls| && p.calls[k].id == id && p.dispositions[k].kind == DispositionSuspend;
      assert !AnsweredBy(resolutions, p.calls[k].id);
    }
  }

  predicate CarriesOne(p: Program, r: ToolResolution, planned: Resolution) {
    exists c :: c in p.calls && c.id == r.callId && CarriesOut(c, r, planned)
  }

  /** What the operator said about the call: run it, on the arguments given if there are any, deny it, or take the result supplied. */
  predicate CarriesOut(call: ToolUse, r: ToolResolution, planned: Resolution) {
    && planned.callId == call.id
    && match r.action
       case ResolutionApprove => planned.action == ResumeExecute && planned.override == r.overrideArgs && planned.result.None?
       case ResolutionDeny =>
         && planned.action == ResumeReturn && planned.override.None? && planned.result.Some?
         && planned.result.value.toolUseId == call.id && planned.result.value.name == call.name && planned.result.value.isError
       case ResolutionExternalResult =>
         && planned.action == ResumeReturn && planned.override.None?
         && planned.result == Some(ToolResult(call.id, call.name, r.result.GetOr(""), false))
       case ResolutionInvalid => false
  }

  /** Each planned resolution carries out the one it came from, for the call of that ID. */
  predicate Carries(p: Program, resolutions: seq<ToolResolution>, planned: seq<Resolution>) {
    |planned| == |resolutions| && forall i :: 0 <= i < |resolutions| ==> CarriesOne(p, resolutions[i], planned[i])
  }

  /** A world that stores and projects whatever it is given. */
  ghost predicate Obliging(world: World, lim: CodeLimits) {
    && (forall id: string, phase: string :: world.record(id, phase))
    && (forall call: ToolUse, result: Executed :: world.project(call, result).Some? && Identified(call, world.project(call, result).value)
          && |world.project(call, result).value.result.content| <= lim.maxValue)
  }

  lemma {:induction false} PlannedById(planned: seq<Resolution>)
    requires forall i :: 0 <= i < |planned| ==> planned[i].callId != ""
    requires forall i, j :: 0 <= i < j < |planned| ==> planned[i].callId != planned[j].callId
    ensures ById(planned).Some?
    ensures forall id :: id in ById(planned).value ==> exists i :: 0 <= i < |planned| && planned[i].callId == id
    ensures forall i :: 0 <= i < |planned| ==> planned[i].callId in ById(planned).value && ById(planned).value[planned[i].callId] == planned[i]
    decreases |planned|
  {
    if planned != [] {
      var rest, last := planned[..|planned| - 1], planned[|planned| - 1];
      PlannedById(rest);
      ByIdSnoc(rest, last);
      assert planned == rest + [last];
      hide ById;
      forall id | id in ById(planned).value ensures exists i :: 0 <= i < |planned| && planned[i].callId == id {
        if id == last.callId {
          assert planned[|planned| - 1].callId == id;
        } else {
          var i :| 0 <= i < |rest| && rest[i].callId == id;
          assert planned[i] == rest[i];
        }
      }
    }
  }

  lemma ByIdSnoc(rest: seq<Resolution>, last: Resolution)
    requires ById(rest).Some? && last.callId != ""
    requires last.callId in ById(rest).value ==> exists i :: 0 <= i < |rest| && rest[i].callId == last.callId
    requires forall i :: 0 <= i < |rest| ==> rest[i].callId != last.callId
    ensures ById(rest + [last]) == Some(ById(rest).value[last.callId := last])
  {
    assert (rest + [last])[..|rest|] == rest;
  }

  /** Resolutions left after the first `n` calls: those of suspended calls still to come. */
  predicate LeftAfter(p: Program, resolved: map<string, Resolution>, left: map<string, Resolution>, n: nat)
    requires n <= |p.calls| == |p.dispositions|
  {
    && (forall id :: id in left ==> id in resolved && left[id] == resolved[id])
    && (forall k :: n <= k < |p.calls| && p.dispositions[k].kind == DispositionSuspend && p.calls[k].id in resolved ==> p.calls[k].id in left)
    && (forall k :: 0 <= k < n && p.dispositions[k].kind == DispositionSuspend ==> p.calls[k].id !in left)
  }

  /** A resolution that runs its call or returns a result in its name. */
  predicate Fitting(call: ToolUse, r: Resolution) {
    || r.action == ResumeExecute
    || (r.action == ResumeReturn && r.result.Some? && r.result.value.toolUseId == call.id && r.result.value.name == call.name)
  }

  lemma ChoosesSomething(world: World, lim: CodeLimits, p: Program, call: ToolUse, d: Disposition, left: map<string, Resolution>)
    requires Obliging(world, lim) && p.step >= 0 && Fits(call, d) && call.id != "" && call.name != ""
    requires d.kind == DispositionSuspend ==> call.id in left && Fitting(call, left[call.id])
    ensures Choose(world, p, call, d, left).Chosen?
  {
  }

  lemma NextRuns(world: World, lim: CodeLimits, p: Program, call: ToolUse, d: Disposition, b: Batch)
    requires Obliging(world, lim) && p.step >= 0 && b.ok && Fits(call, d) && call.id != "" && call.name != ""
    requires d.kind == DispositionSuspend ==> call.id in b.left && Fitting(call, b.left[call.id])
    ensures var next := NextCall(world, lim, p, call, d, b);
      next.ok && next.left == if d.kind == DispositionSuspend then b.left - {call.id} else b.left
  {
    ChoosesSomething(world, lim, p, call, d, b.left);
    hide Choose, Fits, HostUse, CallOperationId;
  }

  lemma LeftShrinks(p: Program, resolved: map<string, Resolution>, left: map<string, Resolution>, n: nat)
    requires 0 < n <= |p.calls| == |p.dispositions| && DistinctCalls(p.calls) && LeftAfter(p, resolved, left, n - 1)
    ensures LeftAfter(p, resolved, if p.dispositions[n - 1].kind == DispositionSuspend then left - {p.calls[n - 1].id} else left, n)
  {
  }

  lemma {:induction false} AnsweredRuns(world: World, lim: CodeLimits, p: Program, resolved: map<string, Resolution>, n: nat)
    requires Obliging(world, lim) && p.step >= 0 && n <= |p.calls| == |p.dispositions| && DistinctCalls(p.calls)
    requires forall k :: 0 <= k < |p.calls| ==> Fits(p.calls[k], p.dispositions[k]) && p.calls[k].id != "" && p.calls[k].name != ""
    requires forall k :: 0 <= k < |p.calls| && p.dispositions[k].kind == DispositionSuspend ==>
      p.calls[k].id in resolved && Fitting(p.calls[k], resolved[p.calls[k].id])
    ensures RunCalls(world, lim, p, resolved, n).ok && LeftAfter(p, resolved, RunCalls(world, lim, p, resolved, n).left, n)
    decreases n
  {
    hide Choose, Fits, NextCall, Fitting;
    if n > 0 {
      AnsweredRuns(world, lim, p, resolved, n - 1);
      var b := RunCalls(world, lim, p, resolved, n - 1);
      NextRuns(world, lim, p, p.calls[n - 1], p.dispositions[n - 1], b);
      LeftShrinks(p, resolved, b.left, n);
    }
  }

  /**
   * Whatever complete answer the planner accepts, the handler's batch finds every suspended call's resolution, in the call's own name, and
   * none left over: only the tools' own world can still fail it.
   */
  lemma PlannedBatchCompletes(world: World, lim: CodeLimits, p: Program, resolutions: seq<ToolResolution>, planned: seq<Resolution>)
    requires Obliging(world, lim) && p.step >= 0 && |p.calls| == |p.dispositions| && DistinctCalls(p.calls)
    requires forall k :: 0 <= k < |p.calls| ==> Fits(p.calls[k], p.dispositions[k]) && p.calls[k].id != "" && p.calls[k].name != ""
    requires Answers(lim, p, resolutions) && Carries(p, resolutions, planned)
    ensures Complete(world, lim, p, planned).ok
  {
    hide Fits, Usable, RunCalls, Obliging, LeftAfter, ById, Carries, Answers, Fitting, Required;
    ResolvedFits(lim, p, resolutions, planned);
    var resolved := ById(planned).value;
    AnsweredRuns(world, lim, p, resolved, |p.calls|);
    NothingLeft(p, planned, resolved, RunCalls(world, lim, p, resolved, |p.calls|).left);
  }

  /** Every suspended call finds its resolution under its ID, and none is for another call. */
  lemma ResolvedFits(lim: CodeLimits, p: Program, resolutions: seq<ToolResolution>, planned: seq<Resolution>)
    requires |p.calls| == |p.dispositions| && DistinctCalls(p.calls)
    requires forall k :: 0 <= k < |p.calls| ==> p.calls[k].id != ""
    requires Answers(lim, p, resolutions) && Carries(p, resolutions, planned)
    ensures ById(planned).Some?
    ensures forall k :: 0 <= k < |p.calls| && p.dispositions[k].kind == DispositionSuspend ==>
      p.calls[k].id in ById(planned).value && Fitting(p.calls[k], ById(planned).value[p.calls[k].id])
    ensures forall id :: id in ById(planned).value ==> Required(p, id)
  {
    hide Usable, ById, Fitting, CarriesOne, Required;
    forall i | 0 <= i < |planned| ensures planned[i].callId == resolutions[i].callId != "" && Required(p, planned[i].callId) {
      CarriesName(p, resolutions[i], planned[i]);
    }
    PlannedById(planned);
    forall k | 0 <= k < |p.calls| && p.dispositions[k].kind == DispositionSuspend
      ensures p.calls[k].id in ById(planned).value && Fitting(p.calls[k], ById(planned).value[p.calls[k].id])
    {
      var i :| 0 <= i < |resolutions| && resolutions[i].callId == p.calls[k].id;
      UsableFits(lim, p, resolutions[i], planned[i], k);
    }
  }

  lemma CarriesName(p: Program, r: ToolResolution, planned: Resolution)
    requires CarriesOne(p, r, planned) && forall k :: 0 <= k < |p.calls| ==> p.calls[k].id != ""
    ensures planned.callId == r.callId != ""
  {
    hide CarriesOut;
    var c :| c in p.calls && c.id == r.callId && CarriesOut(c, r, planned);
    CarriedName(c, r, planned);
  }

  lemma CarriedName(call: ToolUse, r: ToolResolution, planned: Resolution)
    requires CarriesOut(call, r, planned)
    ensures planned.callId == call.id
  {
  }

  lemma UsableFits(lim: CodeLimits, p: Program, r: ToolResolution, planned: Resolution, k: nat)
    requires DistinctCalls(p.calls) && k < |p.calls| && p.calls[k].id == r.callId && Usable(lim, r)
    requires CarriesOne(p, r, planned)
    ensures Fitting(p.calls[k], planned)
  {
    var c :| c in p.calls && c.id == r.callId && CarriesOut(c, r, planned);
    var m :| 0 <= m < |p.calls| && p.calls[m] == c;
    assert m == k;
  }

  lemma NothingLeft(p: Program, planned: seq<Resolution>, resolved: map<string, Resolution>, left: map<string, Resolution>)
    requires |p.calls| == |p.dispositions| && LeftAfter(p, resolved, left, |p.calls|)
    requires forall id :: id in resolved ==> Required(p, id)
    ensures left == map[]
  {
    forall id | id in resolved ensures id !in left {
      var i :| 0 <= i < |p.calls| && p.calls[i].id == id && p.dispositions[i].kind == DispositionSuspend;
    }
  }
}
