/** The codemode handler's loops: one batch, and the drive from step to step (harness/codemode/handler.go). */
module CodemodeHandler {
  import opened Messages
  import opened Suspensions
  import opened ToolControl
  import opened NestedIds
  import opened Codemode
  import opened CodemodeLaws
  import opened CodemodeEffects

  /** The first loop of completeBatch. */
  method IndexResolutions(resolutions: seq<Resolution>) returns (resolved: Option<map<string, Resolution>>)
    ensures resolved == ById(resolutions)
  {
    var index: map<string, Resolution> := map[];
    for i := 0 to |resolutions|
      invariant ById(resolutions[..i]) == Some(index)
    {
      var r := resolutions[i];
      assert resolutions[..i + 1][..i] == resolutions[..i];
      if r.callId == "" || r.callId in index {
        RefusedStays(resolutions, i + 1);
        return None;
      }
      index := index[r.callId := r];
    }
    assert resolutions[..|resolutions|] == resolutions;
    resolved := Some(index);
  }

  lemma {:induction false} RefusedStays(resolutions: seq<Resolution>, n: nat)
    requires n <= |resolutions| && ById(resolutions[..n]).None?
    ensures ById(resolutions).None?
    decreases |resolutions| - n
  {
    if n == |resolutions| {
      assert resolutions[..n] == resolutions;
    } else {
      assert resolutions[..n + 1][..n] == resolutions[..n];
      RefusedStays(resolutions, n + 1);
    }
  }

  /** completeBatch. On success the results answer the executor call by call, under its own IDs. */
  method CompleteBatch(world: World, lim: CodeLimits, p: Program, resolutions: seq<Resolution>) returns (b: Batch)
    requires p.step >= 0 && |p.calls| == |p.dispositions|
    ensures b == Complete(world, lim, p, resolutions)
    // Exactly what was decided runs, and the executor is told what the tools gave or what was supplied.
    ensures exists verdicts :: Obeys(world, p, resolutions, verdicts, b) && (b.ok ==> |verdicts| == |p.calls| == |b.results|)
    ensures DistinctCalls(p.calls) && b.ok ==>
      |b.results| == |p.calls| && forall i :: 0 <= i < |p.calls| ==> b.results[i].id == p.calls[i].id && b.results[i].name == p.calls[i].name
  {
    hide Choose, Report, HostUse, OfBatch, OfSteps, RecordsOf, Obeys;
    ghost var decreed := BatchObeys(world, lim, p, resolutions);
    if DistinctCalls(p.calls) {
      CompleteSound(world, lim, p, resolutions);
    }
    var resolved := IndexResolutions(resolutions);
    if resolved.None? {
      return Batch(false, [], [], map[], []);
    }
    var results: seq<CallResult> := [];
    var executed: seq<ToolUse> := [];
    var left := resolved.value;
    var records: seq<Record> := [];
    for i := 0 to |p.calls|
      invariant RunCalls(world, lim, p, resolved.value, i) == Batch(true, results, executed, left, records)
    {
      var call, d := p.calls[i], p.dispositions[i];
      ghost var before := Batch(true, results, executed, left, records);
      var chosen := Choose(world, p, call, d, left);
      if d.kind == DispositionSuspend {
        left := left - {call.id};
      }
      if chosen.Refused? {
        FailureStops(world, lim, p, resolved.value, i + 1);
        return Batch(false, results, executed, left, records);
      }
      if chosen.executed {
        executed := executed + [HostUse(p, chosen.call)];
      }
      var result := Report(world, lim, p, chosen);
      records := records + RecordsOf(p, chosen, result.Some?);
      if result.None? {
        FailureStops(world, lim, p, resolved.value, i + 1);
        return Batch(false, results, executed, left, records);
      }
      results := results + [result.value];
    }
    b := Batch(left == map[], results, executed, left, records);
  }

  lemma {:induction false} FailureStops(world: World, lim: CodeLimits, p: Program, resolved: map<string, Resolution>, n: nat)
    requires p.step >= 0 && n <= |p.calls| == |p.dispositions| && !RunCalls(world, lim, p, resolved, n).ok
    ensures RunCalls(world, lim, p, resolved, |p.calls|) == RunCalls(world, lim, p, resolved, n)
    decreases |p.calls| - n
  {
    hide NextCall;
    if n < |p.calls| {
      FailureStops(world, lim, p, resolved, n + 1);
    }
  }

  /** What the loop of `drive` has done when it stands before `rest`. */
  function Before(resumes: nat, executed: seq<ToolUse>, rest: Trace): Trace {
    Trace(rest.outcome, resumes + rest.resumes, executed + rest.executed)
  }

  /** One step of the loop, then the rest. */
  lemma DriveUnfolds(world: World, lim: CodeLimits, outer: string, n: nat, stdout: string, step: Step)
    ensures var t, printed := Drive(world, lim, outer, n, stdout, step), stdout + step.stdout;
      if !ValidStep(world, lim, step) || |stdout| + |step.stdout| > lim.maxStdout then t == FailedAtOnce
      else if step.done then
        t == if world.record(ProgramOperationId(outer, n), "completed") then Trace(Finished(step.output, printed), 0, []) else FailedAtOnce
      else if n >= lim.maxSteps then t == FailedAtOnce
      else
        match Decide(world, lim, Planned(outer, n, printed, step))
        case None => t == FailedAtOnce
        case Some(p) =>
          if HasSuspension(p.dispositions) then t == Trace(Suspend(world, p), 0, [])
          else
            var b := Complete(world, lim, p, []);
            if !b.ok then t == Trace(Failure, 0, b.executed)
            else
              match world.resume(n, p.checkpoint, b.results)
              case None => t == Trace(Failure, 1, b.executed)
              case Some(next) => t == Before(1, b.executed, Drive(world, lim, outer, n + 1, printed, next))
  {
    hide ValidStep, Decide, Complete, HasSuspension, ProgramOperationId;
  }

  /** drive: one turn of the loop per step of the executor. */
  method DriveProgram(world: World, lim: CodeLimits, outer: string, first: nat, printed: string, begin: Step) returns (t: Trace)
    requires first <= lim.maxSteps
    ensures t == Drive(world, lim, outer, first, printed, begin)
    ensures Sound(world, lim, outer, first, t)
  {
    hide Drive, ValidStep, Decide, Complete, HasSuspension, OfSteps, ValidProgram, ProgramOperationId, Obeys, Sound, ValidCalls, GateRuns;
    DriveSound(world, lim, outer, first, printed, begin);
    var n, stdout, step := first, printed, begin;
    var resumes: nat := 0;
    var executed: seq<ToolUse> := [];
    assert [] + Drive(world, lim, outer, n, stdout, step).executed == Drive(world, lim, outer, n, stdout, step).executed;
    while true
      invariant n <= lim.maxSteps
      invariant Drive(world, lim, outer, first, printed, begin) == Before(resumes, executed, Drive(world, lim, outer, n, stdout, step))
      decreases lim.maxSteps - n
    {
      DriveUnfolds(world, lim, outer, n, stdout, step);
      if !ValidStep(world, lim, step) || |stdout| + |step.stdout| > lim.maxStdout {
        return Before(resumes, executed, FailedAtOnce);
      }
      stdout := stdout + step.stdout;
      if step.done {
        var recorded := world.record(ProgramOperationId(outer, n), "completed");
        return Before(resumes, executed, if recorded then Trace(Finished(step.output, stdout), 0, []) else FailedAtOnce);
      }
      if n >= lim.maxSteps {
        return Before(resumes, executed, FailedAtOnce);
      }
      DecidedShape(world, lim, Planned(outer, n, stdout, step));
      var decided := Decide(world, lim, Planned(outer, n, stdout, step));
      if decided.None? {
        return Before(resumes, executed, FailedAtOnce);
      }
      var p := decided.value;
      if HasSuspension(p.dispositions) {
        return Before(resumes, executed, Trace(Suspend(world, p), 0, []));
      }
      var b := CompleteBatch(world, lim, p, []);
      if !b.ok {
        return Before(resumes, executed, Trace(Failure, 0, b.executed));
      }
      var next := world.resume(n, p.checkpoint, b.results);
      if next.None? {
        return Before(resumes, executed, Trace(Failure, 1, b.executed));
      }
      ghost var after := Drive(world, lim, outer, n + 1, stdout, next.value);
      assert executed + (b.executed + after.executed) == (executed + b.executed) + after.executed;
      resumes, executed := resumes + 1, executed + b.executed;
      step, n := next.value, n + 1;
    }
  }

  /** resume, on a decoded program. */
  method ResumeProgram(world: World, lim: CodeLimits, outer: string, p: Program, resolutions: seq<Resolution>) returns (t: Trace)
    ensures t == Resume(world, lim, outer, p, resolutions)
    ensures ValidProgram(world, lim, p, outer) ==> Sound(world, lim, outer, p.step, t)
  {
    hide Drive, Complete, Sound, OfSteps, ValidCalls, Obeys;
    if !ValidProgram(world, lim, p, outer) {
      return FailedAtOnce;
    }
    ResumeSound(world, lim, outer, p, resolutions);
    var b := CompleteBatch(world, lim, p, resolutions);
    if !b.ok {
      return Trace(Failure, 0, b.executed);
    }
    var next := world.resume(p.step, p.checkpoint, b.results);
    if next.None? {
      return Trace(Failure, 1, b.executed);
    }
    var rest := DriveProgram(world, lim, outer, p.step + 1, p.stdout, next.value);
    t := Trace(rest.outcome, rest.resumes + 1, b.executed + rest.executed);
  }
}
