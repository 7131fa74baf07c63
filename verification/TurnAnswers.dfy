/** How a completed turn answers its calls, and what it says of its output. */
module TurnAnswers {
  import opened Messages
  import opened Pairing
  import opened Usages
  import opened Suspensions
  import opened Selections
  import opened ToolControl
  import opened Scheduler
  import opened ResumePlan
  import opened Turns
  import opened Resuming
  import opened TurnLaws
  import opened Effects
  import opened TurnEffects
  import J = Journals

  // ---------------------------------------------------------------------
  // From the regular stage to the results of the turn.

  predicate IsOutput(cfg: Config, calls: seq<ToolUse>, i: nat)
    requires i < |calls|
  {
    calls[i].name in cfg.outputs
  }

  /** The one output call that stands for the turn's output. */
  predicate FirstOutput(cfg: Config, calls: seq<ToolUse>, i: nat)
    requires i < |calls|
  {
    IsOutput(cfg, calls, i) && forall k :: 0 <= k < i ==> !IsOutput(cfg, calls, k)
  }

  /** The turn's output is put to its evaluator: there is one, nothing failed, and nothing asks for another round. */
  predicate Considered(cfg: Config, calls: seq<ToolUse>, regular: Regular) {
    (calls == [] || HasOutput(cfg, calls)) && regular.fatal.None? && !regular.continues
  }

  /** What a turn that does not suspend says of one call. */
  predicate AnswersCall(env: Env, cfg: Config, ls: Loop, assistant: Message, regular: Regular, i: nat, r: Executed)
    requires i < |GetToolUses(assistant)|
  {
    var calls := GetToolUses(assistant);
    var call := calls[i];
    if FirstOutput(cfg, calls, i) then
      if Considered(cfg, calls, regular) && env.evaluate(ls.iteration, assistant).None? then
        r == Executed(ToolResult(call.id, call.name, "Output accepted.", false), NoCause)
      else IsFailure(call, r)
    else if IsOutput(cfg, calls, i) || EndsEarly(cfg, calls) then IsFailure(call, r)
    else if call.id in regular.results then r == regular.results[call.id]
    else IsFailure(call, r)
  }

  /** What the turn comes to beyond its results. */
  ghost predicate Concludes(env: Env, cfg: Config, ls: Loop, assistant: Message, regular: Regular, c: Completed) {
    var calls := GetToolUses(assistant);
    var considered, verdict := Considered(cfg, calls, regular), env.evaluate(ls.iteration, assistant);
    && (c.outcome.candidate <==> considered && verdict.None?)
    && (c.outcome.continues <==>
          || regular.continues || regular.fatal.Some? || (considered && verdict.Some?)
          || (HasOutput(cfg, calls) && !considered))
    && c.ls.validationRetries == ls.validationRetries + (if considered && verdict.Some? then 1 else 0)
    && (regular.fatal.Some? ==> c.outcome.fatal == regular.fatal)
    && (considered && verdict.Some? && ls.validationRetries + 1 > cfg.maxValidationRetries ==> c.outcome.fatal.Some?)
    && (Reliable(env) && c.outcome.fatal.Some? ==>
          regular.fatal.Some? || (considered && verdict.Some? && ls.validationRetries + 1 > cfg.maxValidationRetries))
  }

  lemma {:induction false} NoneBefore(cfg: Config, calls: seq<ToolUse>)
    ensures forall k :: 0 <= k < OutputIndex(cfg, calls) ==> !IsOutput(cfg, calls, k)
    decreases calls
  {
    if calls != [] && calls[0].name !in cfg.outputs {
      NoneBefore(cfg, calls[1..]);
      forall k | 0 <= k < OutputIndex(cfg, calls) ensures !IsOutput(cfg, calls, k) {
        assert k > 0 ==> !IsOutput(cfg, calls[1..], k - 1);
      }
    }
  }

  lemma OutputFirst(cfg: Config, calls: seq<ToolUse>)
    ensures var i := OutputIndex(cfg, calls);
      && (i < |calls| <==> HasOutput(cfg, calls)) && (i < |calls| ==> FirstOutput(cfg, calls, i))
      && forall k :: 0 <= k < |calls| && FirstOutput(cfg, calls, k) ==> k == i
  {
    NoneBefore(cfg, calls);
    var i := OutputIndex(cfg, calls);
    hide OutputIndex;
    assert i < |calls| ==> IsOutput(cfg, calls, i);
    forall k | 0 <= k < |calls| && FirstOutput(cfg, calls, k) ensures k == i {
      assert IsOutput(cfg, calls, k);
    }
    if HasOutput(cfg, calls) {
      var k :| 0 <= k < |calls| && calls[k].name in cfg.outputs;
      assert IsOutput(cfg, calls, k);
    }
  }

  /** The slot of a call before the output is judged. */
  lemma SlotAnswers(cfg: Config, calls: seq<ToolUse>, i: nat, regular: Regular)
    requires i < |calls|
    ensures var r := TurnResult(cfg, calls, i, regular);
      if IsOutput(cfg, calls, i) || EndsEarly(cfg, calls) || calls[i].id !in regular.results then IsFailure(calls[i], r)
      else r == regular.results[calls[i].id]
  {
    OutputFirst(cfg, calls);
    hide OutputIndex, ErrorResult, IsFailure, FirstOutput;
    ErrorFails(calls[i], "Skipped because the first output tool is the completion candidate.");
    ErrorFails(calls[i], "Skipped because early output ended the tool batch.");
    ErrorFails(calls[i], "Tool execution did not produce a paired result.");
  }

  lemma VerdictAnswers(env: Env, cfg: Config, ls: Loop, assistant: Message, calls: seq<ToolUse>, regular: Regular)
    requires calls == GetToolUses(assistant)
    ensures var judged := JudgeTurn(env, cfg, ls, assistant, calls, regular);
      var i := OutputIndex(cfg, calls);
      && (judged.verdict.Some? <==> i < |calls|)
      && (i < |calls| ==>
            if Considered(cfg, calls, regular) && env.evaluate(ls.iteration, assistant).None? then
              judged.verdict == Some(Executed(ToolResult(calls[i].id, calls[i].name, "Output accepted.", false), NoCause))
            else IsFailure(calls[i], judged.verdict.value))
  {
    OutputFirst(cfg, calls);
    hide GetToolUses, OutputIndex, ErrorResult, IsFailure, FirstOutput, Emit, FeedbackMessage;
    var i := OutputIndex(cfg, calls);
    if i < |calls| {
      ErrorFails(calls[i], "Output discarded because tool execution failed.");
      ErrorFails(calls[i], "Output discarded because another tool requires continuation.");
      if env.evaluate(ls.iteration, assistant).Some? {
        ErrorFails(calls[i], "Output validation failed: " + env.evaluate(ls.iteration, assistant).value);
      }
    }
  }

  /** What the turn says while it is completed: nothing that starts or plans a call, and its results. */
  predicate Says(before: Loop, c: Completed, reliable: bool) {
    && before.emitted <= c.ls.emitted
    && var events := c.ls.emitted[|before.emitted|..];
       && StartedIn(events) == [] && PlannedIn(events) == []
       && (reliable && c.outcome.suspension.None? ==> ResultsIn(events) == ResultsOf(c.outcome.results))
  }

  function ResultsOf(results: seq<Executed>): (told: seq<ToolResult>)
    ensures |told| == |results|
  {
    seq(|results|, i requires 0 <= i < |results| => results[i].result)
  }

  function Commits(results: seq<Executed>): (events: seq<J.Event>)
    ensures |events| == |results|
  {
    seq(|results|, i requires 0 <= i < |results| => J.ToolResultCommitted(results[i].result))
  }

  lemma {:induction false} ReadCommits(results: seq<Executed>)
    ensures StartedIn(Commits(results)) == [] && PlannedIn(Commits(results)) == [] && ResultsIn(Commits(results)) == ResultsOf(results)
    decreases |results|
  {
    if results != [] {
      var before := results[..|results| - 1];
      ReadCommits(before);
      assert Commits(results)[..|results| - 1] == Commits(before);
      assert ResultsOf(results) == ResultsOf(before) + [results[|results| - 1].result];
    }
  }

  lemma {:induction false} CommitsThem(env: Env, ls: Loop, results: seq<Executed>) returns (n: nat)
    ensures n <= |results| && (EmitResults(env, ls, results).1 <==> n == |results|) && (Reliable(env) ==> n == |results|)
    ensures EmitResults(env, ls, results).0 == ls.(emitted := ls.emitted + Commits(results[..n]))
    decreases results
  {
    hide Reliable;
    if results == [] {
      n := 0;
      assert ls.emitted + Commits(results[..0]) == ls.emitted;
    } else {
      var event := J.ToolResultCommitted(results[0].result);
      EmitAccepted(env, ls, event);
      var (next, ok) := Emit(env, ls, event);
      if ok {
        var m := CommitsThem(env, next, results[1..]);
        n := m + 1;
        assert results[..n] == [results[0]] + results[1..][..m];
        assert Commits(results[..n]) == [event] + Commits(results[1..][..m]);
        assert ls.emitted + [event] + Commits(results[1..][..m]) == ls.emitted + Commits(results[..n]);
      } else {
        n := 0;
        assert ls.emitted + Commits(results[..0]) == ls.emitted;
      }
    }
  }

  /** Judging says nothing about calls. */
  lemma {:induction false} JudgeSays(env: Env, cfg: Config, ls: Loop, assistant: Message, calls: seq<ToolUse>, regular: Regular)
      returns (said: seq<J.Event>)
    ensures var judged := JudgeTurn(env, cfg, ls, assistant, calls, regular);
      && judged.ls.emitted == ls.emitted + said && judged.ls.iteration == ls.iteration
      && StartedIn(said) == [] && PlannedIn(said) == [] && ResultsIn(said) == []
  {
    hide OutputIndex, ErrorResult, FeedbackMessage, Judge;
    if regular.fatal.None? && (calls == [] || OutputIndex(cfg, calls) < |calls|) && !regular.continues {
      said := VerdictSays(env, cfg, ls, assistant, if OutputIndex(cfg, calls) < |calls| then Some(calls[OutputIndex(cfg, calls)]) else None);
    } else {
      said := [];
    }
  }

  lemma VerdictSays(env: Env, cfg: Config, ls: Loop, assistant: Message, out: Option<ToolUse>) returns (said: seq<J.Event>)
    ensures var judged := Judge(env, cfg, ls, assistant, out);
      && judged.ls.emitted == ls.emitted + said && judged.ls.iteration == ls.iteration
      && StartedIn(said) == [] && PlannedIn(said) == [] && ResultsIn(said) == []
  {
    hide ErrorResult, FeedbackMessage, StartedIn, PlannedIn, ResultsIn;
    var judged := Judge(env, cfg, ls, assistant, out);
    said := judged.ls.emitted[|ls.emitted|..];
    ReadNone();
    if said != [] {
      assert said == [said[0]];
      ReadOne(said[0]);
    }
  }

  lemma ReadNone()
    ensures StartedIn([]) == [] && PlannedIn([]) == [] && ResultsIn([]) == []
  {
  }

  lemma {:induction false} JudgeConcludes(env: Env, cfg: Config, ls: Loop, assistant: Message, calls: seq<ToolUse>, regular: Regular)
    requires calls == GetToolUses(assistant)
    ensures var judged := JudgeTurn(env, cfg, ls, assistant, calls, regular);
      var considered, verdict := Considered(cfg, calls, regular), env.evaluate(ls.iteration, assistant);
      && (judged.candidate <==> considered && verdict.None?)
      && (judged.continues || regular.continues <==>
            || regular.continues || regular.fatal.Some? || (considered && verdict.Some?)
            || (HasOutput(cfg, calls) && !considered))
      && judged.ls.validationRetries == ls.validationRetries + (if considered && verdict.Some? then 1 else 0)
      && (regular.fatal.Some? ==> judged.fatal == regular.fatal)
      && (considered && verdict.Some? && ls.validationRetries + 1 > cfg.maxValidationRetries ==> judged.fatal.Some?)
      && (Reliable(env) && judged.fatal.Some? ==>
            regular.fatal.Some? || (considered && verdict.Some? && ls.validationRetries + 1 > cfg.maxValidationRetries))
  {
    OutputFirst(cfg, calls);
    hide GetToolUses, OutputIndex, ErrorResult, FeedbackMessage, FirstOutput;
  }

  /**
   * A turn that does not suspend: each call is answered as its stage recorded, the turn's output as its evaluator judged it, and that is what
   * is committed.
   */
  lemma {:induction false} CompletionAnswers(env: Env, cfg: Config, ls: Loop, assistant: Message, regular: Regular)
    ensures var c := CompleteWith(env, cfg, ls, assistant, regular);
      && c.outcome.suspension == regular.suspension && Says(ls, c, Reliable(env))
      && (regular.suspension.Some? ==> c.ls == ls)
      && (regular.suspension.None? ==>
            && |c.outcome.results| == |GetToolUses(assistant)| && Concludes(env, cfg, ls, assistant, regular, c)
            && forall i :: 0 <= i < |GetToolUses(assistant)| ==> AnswersCall(env, cfg, ls, assistant, regular, i, c.outcome.results[i]))
  {
    hide GetToolUses, TurnResults, OutputIndex, JudgeTurn, EmitResults, Reliable, AnswersCall, Concludes, HasOutput, ResultsOf, Commits;
    var c := CompleteWith(env, cfg, ls, assistant, regular);
    if regular.suspension.Some? {
      assert c.ls.emitted[|ls.emitted|..] == [];
    } else {
      var calls := GetToolUses(assistant);
      var judged := JudgeTurn(env, cfg, ls, assistant, calls, regular);
      var results := WithVerdict(TurnResults(cfg, calls, regular), OutputIndex(cfg, calls), judged.verdict);
      var said := JudgeSays(env, cfg, ls, assistant, calls, regular);
      var n := CommitsThem(env, judged.ls.(messages := judged.ls.messages + ResultMessages(results)), results);
      ReadConcat(said, Commits(results[..n]));
      ReadCommits(results[..n]);
      assert n == |results| ==> results[..n] == results;
      assert ls.emitted + said + Commits(results[..n]) == ls.emitted + (said + Commits(results[..n]));
      assert c.ls.emitted[|ls.emitted|..] == said + Commits(results[..n]);
      ConcludesThen(env, cfg, ls, assistant, regular);
      forall i | 0 <= i < |calls| ensures AnswersCall(env, cfg, ls, assistant, regular, i, results[i]) {
        ResultAnswers(env, cfg, ls, assistant, regular, i);
      }
    }
  }

  lemma {:induction false} ConcludesThen(env: Env, cfg: Config, ls: Loop, assistant: Message, regular: Regular)
    requires regular.suspension.None?
    ensures Concludes(env, cfg, ls, assistant, regular, CompleteWith(env, cfg, ls, assistant, regular))
  {
    hide GetToolUses, TurnResults, OutputIndex, JudgeTurn, EmitResults, Reliable, HasOutput, Considered;
    var calls := GetToolUses(assistant);
    JudgeConcludes(env, cfg, ls, assistant, calls, regular);
    var judged := JudgeTurn(env, cfg, ls, assistant, calls, regular);
    var results := WithVerdict(TurnResults(cfg, calls, regular), OutputIndex(cfg, calls), judged.verdict);
    var n := CommitsThem(env, judged.ls.(messages := judged.ls.messages + ResultMessages(results)), results);
  }

  lemma {:induction false} ResultAnswers(env: Env, cfg: Config, ls: Loop, assistant: Message, regular: Regular, i: nat)
    requires i < |GetToolUses(assistant)|
    ensures var calls := GetToolUses(assistant);
      var judged := JudgeTurn(env, cfg, ls, assistant, calls, regular);
      var results := WithVerdict(TurnResults(cfg, calls, regular), OutputIndex(cfg, calls), judged.verdict);
      |results| == |calls| && AnswersCall(env, cfg, ls, assistant, regular, i, results[i])
  {
    hide GetToolUses, JudgeTurn, TurnResult, IsFailure, Considered;
    var calls := GetToolUses(assistant);
    OutputFirst(cfg, calls);
    SlotAnswers(cfg, calls, i, regular);
    VerdictAnswers(env, cfg, ls, assistant, calls, regular);
    hide OutputIndex, FirstOutput;
  }

  // ---------------------------------------------------------------------
  // A whole turn.

  /** What becomes of the call at `i`: its output is judged, it is passed over, or the batch deals with it. */
  ghost predicate Fated(env: Env, cfg: Config, ls: Loop, calls: seq<ToolUse>, regular: seq<ToolUse>, i: nat, fate: Fate)
    requires i < |calls|
  {
    if IsOutput(cfg, calls, i) then fate == if FirstOutput(cfg, calls, i) then Candidate else Lost
    else if EndsEarly(cfg, calls) then fate == Lost
    else exists p :: 0 <= p < |regular| && regular[p] == calls[i] && fate == GateFate(env, cfg, ls, regular, p)
  }

  /** The result of a call is what its fate says. */
  ghost predicate Meets(env: Env, cfg: Config, ls: Loop, resumed: bool, fate: Fate, call: ToolUse, candidate: bool, r: Executed) {
    match fate
    case Fixed(result) => r == result
    case Attempted(run) => AnswersWith(env, cfg, ls, run, resumed, r)
    case Lost => IsFailure(call, r)
    case Candidate => if candidate then r == Executed(ToolResult(call.id, call.name, "Output accepted.", false), NoCause) else IsFailure(call, r)
  }

  /** What the gate is asked, what runs, and whether the turn suspends. */
  ghost predicate TurnRuns(env: Env, cfg: Config, ls: Loop, calls: seq<ToolUse>, regular: seq<ToolUse>, run: seq<ToolUse>,
                           planned: seq<seq<ToolUse>>, started: seq<ToolUse>, suspension: Option<Suspension>) {
    && Selects(regular, calls, Regulars(cfg, calls)) && started == run
    && if EndsEarly(cfg, calls) || regular == [] then run == [] && planned == [] && suspension.None?
       else
         && planned == [regular] && RunsUnder(env, cfg, ls, regular, run)
         && (suspension.Some? <==> GateSuspends(env, ls, regular) || SomeAsks(env, cfg, ls, run, false))
         && (suspension.Some? ==> SuspendsAs(env, cfg, ls, calls, regular, run, suspension.value))
  }

  /** A turn may stand for the run's output only if its evaluator accepts it and nothing in it failed or asks for another round. */
  ghost predicate MayComplete(env: Env, cfg: Config, ls: Loop, assistant: Message, regular: seq<ToolUse>, run: seq<ToolUse>, c: Completed) {
    var calls := GetToolUses(assistant);
    var accepted := (calls == [] || HasOutput(cfg, calls)) && env.evaluate(ls.iteration, assistant).None?;
    && (EndsEarly(cfg, calls) || regular == [] ==> (c.outcome.candidate <==> accepted))
    && (c.outcome.candidate ==> accepted && c.ls.totalRetries == ls.totalRetries && !SomeBreaks(env, cfg, ls, run, false))
    && (c.outcome.candidate && regular != [] && !EndsEarly(cfg, calls) ==>
          var outcome := env.gate(ls.iteration, regular);
          && outcome.Decided? && Acceptable(regular, outcome.decision) && !AnyContinues(outcome.decision.calls)
          && !Refuses(cfg, ls, regular, outcome.decision))
  }

  /**
   * A turn from the answer that asked for it: its events are the plan, the starts, and one result for each call. The calls that start are
   * exactly those the gate let run, in order; each result is what the fate of its call says.
   */
  ghost predicate TurnObeys(env: Env, cfg: Config, ls: Loop, assistant: Message, regular: seq<ToolUse>, run: seq<ToolUse>, fates: seq<Fate>,
                            c: Completed) {
    var calls := GetToolUses(assistant);
    && ls.emitted <= c.ls.emitted
    && var events := c.ls.emitted[|ls.emitted|..];
       && TurnRuns(env, cfg, ls, calls, regular, run, PlannedIn(events), StartedIn(events), c.outcome.suspension)
       && (c.outcome.suspension.None? ==>
             && |fates| == |calls| == |c.outcome.results| && ResultsIn(events) == ResultsOf(c.outcome.results)
             && (forall i :: 0 <= i < |calls| ==>
                   && Fated(env, cfg, ls, calls, regular, i, fates[i])
                   && Meets(env, cfg, ls, false, fates[i], calls[i], c.outcome.candidate, c.outcome.results[i]))
             && MayComplete(env, cfg, ls, assistant, regular, run, c)
             && c.ls.usage.counters == ls.usage.counters.(toolCalls := ls.usage.counters.toolCalls + |run|))
  }

  lemma StageOf(env: Env, cfg: Config, ls: Loop, calls: seq<ToolUse>)
    ensures RegularStage(env, cfg, ls, calls) == if EndsEarly(cfg, calls) then Stage(ls, NoRegular) else ExecuteRegular(env, cfg, ls, calls)
  {
    OutputFirst(cfg, calls);
    hide OutputIndex, ExecuteRegular;
  }

  lemma {:induction false} FreshTurn(env: Env, cfg: Config, ls: Loop, assistant: Message)
      returns (regular: seq<ToolUse>, run: seq<ToolUse>, fates: seq<Fate>)
    requires Reliable(env) && DistinctIds(GetToolUses(assistant)) && Run(Closed, ls.messages).Some?
    ensures TurnObeys(env, cfg, ls, assistant, regular, run, fates, CompleteTurn(env, cfg, ls, assistant, None))
  {
    hide GetToolUses, ExecuteRegular, CompleteWith, StageObeys, DistinctIds, Run, Reliable, RegularStage, TurnObeys, HasOutput;
    var calls := GetToolUses(assistant);
    StageOf(env, cfg, ls, calls);
    var stage := RegularStage(env, cfg, ls, calls);
    var n;
    regular, run, n := StageRuns(env, cfg, ls, calls);
    ReliableRuns(env, cfg, ls, calls, regular, run, n, ExecuteRegular(env, cfg, ls, calls));
    StageSame(env, cfg, ls, calls);
    if EndsEarly(cfg, calls) || regular == [] {
      run := [];
      fates := PassedOver(env, cfg, ls, assistant, regular);
    } else {
      fates := BatchTurn(env, cfg, ls, assistant, regular, run, stage);
    }
  }

  lemma ReliableRuns(env: Env, cfg: Config, ls: Loop, calls: seq<ToolUse>, regular: seq<ToolUse>, run: seq<ToolUse>, n: nat, stage: Stage)
    requires Reliable(env) && StageObeys(env, cfg, ls, calls, regular, run, n, stage)
    ensures StageObeys(env, cfg, ls, calls, regular, run, |run|, stage) && Selects(regular, calls, Regulars(cfg, calls))
    ensures regular == [] ==> stage == Stage(ls, NoRegular)
  {
    hide Selects, Carries, Met, RunsUnder, SuspendsAs, GateSuspends, SomeAsks, AllFailed, Reliable;
  }

  /** No call of the turn runs. */
  lemma {:induction false} PassedOver(env: Env, cfg: Config, ls: Loop, assistant: Message, regular: seq<ToolUse>) returns (fates: seq<Fate>)
    requires Reliable(env) && Selects(regular, GetToolUses(assistant), Regulars(cfg, GetToolUses(assistant)))
    requires EndsEarly(cfg, GetToolUses(assistant)) || regular == []
    ensures TurnObeys(env, cfg, ls, assistant, regular, [], fates, CompleteWith(env, cfg, ls, assistant, NoRegular))
  {
    hide GetToolUses, CompleteWith, Reliable, Selects, HasOutput, IsFailure;
    var calls, c := GetToolUses(assistant), CompleteWith(env, cfg, ls, assistant, NoRegular);
    CompletionAnswers(env, cfg, ls, assistant, NoRegular);
    CompletionUsage(env, cfg, ls, assistant, NoRegular);
    fates := seq(|calls|, i requires 0 <= i < |calls| => if FirstOutput(cfg, calls, i) then Candidate else Lost);
    forall i | 0 <= i < |calls|
      ensures Fated(env, cfg, ls, calls, regular, i, fates[i])
      ensures Meets(env, cfg, ls, false, fates[i], calls[i], c.outcome.candidate, c.outcome.results[i])
    {
      assert AnswersCall(env, cfg, ls, assistant, NoRegular, i, c.outcome.results[i]);
      if regular == [] {
        OnlyOutputs(cfg, calls, regular, i);
      }
    }
  }

  lemma OnlyOutputs(cfg: Config, calls: seq<ToolUse>, regular: seq<ToolUse>, i: nat)
    requires i < |calls| && Selects(regular, calls, Regulars(cfg, calls))
    ensures !IsOutput(cfg, calls, i) ==> exists p :: 0 <= p < |regular| && regular[p] == calls[i]
  {
    SelectsMembers(regular, calls, Regulars(cfg, calls));
    hide Selects;
    if !IsOutput(cfg, calls, i) {
      assert i in Regulars(cfg, calls);
    }
  }

  lemma {:induction false} CompletionUsage(env: Env, cfg: Config, ls: Loop, assistant: Message, regular: Regular)
    ensures var c := CompleteWith(env, cfg, ls, assistant, regular);
      c.ls.usage == ls.usage && c.ls.totalRetries == ls.totalRetries && c.ls.retryCounts == ls.retryCounts && c.ls.iteration == ls.iteration
  {
    hide GetToolUses, TurnResults, OutputIndex, WithVerdict, JudgeTurn, CommittedAll, Inert, EmitResults;
    var calls := GetToolUses(assistant);
    if regular.suspension.None? {
      var added := JudgedTranscript(env, cfg, ls, assistant, calls, regular);
      var judged := JudgeTurn(env, cfg, ls, assistant, calls, regular);
      var results := WithVerdict(TurnResults(cfg, calls, regular), OutputIndex(cfg, calls), judged.verdict);
      ResultsCommit(env, judged.ls.(messages := judged.ls.messages + ResultMessages(results)), results);
    }
  }

  /** The gate was asked, and its decision carried out. */
  lemma {:induction false} BatchTurn(env: Env, cfg: Config, ls: Loop, assistant: Message, regular: seq<ToolUse>, run: seq<ToolUse>, stage: Stage)
      returns (fates: seq<Fate>)
    requires Reliable(env) && DistinctIds(GetToolUses(assistant)) && regular != [] && !EndsEarly(cfg, GetToolUses(assistant))
    requires StageObeys(env, cfg, ls, GetToolUses(assistant), regular, run, |run|, stage)
    requires stage.ls.iteration == ls.iteration
    ensures TurnObeys(env, cfg, ls, assistant, regular, run, fates, CompleteWith(env, cfg, stage.ls, assistant, stage.regular))
  {
    hide GetToolUses, CompleteWith, Selects, HasOutput, Met, DistinctIds, Carries, MayComplete, Starts, RunsUnder, SuspendsAs, SomeAsks,
      GateSuspends, AnswersCall, Concludes, GateFate, AllFailed;
    var calls, c := GetToolUses(assistant), CompleteWith(env, cfg, stage.ls, assistant, stage.regular);
    assert env.sink(|ls.emitted|, J.ToolBatchPlanned(regular));
    assert run[..|run|] == run;
    CompletionAnswers(env, cfg, stage.ls, assistant, stage.regular);
    BatchEvents(ls, stage.ls, c, regular, run, Reliable(env));
    if stage.regular.suspension.None? {
      fates := BatchFates(env, cfg, ls, assistant, regular, run, stage, c);
      CompletionUsage(env, cfg, stage.ls, assistant, stage.regular);
      BatchCompletes(env, cfg, ls, assistant, regular, run, stage, c);
      CarriedUsage(env, cfg, ls, regular, run, stage);
    } else {
      fates := [];
    }
  }

  lemma CarriedUsage(env: Env, cfg: Config, ls: Loop, regular: seq<ToolUse>, run: seq<ToolUse>, stage: Stage)
    requires Carries(env, cfg, ls, regular, run, |run|, stage)
    ensures stage.ls.usage.counters == ls.usage.counters.(toolCalls := ls.usage.counters.toolCalls + |run|)
  {
    hide Granted;
  }

  lemma BatchEvents(ls: Loop, mid: Loop, c: Completed, regular: seq<ToolUse>, run: seq<ToolUse>, reliable: bool)
    requires Adds(ls, mid, [J.ToolBatchPlanned(regular)] + Starts(run)) && Says(mid, c, reliable)
    ensures ls.emitted <= c.ls.emitted
    ensures var events := c.ls.emitted[|ls.emitted|..];
      && PlannedIn(events) == [regular] && StartedIn(events) == run
      && (reliable && c.outcome.suspension.None? ==> ResultsIn(events) == ResultsOf(c.outcome.results))
  {
    hide Starts, StartedIn, PlannedIn, ResultsIn, ResultsOf;
    var first, later := [J.ToolBatchPlanned(regular)] + Starts(run), c.ls.emitted[|mid.emitted|..];
    BatchReads(regular, run, later);
    assert c.ls.emitted == ls.emitted + first + later;
    assert c.ls.emitted[|ls.emitted|..] == first + later;
  }

  lemma BatchReads(regular: seq<ToolUse>, run: seq<ToolUse>, later: seq<J.Event>)
    requires StartedIn(later) == [] && PlannedIn(later) == []
    ensures var events := [J.ToolBatchPlanned(regular)] + Starts(run) + later;
      PlannedIn(events) == [regular] && StartedIn(events) == run && ResultsIn(events) == ResultsIn(later)
  {
    var planned: seq<J.Event> := [J.ToolBatchPlanned(regular)];
    ReadOne(J.ToolBatchPlanned(regular));
    ReadStarts(run);
    ReadConcat(planned, Starts(run));
    ReadConcat(planned + Starts(run), later);
    hide Starts, StartedIn, PlannedIn, ResultsIn;
    assert run + [] == run && [] + run == run;
  }

  lemma {:induction false} BatchFates(env: Env, cfg: Config, ls: Loop, assistant: Message, regular: seq<ToolUse>, run: seq<ToolUse>, stage: Stage,
                                      c: Completed) returns (fates: seq<Fate>)
    requires var calls := GetToolUses(assistant);
      Selects(regular, calls, Regulars(cfg, calls)) && !EndsEarly(cfg, calls) && |c.outcome.results| == |calls|
    requires forall p :: 0 <= p < |regular| ==>
      Met(env, cfg, ls, false, GateFate(env, cfg, ls, regular, p), regular[p], true, stage.regular.results)
    requires forall i :: 0 <= i < |GetToolUses(assistant)| ==>
      AnswersCall(env, cfg, stage.ls, assistant, stage.regular, i, c.outcome.results[i])
    requires Concludes(env, cfg, stage.ls, assistant, stage.regular, c)
    ensures |fates| == |GetToolUses(assistant)|
    ensures forall i :: 0 <= i < |GetToolUses(assistant)| ==>
      && Fated(env, cfg, ls, GetToolUses(assistant), regular, i, fates[i])
      && Meets(env, cfg, ls, false, fates[i], GetToolUses(assistant)[i], c.outcome.candidate, c.outcome.results[i])
  {
    hide GetToolUses, Selects, HasOutput, Met, AnswersCall, Concludes, GateFate, Fated, Meets;
    var calls := GetToolUses(assistant);
    fates := [];
    while |fates| < |calls|
      invariant |fates| <= |calls|
      invariant forall i :: 0 <= i < |fates| ==>
        && Fated(env, cfg, ls, calls, regular, i, fates[i])
        && Meets(env, cfg, ls, false, fates[i], calls[i], c.outcome.candidate, c.outcome.results[i])
    {
      var fate := BatchFate(env, cfg, ls, assistant, regular, stage, c, |fates|);
      fates := fates + [fate];
    }
  }

  lemma {:induction false} BatchFate(env: Env, cfg: Config, ls: Loop, assistant: Message, regular: seq<ToolUse>, stage: Stage, c: Completed, i: nat)
      returns (fate: Fate)
    requires var calls := GetToolUses(assistant);
      Selects(regular, calls, Regulars(cfg, calls)) && !EndsEarly(cfg, calls) && |c.outcome.results| == |calls| && i < |calls|
    requires forall p :: 0 <= p < |regular| ==>
      Met(env, cfg, ls, false, GateFate(env, cfg, ls, regular, p), regular[p], true, stage.regular.results)
    requires AnswersCall(env, cfg, stage.ls, assistant, stage.regular, i, c.outcome.results[i])
    requires Concludes(env, cfg, stage.ls, assistant, stage.regular, c)
    ensures Fated(env, cfg, ls, GetToolUses(assistant), regular, i, fate)
    ensures Meets(env, cfg, ls, false, fate, GetToolUses(assistant)[i], c.outcome.candidate, c.outcome.results[i])
  {
    var calls := GetToolUses(assistant);
    OnlyOutputs(cfg, calls, regular, i);
    hide GetToolUses, Selects, HasOutput, GateFate, IsFailure, AnswersWith, Considered;
    if IsOutput(cfg, calls, i) {
      fate := if FirstOutput(cfg, calls, i) then Candidate else Lost;
    } else {
      var p :| 0 <= p < |regular| && regular[p] == calls[i];
      fate := GateFate(env, cfg, ls, regular, p);
      NoCandidate(env, cfg, ls, regular, p);
      assert Met(env, cfg, ls, false, fate, regular[p], true, stage.regular.results);
    }
  }

  lemma NoCandidate(env: Env, cfg: Config, ls: Loop, regular: seq<ToolUse>, p: nat)
    requires p < |regular|
    ensures !GateFate(env, cfg, ls, regular, p).Candidate?
  {
  }

  lemma {:induction false} BatchCompletes(env: Env, cfg: Config, ls: Loop, assistant: Message, regular: seq<ToolUse>, run: seq<ToolUse>, stage: Stage,
                                          c: Completed)
    requires Carries(env, cfg, ls, regular, run, |run|, stage) && Concludes(env, cfg, stage.ls, assistant, stage.regular, c)
    requires regular != [] && !EndsEarly(cfg, GetToolUses(assistant)) && stage.ls.iteration == ls.iteration
    requires c.ls.totalRetries == stage.ls.totalRetries
    ensures MayComplete(env, cfg, ls, assistant, regular, run, c)
  {
    hide GetToolUses, HasOutput, AnyContinues, Refuses, Acceptable, SomeBreaks, Granted, IsFailure;
  }

  // ---------------------------------------------------------------------
  // A resumed turn.

  /** What becomes of the call at `i` on a resumption: what the operator decided, if it was put to the operator. */
  ghost predicate Resumed(cfg: Config, calls: seq<ToolUse>, executable: seq<ToolUse>, decided: seq<Fate>, i: nat, fate: Fate)
    requires i < |calls| && |decided| == |executable|
  {
    if IsOutput(cfg, calls, i) then fate == if FirstOutput(cfg, calls, i) then Candidate else Lost
    else if EndsEarly(cfg, calls) || !Names(executable, calls[i].id) then fate == Lost
    else exists e :: 0 <= e < |executable| && executable[e] == calls[i] && fate == decided[e]
  }

  /**
   * A suspended turn, resumed: the calls that start are exactly those decided to execute, in the order of the envelope and on the arguments
   * decided on; each call is answered as its decision says, a supplied result as it was supplied. `mid` is the loop when the turn goes on.
   */
  ghost predicate ResumptionObeys(env: Env, cfg: Config, ls: Loop, tool: ToolSuspension, decisions: seq<ToolResumeDecision>, assistant: Message,
                                  executable: seq<ToolUse>, decided: seq<Fate>, fates: seq<Fate>, resolved: Loop, mid: Loop, c: Completed) {
    var calls, run := GetToolUses(assistant), Attempts(decided);
    && NamesEach(tool.calls, tool.executableIds, executable) && OperatorFates(decisions, executable, decided)
    && Adds(ls, resolved, Starts(run)) && mid.emitted <= c.ls.emitted
    && (c.outcome.suspension.Some? <==> SomeAsks(env, cfg, ls, run, tool.handlerSuspension))
    && var events := c.ls.emitted[|mid.emitted|..];
       && StartedIn(events) == [] && PlannedIn(events) == []
       && (c.outcome.suspension.None? ==>
             && |fates| == |calls| == |c.outcome.results| && ResultsIn(events) == ResultsOf(c.outcome.results)
             && (forall i :: 0 <= i < |calls| ==>
                   && Resumed(cfg, calls, executable, decided, i, fates[i])
                   && Meets(env, cfg, ls, tool.handlerSuspension, fates[i], calls[i], c.outcome.candidate, c.outcome.results[i]))
             && c.ls.usage.counters == ls.usage.counters.(toolCalls := ls.usage.counters.toolCalls + |run|)
             && (c.outcome.candidate ==>
                   && (calls == [] || HasOutput(cfg, calls)) && env.evaluate(ls.iteration, assistant).None?
                   && c.ls.totalRetries == ls.totalRetries && !SomeBreaks(env, cfg, ls, run, tool.handlerSuspension)))
  }

  lemma {:induction false} ResumedTurn(env: Env, cfg: Config, ls: Loop, tool: ToolSuspension, decisions: seq<ToolResumeDecision>,
                                       assistant: Message, mid: Loop)
      returns (executable: seq<ToolUse>, decided: seq<Fate>, fates: seq<Fate>)
    requires Reliable(env) && NamesOnce(tool) && tool.calls == GetToolUses(assistant)
    requires ResolveTools(env, cfg, ls, tool, decisions).ResolvedAs?
    requires mid == ResolveTools(env, cfg, ls, tool, decisions).stage.ls.(emitted := mid.emitted)
    ensures var stage := ResolveTools(env, cfg, ls, tool, decisions).stage;
      ResumptionObeys(env, cfg, ls, tool, decisions, assistant, executable, decided, fates, stage.ls, mid,
                      CompleteTurn(env, cfg, mid, assistant, Some(stage.regular)))
  {
    hide GetToolUses, CompleteWith, ResolveTools, NamesEach, OperatorFates, Reliable, DistinctIds, Attempts, Starts, SomeAsks, SomeBreaks, Met, Meets, Resumed,
      AnswersCall, Concludes, Granted, HasOutput, NamesOnce;
    var stage := ResolveTools(env, cfg, ls, tool, decisions).stage;
    var n;
    NamedCalls(tool);
    executable, decided, n := ResolutionRuns(env, cfg, ls, tool, decisions);
    ResolutionIteration(env, cfg, ls, tool, decisions);
    assert Attempts(decided)[..|Attempts(decided)|] == Attempts(decided);
    var c := CompleteWith(env, cfg, mid, assistant, stage.regular);
    CompletionAnswers(env, cfg, mid, assistant, stage.regular);
    if stage.regular.suspension.None? {
      FatesGiven(decisions, executable, decided);
      fates := ResumedFates(env, cfg, ls, tool, assistant, executable, decided, mid, stage.regular, c);
      CompletionUsage(env, cfg, mid, assistant, stage.regular);
      ResumedCompletes(env, cfg, mid, assistant, stage.regular, c);
    } else {
      fates := [];
    }
  }

  lemma {:induction false} ResolutionIteration(env: Env, cfg: Config, ls: Loop, tool: ToolSuspension, decisions: seq<ToolResumeDecision>)
    ensures var r := ResolveTools(env, cfg, ls, tool, decisions); r.ResolvedAs? ==> r.stage.ls.iteration == ls.iteration
  {
    hide Admit, NewSuspension, SuspendableAlone, WithinToolLimit, SortDecisions, ExecutableCalls, SameTranscript;
    var executable := ExecutableCalls(cfg, tool.calls, tool.executableIds);
    if executable.Some? {
      var sorted := SortDecisions(cfg, executable.value, tool.handlerSuspension, decisions);
      if sorted.Some? {
        AdmitSame(env, cfg, Stage(ls, NoRegular.(results := sorted.value.results)), sorted.value.toExecute, tool.handlerSuspension);
        SameIteration();
      }
    }
  }

  lemma SameIteration()
    ensures forall a: Loop, b: Loop :: SameTranscript(a, b) ==> a.iteration == b.iteration
  {
  }

  lemma FatesGiven(decisions: seq<ToolResumeDecision>, executable: seq<ToolUse>, decided: seq<Fate>)
    requires OperatorFates(decisions, executable, decided)
    ensures |decided| == |executable| && forall e :: 0 <= e < |decided| ==> decided[e].Fixed? || decided[e].Attempted?
  {
    forall e | 0 <= e < |decided| ensures decided[e].Fixed? || decided[e].Attempted? {
      assert OperatorFate(decisions, executable[e], decided[e]);
    }
  }

  lemma ResumedCompletes(env: Env, cfg: Config, mid: Loop, assistant: Message, regular: Regular, c: Completed)
    requires Concludes(env, cfg, mid, assistant, regular, c)
    ensures c.outcome.candidate ==>
      && (GetToolUses(assistant) == [] || HasOutput(cfg, GetToolUses(assistant))) && env.evaluate(mid.iteration, assistant).None?
      && regular.fatal.None? && !regular.continues
  {
    hide GetToolUses, HasOutput;
  }

  lemma {:induction false} ResumedFates(env: Env, cfg: Config, ls: Loop, tool: ToolSuspension, assistant: Message, executable: seq<ToolUse>,
                                        decided: seq<Fate>, mid: Loop, regular: Regular, c: Completed) returns (fates: seq<Fate>)
    requires NamesEach(GetToolUses(assistant), tool.executableIds, executable) && DistinctIds(GetToolUses(assistant))
    requires |decided| == |executable| && |c.outcome.results| == |GetToolUses(assistant)|
    requires forall e :: 0 <= e < |decided| ==> decided[e].Fixed? || decided[e].Attempted?
    requires forall e :: 0 <= e < |executable| ==>
      Met(env, cfg, ls, tool.handlerSuspension, decided[e], executable[e], true, regular.results)
    requires forall id :: !Names(executable, id) ==> id !in regular.results
    requires forall i :: 0 <= i < |GetToolUses(assistant)| ==> AnswersCall(env, cfg, mid, assistant, regular, i, c.outcome.results[i])
    requires Concludes(env, cfg, mid, assistant, regular, c)
    ensures |fates| == |GetToolUses(assistant)|
    ensures forall i :: 0 <= i < |GetToolUses(assistant)| ==>
      && Resumed(cfg, GetToolUses(assistant), executable, decided, i, fates[i])
      && Meets(env, cfg, ls, tool.handlerSuspension, fates[i], GetToolUses(assistant)[i], c.outcome.candidate, c.outcome.results[i])
  {
    hide GetToolUses, HasOutput, Met, AnswersCall, Concludes, Resumed, Meets, NamesEach, DistinctIds, Names;
    var calls := GetToolUses(assistant);
    fates := [];
    while |fates| < |calls|
      invariant |fates| <= |calls|
      invariant forall i :: 0 <= i < |fates| ==>
        && Resumed(cfg, calls, executable, decided, i, fates[i])
        && Meets(env, cfg, ls, tool.handlerSuspension, fates[i], calls[i], c.outcome.candidate, c.outcome.results[i])
    {
      var fate := ResumedFate(env, cfg, ls, tool, assistant, executable, decided, mid, regular, c, |fates|);
      fates := fates + [fate];
    }
  }

  lemma {:induction false} ResumedFate(env: Env, cfg: Config, ls: Loop, tool: ToolSuspension, assistant: Message, executable: seq<ToolUse>,
                                       decided: seq<Fate>, mid: Loop, regular: Regular, c: Completed, i: nat) returns (fate: Fate)
    requires NamesEach(GetToolUses(assistant), tool.executableIds, executable) && DistinctIds(GetToolUses(assistant))
    requires |decided| == |executable| && |c.outcome.results| == |GetToolUses(assistant)| && i < |GetToolUses(assistant)|
    requires forall e :: 0 <= e < |decided| ==> decided[e].Fixed? || decided[e].Attempted?
    requires forall e :: 0 <= e < |executable| ==>
      Met(env, cfg, ls, tool.handlerSuspension, decided[e], executable[e], true, regular.results)
    requires forall id :: !Names(executable, id) ==> id !in regular.results
    requires AnswersCall(env, cfg, mid, assistant, regular, i, c.outcome.results[i]) && Concludes(env, cfg, mid, assistant, regular, c)
    ensures Resumed(cfg, GetToolUses(assistant), executable, decided, i, fate)
    ensures Meets(env, cfg, ls, tool.handlerSuspension, fate, GetToolUses(assistant)[i], c.outcome.candidate, c.outcome.results[i])
  {
    var calls := GetToolUses(assistant);
    hide GetToolUses, HasOutput, IsFailure, AnswersWith, Considered;
    if IsOutput(cfg, calls, i) {
      fate := if FirstOutput(cfg, calls, i) then Candidate else Lost;
    } else if EndsEarly(cfg, calls) || !Names(executable, calls[i].id) {
      fate := Lost;
    } else {
      var e :| 0 <= e < |executable| && executable[e].id == calls[i].id;
      var k :| 0 <= k < |calls| && calls[k] == executable[e];
      assert k == i;
      fate := decided[e];
      assert Met(env, cfg, ls, tool.handlerSuspension, decided[e], executable[e], true, regular.results);
    }
  }
}
