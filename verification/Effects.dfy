/** What a turn runs and what it answers, call by call, read off the gate's decision, the operator's decisions and the handlers' replies. */
module Effects {
  import opened Messages
  import opened Pairing
  import opened Usages
  import opened Suspensions
  import opened Selections
  import opened ToolControl
  import opened Scheduler
  import opened ResumePlan
  import opened Turns
  import opened Resuming
  import opened TurnLaws
  import J = Journals

  // ---------------------------------------------------------------------
  // Read off the events.

  /** The calls that started. */
  function StartedIn(events: seq<J.Event>): seq<ToolUse> {
    if events == [] then []
    else
      var last := events[|events| - 1];
      StartedIn(events[..|events| - 1]) + (if last.ToolStarted? then [last.call] else [])
  }

  /** The results that were committed. */
  function ResultsIn(events: seq<J.Event>): seq<ToolResult> {
    if events == [] then []
    else
      var last := events[|events| - 1];
      ResultsIn(events[..|events| - 1]) + (if last.ToolResultCommitted? then [last.result] else [])
  }

  /** The batches put to the gate. */
  function PlannedIn(events: seq<J.Event>): seq<seq<ToolUse>> {
    if events == [] then []
    else
      var last := events[|events| - 1];
      PlannedIn(events[..|events| - 1]) + (if last.ToolBatchPlanned? then [last.calls] else [])
  }

  lemma {:induction false} ReadConcat(a: seq<J.Event>, b: seq<J.Event>)
    ensures StartedIn(a + b) == StartedIn(a) + StartedIn(b)
    ensures ResultsIn(a + b) == ResultsIn(a) + ResultsIn(b)
    ensures PlannedIn(a + b) == PlannedIn(a) + PlannedIn(b)
    decreases |b|
  {
    if b == [] {
      assert a + b == a;
    } else {
      assert (a + b)[..|a + b| - 1] == a + b[..|b| - 1];
      ReadConcat(a, b[..|b| - 1]);
    }
  }

  lemma ReadOne(event: J.Event)
    ensures StartedIn([event]) == (if event.ToolStarted? then [event.call] else [])
    ensures ResultsIn([event]) == (if event.ToolResultCommitted? then [event.result] else [])
    ensures PlannedIn([event]) == (if event.ToolBatchPlanned? then [event.calls] else [])
  {
    assert [event][..0] == [];
  }

  /** The loop has said exactly these events since. */
  predicate Adds(before: Loop, after: Loop, events: seq<J.Event>) {
    after.emitted == before.emitted + events
  }

  function Starts(calls: seq<ToolUse>): (events: seq<J.Event>)
    ensures |events| == |calls|
  {
    seq(|calls|, i requires 0 <= i < |calls| => J.ToolStarted(calls[i]))
  }

  lemma {:induction false} ReadStarts(calls: seq<ToolUse>)
    ensures StartedIn(Starts(calls)) == calls && ResultsIn(Starts(calls)) == [] && PlannedIn(Starts(calls)) == []
    decreases |calls|
  {
    if calls != [] {
      var before := calls[..|calls| - 1];
      ReadStarts(before);
      assert Starts(calls)[..|calls| - 1] == Starts(before);
    }
  }

  // ---------------------------------------------------------------------
  // What the handler of a call answers.

  /** A result that says the call failed. */
  predicate IsFailure(call: ToolUse, r: Executed) {
    Identified(call, r) && r.result.isError && r.cause != NoCause
  }

  /** The handler's reply, on the attempt that the retries of its tool so far make. */
  function ReplyTo(env: Env, ls: Loop, call: ToolUse, resumed: bool): HandlerReply {
    env.handler(ls.iteration, call, (if call.name in ls.retryCounts then ls.retryCounts[call.name] else 0) + 1, resumed)
  }

  /** A handler that may suspend, and did so without an answer of its own. */
  predicate AsksFor(env: Env, cfg: Config, ls: Loop, call: ToolUse, resumed: bool, deferral: Deferral) {
    var reply := ReplyTo(env, ls, call, resumed);
    && !env.abandons(ls.iteration, call) && reply.error.None? && !reply.nilSuspension && reply.asks == Some(deferral)
    && call.name in cfg.suspendable && deferral.kind != ""
    && Identified(call, reply.result) && !reply.result.result.isError && reply.result.cause == NoCause
  }

  /** The handler failed, or asked for a suspension it may not have. */
  predicate Breaks(env: Env, cfg: Config, ls: Loop, call: ToolUse, resumed: bool) {
    var reply := ReplyTo(env, ls, call, resumed);
    && !env.abandons(ls.iteration, call)
    && (reply.error.Some? || reply.nilSuspension || (reply.asks.Some? && !AsksFor(env, cfg, ls, call, resumed, reply.asks.value)))
  }

  /** What running the call gives: its own result, or a failure where it did not stop in time or broke. */
  predicate Gives(env: Env, cfg: Config, ls: Loop, call: ToolUse, resumed: bool, raw: Executed) {
    if env.abandons(ls.iteration, call) || Breaks(env, cfg, ls, call, resumed) then IsFailure(call, raw)
    else raw == ReplyTo(env, ls, call, resumed).result
  }

  /** What the result processor makes of it: its own version, as long as that keeps the call's identity and its error; otherwise a failure. */
  predicate Shows(env: Env, cfg: Config, call: ToolUse, raw: Executed, r: Executed) {
    if !Identified(call, raw) then IsFailure(call, r)
    else if !cfg.processor then r == raw
    else
      match env.process(call, raw)
      case ProcessFailed(_) => IsFailure(call, r)
      case Processed(p) =>
        if Identified(call, p) && (raw.result.isError ==> p.result.isError) && (raw.cause != NoCause ==> p.cause != NoCause) then r == p
        else IsFailure(call, r)
  }

  /** The result a call that ran is answered with. */
  ghost predicate AnswersWith(env: Env, cfg: Config, ls: Loop, call: ToolUse, resumed: bool, r: Executed) {
    exists raw :: Gives(env, cfg, ls, call, resumed, raw) && Shows(env, cfg, call, raw, r)
  }

  lemma ErrorFails(call: ToolUse, text: string)
    ensures IsFailure(call, ErrorResult(call, text, OtherCause))
  {
  }

  /** A deferral the scheduler takes, refuses, or does not see. */
  lemma DeferralTaken(call: ToolUse, suspendable: bool, reply: HandlerReply)
    ensures var check, slot := HandlerDeferral(call, suspendable, reply), SettleReply(call, suspendable, reply);
      var taken := reply.asks.Some? && !reply.nilSuspension && suspendable && Identified(call, reply.result) && !reply.result.result.isError
                   && reply.result.cause == NoCause && reply.asks.value.kind != "";
      && (slot.deferral == if reply.error.None? && taken then reply.asks else None)
      && (slot.failed <==> reply.error.Some? || reply.nilSuspension || (reply.asks.Some? && !taken))
      && (if slot.failed then IsFailure(call, slot.result) else slot.result == reply.result)
  {
    hide ErrorResult, Identified, IsFailure;
    var check := HandlerDeferral(call, suspendable, reply);
    match (reply.error, check)
    case (Some(text), DeferralRefused(other)) => ErrorFails(call, text + "\n" + other);
    case (Some(text), _) => ErrorFails(call, text);
    case (None, DeferralRefused(other)) => ErrorFails(call, other);
    case (None, _) =>
  }

  lemma AbandonedFails(call: ToolUse)
    ensures IsFailure(call, Abandoned(call))
  {
    hide Identified;
    ErrorFails(call, "Tool execution did not stop before cancellation grace; side effects may still be running.");
  }

  lemma SlotGives(env: Env, cfg: Config, ls: Loop, call: ToolUse, resumed: bool)
    ensures var slot := Slot(env, cfg, ls, call, resumed);
      && (slot.deferral.Some? ==> AsksFor(env, cfg, ls, call, resumed, slot.deferral.value))
      && (slot.deferral.None? ==> forall d :: !AsksFor(env, cfg, ls, call, resumed, d))
      && (slot.failed <==> Breaks(env, cfg, ls, call, resumed))
      && (slot.deferral.None? ==> Gives(env, cfg, ls, call, resumed, slot.result))
  {
    hide SettleReply, HandlerDeferral, Abandoned, IsFailure, Identified;
    DeferralTaken(call, call.name in cfg.suspendable, ReplyTo(env, ls, call, resumed));
    AbandonedFails(call);
  }

  lemma ProjectShows(env: Env, cfg: Config, call: ToolUse, raw: Executed)
    ensures Shows(env, cfg, call, raw, Project(call, raw, if cfg.processor then Some(env.process(call, raw)) else None).0)
  {
    hide ErrorResult, Identified, IsFailure;
    ErrorFails(call, "Tool execution returned an invalid result identity.");
    if cfg.processor {
      match env.process(call, raw)
      case ProcessFailed(text) => ErrorFails(call, "Tool handler may have completed, but result processing failed: " + text);
      case Processed(_) =>
        ErrorFails(call, "Tool result processing changed call identity.");
        ErrorFails(call, "Tool result processing changed an error into success.");
        ErrorFails(call, "Tool result processing removed execution error truth.");
    }
  }

  // ---------------------------------------------------------------------
  // Taking in the answers of a batch.

  /** Each call has its answer, and the results of other calls are as they were. */
  ghost predicate AllAnswered(env: Env, cfg: Config, ls: Loop, calls: seq<ToolUse>, resumed: bool, before: map<string, Executed>,
                           after: map<string, Executed>) {
    && (forall j :: 0 <= j < |calls| ==> calls[j].id in after && AnswersWith(env, cfg, ls, calls[j], resumed, after[calls[j].id]))
    && Elsewhere(calls, before, after)
  }

  predicate Names(calls: seq<ToolUse>, id: string) {
    exists j :: 0 <= j < |calls| && calls[j].id == id
  }

  ghost predicate Elsewhere(calls: seq<ToolUse>, before: map<string, Executed>, after: map<string, Executed>) {
    forall id :: !Names(calls, id) ==> (id in after <==> id in before) && (id in before ==> after[id] == before[id])
  }

  /** How often the answers of a batch ask for another attempt at a tool. */
  function RetriesAsked(calls: seq<ToolUse>, results: map<string, Executed>, name: string): nat {
    if calls == [] then 0
    else
      var call := calls[0];
      (if call.name == name && call.id in results && results[call.id].cause == RetryCause then 1 else 0) + RetriesAsked(calls[1..], results, name)
  }

  /** A count raised so often, but never past its bound. */
  function Raised(count: nat, more: nat, bound: nat): nat {
    if count + more <= bound then count + more else if count <= bound then bound else count
  }

  /** Every attempt asked for is granted while the budget of its tool lasts. */
  ghost predicate Granted(cfg: Config, before: Loop, after: Loop, calls: seq<ToolUse>, results: map<string, Executed>) {
    && before.totalRetries <= after.totalRetries
    && forall name :: CountOf(after.retryCounts, name)
         == Raised(CountOf(before.retryCounts, name), RetriesAsked(calls, results, name), cfg.maxRetries(name))
  }

  lemma TakenOneAnswers(env: Env, cfg: Config, ls: Loop, s: Stage, call: ToolUse, resumed: bool)
    requires Slot(env, cfg, ls, call, resumed).deferral.None?
    ensures var t := TakeResult(env, cfg, s, call, Slot(env, cfg, ls, call, resumed).result);
      && call.id in t.regular.results && AnswersWith(env, cfg, ls, call, resumed, t.regular.results[call.id])
      && t.regular.results == s.regular.results[call.id := t.regular.results[call.id]]
  {
    hide Gives, Shows, Slot, Project;
    var raw := Slot(env, cfg, ls, call, resumed).result;
    SlotGives(env, cfg, ls, call, resumed);
    ProjectShows(env, cfg, call, raw);
  }

  lemma {:induction false} TakenAnswers(env: Env, cfg: Config, ls: Loop, s: Stage, calls: seq<ToolUse>, slots: seq<Settled>, resumed: bool)
    requires |slots| == |calls| && DistinctIds(calls)
    requires forall i :: 0 <= i < |calls| ==> slots[i] == Slot(env, cfg, ls, calls[i], resumed) && slots[i].deferral.None?
    ensures AllAnswered(env, cfg, ls, calls, resumed, s.regular.results, TakeResults(env, cfg, s, calls, slots).regular.results)
    decreases calls
  {
    hide AnswersWith, TakeResult, Slot;
    if calls == [] {
      NamesNothing(s.regular.results);
    } else {
      var next, rest := TakeResult(env, cfg, s, calls[0], slots[0].result), calls[1..];
      TakenOneAnswers(env, cfg, ls, s, calls[0], resumed);
      TakenAnswers(env, cfg, ls, next, rest, slots[1..], resumed);
      AnsweredCons(env, cfg, ls, calls, resumed, s.regular.results, next.regular.results,
                   TakeResults(env, cfg, s, calls, slots).regular.results);
    }
  }

  lemma NamesNothing(results: map<string, Executed>)
    ensures Elsewhere([], results, results)
  {
  }

  lemma NamesCons(calls: seq<ToolUse>)
    requires calls != []
    ensures Names(calls, calls[0].id) && forall id :: Names(calls[1..], id) ==> Names(calls, id)
  {
    var rest := calls[1..];
    forall id | Names(rest, id) ensures Names(calls, id) {
      var j :| 0 <= j < |rest| && rest[j].id == id;
      assert calls[j + 1].id == id;
    }
  }

  lemma AnsweredCons(env: Env, cfg: Config, ls: Loop, calls: seq<ToolUse>, resumed: bool, before: map<string, Executed>,
                     next: map<string, Executed>, after: map<string, Executed>)
    requires calls != [] && DistinctIds(calls) && calls[0].id in next && next == before[calls[0].id := next[calls[0].id]]
    requires AnswersWith(env, cfg, ls, calls[0], resumed, next[calls[0].id]) && AllAnswered(env, cfg, ls, calls[1..], resumed, next, after)
    ensures AllAnswered(env, cfg, ls, calls, resumed, before, after)
  {
    hide AnswersWith;
    var rest := calls[1..];
    assert !Names(rest, calls[0].id);
    forall j | 0 <= j < |calls| ensures calls[j].id in after && AnswersWith(env, cfg, ls, calls[j], resumed, after[calls[j].id]) {
      assert j > 0 ==> calls[j] == rest[j - 1];
    }
    NamesCons(calls);
  }

  lemma {:induction false} RetriesElsewhere(calls: seq<ToolUse>, a: map<string, Executed>, b: map<string, Executed>, name: string)
    requires forall j :: 0 <= j < |calls| ==> calls[j].id in a && calls[j].id in b && a[calls[j].id] == b[calls[j].id]
    ensures RetriesAsked(calls, a, name) == RetriesAsked(calls, b, name)
    decreases calls
  {
    if calls != [] {
      RetriesElsewhere(calls[1..], a, b, name);
    }
  }

  lemma TakenOneGranted(env: Env, cfg: Config, s: Stage, call: ToolUse, result: Executed)
    ensures var t := TakeResult(env, cfg, s, call, result);
      && Granted(cfg, s.ls, t.ls, [call], t.regular.results) && call.id in t.regular.results
      && s.ls.totalRetries <= t.ls.totalRetries
      && (t.regular.continues <==> s.regular.continues || t.ls.totalRetries > s.ls.totalRetries)
      && t.ls.usage.counters == s.ls.usage.counters.(toolCalls := s.ls.usage.counters.toolCalls + 1)
  {
    hide Project;
    var t := TakeResult(env, cfg, s, call, result);
    forall name ensures RetriesAsked([call], t.regular.results, name)
      == if call.name == name && t.regular.results[call.id].cause == RetryCause then 1 else 0 {
      assert RetriesAsked([call][1..], t.regular.results, name) == 0;
    }
  }

  lemma {:induction false} TakenGranted(env: Env, cfg: Config, s: Stage, calls: seq<ToolUse>, slots: seq<Settled>)
    requires |slots| == |calls| && DistinctIds(calls)
    ensures var t := TakeResults(env, cfg, s, calls, slots);
      && Granted(cfg, s.ls, t.ls, calls, t.regular.results) && s.ls.totalRetries <= t.ls.totalRetries
      && (t.regular.continues <==> s.regular.continues || t.ls.totalRetries > s.ls.totalRetries)
      && t.ls.usage.counters == s.ls.usage.counters.(toolCalls := s.ls.usage.counters.toolCalls + |calls|)
      && Elsewhere(calls, s.regular.results, t.regular.results) && (forall j :: 0 <= j < |calls| ==> calls[j].id in t.regular.results)
    decreases calls
  {
    hide TakeResult, Granted;
    if calls == [] {
      NothingGranted(cfg, s.ls, s.regular.results);
      NamesNothing(s.regular.results);
    } else {
      var next, rest := TakeResult(env, cfg, s, calls[0], slots[0].result), calls[1..];
      TakenOneGranted(env, cfg, s, calls[0], slots[0].result);
      TakenOneRecords(env, cfg, s, calls[0], slots[0].result);
      TakenGranted(env, cfg, next, rest, slots[1..]);
      var t := TakeResults(env, cfg, s, calls, slots);
      ElsewhereCons(calls, s.regular.results, next.regular.results, t.regular.results);
      GrantedCons(cfg, s.ls, next.ls, t.ls, calls, next.regular.results, t.regular.results);
    }
  }

  lemma TakenOneRecords(env: Env, cfg: Config, s: Stage, call: ToolUse, result: Executed)
    ensures var t := TakeResult(env, cfg, s, call, result).regular.results;
      call.id in t && t == s.regular.results[call.id := t[call.id]]
  {
    hide Project;
  }

  lemma ElsewhereCons(calls: seq<ToolUse>, before: map<string, Executed>, next: map<string, Executed>, after: map<string, Executed>)
    requires calls != [] && DistinctIds(calls) && calls[0].id in next && next == before[calls[0].id := next[calls[0].id]]
    requires Elsewhere(calls[1..], next, after)
    ensures Elsewhere(calls, before, after) && calls[0].id in after && after[calls[0].id] == next[calls[0].id]
  {
    var rest := calls[1..];
    assert !Names(rest, calls[0].id);
    NamesCons(calls);
  }

  lemma NothingGranted(cfg: Config, ls: Loop, results: map<string, Executed>)
    ensures Granted(cfg, ls, ls, [], results)
  {
  }

  lemma GrantedCons(cfg: Config, a: Loop, b: Loop, c: Loop, calls: seq<ToolUse>, mid: map<string, Executed>, results: map<string, Executed>)
    requires calls != [] && calls[0].id in mid && calls[0].id in results && results[calls[0].id] == mid[calls[0].id]
    requires Granted(cfg, a, b, [calls[0]], mid) && Granted(cfg, b, c, calls[1..], results)
    ensures Granted(cfg, a, c, calls, results)
  {
    forall name ensures RetriesAsked(calls, results, name) == RetriesAsked([calls[0]], mid, name) + RetriesAsked(calls[1..], results, name) {
      assert RetriesAsked([calls[0]][1..], mid, name) == 0;
    }
  }

  // ---------------------------------------------------------------------
  // Starting a batch.

  lemma {:induction false} StartsThem(env: Env, ls: Loop, calls: seq<ToolUse>) returns (n: nat)
    ensures n <= |calls| && (EmitStarted(env, ls, calls).1 <==> n == |calls|) && (Reliable(env) ==> n == |calls|)
    ensures EmitStarted(env, ls, calls).0 == ls.(emitted := ls.emitted + Starts(calls[..n]))
    decreases calls
  {
    hide Reliable;
    if calls == [] {
      n := 0;
      assert ls.emitted + Starts(calls[..0]) == ls.emitted;
    } else {
      EmitAccepted(env, ls, J.ToolStarted(calls[0]));
      var (next, ok) := Emit(env, ls, J.ToolStarted(calls[0]));
      if ok {
        var m := StartsThem(env, next, calls[1..]);
        n := m + 1;
        assert calls[..n] == [calls[0]] + calls[1..][..m];
        assert Starts(calls[..n]) == [J.ToolStarted(calls[0])] + Starts(calls[1..][..m]);
        assert ls.emitted + [J.ToolStarted(calls[0])] + Starts(calls[1..][..m]) == ls.emitted + Starts(calls[..n]);
      } else {
        n := 0;
        assert ls.emitted + Starts(calls[..0]) == ls.emitted;
      }
    }
  }

  lemma EmitAccepted(env: Env, ls: Loop, event: J.Event)
    ensures Reliable(env) ==> Emit(env, ls, event).1
  {
  }

  lemma {:induction false} DeferralIsFirst(slots: seq<Settled>)
    ensures FirstDeferral(slots).None? <==> forall i :: 0 <= i < |slots| ==> slots[i].deferral.None?
    ensures FirstDeferral(slots).Some? ==> exists i :: 0 <= i < |slots| && slots[i].deferral == FirstDeferral(slots)
    decreases slots
  {
    if slots != [] {
      DeferralIsFirst(slots[1..]);
      assert forall i :: 0 < i < |slots| ==> slots[i] == slots[1..][i - 1];
    }
  }

  /** Some handler of the batch asks to suspend. */
  ghost predicate SomeAsks(env: Env, cfg: Config, ls: Loop, calls: seq<ToolUse>, resumed: bool) {
    exists j, deferral :: 0 <= j < |calls| && AsksFor(env, cfg, ls, calls[j], resumed, deferral)
  }

  /** Some handler of the batch failed, or asked for what it may not have. */
  predicate SomeBreaks(env: Env, cfg: Config, ls: Loop, calls: seq<ToolUse>, resumed: bool) {
    exists j :: 0 <= j < |calls| && Breaks(env, cfg, ls, calls[j], resumed)
  }

  /**
   * What running a batch comes to: it starts the calls in order, as many as the sink lets it; unless a handler asks to suspend, each is then
   * answered, and the attempts asked for are granted and counted.
   */
  ghost predicate Runs(env: Env, cfg: Config, s: Stage, calls: seq<ToolUse>, resumed: bool, n: nat, a: Admitted) {
    && n <= |calls| && (Reliable(env) ==> n == |calls|)
    && match a
       case Asked(ls, deferral) =>
         && n == |calls| && ls == s.ls.(emitted := s.ls.emitted + Starts(calls))
         && exists j :: 0 <= j < |calls| && AsksFor(env, cfg, s.ls, calls[j], resumed, deferral)
       case Ran(t) =>
         && t.ls.emitted == s.ls.emitted + Starts(calls[..n]) && t.regular.suspension == s.regular.suspension
         && (n < |calls| ==>
               && t.ls.(emitted := s.ls.emitted) == s.ls
               && t.regular.results == s.regular.results && t.regular.fatal.Some? && t.regular.continues == s.regular.continues)
         && (n == |calls| ==>
               && !SomeAsks(env, cfg, s.ls, calls, resumed)
               && AllAnswered(env, cfg, s.ls, calls, resumed, s.regular.results, t.regular.results)
               && Granted(cfg, s.ls, t.ls, calls, t.regular.results)
               && s.ls.totalRetries <= t.ls.totalRetries
               && (t.regular.continues <==> s.regular.continues || t.ls.totalRetries > s.ls.totalRetries)
               && t.ls.usage.counters == s.ls.usage.counters.(toolCalls := s.ls.usage.counters.toolCalls + |calls|)
               && (SomeBreaks(env, cfg, s.ls, calls, resumed) ==> t.regular.fatal.Some?)
               && (t.regular.fatal.Some? ==>
                     || s.regular.fatal.Some? || SomeBreaks(env, cfg, s.ls, calls, resumed)
                     || exists j :: 0 <= j < |calls| && IsFailure(calls[j], t.regular.results[calls[j].id])))
  }

  lemma AdmitRuns(env: Env, cfg: Config, s: Stage, calls: seq<ToolUse>, resumed: bool) returns (n: nat)
    requires DistinctIds(calls)
    ensures Runs(env, cfg, s, calls, resumed, n, Admit(env, cfg, s, calls, resumed))
  {
    hide Reliable, Slot, TakeResults, AllAnswered, Granted, AsksFor, Breaks, Starts, Elsewhere, DistinctIds, EmitStarted;
    n := StartsThem(env, s.ls, calls);
    var started := EmitStarted(env, s.ls, calls).0;
    assert n == |calls| ==> calls[..n] == calls;
    if n == |calls| {
      var slots := Slots(env, cfg, started, calls, resumed);
      forall i | 0 <= i < |calls| ensures slots[i] == Slot(env, cfg, s.ls, calls[i], resumed) {
        SlotSame(env, cfg, s.ls, started, calls[i], resumed);
        SlotGives(env, cfg, s.ls, calls[i], resumed);
      }
      DeferralIsFirst(slots);
      SlotsAsk(env, cfg, s.ls, calls, resumed, slots);
      if FirstDeferral(slots).None? {
        TakenAnswers(env, cfg, s.ls, Stage(started, s.regular), calls, slots, resumed);
        TakenGranted(env, cfg, Stage(started, s.regular), calls, slots);
        TakenSame(env, cfg, Stage(started, s.regular), calls, slots);
        TakenSays(env, cfg, Stage(started, s.regular), calls, slots);
        TakenFatal(env, cfg, Stage(started, s.regular), calls, slots);
        GrantedSame(cfg, started, s.ls, TakeResults(env, cfg, Stage(started, s.regular), calls, slots).ls, calls,
                    TakeResults(env, cfg, Stage(started, s.regular), calls, slots).regular.results);
      }
    }
  }

  lemma GrantedSame(cfg: Config, a: Loop, b: Loop, after: Loop, calls: seq<ToolUse>, results: map<string, Executed>)
    requires a.retryCounts == b.retryCounts && a.totalRetries == b.totalRetries && Granted(cfg, a, after, calls, results)
    ensures Granted(cfg, b, after, calls, results)
  {
  }

  lemma SlotSame(env: Env, cfg: Config, a: Loop, b: Loop, call: ToolUse, resumed: bool)
    requires a.iteration == b.iteration && a.retryCounts == b.retryCounts
    ensures Slot(env, cfg, b, call, resumed) == Slot(env, cfg, a, call, resumed)
  {
    hide SettleReply, Abandoned;
  }

  lemma SlotsAsk(env: Env, cfg: Config, ls: Loop, calls: seq<ToolUse>, resumed: bool, slots: seq<Settled>)
    requires |slots| == |calls| && forall i :: 0 <= i < |calls| ==> slots[i] == Slot(env, cfg, ls, calls[i], resumed)
    ensures AnyFailed(slots) <==> SomeBreaks(env, cfg, ls, calls, resumed)
    ensures FirstDeferral(slots).None? ==> !SomeAsks(env, cfg, ls, calls, resumed)
    ensures FirstDeferral(slots).Some? ==>
      exists j :: 0 <= j < |calls| && AsksFor(env, cfg, ls, calls[j], resumed, FirstDeferral(slots).value)
  {
    hide Slot, AsksFor, Breaks;
    DeferralIsFirst(slots);
    forall i | 0 <= i < |calls|
      ensures slots[i].failed <==> Breaks(env, cfg, ls, calls[i], resumed)
      ensures slots[i].deferral.Some? ==> AsksFor(env, cfg, ls, calls[i], resumed, slots[i].deferral.value)
      ensures slots[i].deferral.None? ==> forall d :: !AsksFor(env, cfg, ls, calls[i], resumed, d)
    {
      SlotGives(env, cfg, ls, calls[i], resumed);
    }
  }

  lemma TakenOneFatal(env: Env, cfg: Config, s: Stage, call: ToolUse, result: Executed)
    ensures var t := TakeResult(env, cfg, s, call, result).regular;
      call.id in t.results && (t.fatal.Some? ==> s.regular.fatal.Some? || IsFailure(call, t.results[call.id]))
  {
    hide ErrorResult, Identified, IsFailure;
    ErrorFails(call, "Tool execution returned an invalid result identity.");
    if cfg.processor {
      match env.process(call, result)
      case ProcessFailed(text) => ErrorFails(call, "Tool handler may have completed, but result processing failed: " + text);
      case Processed(_) =>
        ErrorFails(call, "Tool result processing changed call identity.");
        ErrorFails(call, "Tool result processing changed an error into success.");
        ErrorFails(call, "Tool result processing removed execution error truth.");
    }
  }

  /** Taking in results is fatal only where one of them became a failure. */
  lemma {:induction false} TakenFatal(env: Env, cfg: Config, s: Stage, calls: seq<ToolUse>, slots: seq<Settled>)
    requires |slots| == |calls| && DistinctIds(calls)
    ensures var t := TakeResults(env, cfg, s, calls, slots).regular;
      && Elsewhere(calls, s.regular.results, t.results) && (forall j :: 0 <= j < |calls| ==> calls[j].id in t.results)
      && (t.fatal.Some? ==> s.regular.fatal.Some? || exists j :: 0 <= j < |calls| && IsFailure(calls[j], t.results[calls[j].id]))
    decreases calls
  {
    hide TakeResult, IsFailure;
    if calls == [] {
      NamesNothing(s.regular.results);
    } else {
      var next, rest := TakeResult(env, cfg, s, calls[0], slots[0].result), calls[1..];
      TakenOneRecords(env, cfg, s, calls[0], slots[0].result);
      TakenOneFatal(env, cfg, s, calls[0], slots[0].result);
      TakenFatal(env, cfg, next, rest, slots[1..]);
      var t := TakeResults(env, cfg, s, calls, slots).regular;
      ElsewhereCons(calls, s.regular.results, next.regular.results, t.results);
      if t.fatal.Some? && next.regular.fatal.None? {
        var j :| 0 <= j < |rest| && IsFailure(rest[j], t.results[rest[j].id]);
        assert calls[j + 1] == rest[j];
      } else if t.fatal.Some? && s.regular.fatal.None? {
        assert IsFailure(calls[0], t.results[calls[0].id]);
      }
    }
  }

  lemma {:induction false} TakenSays(env: Env, cfg: Config, s: Stage, calls: seq<ToolUse>, slots: seq<Settled>)
    requires |slots| == |calls|
    ensures TakeResults(env, cfg, s, calls, slots).ls.emitted == s.ls.emitted
    decreases calls
  {
    if calls != [] {
      TakenSays(env, cfg, TakeResult(env, cfg, s, calls[0], slots[0].result), calls[1..], slots[1..]);
    }
  }
}
