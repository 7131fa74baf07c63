/** The concurrent tool batch: one result per call in call order, whatever the completion order (tool_scheduler.go). */
module Scheduler {
  import opened Messages
  import opened Suspensions
  import opened ToolControl

  /** What running one handler gives: its result, a suspension it asks for, and an execution error. */
  datatype HandlerReply = HandlerReply(result: Executed, asks: Option<Deferral>, nilSuspension: bool, error: Option<string>)

  datatype DeferralCheck = NoDeferral | Deferred(deferral: Deferral) | DeferralRefused(text: string)

  /** handlerDeferral. */
  function HandlerDeferral(call: ToolUse, suspendable: bool, reply: HandlerReply): DeferralCheck {
    if reply.nilSuspension then DeferralRefused("handler returned a nil suspension")
    else if reply.asks.None? then NoDeferral
    else if !suspendable then DeferralRefused("handler did not declare suspension")
    else if !Identified(call, reply.result) then DeferralRefused("handler returned mismatched suspension identity")
    else if reply.result.result.isError || reply.result.cause != NoCause || reply.asks.value.kind == "" then
      DeferralRefused("handler returned an invalid deferral")
    else Deferred(reply.asks.value)
  }

  /** What one completion leaves in its slot. */
  datatype Settled = Settled(result: Executed, failed: bool, deferral: Option<Deferral>)

  function SettleReply(call: ToolUse, suspendable: bool, reply: HandlerReply): Settled {
    var check := HandlerDeferral(call, suspendable, reply);
    match (reply.error, check)
    case (Some(text), DeferralRefused(other)) => Settled(ErrorResult(call, text + "\n" + other, OtherCause), true, None)
    case (Some(text), _) => Settled(ErrorResult(call, text, OtherCause), true, None)
    case (None, DeferralRefused(other)) => Settled(ErrorResult(call, other, OtherCause), true, None)
    case (None, Deferred(deferral)) => Settled(reply.result, false, Some(deferral))
    case (None, NoDeferral) => Settled(reply.result, false, None)
  }

  function Abandoned(call: ToolUse): Executed {
    ErrorResult(call, "Tool execution did not stop before cancellation grace; side effects may still be running.", OtherCause)
  }

  /** What the collecting goroutine may observe, in order. */
  datatype Tick = Done(index: nat) | Canceled | GraceOver

  /** Position of the tick that ends the wait for stragglers: the first expiry after a cancellation. */
  function Cutoff(ticks: seq<Tick>, canceled: bool): (cut: nat)
    ensures cut <= |ticks|
    decreases ticks
  {
    if ticks == [] then 0
    else if canceled && ticks[0] == GraceOver then 0
    else 1 + Cutoff(ticks[1..], canceled || ticks[0] == Canceled)
  }

  predicate DoneBy(ticks: seq<Tick>, cut: nat, i: nat) {
    exists t :: 0 <= t < cut && t < |ticks| && ticks[t] == Done(i)
  }

  /** Every handler finishes, or the wait is cut short. */
  predicate Fair(count: nat, ticks: seq<Tick>) {
    Cutoff(ticks, false) < |ticks| || forall i: nat :: i < count ==> DoneBy(ticks, |ticks|, i)
  }

  predicate Within(count: nat, ticks: seq<Tick>) {
    forall t :: 0 <= t < |ticks| && ticks[t].Done? ==> ticks[t].index < count
  }

  const ZeroResult := Executed(ToolResult("", "", "", false), NoCause)

  /** Calls without a completion yet. */
  function Missing(received: seq<bool>): nat {
    if received == [] then 0 else (if received[0] then 0 else 1) + Missing(received[1..])
  }

  lemma {:induction false} MissingUpdate(received: seq<bool>, i: nat)
    requires i < |received| && !received[i]
    ensures Missing(received) == Missing(received[i := true]) + 1
    decreases received
  {
    var after := received[i := true];
    if i == 0 {
      assert after[1..] == received[1..];
    } else {
      MissingUpdate(received[1..], i - 1);
      assert after[1..] == received[1..][i - 1 := true];
    }
  }

  lemma {:induction false} NoneMissing(received: seq<bool>)
    ensures Missing(received) == 0 <==> forall i :: 0 <= i < |received| ==> received[i]
    decreases received
  {
    if received != [] {
      NoneMissing(received[1..]);
      assert received == [received[0]] + received[1..];
    }
  }

  lemma {:induction false} AllMissing(n: nat)
    ensures Missing(seq(n, _ => false)) == n
  {
    if n > 0 {
      AllMissing(n - 1);
      assert seq(n, _ => false)[1..] == seq(n - 1, _ => false);
    }
  }

  predicate Outcome(calls: seq<ToolUse>, settled: seq<Settled>, ticks: seq<Tick>, cut: nat, results: seq<Executed>)
    requires |settled| == |calls|
  {
    && |results| == |calls|
    && forall i :: 0 <= i < |calls| ==>
         results[i] == if DoneBy(ticks, cut, i) then settled[i].result else Abandoned(calls[i])
  }

  /** Slots no completion reached when the grace expires. */
  method AbandonRest(calls: seq<ToolUse>, slots: array<Executed>, received: array<bool>)
    requires slots.Length == |calls| == received.Length
    modifies slots
    ensures forall i :: 0 <= i < |calls| ==> slots[i] == if received[i] then old(slots[i]) else Abandoned(calls[i])
  {
    hide Abandoned;
    for i := 0 to |calls|
      invariant forall k :: 0 <= k < i ==> slots[k] == if received[k] then old(slots[k]) else Abandoned(calls[k])
      invariant forall k :: i <= k < |calls| ==> slots[k] == old(slots[k])
    {
      if !received[i] {
        slots[i] := Abandoned(calls[i]);
      }
    }
  }

  /** The slots and flags after some completions. */
  predicate Collected(settled: seq<Settled>, slots: seq<Executed>, received: seq<bool>, deferral: Option<Deferral>, failed: bool) {
    && |slots| == |received| == |settled|
    && (forall i :: 0 <= i < |settled| && received[i] ==> slots[i] == settled[i].result)
    && (failed <==> exists i :: 0 <= i < |settled| && received[i] && settled[i].failed)
    && (deferral.Some? ==> exists i :: 0 <= i < |settled| && received[i] && settled[i].deferral == deferral)
    && (deferral.None? ==> forall i :: 0 <= i < |settled| && received[i] ==> settled[i].deferral.None?)
  }

  predicate Tracks(ticks: seq<Tick>, t: nat, received: seq<bool>) {
    forall i: nat :: i < |received| ==> (received[i] <==> DoneBy(ticks, t, i))
  }

  lemma NoTickLeft(ticks: seq<Tick>, t: nat, received: seq<bool>)
    requires t <= |ticks| && Fair(|received|, ticks) && t <= Cutoff(ticks, false) && Tracks(ticks, t, received)
    ensures t == |ticks| ==> Missing(received) == 0
  {
    NoneMissing(received);
  }

  lemma TracksNext(ticks: seq<Tick>, t: nat, received: seq<bool>, after: seq<bool>)
    requires t < |ticks| && Tracks(ticks, t, received) && |after| == |received|
    requires forall i: nat :: i < |received| ==> (after[i] <==> received[i] || ticks[t] == Done(i))
    ensures Tracks(ticks, t + 1, after)
  {
  }

  lemma TracksAll(ticks: seq<Tick>, t: nat, cut: nat, received: seq<bool>)
    requires t <= cut <= |ticks| && Tracks(ticks, t, received) && Missing(received) == 0
    ensures Tracks(ticks, cut, received)
  {
    NoneMissing(received);
    forall i: nat | i < |received| ensures DoneBy(ticks, cut, i) {
      assert DoneBy(ticks, t, i);
      var u :| 0 <= u < t && u < |ticks| && ticks[u] == Done(i);
    }
  }

  /** acceptCompletion, for a call that has not completed before. */
  method AcceptCompletion(settled: seq<Settled>, index: nat, slots: array<Executed>, received: array<bool>,
                          deferral: Option<Deferral>, failed: bool) returns (nextDeferral: Option<Deferral>, nextFailed: bool)
    requires Collected(settled, slots[..], received[..], deferral, failed) && index < |settled| && !received[index]
    modifies slots, received
    ensures received[..] == old(received[..])[index := true] && slots.Length == |settled|
    ensures Collected(settled, slots[..], received[..], nextDeferral, nextFailed)
  {
    received[index] := true;
    slots[index] := settled[index].result;
    nextFailed := failed || settled[index].failed;
    nextDeferral := if settled[index].deferral.Some? then settled[index].deferral else deferral;
    ghost var flags := received[..];
    assert flags[index];
    assert forall i :: 0 <= i < |settled| && i != index ==> flags[i] == old(received[..])[i];
  }

  /**
   * The collecting loop. `settled` is what each call's goroutine would send, `ticks` any order in which completions,
   * the cancellation and the expiry of its grace are observed.
   */
  method Collect(calls: seq<ToolUse>, settled: seq<Settled>, ticks: seq<Tick>)
      returns (results: seq<Executed>, deferral: Option<Deferral>, failed: bool, ghost done: seq<bool>)
    requires |settled| == |calls| && Fair(|calls|, ticks) && Within(|calls|, ticks)
    // One result per call: its own, or the notice that it did not stop in time. Nothing after the cutoff matters.
    ensures |done| == |calls| && Tracks(ticks, Cutoff(ticks, false), done)
    ensures Outcome(calls, settled, ticks, Cutoff(ticks, false), results)
    ensures Collected(settled, results, done, deferral, failed)
  {
    hide DoneBy, Fair, Tracks, Collected, Missing, Outcome, Cutoff, Abandoned;
    var n := |calls|;
    var slots, received := new Executed[n](_ => ZeroResult), new bool[n](_ => false);
    var remaining, t := n, 0;
    var canceled := false;
    deferral, failed := None, false;
    ghost var cut := Cutoff(ticks, false);
    assert received[..] == seq(n, _ => false);
    AllMissing(n);
    NothingDone(settled, ticks, slots[..], received[..]);
    assert ticks[0..] == ticks;
    while remaining > 0
      invariant t <= cut <= |ticks| && cut == t + Cutoff(ticks[t..], canceled)
      invariant remaining == Missing(received[..]) && Tracks(ticks, t, received[..])
      invariant Collected(settled, slots[..], received[..], deferral, failed)
      decreases |ticks| - t
    {
      NoTickLeft(ticks, t, received[..]);
      CutoffStep(ticks, t, canceled);
      if canceled && ticks[t] == GraceOver {
        ghost var before := slots[..];
        AbandonRest(calls, slots, received);
        AbandonedOutcome(calls, settled, ticks, cut, before, slots[..], received[..], deferral, failed);
        return slots[..], deferral, failed, received[..];
      }
      ghost var before := received[..];
      if ticks[t].Done? && !received[ticks[t].index] {
        MissingUpdate(before, ticks[t].index);
        remaining := remaining - 1;
        deferral, failed := AcceptCompletion(settled, ticks[t].index, slots, received, deferral, failed);
      } else if ticks[t] == Canceled {
        canceled := true;
      }
      TracksNext(ticks, t, before, received[..]);
      t := t + 1;
    }
    NoneMissing(received[..]);
    TracksAll(ticks, t, cut, received[..]);
    AbandonedOutcome(calls, settled, ticks, cut, slots[..], slots[..], received[..], deferral, failed);
    return slots[..], deferral, failed, received[..];
  }

  lemma CutoffStep(ticks: seq<Tick>, t: nat, canceled: bool)
    requires t <= |ticks|
    ensures t < |ticks| ==>
      Cutoff(ticks[t..], canceled) ==
        if canceled && ticks[t] == GraceOver then 0 else 1 + Cutoff(ticks[t + 1..], canceled || ticks[t] == Canceled)
  {
    if t < |ticks| {
      assert ticks[t..][0] == ticks[t] && ticks[t..][1..] == ticks[t + 1..];
    }
  }

  lemma AbandonedOutcome(calls: seq<ToolUse>, settled: seq<Settled>, ticks: seq<Tick>, cut: nat, before: seq<Executed>,
                         after: seq<Executed>, received: seq<bool>, deferral: Option<Deferral>, failed: bool)
    requires |settled| == |calls| == |before| == |after|
    requires Collected(settled, before, received, deferral, failed) && Tracks(ticks, cut, received)
    requires forall i :: 0 <= i < |calls| ==> after[i] == if received[i] then before[i] else Abandoned(calls[i])
    ensures Collected(settled, after, received, deferral, failed) && Outcome(calls, settled, ticks, cut, after)
  {
  }

  lemma NothingDone(settled: seq<Settled>, ticks: seq<Tick>, slots: seq<Executed>, received: seq<bool>)
    requires |slots| == |received| == |settled| && forall i :: 0 <= i < |received| ==> !received[i]
    ensures Tracks(ticks, 0, received) && Collected(settled, slots, received, None, false)
  {
  }

  /** Without a cancellation the results are the calls' own, in call order: the completion order does not matter. */
  lemma OrderIndependent(calls: seq<ToolUse>, settled: seq<Settled>, ticks: seq<Tick>, results: seq<Executed>)
    requires |settled| == |calls| && Fair(|calls|, ticks) && Canceled !in ticks
    requires Outcome(calls, settled, ticks, Cutoff(ticks, false), results)
    ensures forall i :: 0 <= i < |calls| ==> results[i] == settled[i].result
  {
    NeverCut(ticks);
  }

  lemma {:induction false} NeverCut(ticks: seq<Tick>)
    requires Canceled !in ticks
    ensures Cutoff(ticks, false) == |ticks|
    decreases ticks
  {
    if ticks != [] {
      NeverCut(ticks[1..]);
    }
  }

  /** Completions observed after the expiry change nothing. */
  lemma LateCompletionsIgnored(calls: seq<ToolUse>, settled: seq<Settled>, ticks: seq<Tick>, late: seq<Tick>, results: seq<Executed>)
    requires |settled| == |calls| && Cutoff(ticks, false) < |ticks|
    ensures Outcome(calls, settled, ticks, Cutoff(ticks, false), results)
      <==> Outcome(calls, settled, ticks + late, Cutoff(ticks + late, false), results)
  {
    CutoffPrefix(ticks, late, false);
    var cut := Cutoff(ticks, false);
    forall i: nat ensures DoneBy(ticks, cut, i) <==> DoneBy(ticks + late, cut, i) {
      assert forall t :: 0 <= t < cut ==> (ticks + late)[t] == ticks[t];
    }
  }

  lemma {:induction false} CutoffPrefix(ticks: seq<Tick>, late: seq<Tick>, canceled: bool)
    requires Cutoff(ticks, canceled) < |ticks|
    ensures Cutoff(ticks + late, canceled) == Cutoff(ticks, canceled)
    decreases ticks
  {
    if !(canceled && ticks[0] == GraceOver) {
      assert (ticks + late)[1..] == ticks[1..] + late;
      CutoffPrefix(ticks[1..], late, canceled || ticks[0] == Canceled);
    }
  }

  // ---------------------------------------------------------------------
  // Projecting a result for the transcript.

  datatype ProcessReply = Processed(result: Executed) | ProcessFailed(text: string)

  /** projectToolResult: the committed result, and whether projection itself failed. */
  function Project(call: ToolUse, result: Executed, processed: Option<ProcessReply>): (Executed, bool) {
    if !Identified(call, result) then (ErrorResult(call, "Tool execution returned an invalid result identity.", OtherCause), true)
    else
      match processed
      case None => (result, false)
      case Some(ProcessFailed(text)) =>
        (ErrorResult(call, "Tool handler may have completed, but result processing failed: " + text, OtherCause), true)
      case Some(Processed(projected)) =>
        if !Identified(call, projected) then (ErrorResult(call, "Tool result processing changed call identity.", OtherCause), true)
        else if result.result.isError && !projected.result.isError then
          (ErrorResult(call, "Tool result processing changed an error into success.", OtherCause), true)
        else if result.cause != NoCause && projected.cause == NoCause then
          (ErrorResult(call, "Tool result processing removed execution error truth.", OtherCause), true)
        else (projected, false)
  }

  lemma ErrorNames(call: ToolUse, text: string)
    ensures var r := ErrorResult(call, text, OtherCause); Identified(call, r) && r.result.isError && r.cause != NoCause
  {
  }

  /** A projected result names its call and never hides an error. */
  lemma ProjectionIsHonest(call: ToolUse, result: Executed, processed: Option<ProcessReply>)
    ensures var projected := Project(call, result, processed).0;
      && Identified(call, projected)
      && (result.result.isError ==> projected.result.isError)
      && (result.cause != NoCause ==> projected.cause != NoCause)
  {
    hide ErrorResult, Identified;
    ErrorNames(call, "Tool execution returned an invalid result identity.");
    if processed.Some? && processed.value.ProcessFailed? {
      ErrorNames(call, "Tool handler may have completed, but result processing failed: " + processed.value.text);
    }
    ErrorNames(call, "Tool result processing changed call identity.");
    ErrorNames(call, "Tool result processing changed an error into success.");
    ErrorNames(call, "Tool result processing removed execution error truth.");
  }
}
