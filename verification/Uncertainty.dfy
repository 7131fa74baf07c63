/** What recovery takes for an uncertain call, read off the journal (harness/session/recovery.go). */
module Uncertainty {
  import opened Messages
  import opened Pairing
  import opened Repair
  import opened Usages
  import opened Suspensions
  import opened Journals
  import opened Lawful
  import opened SessionStates
  import opened Placement

  // ---------------------------------------------------------------------
  // The call log of a run segment.

  /** A run opens, is taken over by a recovery, or closes: what the log knew of its calls is forgotten. */
  predicate Boundary(e: Entry) {
    e.SessionCreated? || e.RunOpened? || e.RunRecovered? || e.RunClosed?
  }

  predicate Unbroken(entries: seq<Entry>) {
    forall i :: 0 <= i < |entries| ==> !Boundary(entries[i])
  }

  predicate IsResult(e: Entry, id: string) {
    e.EventEntry? && e.event.ToolResultCommitted? && e.event.result.toolUseId == id
  }

  predicate IsStart(e: Entry, id: string) {
    e.EventEntry? && e.event.ToolStarted? && e.event.call.id == id
  }

  /** Since the last boundary, the ID got a result. */
  predicate Answered(entries: seq<Entry>, id: string) {
    exists i :: 0 <= i < |entries| && IsResult(entries[i], id) && Unbroken(entries[i + 1..])
  }

  /** Since the last boundary, a call with the ID started. */
  predicate Begun(entries: seq<Entry>, id: string) {
    exists i :: 0 <= i < |entries| && IsStart(entries[i], id) && Unbroken(entries[i + 1..])
  }

  function LogOf(run: Option<ActiveRun>): CallLog {
    match run case None => NoCalls case Some(r) => r.calls
  }

  lemma UnbrokenCons(e: Entry, rest: seq<Entry>)
    ensures Unbroken([e] + rest) <==> !Boundary(e) && Unbroken(rest)
  {
    var all := [e] + rest;
    assert all[0] == e && forall i :: 0 <= i < |rest| ==> all[i + 1] == rest[i];
    assert forall i :: 0 < i < |all| ==> all[i] == rest[i - 1];
  }

  lemma AnsweredCons(e: Entry, rest: seq<Entry>, id: string)
    ensures Answered([e] + rest, id) <==> Answered(rest, id) || (IsResult(e, id) && Unbroken(rest))
  {
    var all := [e] + rest;
    assert all[0] == e && all[1..] == rest;
    forall i | 0 <= i < |rest| ensures all[i + 1] == rest[i] && all[i + 1 + 1..] == rest[i + 1..] {}
    if Answered(all, id) {
      var i :| 0 <= i < |all| && IsResult(all[i], id) && Unbroken(all[i + 1..]);
      if i > 0 {
        assert rest[i - 1] == all[i] && rest[i - 1 + 1..] == all[i + 1..];
      }
    }
  }

  lemma BegunCons(e: Entry, rest: seq<Entry>, id: string)
    ensures Begun([e] + rest, id) <==> Begun(rest, id) || (IsStart(e, id) && Unbroken(rest))
  {
    var all := [e] + rest;
    assert all[0] == e && all[1..] == rest;
    forall i | 0 <= i < |rest| ensures all[i + 1] == rest[i] && all[i + 1 + 1..] == rest[i + 1..] {}
    if Begun(all, id) {
      var i :| 0 <= i < |all| && IsStart(all[i], id) && Unbroken(all[i + 1..]);
      if i > 0 {
        assert rest[i - 1] == all[i] && rest[i - 1 + 1..] == all[i + 1..];
      }
    }
  }

  lemma LogStep(f: Folded, e: Entry, id: string)
    requires Legal(f, e)
    ensures var log, next := LogOf(f.run), LogOf(FoldStep(f, e).run);
      && (id in next.results <==> (id in log.results && !Boundary(e)) || IsResult(e, id))
      && (id in next.started <==> (id in log.started && !Boundary(e)) || IsStart(e, id))
  {
    hide ViewStep, QueueStep, PhaseStep, UsageStep, VolatileStep, LegalMessage, InjectionMatches, Report, FirstIsPlain, NoTargeted;
  }

  lemma {:induction false} SuffixLog(f: Folded, entries: seq<Entry>, id: string)
    requires Healthy(f) && LawfulFrom(f, entries)
    ensures FoldFrom(f, entries).Some?
    ensures var log, next := LogOf(f.run), LogOf(FoldFrom(f, entries).value.run);
      && (id in next.results <==> Answered(entries, id) || (id in log.results && Unbroken(entries)))
      && (id in next.started <==> Begun(entries, id) || (id in log.started && Unbroken(entries)))
    decreases entries
  {
    hide Healthy, Legal, FoldStep, Answered, Begun, Unbroken, Boundary, IsResult, IsStart;
    if entries == [] {
      NothingYet(id);
    } else {
      var e, rest := entries[0], entries[1..];
      assert entries == [e] + rest;
      LegalKeepsHealthy(f, e);
      LogStep(f, e, id);
      SuffixLog(FoldStep(f, e), rest, id);
      UnbrokenCons(e, rest);
      AnsweredCons(e, rest, id);
      BegunCons(e, rest, id);
    }
  }

  lemma NothingYet(id: string)
    ensures Unbroken([]) && !Answered([], id) && !Begun([], id)
  {
  }

  /** The call log recovery works with holds the starts and the results since the run last opened or was recovered. */
  lemma LogIsSegment(entries: seq<Entry>, id: string)
    requires LawfulJournal(entries)
    ensures id in LogOf(Recovered(entries).run).results <==> Answered(entries, id)
    ensures id in LogOf(Recovered(entries).run).started <==> Begun(entries, id)
  {
    var first := CreatedFold(entries[0].budget, entries[0].drainAll);
    CreatedHealthy(entries[0].budget, entries[0].drainAll);
    RecoveredHealthy(entries);
    assert entries == [entries[0]] + entries[1..];
    AnsweredCons(entries[0], entries[1..], id);
    BegunCons(entries[0], entries[1..], id);
    hide *;
    SuffixLog(first, entries[1..], id);
    assert LogOf(first.run) == NoCalls by { Fresh(first); }
  }

  lemma Fresh(f: Folded)
    requires f.run.None?
    ensures LogOf(f.run) == NoCalls
  {
  }

  // ---------------------------------------------------------------------
  // Which open calls recovery reports.

  lemma UnbrokenConcat(left: seq<Entry>, right: seq<Entry>)
    ensures Unbroken(left + right) <==> Unbroken(left) && Unbroken(right)
  {
    var all := left + right;
    assert forall i :: 0 <= i < |left| ==> all[i] == left[i];
    assert forall i :: 0 <= i < |right| ==> all[|left| + i] == right[i];
    assert forall i :: |left| <= i < |all| ==> all[i] == right[i - |left|];
  }

  lemma AnsweredBefore(before: seq<Entry>, after: seq<Entry>, id: string)
    requires Unbroken(after) && forall i :: 0 <= i < |after| ==> !IsResult(after[i], id)
    ensures Answered(before + after, id) <==> Answered(before, id)
  {
    hide IsResult, Unbroken;
    var all := before + after;
    forall i | 0 <= i < |before| ensures all[i] == before[i] && (Unbroken(all[i + 1..]) <==> Unbroken(before[i + 1..])) {
      assert all[i + 1..] == before[i + 1..] + after;
      UnbrokenConcat(before[i + 1..], after);
    }
    forall j | |before| <= j < |all| ensures !IsResult(all[j], id) { assert all[j] == after[j - |before|]; }
  }

  lemma BegunAfter(before: seq<Entry>, after: seq<Entry>, id: string)
    requires Unbroken(after) && exists i :: 0 <= i < |after| && IsStart(after[i], id)
    ensures Begun(before + after, id)
  {
    var i :| 0 <= i < |after| && IsStart(after[i], id);
    var all := before + after;
    assert all[|before| + i] == after[i] && all[|before| + i + 1..] == after[i + 1..];
  }

  lemma {:induction false} UncertainMembers(open: seq<ToolUse>, log: CallLog, call: PendingCall)
    ensures call in Uncertain(open, log) <==>
      exists k :: 0 <= k < |open| && CallState(log, open[k]) == PendingIndeterminate && call == PendingCall(open[k].id, open[k].name, PendingIndeterminate)
    decreases open
  {
    if open != [] {
      UncertainMembers(open[1..], log, call);
      assert open == [open[0]] + open[1..];
      if k :| 0 <= k < |open[1..]| && CallState(log, open[1..][k]) == PendingIndeterminate
              && call == PendingCall(open[1..][k].id, open[1..][k].name, PendingIndeterminate) {
        assert open[k + 1] == open[1..][k];
      }
    }
  }

  /**
   * An open call that started after some point of the journal and has no result since, in the same run segment: recovery reports it as
   * uncertain exactly when its ID had no result in the segment before that point.
   */
  lemma ReusedIdHidesUncertainty(before: seq<Entry>, after: seq<Entry>, call: ToolUse)
    requires LawfulJournal(before + after) && Unbroken(after)
    requires Inspect(Recovered(before + after).view.messages).Some? && call in Inspect(Recovered(before + after).view.messages).value
    requires exists i :: 0 <= i < |after| && IsStart(after[i], call.id)
    requires forall i :: 0 <= i < |after| ==> !IsResult(after[i], call.id)
    ensures var f := Recovered(before + after);
      PendingCall(call.id, call.name, PendingIndeterminate) in Uncertain(Inspect(f.view.messages).value, LogOf(f.run)) <==> !Answered(before, call.id)
  {
    hide LawfulJournal, Recovered, Inspect, Answered, Begun, Unbroken, IsStart, IsResult;
    var f := Recovered(before + after);
    LogIsSegment(before + after, call.id);
    AnsweredBefore(before, after, call.id);
    BegunAfter(before, after, call.id);
    UncertainMembers(Inspect(f.view.messages).value, LogOf(f.run), PendingCall(call.id, call.name, PendingIndeterminate));
  }

  const Abandoned := "Harness synthetic result: " + "the tool was abandoned before it started" + "; the call was not retried."

  /**
   * What recovery makes of an open frontier: it goes on running exactly when every open call that began in the segment has a result
   * under its ID there, and then tells the model of each of them that it was abandoned before it started.
   */
  lemma RecoveryContinues(entries: seq<Entry>)
    requires LawfulJournal(entries) && Accepted(Recovered(entries).view.messages)
    requires NoBareTool(Pairing.Closed, Recovered(entries).view.messages)
    ensures var f := Recovered(entries);
      var open := Unresolved(FrontierOf(f.view.messages));
      && Inspect(f.view.messages) == Some(open) && Additions(f.view.messages, LogOf(f.run)).Some?
      && var continues := Uncertain(open, LogOf(f.run)) == [];
         && (continues <==> forall k :: 0 <= k < |open| && Begun(entries, open[k].id) ==> Answered(entries, open[k].id))
         && (continues ==> forall k :: 0 <= k < |open| ==>
               NewToolResultMessageFor(open[k].id, open[k].name, Abandoned, true) in Additions(f.view.messages, LogOf(f.run)).value)
  {
    hide LawfulJournal, Recovered, Answered, Begun, Unbroken, Repaired, NoBareTool, Run;
    var f := Recovered(entries);
    var messages, log := f.view.messages, LogOf(f.run);
    var open := Unresolved(FrontierOf(messages));
    InspectExact(messages);
    AdditionsExact(messages, log);
    forall k | 0 <= k < |open|
      ensures CallState(log, open[k]) == PendingIndeterminate <==> Begun(entries, open[k].id) && !Answered(entries, open[k].id)
      ensures CallState(log, open[k]) == PendingIndeterminate ==> Uncertain(open, log) != []
    {
      LogIsSegment(entries, open[k].id);
      UncertainMembers(open, log, PendingCall(open[k].id, open[k].name, PendingIndeterminate));
    }
    if Uncertain(open, log) != [] {
      UncertainMembers(open, log, Uncertain(open, log)[0]);
    } else {
      var pending := PendingCalls(PendingOf(open, log), "");
      forall k | 0 <= k < |open| ensures NewToolResultMessageFor(open[k].id, open[k].name, Abandoned, true) in SyntheticResults(open, pending) {
        PlannedState(open, log, k);
        SyntheticMember(open, pending, k);
      }
    }
  }

  lemma {:induction false} StateFound(open: seq<ToolUse>, log: CallLog, k: nat, n: nat)
    requires k < n <= |open| && forall i :: 0 <= i < |open| ==> CallState(log, open[i]) != PendingIndeterminate
    ensures StateOf(PendingOf(open, log)[|open| - n..], open[|open| - n + k].id) == PendingPlanned
    decreases n
  {
    var rest := PendingOf(open, log)[|open| - n..];
    assert rest[1..] == PendingOf(open, log)[|open| - n + 1..];
    if rest[0].id != open[|open| - n + k].id {
      StateFound(open, log, k - 1, n - 1);
    }
  }

  lemma PlannedState(open: seq<ToolUse>, log: CallLog, k: nat)
    requires k < |open| && forall i :: 0 <= i < |open| ==> CallState(log, open[i]) != PendingIndeterminate
    ensures SyntheticResult(open[k], PendingCalls(PendingOf(open, log), "")) == NewToolResultMessageFor(open[k].id, open[k].name, Abandoned, true)
  {
    StateFound(open, log, k, |open|);
    assert PendingOf(open, log)[0..] == PendingOf(open, log);
  }

  lemma {:induction false} SyntheticMember(calls: seq<ToolUse>, pending: PendingCalls, k: nat)
    requires k < |calls|
    ensures SyntheticResult(calls[k], pending) in SyntheticResults(calls, pending)
    decreases calls
  {
    if k > 0 {
      SyntheticMember(calls[1..], pending, k - 1);
    }
  }
}
