/** What holds of every lawful journal, read off its entries without the fold's own bookkeeping. */
module JournalLaws {
  import opened Messages
  import opened Usages
  import opened Suspensions
  import opened Journals
  import opened Lawful

  // ---------------------------------------------------------------------
  // Run identity.

  /**
   * Runs open and close alternately under one identity; recovery, driver events, targeted inputs and
   * accepted interrupts fall inside the run they belong to.
   */
  predicate RunsAlternate(open: Option<string>, entries: seq<Entry>)
    decreases entries
  {
    entries == [] ||
      match entries[0]
      case RunOpened(id, _, _, _) => open.None? && RunsAlternate(Some(id), entries[1..])
      case RunRecovered(id, _, _) => open == Some(id) && RunsAlternate(open, entries[1..])
      case RunClosed(id, _) => open == Some(id) && RunsAlternate(None, entries[1..])
      case QueueAccepted(entry) => (entry.kind == QueueNextTurn || open.Some?) && RunsAlternate(open, entries[1..])
      case CommandAccepted(c) =>
        (c.kind == CommandInterrupt && c.rejection == "" ==> open == Some(c.runId)) && RunsAlternate(open, entries[1..])
      case EventEntry(_, _, _) => open.Some? && RunsAlternate(open, entries[1..])
      case _ => RunsAlternate(open, entries[1..])
  }

  function RunId(run: Option<ActiveRun>): Option<string> {
    match run case None => None case Some(r) => Some(r.id)
  }

  lemma {:induction false} SuffixAlternates(f: Folded, entries: seq<Entry>)
    requires Healthy(f) && LawfulFrom(f, entries)
    ensures RunsAlternate(RunId(f.run), entries)
    decreases entries
  {
    if entries != [] {
      LegalKeepsHealthy(f, entries[0]);
      SuffixAlternates(FoldStep(f, entries[0]), entries[1..]);
    }
  }

  lemma JournalAlternates(entries: seq<Entry>)
    requires LawfulJournal(entries)
    ensures RunsAlternate(None, entries[1..])
  {
    CreatedHealthy(entries[0].budget, entries[0].drainAll);
    SuffixAlternates(CreatedFold(entries[0].budget, entries[0].drainAll), entries[1..]);
  }

  // ---------------------------------------------------------------------
  // Queue conservation.

  /** How often an entry accepts, applies to the transcript, or cancels one queue ID. */
  function Accepts(e: Entry, id: string): nat {
    if e.QueueAccepted? && e.entry.id == id then 1 else 0
  }

  function Applies(e: Entry, id: string): nat {
    match e
    case MessageEntry(_, _, queueId) => if queueId == id then 1 else 0
    case EventEntry(MessagesInjected(_), ids, _) => multiset(ids)[id]
    case _ => 0
  }

  function Cancels(e: Entry, id: string): nat {
    if e.QueueCancelled? && e.id == id then 1 else 0
  }

  function AcceptedCount(entries: seq<Entry>, id: string): nat {
    if entries == [] then 0 else Accepts(entries[0], id) + AcceptedCount(entries[1..], id)
  }

  function AppliedCount(entries: seq<Entry>, id: string): nat {
    if entries == [] then 0 else Applies(entries[0], id) + AppliedCount(entries[1..], id)
  }

  function CancelledCount(entries: seq<Entry>, id: string): nat {
    if entries == [] then 0 else Cancels(entries[0], id) + CancelledCount(entries[1..], id)
  }

  function Waiting(q: Queues, id: string): nat {
    (if id in q.pending then 1 else 0) + (if id in q.drained then 1 else 0)
  }

  lemma DistinctOnce(ids: seq<string>, id: string)
    requires Distinct(ids)
    ensures multiset(ids)[id] == if id in ids then 1 else 0
    decreases |ids|
  {
    if ids != [] {
      var rest, last := ids[..|ids| - 1], ids[|ids| - 1];
      DistinctOnce(rest, id);
      assert ids == rest + [last];
    }
  }

  lemma InjectionConserves(q: Queues, ids: seq<string>, id: string)
    requires QueueHealthy(q) && Distinct(ids) && forall i :: 0 <= i < |ids| ==> ids[i] in q.drained
    ensures Waiting(q, id) == Waiting(q.(drained := q.drained - IdSet(ids)), id) + multiset(ids)[id]
  {
    DistinctOnce(ids, id);
    assert id in ids <==> id in IdSet(ids);
  }

  lemma StepConserves(f: Folded, e: Entry, id: string)
    requires QueueHealthy(f.queues) && Legal(f, e) && id != ""
    ensures Waiting(f.queues, id) + Accepts(e, id) == Waiting(QueueStep(f.queues, e), id) + Applies(e, id) + Cancels(e, id)
    ensures Accepts(e, id) == (if id in QueueStep(f.queues, e).order then 1 else 0) - (if id in f.queues.order then 1 else 0)
  {
    if e.EventEntry? && e.event.MessagesInjected? {
      InjectionConserves(f.queues, e.queueIds, id);
    }
  }

  lemma {:induction false} SuffixConserves(f: Folded, entries: seq<Entry>, id: string)
    requires Healthy(f) && LawfulFrom(f, entries) && id != ""
    ensures FoldFrom(f, entries).Some?
    ensures var q := FoldFrom(f, entries).value.queues;
      && Waiting(f.queues, id) + AcceptedCount(entries, id)
         == Waiting(q, id) + AppliedCount(entries, id) + CancelledCount(entries, id)
      && AcceptedCount(entries, id) == (if id in q.order then 1 else 0) - (if id in f.queues.order then 1 else 0)
    decreases entries
  {
    if entries != [] {
      StepConserves(f, entries[0], id);
      LegalKeepsHealthy(f, entries[0]);
      SuffixConserves(FoldStep(f, entries[0]), entries[1..], id);
    }
  }

  /** An input is accepted at most once, and then counted once: waiting, drained, applied to the transcript, or cancelled. */
  lemma QueueConservation(entries: seq<Entry>, id: string)
    requires LawfulJournal(entries) && id != ""
    ensures var q := Recovered(entries).queues;
      AcceptedCount(entries[1..], id) ==
        (if id in q.pending then 1 else 0) + (if id in q.drained then 1 else 0)
        + AppliedCount(entries[1..], id) + CancelledCount(entries[1..], id)
    ensures AcceptedCount(entries[1..], id) <= 1
  {
    var first := CreatedFold(entries[0].budget, entries[0].drainAll);
    RecoveredHealthy(entries);
    CreatedHealthy(entries[0].budget, entries[0].drainAll);
    SuffixConserves(first, entries[1..], id);
  }

  /** Inputs enter the transcript with the message they were accepted with, injections in the order of their IDs. */
  predicate Delivers(accepted: map<string, Message>, entries: seq<Entry>)
    decreases entries
  {
    entries == [] ||
      match entries[0]
      case QueueAccepted(entry) => Delivers(accepted[entry.id := entry.message], entries[1..])
      case MessageEntry(message, _, id) =>
        (id == "" || (id in accepted && accepted[id] == message)) && Delivers(accepted, entries[1..])
      case EventEntry(MessagesInjected(messages), ids, _) =>
        && (ids == [] || (|messages| == |ids| && forall i :: 0 <= i < |ids| ==> ids[i] in accepted && accepted[ids[i]] == messages[i]))
        && Delivers(accepted, entries[1..])
      case _ => Delivers(accepted, entries[1..])
  }

  predicate Remembers(q: Queues, accepted: map<string, Message>) {
    && (forall id :: id in q.pending ==> id in accepted && accepted[id] == q.pending[id].message)
    && (forall id :: id in q.drained ==> id in accepted && accepted[id] == q.drained[id].message)
  }

  lemma {:induction false} SuffixDelivers(f: Folded, accepted: map<string, Message>, entries: seq<Entry>)
    requires Healthy(f) && LawfulFrom(f, entries) && Remembers(f.queues, accepted)
    ensures Delivers(accepted, entries)
    decreases entries
  {
    if entries != [] {
      var e := entries[0];
      LegalKeepsHealthy(f, e);
      var next := if e.QueueAccepted? then accepted[e.entry.id := e.entry.message] else accepted;
      assert Remembers(QueueStep(f.queues, e), next);
      SuffixDelivers(FoldStep(f, e), next, entries[1..]);
    }
  }

  lemma JournalDelivers(entries: seq<Entry>)
    requires LawfulJournal(entries)
    ensures Delivers(map[], entries[1..])
  {
    CreatedHealthy(entries[0].budget, entries[0].drainAll);
    SuffixDelivers(CreatedFold(entries[0].budget, entries[0].drainAll), map[], entries[1..]);
  }

  // ---------------------------------------------------------------------
  // Usage accounting.

  /** Child charges plus, for each run segment, the last usage the run reported in it. */
  function Charged(last: Counters, entries: seq<Entry>): Counters
    decreases entries
  {
    if entries == [] then last
    else
      match entries[0]
      case RunOpened(_, _, _, _) => Plus(last, Charged(ZeroCounters, entries[1..]))
      case RunRecovered(_, _, _) => Plus(last, Charged(ZeroCounters, entries[1..]))
      case RunClosed(_, _) => Plus(last, Charged(ZeroCounters, entries[1..]))
      case UsageCommitted(run, _) => Charged(run.counters, entries[1..])
      case EventEntry(TurnEnded(usage), _, _) => Charged(usage.counters, entries[1..])
      case ChildUsage(charge, _) => Plus(charge.counters, Charged(last, entries[1..]))
      case _ => Charged(last, entries[1..])
  }

  function LastReport(run: Option<ActiveRun>): Counters {
    match run case None => ZeroCounters case Some(r) => r.lastUsage.counters
  }

  lemma StepCharges(f: Folded, e: Entry)
    requires Legal(f, e)
    ensures AtMost(f.usage.counters, UsageStep(f.usage, e).counters)
    ensures var after := LastReport(RunStep(f.run, f.view, f.phase.state, e));
      var used := UsageStep(f.usage, e).counters;
      match e
      case RunOpened(_, _, _, _) => used == f.usage.counters && after == ZeroCounters
      case RunRecovered(_, _, _) => used == f.usage.counters && after == ZeroCounters
      case RunClosed(_, _) => used == f.usage.counters && after == ZeroCounters
      case UsageCommitted(run, _) => after == run.counters && Plus(used, LastReport(f.run)) == Plus(f.usage.counters, after)
      case EventEntry(TurnEnded(usage), _, _) =>
        after == usage.counters && Plus(used, LastReport(f.run)) == Plus(f.usage.counters, after)
      case ChildUsage(charge, _) => after == LastReport(f.run) && used == Plus(f.usage.counters, charge.counters)
      case _ => after == LastReport(f.run) && used == f.usage.counters
  {
  }

  /** One entry: what the session was charged, against how the remaining charge changes. */
  lemma ChargedStep(f: Folded, e: Entry, rest: seq<Entry>)
    requires Legal(f, e)
    ensures Plus(Plus(f.usage.counters, Charged(LastReport(f.run), [e] + rest)), LastReport(FoldStep(f, e).run))
      == Plus(Plus(UsageStep(f.usage, e).counters, Charged(LastReport(FoldStep(f, e).run), rest)), LastReport(f.run))
    ensures AtMost(f.usage.counters, UsageStep(f.usage, e).counters)
  {
    StepCharges(f, e);
    assert ([e] + rest)[1..] == rest;
  }

  /** Cancels the intermediate report from two telescoping steps. */
  lemma Telescope(u0: Counters, u1: Counters, u2: Counters, last0: Counters, last1: Counters, all: Counters, rest: Counters)
    requires Plus(Plus(u0, all), last1) == Plus(Plus(u1, rest), last0)
    requires Plus(u2, last1) == Plus(u1, rest)
    ensures Plus(u2, last0) == Plus(u0, all)
  {
  }

  /** The session's counters telescope: each run's reports count once, at their last value. */
  lemma {:induction false} SuffixCharges(f: Folded, entries: seq<Entry>)
    requires Healthy(f) && LawfulFrom(f, entries)
    ensures FoldFrom(f, entries).Some?
    ensures Plus(FoldFrom(f, entries).value.usage.counters, LastReport(f.run))
      == Plus(f.usage.counters, Charged(LastReport(f.run), entries))
    ensures AtMost(f.usage.counters, FoldFrom(f, entries).value.usage.counters)
    decreases entries
  {
    if entries != [] {
      var e, rest := entries[0], entries[1..];
      var next := FoldStep(f, e);
      LegalKeepsHealthy(f, e);
      SuffixCharges(next, rest);
      ChargedStep(f, e, rest);
      assert entries == [e] + rest;
      Telescope(f.usage.counters, next.usage.counters, FoldFrom(next, rest).value.usage.counters,
                LastReport(f.run), LastReport(next.run), Charged(LastReport(f.run), entries), Charged(LastReport(next.run), rest));
    }
  }

  lemma FromCreation(entries: seq<Entry>) returns (first: Folded)
    requires LawfulJournal(entries)
    ensures first.usage == ZeroUsage && LastReport(first.run) == ZeroCounters && first.usage.counters == ZeroCounters
    ensures Healthy(first) && LawfulFrom(first, entries[1..]) && FoldFrom(first, entries[1..]) == Some(Recovered(entries))
    ensures Healthy(Recovered(entries)) && entries != [] && first.view == View([], [], None)
    ensures forall counters: Counters :: Plus(counters, ZeroCounters) == counters && Plus(ZeroCounters, counters) == counters
  {
    hide Healthy, LawfulFrom, FoldFrom;
    first := CreatedFold(entries[0].budget, entries[0].drainAll);
    CreatedHealthy(entries[0].budget, entries[0].drainAll);
    RecoveredHealthy(entries);
  }

  lemma UsageAccounting(entries: seq<Entry>, more: seq<Entry>)
    requires LawfulJournal(entries) && LawfulFrom(Recovered(entries), more)
    ensures Recovered(entries).usage.counters == Charged(ZeroCounters, entries[1..])
    ensures LawfulJournal(entries + more)
    ensures AtMost(Recovered(entries).usage.counters, Recovered(entries + more).usage.counters)
  {
    hide *;
    var first := FromCreation(entries);
    SuffixCharges(first, entries[1..]);
    AppendBatch(entries, more);
    SuffixCharges(Recovered(entries), more);
  }

  // ---------------------------------------------------------------------
  // The transcript is append-only, but for one leading system message.

  /** What an entry adds at the end of the transcript. */
  function Voiced(e: Entry): Transcript {
    match e
    case MessageEntry(message, _, _) => [message]
    case RepairMessage(message) => [message]
    case EventEntry(event, _, _) =>
      (match event
       case AssistantCommitted(message) => [message]
       case ToolResultCommitted(r) => [NewToolResultMessageFor(r.toolUseId, r.name, r.content, r.isError)]
       case MessagesInjected(messages) => messages
       case _ => [])
    case _ => []
  }

  function AllVoiced(entries: seq<Entry>): Transcript {
    if entries == [] then [] else Voiced(entries[0]) + AllVoiced(entries[1..])
  }

  /** A system message is only ever put in front of a transcript without one. */
  lemma SystemInFront(f: Folded, e: Entry)
    requires Healthy(f) && Legal(f, e) && e.SystemMessage?
    ensures e.message.role == RoleSystem && !StartsWithSystem(f.view.messages)
  {
    HistorySystem(f.view, f.run.value);
  }

  /** How one entry changes the transcript: one message in front, or some at the end. */
  lemma StepGrows(f: Folded, e: Entry) returns (prefix: Transcript, suffix: Transcript)
    requires Healthy(f) && Legal(f, e)
    ensures suffix == Voiced(e) && (prefix == [] || e == SystemMessage(prefix[0]))
    ensures ViewStep(f.view, e).messages == prefix + f.view.messages + suffix
    ensures |prefix| <= 1 && (prefix != [] ==> prefix[0].role == RoleSystem && !StartsWithSystem(f.view.messages))
    ensures StartsWithSystem(f.view.messages) ==> StartsWithSystem(ViewStep(f.view, e).messages)
    ensures prefix != [] ==> StartsWithSystem(ViewStep(f.view, e).messages)
  {
    hide Healthy, Legal;
    if e.SystemMessage? {
      SystemInFront(f, e);
    }
    prefix := if e.SystemMessage? then [e.message] else [];
    suffix := Voiced(e);
  }

  lemma GrowthComposes(a: Transcript, p: Transcript, s: Transcript, prefix: Transcript, suffix: Transcript)
    ensures prefix + (p + a + s) + suffix == (prefix + p) + a + (s + suffix)
  {
  }

  lemma {:induction false} TranscriptGrows(f: Folded, entries: seq<Entry>) returns (prefix: Transcript, suffix: Transcript)
    requires Healthy(f) && LawfulFrom(f, entries)
    ensures suffix == AllVoiced(entries)
    ensures FoldFrom(f, entries).Some?
    ensures FoldFrom(f, entries).value.view.messages == prefix + f.view.messages + suffix
    ensures |prefix| <= 1 && (prefix != [] ==> prefix[0].role == RoleSystem && !StartsWithSystem(f.view.messages))
    decreases entries
  {
    if entries == [] {
      prefix, suffix := [], [];
    } else {
      var next := FoldStep(f, entries[0]);
      LegalKeepsHealthy(f, entries[0]);
      var p, s := StepGrows(f, entries[0]);
      var later, more := TranscriptGrows(next, entries[1..]);
      GrowthComposes(f.view.messages, p, s, later, more);
      prefix, suffix := later + p, s + more;
    }
  }

  // ---------------------------------------------------------------------
  // The markers, told by what stands behind them.

  /** A context marker and how many messages of the transcript come after it. */
  datatype Mark = Mark(message: Message, behind: int)

  function MarksOf(e: Entry, behind: int): seq<Mark> {
    match e
    case InterruptMarker(text) => [Mark(InterruptionContextMessage(text), behind)]
    case ContextMessage(_, message) => [Mark(message, behind)]
    case _ => []
  }

  /** What the entries mark, each with as many messages behind it as the later entries add. */
  function Marks(entries: seq<Entry>): seq<Mark> {
    if entries == [] then [] else MarksOf(entries[0], |AllVoiced(entries[1..])|) + Marks(entries[1..])
  }

  function Standing(v: View, later: nat): (marks: seq<Mark>)
    ensures |marks| == |v.markers|
  {
    seq(|v.markers|, i requires 0 <= i < |v.markers| => Mark(v.markers[i].message, |v.messages| - v.markers[i].after + later))
  }

  lemma {:induction false} StepMarks(f: Folded, e: Entry, later: nat)
    requires Healthy(f) && Legal(f, e)
    ensures Standing(FoldStep(f, e).view, later) == Standing(f.view, |Voiced(e)| + later) + MarksOf(e, later)
  {
    hide Healthy, InterruptionContextMessage, QueueStep, PhaseStep, UsageStep, RunStep;
  }

  lemma MarksCons(entries: seq<Entry>)
    requires entries != []
    ensures Marks(entries) == MarksOf(entries[0], |AllVoiced(entries[1..])|) + Marks(entries[1..])
    ensures |AllVoiced(entries)| == |Voiced(entries[0])| + |AllVoiced(entries[1..])|
  {
    hide MarksOf, Voiced;
  }

  lemma {:induction false} SuffixMarks(f: Folded, entries: seq<Entry>)
    requires Healthy(f) && LawfulFrom(f, entries)
    ensures FoldFrom(f, entries).Some?
    ensures Standing(FoldFrom(f, entries).value.view, 0) == Standing(f.view, |AllVoiced(entries)|) + Marks(entries)
    decreases entries
  {
    hide Healthy, Legal, Voiced, MarksOf, FoldStep, Standing;
    if entries != [] {
      MarksCons(entries);
      hide AllVoiced, Marks;
      LegalKeepsHealthy(f, entries[0]);
      StepMarks(f, entries[0], |AllVoiced(entries[1..])|);
      SuffixMarks(FoldStep(f, entries[0]), entries[1..]);
    }
  }

  /**
   * Of every lawful journal: the transcript is what the entries added, in order, behind at most one system message; and its markers are those
   * journaled, in order, each with exactly the messages behind it that were added later.
   */
  lemma {:induction false} JournalTells(entries: seq<Entry>) returns (system: Transcript)
    requires LawfulJournal(entries)
    ensures Recovered(entries).view.messages == system + AllVoiced(entries[1..])
    ensures |system| <= 1 && forall m :: m in system ==> m.role == RoleSystem
    ensures Standing(Recovered(entries).view, 0) == Marks(entries[1..])
  {
    hide Healthy, LawfulFrom, FoldFrom, AllVoiced, Marks, LawfulJournal, Recovered, Plus;
    var first := FromCreation(entries);
    var prefix, suffix := TranscriptGrows(first, entries[1..]);
    SuffixMarks(first, entries[1..]);
    system := prefix;
  }
}
