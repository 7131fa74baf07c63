/** Which command a run, a queued input or a resolution is attributed to, live and after a reopen (harness/session/loop_view.go). */
module Attributions {
  import opened Messages
  import opened Dispatches
  import J = Journals

  /** runCommands, queueCommands and resolutionCommands; a resolution goes by its sequence number. */
  datatype Names = Names(runs: map<string, string>, queues: map<string, string>, resolutions: map<nat, string>)

  const Nameless := Names(map[], map[], map[])

  /** What gets into the journal: the batch of an accepted command, a durable rejection, or anything else. */
  datatype Deed =
    | Does(command: J.Command, keyed: bool, batch: seq<J.Entry>)
    | Rejects(command: J.Command)
    | Appends(batch: seq<J.Entry>)

  function BatchOf(deed: Deed): seq<J.Entry> {
    match deed
    case Does(_, _, batch) => batch
    case Rejects(command) => [J.CommandAccepted(command)]
    case Appends(batch) => batch
  }

  predicate NoResolution(batch: seq<J.Entry>) {
    forall i :: 0 <= i < |batch| ==> !batch[i].ResolutionAccepted?
  }

  /** The batches of the session: a keyed command's marker comes last, a resolution's entry first, and neither elsewhere. */
  predicate Fits(deed: Deed) {
    match deed
    case Does(c, keyed, batch) =>
      && c.rejection == ""
      && (keyed ==> batch != [] && batch[|batch| - 1] == J.CommandAccepted(c) && Unmarked(batch[..|batch| - 1]))
      && (!keyed ==> Unmarked(batch))
      && (if c.kind == J.CommandResolve then batch != [] && batch[0].ResolutionAccepted? && NoResolution(batch[1..]) else NoResolution(batch))
    case Rejects(c) => c.rejection != ""
    case Appends(batch) => Unmarked(batch) && NoResolution(batch)
  }

  /** What one accepted command is attributed with; `seq` is the sequence number of a resolution. */
  function Attribute(names: Names, c: J.Command, sequence: nat): Names {
    match c.kind
    case CommandStart => names.(runs := names.runs[c.runId := c.commandId])
    case CommandResolve =>
      names.(runs := if c.runId in names.runs then names.runs else names.runs[c.runId := c.commandId],
             resolutions := names.resolutions[sequence := c.commandId])
    case CommandInterrupt => names
    case _ => names.(queues := names.queues[c.queueId := c.commandId])
  }

  function JournalOf(deeds: seq<Deed>): seq<J.Entry> {
    if deeds == [] then [] else JournalOf(deeds[..|deeds| - 1]) + BatchOf(deeds[|deeds| - 1])
  }

  /** Every accepted command, or only the keyed ones, attributed as its batch is stored. */
  function Attributed(deeds: seq<Deed>, onlyKeyed: bool): Names {
    if deeds == [] then Nameless
    else
      var before, last := deeds[..|deeds| - 1], deeds[|deeds| - 1];
      if last.Does? && (last.keyed || !onlyKeyed) then Attribute(Attributed(before, onlyKeyed), last.command, |JournalOf(before)| + 1)
      else Attributed(before, onlyKeyed)
  }

  /** The live maps: every accepted command is attributed when its batch is stored. */
  function Live(deeds: seq<Deed>): Names {
    Attributed(deeds, false)
  }

  datatype Scan = Scan(names: Names, lastResolution: nat)

  /** restoreCommandAcceptances over the first `n` entries, as far as attribution goes. */
  function Scanned(journal: seq<J.Entry>, n: nat): Scan
    requires n <= |journal|
  {
    if n == 0 then Scan(Nameless, 0)
    else
      var before, e := Scanned(journal, n - 1), journal[n - 1];
      if e.ResolutionAccepted? then before.(lastResolution := n)
      else if !e.CommandAccepted? || e.command.rejection != "" then before
      else if e.command.kind == J.CommandResolve && before.lastResolution == 0 then
        before.(names := Attribute(before.names, e.command, 0).(resolutions := before.names.resolutions))
      else before.(names := Attribute(before.names, e.command, before.lastResolution))
  }

  function Restored(journal: seq<J.Entry>): Names {
    Scanned(journal, |journal|).names
  }

  // ---------------------------------------------------------------------
  // A reopen reads back the keyed commands.

  predicate AllFit(deeds: seq<Deed>) {
    forall i :: 0 <= i < |deeds| ==> Fits(deeds[i])
  }

  /** Entries without a marker change nothing but the last resolution. */
  lemma {:induction false} ScanUnmarked(journal: seq<J.Entry>, from: nat, n: nat)
    requires from <= n <= |journal| && forall i :: from <= i < n ==> !journal[i].CommandAccepted?
    ensures Scanned(journal, n).names == Scanned(journal, from).names
    ensures (forall i :: from <= i < n ==> !journal[i].ResolutionAccepted?) ==> Scanned(journal, n) == Scanned(journal, from)
    ensures from < n && journal[from].ResolutionAccepted? && (forall i :: from < i < n ==> !journal[i].ResolutionAccepted?) ==>
      Scanned(journal, n).lastResolution == from + 1
    decreases n - from
  {
    if from < n {
      ScanUnmarked(journal, from, n - 1);
    }
  }

  lemma {:induction false} ScanPrefix(left: seq<J.Entry>, right: seq<J.Entry>, n: nat)
    requires n <= |left|
    ensures Scanned(left + right, n) == Scanned(left, n)
    decreases n
  {
    if n > 0 {
      ScanPrefix(left, right, n - 1);
    }
  }

  lemma ScanBatch(journal: seq<J.Entry>, deed: Deed)
    requires Fits(deed)
    ensures var before, after := Scanned(journal, |journal|).names, Restored(journal + BatchOf(deed));
      after == if deed.Does? && deed.keyed then Attribute(before, deed.command, |journal| + 1) else before
  {
    hide Scanned, Attribute;
    var all := journal + BatchOf(deed);
    ScanPrefix(journal, BatchOf(deed), |journal|);
    match deed
    case Does(c, keyed, batch) => ScanAccepted(journal, c, keyed, batch);
    case Rejects(c) => ScanMarker(all, |all|);
    case Appends(batch) =>
      forall i | |journal| <= i < |all| ensures !all[i].CommandAccepted? { assert all[i] == batch[i - |journal|]; }
      ScanUnmarked(all, |journal|, |all|);
  }

  lemma ScanAccepted(journal: seq<J.Entry>, c: J.Command, keyed: bool, batch: seq<J.Entry>)
    requires Fits(Does(c, keyed, batch))
    ensures var before, after := Scanned(journal + batch, |journal|).names, Restored(journal + batch);
      after == if keyed then Attribute(before, c, |journal| + 1) else before
  {
    hide Scanned, Attribute;
    var all, from := journal + batch, |journal|;
    var marked := if keyed then |all| - 1 else |all|;
    forall i | from <= i < marked ensures !all[i].CommandAccepted? {
      assert all[i] == batch[i - from] && (keyed ==> batch[i - from] == batch[..|batch| - 1][i - from]);
    }
    ScanUnmarked(all, from, marked);
    if keyed {
      assert all[|all| - 1] == batch[|batch| - 1];
      if c.kind == J.CommandResolve {
        ResolutionFirst(journal, c, batch);
      }
      ScanMarker(all, |all|);
    }
  }

  lemma ResolutionFirst(journal: seq<J.Entry>, c: J.Command, batch: seq<J.Entry>)
    requires Fits(Does(c, true, batch)) && c.kind == J.CommandResolve
    ensures Scanned(journal + batch, |journal| + |batch| - 1).lastResolution == |journal| + 1
  {
    hide Scanned;
    var all, from := journal + batch, |journal|;
    assert all[from] == batch[0];
    forall i | from <= i < |all| - 1 ensures !all[i].CommandAccepted? && (from < i ==> !all[i].ResolutionAccepted?) {
      assert all[i] == batch[i - from] == batch[..|batch| - 1][i - from];
      assert from < i ==> all[i] == batch[1..][i - from - 1];
    }
    ScanUnmarked(all, from, |all| - 1);
  }

  lemma ScanMarker(journal: seq<J.Entry>, n: nat)
    requires 0 < n <= |journal| && journal[n - 1].CommandAccepted?
    ensures var before, c := Scanned(journal, n - 1), journal[n - 1].command;
      && (c.rejection != "" ==> Scanned(journal, n) == before)
      && (c.rejection == "" && (c.kind == J.CommandResolve ==> before.lastResolution != 0) ==>
            Scanned(journal, n).names == Attribute(before.names, c, before.lastResolution))
      && Attribute(before.names, c, before.lastResolution)
           == (if c.kind == J.CommandResolve then Attribute(before.names, c, before.lastResolution) else Attribute(before.names, c, 0))
      && (c.kind != J.CommandResolve ==> forall k: nat :: Attribute(before.names, c, k) == Attribute(before.names, c, 0))
  {
  }

  /** The maps a reopen restores are those of the keyed commands alone. */
  lemma {:induction false} RestoredIsKeyed(deeds: seq<Deed>)
    requires AllFit(deeds)
    ensures Restored(JournalOf(deeds)) == Attributed(deeds, true)
    decreases |deeds|
  {
    hide Scanned, Attribute, Fits;
    if deeds == [] {
      NothingScanned();
    } else {
      var before, last := deeds[..|deeds| - 1], deeds[|deeds| - 1];
      RestoredIsKeyed(before);
      ScanBatch(JournalOf(before), last);
    }
  }

  lemma NothingScanned()
    ensures Scanned([], 0).names == Nameless
  {
  }

  // ---------------------------------------------------------------------
  // What survives a reopen.

  predicate NamesRun(deed: Deed, runId: string) {
    deed.Does? && (deed.command.kind == J.CommandStart || deed.command.kind == J.CommandResolve) && deed.command.runId == runId
  }

  predicate NamesQueue(deed: Deed, queueId: string) {
    && deed.Does? && deed.command.queueId == queueId
    && deed.command.kind != J.CommandStart && deed.command.kind != J.CommandResolve && deed.command.kind != J.CommandInterrupt
  }

  /** Starts open runs that nothing has named, queue IDs are new, and so are command IDs. */
  predicate Fresh(deeds: seq<Deed>) {
    forall i, j :: 0 <= i < j < |deeds| && deeds[i].Does? && deeds[j].Does? ==>
      && deeds[i].command.commandId != deeds[j].command.commandId
      && (deeds[j].command.kind == J.CommandStart ==> !NamesRun(deeds[i], deeds[j].command.runId))
      && (NamesQueue(deeds[j], deeds[j].command.queueId) ==> !NamesQueue(deeds[i], deeds[j].command.queueId))
  }

  /** Index of the first deed that names the run, among all or among the keyed ones. */
  function FirstNaming(deeds: seq<Deed>, runId: string, onlyKeyed: bool): (first: Option<nat>)
    ensures first.Some? ==> first.value < |deeds| && NamesRun(deeds[first.value], runId) && (onlyKeyed ==> deeds[first.value].keyed)
  {
    if deeds == [] then None
    else
      var before, last := FirstNaming(deeds[..|deeds| - 1], runId, onlyKeyed), deeds[|deeds| - 1];
      if before.Some? then before
      else if NamesRun(last, runId) && (last.keyed || !onlyKeyed) then Some(|deeds| - 1)
      else None
  }

  lemma FreshPrefix(deeds: seq<Deed>)
    requires deeds != [] && Fresh(deeds)
    ensures Fresh(deeds[..|deeds| - 1])
  {
  }

  lemma {:induction false} RunsAreFirst(deeds: seq<Deed>, runId: string, onlyKeyed: bool)
    requires Fresh(deeds)
    ensures var runs, first := Attributed(deeds, onlyKeyed).runs, FirstNaming(deeds, runId, onlyKeyed);
      (runId in runs <==> first.Some?) && (first.Some? ==> runs[runId] == deeds[first.value].command.commandId)
    decreases |deeds|
  {
    hide JournalOf;
    if deeds != [] {
      FreshPrefix(deeds);
      RunsAreFirst(deeds[..|deeds| - 1], runId, onlyKeyed);
    }
  }

  lemma {:induction false} FirstIsKeyed(deeds: seq<Deed>, runId: string)
    ensures var first, kept := FirstNaming(deeds, runId, false), FirstNaming(deeds, runId, true);
      && (kept.Some? ==> first.Some? && first.value <= kept.value)
      && (first.Some? && deeds[first.value].keyed ==> kept == first)
    decreases |deeds|
  {
    if deeds != [] {
      FirstIsKeyed(deeds[..|deeds| - 1], runId);
    }
  }

  /**
   * After a reopen a run is attributed as it was live if and only if the first command that named it was keyed. Otherwise a keyed
   * resolution of a run that an unkeyed start opened takes the run over, or the run has no command at all.
   */
  lemma AttributionRestored(deeds: seq<Deed>, runId: string)
    requires AllFit(deeds) && Fresh(deeds) && FirstNaming(deeds, runId, false).Some?
    ensures var live, restored := Live(deeds).runs, Restored(JournalOf(deeds)).runs;
      && runId in live
      && (runId in restored && restored[runId] == live[runId] <==> deeds[FirstNaming(deeds, runId, false).value].keyed)
  {
    RestoredIsKeyed(deeds);
    RunsAreFirst(deeds, runId, false);
    RunsAreFirst(deeds, runId, true);
    FirstIsKeyed(deeds, runId);
  }

  lemma {:induction false} QueueNamed(deeds: seq<Deed>, i: nat, queueId: string, onlyKeyed: bool)
    requires Fresh(deeds) && i < |deeds| && NamesQueue(deeds[i], queueId)
    ensures var queues := Attributed(deeds, onlyKeyed).queues;
      && (queueId in queues <==> deeds[i].keyed || !onlyKeyed)
      && (queueId in queues ==> queues[queueId] == deeds[i].command.commandId)
    decreases |deeds|
  {
    hide JournalOf;
    var before := deeds[..|deeds| - 1];
    FreshPrefix(deeds);
    if i < |deeds| - 1 {
      QueueNamed(before, i, queueId, onlyKeyed);
    } else {
      QueueUnnamed(before, queueId, onlyKeyed);
    }
  }

  lemma {:induction false} QueueUnnamed(deeds: seq<Deed>, queueId: string, onlyKeyed: bool)
    requires forall i :: 0 <= i < |deeds| ==> !NamesQueue(deeds[i], queueId)
    ensures queueId !in Attributed(deeds, onlyKeyed).queues
    decreases |deeds|
  {
    hide JournalOf;
    if deeds != [] {
      QueueUnnamed(deeds[..|deeds| - 1], queueId, onlyKeyed);
    }
  }

  /** The sequence number of a resolution. */
  function SequenceOf(deeds: seq<Deed>, i: nat): nat
    requires i < |deeds|
  {
    |JournalOf(deeds[..i])| + 1
  }

  lemma {:induction false} JournalGrows(deeds: seq<Deed>, i: nat)
    requires i <= |deeds|
    ensures |JournalOf(deeds[..i])| <= |JournalOf(deeds)|
    decreases |deeds|
  {
    if i < |deeds| {
      assert deeds[..|deeds| - 1][..i] == deeds[..i];
      JournalGrows(deeds[..|deeds| - 1], i);
    } else {
      assert deeds[..i] == deeds;
    }
  }

  predicate Resolves(deed: Deed) {
    deed.Does? && deed.command.kind == J.CommandResolve
  }

  lemma {:induction false} ResolutionsBelow(deeds: seq<Deed>, sequence: nat, onlyKeyed: bool)
    requires sequence > |JournalOf(deeds)|
    ensures AllFit(deeds) ==> sequence !in Attributed(deeds, onlyKeyed).resolutions
    decreases |deeds|
  {
    if deeds != [] {
      ResolutionsBelow(deeds[..|deeds| - 1], sequence, onlyKeyed);
    }
  }

  lemma {:induction false} ResolutionNamed(deeds: seq<Deed>, i: nat, onlyKeyed: bool)
    requires AllFit(deeds) && i < |deeds| && Resolves(deeds[i])
    ensures var resolutions, sequence := Attributed(deeds, onlyKeyed).resolutions, SequenceOf(deeds, i);
      && (sequence in resolutions <==> deeds[i].keyed || !onlyKeyed)
      && (sequence in resolutions ==> resolutions[sequence] == deeds[i].command.commandId)
    decreases |deeds|
  {
    hide JournalOf, Fits, AllFit;
    var before := deeds[..|deeds| - 1];
    assert before[..i] == deeds[..i];
    FitsPrefix(deeds);
    if i < |deeds| - 1 {
      ResolutionNamed(before, i, onlyKeyed);
      SequenceBelow(before, i);
    } else {
      ResolutionsBelow(before, |JournalOf(before)| + 1, onlyKeyed);
    }
  }

  lemma FitsPrefix(deeds: seq<Deed>)
    requires AllFit(deeds) && deeds != []
    ensures AllFit(deeds[..|deeds| - 1])
  {
  }

  lemma SequenceBelow(deeds: seq<Deed>, i: nat)
    requires AllFit(deeds) && i < |deeds| && Resolves(deeds[i])
    ensures SequenceOf(deeds, i) <= |JournalOf(deeds)|
  {
    JournalGrows(deeds, i + 1);
    assert deeds[..i + 1][..i] == deeds[..i];
    assert Fits(deeds[i]);
  }

  /** A queued input, and a resolution, keep their command across a reopen if and only if it was keyed. */
  lemma InputsAndResolutionsRestored(deeds: seq<Deed>, i: nat, queueId: string)
    requires AllFit(deeds) && Fresh(deeds) && i < |deeds|
    ensures NamesQueue(deeds[i], queueId) ==>
      var live, restored := Live(deeds).queues, Restored(JournalOf(deeds)).queues;
      queueId in live && (queueId in restored <==> deeds[i].keyed) && (queueId in restored ==> restored[queueId] == live[queueId])
    ensures Resolves(deeds[i]) ==>
      var live, restored := Live(deeds).resolutions, Restored(JournalOf(deeds)).resolutions;
      var sequence := SequenceOf(deeds, i);
      sequence in live && (sequence in restored <==> deeds[i].keyed) && (sequence in restored ==> restored[sequence] == live[sequence])
  {
    hide Attributed, Scanned, JournalOf;
    RestoredIsKeyed(deeds);
    if NamesQueue(deeds[i], queueId) {
      QueueNamed(deeds, i, queueId, false);
      QueueNamed(deeds, i, queueId, true);
    }
    if Resolves(deeds[i]) {
      ResolutionNamed(deeds, i, false);
      ResolutionNamed(deeds, i, true);
    }
  }

  // ---------------------------------------------------------------------
  // A run that changes hands.

  const StartCommand := J.Command("c1", J.CommandStart, "", "", "r", "", "")
  const ResolveCommand := J.Command("c2", J.CommandResolve, "k", "d", "r", "", "")

  /** An unkeyed start opens a run, and a keyed resolution resumes it. */
  const Unkeyed := Does(StartCommand, false, [J.RunOpened("r", J.DriveStart, None, "")])
  const Keyed := Does(ResolveCommand, true, [J.ResolutionAccepted("s"), J.CommandAccepted(ResolveCommand)])

  /** Live, the run is the start's. After a reopen it is the resolution's. */
  lemma RunChangesHands()
    ensures AllFit([Unkeyed, Keyed]) && Fresh([Unkeyed, Keyed])
    ensures var live, restored := Live([Unkeyed, Keyed]).runs, Restored(JournalOf([Unkeyed, Keyed])).runs;
      "r" in live && live["r"] == "c1" && "r" in restored && restored["r"] == "c2"
  {
    var deeds := [Unkeyed, Keyed];
    assert deeds[..1] == [Unkeyed] && [Unkeyed][..0] == [];
    assert "c1"[1] != "c2"[1];
    assert Fits(Keyed) by {
      assert Keyed.batch[1..] == [J.CommandAccepted(ResolveCommand)] && Keyed.batch[..1] == [J.ResolutionAccepted("s")];
    }
    RestoredIsKeyed(deeds);
    RunsAreFirst(deeds, "r", false);
    RunsAreFirst(deeds, "r", true);
    assert FirstNaming([Unkeyed], "r", false) == Some(0) && FirstNaming([Unkeyed], "r", true) == None;
  }
}
