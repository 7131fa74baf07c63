/** Keyed dispatch as a protocol over an ambiguous journal (harness/session/loop_view.go, loop_acceptance.go, acceptance_failure.go). */
module Dispatches {
  import opened Messages
  import J = Journals

  /** Session and guarantee are constant for a keyed command and left out. */
  datatype Receipt = Receipt(commandId: string, runId: string, queueId: string, position: nat, rejection: string)

  datatype Kept = Kept(digest: string, receipt: Receipt)

  // ---------------------------------------------------------------------
  // Acceptances in a journal.

  predicate AcceptedAt(journal: seq<J.Entry>, i: nat, key: string) {
    i < |journal| && journal[i].CommandAccepted? && journal[i].command.key == key
  }

  ghost predicate Holds(journal: seq<J.Entry>, key: string) {
    exists i: nat :: AcceptedAt(journal, i, key)
  }

  /** No key is accepted twice. */
  predicate OnceEach(journal: seq<J.Entry>) {
    forall i, j :: 0 <= i < j < |journal| && journal[i].CommandAccepted? && journal[j].CommandAccepted? ==>
      journal[i].command.key != journal[j].command.key
  }

  function ReceiptAt(journal: seq<J.Entry>, i: nat): Receipt
    requires i < |journal| && journal[i].CommandAccepted?
  {
    var c := journal[i].command;
    Receipt(c.commandId, c.runId, c.queueId, i + 1, c.rejection)
  }

  /** The same receipt; a live interrupt may carry a later position (it reads the cursor after its acceptance). */
  predicate SameReceipt(kind: J.CommandKind, rejected: bool, live: Receipt, durable: Receipt) {
    && live.(position := durable.position) == durable && durable.position <= live.position
    && (kind != J.CommandInterrupt || rejected ==> live == durable)
  }

  predicate Backed(journal: seq<J.Entry>, i: nat, kept: Kept) {
    && i < |journal| && journal[i].CommandAccepted? && journal[i].command.digest == kept.digest
    && SameReceipt(journal[i].command.kind, journal[i].command.rejection != "", kept.receipt, ReceiptAt(journal, i))
  }

  predicate ValidRejection(reason: string) {
    reason in {"stale_run", "not_running", "unsupported", "invalid_command"}
  }

  /** What restoring checks of one acceptance. */
  predicate WellMarked(c: J.Command) {
    && c.commandId != "" && c.key != "" && c.digest != ""
    && (c.rejection != "" ==> ValidRejection(c.rejection) && c.runId == "" && c.queueId == "")
  }

  predicate AllMarked(journal: seq<J.Entry>) {
    forall i :: 0 <= i < |journal| && journal[i].CommandAccepted? ==> WellMarked(journal[i].command)
  }

  /** A batch that accepts exactly this command, last. */
  predicate Marks(batch: seq<J.Entry>, key: string, digest: string) {
    && batch != [] && batch[|batch| - 1].CommandAccepted?
    && (forall i :: 0 <= i < |batch| - 1 ==> !batch[i].CommandAccepted?)
    && var c := batch[|batch| - 1].command; c.key == key && c.digest == digest && WellMarked(c)
  }

  predicate Unmarked(batch: seq<J.Entry>) {
    forall i :: 0 <= i < |batch| ==> !batch[i].CommandAccepted?
  }

  // ---------------------------------------------------------------------
  // The protocol state.

  /** Where a dispatcher that owns a key stands. */
  datatype Owner =
    | Owning(key: string, digest: string)
    | Accepted(key: string, at: nat)
    | Remembered(key: string)

  /** `owners` are the program counters of the dispatchers inside the claim window. */
  datatype View = View(
    journal: seq<J.Entry>, cursor: nat, idempotency: map<string, Kept>, claims: map<string, nat>, owners: map<nat, Owner>,
    acceptanceFault: bool, faulted: bool, closed: bool)

  /** availability. */
  predicate Available(v: View) {
    !v.closed && !v.acceptanceFault
  }

  datatype Answer = Replayed(receipt: Receipt) | Conflicts | Granted | Waits

  /** One pass of claimIdempotencyKey under v.mu. */
  function Resolve(v: View, key: string, digest: string): Answer {
    if key in v.idempotency then
      if v.idempotency[key].digest == digest then Replayed(v.idempotency[key].receipt) else Conflicts
    else if key in v.claims then Waits
    else Granted
  }

  /** What an append does to the journal and to the caller's knowledge of it. */
  datatype Outcome = Stored | Lost | Ambiguous

  datatype Step =
    | Claim(who: nat, key: string, digest: string)
    | Accept(who: nat, batch: seq<J.Entry>, outcome: Outcome)
    | Remember(who: nat)
    | Release(who: nat)
    /** Appends of the running session; `acceptance` tells an unkeyed command from a driver event. */
    | Background(batch: seq<J.Entry>, outcome: Outcome, acceptance: bool)
    | Close
    | Reopen

  /** The receipt the owner builds after its acceptance: an interrupt reads the current cursor. */
  function LiveReceipt(v: View, at: nat): Receipt
    requires at < |v.journal| && v.journal[at].CommandAccepted?
  {
    var c := v.journal[at].command;
    if c.kind == J.CommandInterrupt && c.rejection == "" then ReceiptAt(v.journal, at).(position := v.cursor) else ReceiptAt(v.journal, at)
  }

  function Appended(v: View, batch: seq<J.Entry>, outcome: Outcome, acceptance: bool): View {
    var stored := v.(journal := v.journal + batch);
    match outcome
    case Stored => stored.(cursor := |stored.journal|)
    case Lost => v.(faulted := true, acceptanceFault := v.acceptanceFault || acceptance)
    case Ambiguous => stored.(faulted := true, acceptanceFault := v.acceptanceFault || acceptance)
  }

  // ---------------------------------------------------------------------
  // Restoring after a reopen.

  datatype Restored = RestoreFailed | RestoredAs(idempotency: map<string, Kept>)

  function KeptAt(journal: seq<J.Entry>, i: nat): Kept
    requires i < |journal| && journal[i].CommandAccepted?
  {
    Kept(journal[i].command.digest, ReceiptAt(journal, i))
  }

  /** restoreCommandAcceptances over the first `n` entries. */
  function Restore(journal: seq<J.Entry>, n: nat): Restored
    requires n <= |journal|
    decreases n
  {
    if n == 0 then RestoredAs(map[])
    else
      match Restore(journal, n - 1)
      case RestoreFailed => RestoreFailed
      case RestoredAs(kept) =>
        var entry := journal[n - 1];
        if !entry.CommandAccepted? then RestoredAs(kept)
        else if !WellMarked(entry.command) then RestoreFailed
        else if entry.command.key in kept then
          if kept[entry.command.key] == KeptAt(journal, n - 1) then RestoredAs(kept) else RestoreFailed
        else RestoredAs(kept[entry.command.key := KeptAt(journal, n - 1)])
  }

  predicate Exact(journal: seq<J.Entry>, n: nat, kept: map<string, Kept>)
    requires n <= |journal|
  {
    && (forall i :: 0 <= i < n && journal[i].CommandAccepted? ==>
          journal[i].command.key in kept && kept[journal[i].command.key] == KeptAt(journal, i))
    && (forall key :: key in kept ==> exists i :: 0 <= i < n && AcceptedAt(journal, i, key))
  }

  lemma {:induction false} RestoreFinds(journal: seq<J.Entry>, n: nat)
    requires n <= |journal| && OnceEach(journal[..n]) && AllMarked(journal[..n])
    ensures Restore(journal, n).RestoredAs? && Exact(journal, n, Restore(journal, n).idempotency)
    decreases n
  {
    if n > 0 {
      assert journal[..n][..n - 1] == journal[..n - 1];
      assert forall i :: 0 <= i < n ==> journal[..n][i] == journal[i];
      RestoreFinds(journal, n - 1);
      var kept := Restore(journal, n - 1).idempotency;
      var entry := journal[n - 1];
      if entry.CommandAccepted? {
        forall i | 0 <= i < n - 1 && journal[i].CommandAccepted? ensures journal[i].command.key != entry.command.key {
          assert journal[..n][i].command.key != journal[..n][n - 1].command.key;
        }
        assert AcceptedAt(journal, n - 1, entry.command.key);
      }
    }
  }

  lemma {:induction false} RestoreNeeds(journal: seq<J.Entry>, n: nat)
    requires n <= |journal| && Restore(journal, n).RestoredAs?
    ensures OnceEach(journal[..n]) && AllMarked(journal[..n])
    decreases n
  {
    if n > 0 {
      assert journal[..n][..n - 1] == journal[..n - 1];
      RestoreNeeds(journal, n - 1);
      RestoreFinds(journal, n - 1);
      var kept := Restore(journal, n - 1).idempotency;
      var last := journal[n - 1];
      forall i | 0 <= i < n - 1 && journal[i].CommandAccepted? && last.CommandAccepted?
        ensures journal[i].command.key != last.command.key
      {
        assert kept[journal[i].command.key] == KeptAt(journal, i);
        assert KeptAt(journal, i).receipt.position != KeptAt(journal, n - 1).receipt.position;
      }
      assert forall i :: 0 <= i < n - 1 ==> journal[..n - 1][i] == journal[..n][i] == journal[i];
    }
  }

  /** A reopen succeeds exactly on journals that accept every key once, with complete markers; it then finds every acceptance. */
  lemma RestoreExactly(journal: seq<J.Entry>)
    ensures Restore(journal, |journal|).RestoredAs? <==> OnceEach(journal) && AllMarked(journal)
    ensures Restore(journal, |journal|).RestoredAs? ==> Exact(journal, |journal|, Restore(journal, |journal|).idempotency)
  {
    assert journal[..|journal|] == journal;
    if Restore(journal, |journal|).RestoredAs? {
      RestoreNeeds(journal, |journal|);
    }
    if OnceEach(journal) && AllMarked(journal) {
      RestoreFinds(journal, |journal|);
    }
  }

  // ---------------------------------------------------------------------
  // Steps.

  /** Accept goes through the session's locked primitives: a faulted or closed session takes nothing. */
  predicate Enabled(v: View, step: Step) {
    match step
    case Claim(who, key, digest) => who !in v.owners && key != ""
    case Accept(who, batch, outcome) =>
      who in v.owners && v.owners[who].Owning? && Marks(batch, v.owners[who].key, v.owners[who].digest) && !v.faulted && !v.closed
    case Remember(who) => who in v.owners && v.owners[who].Accepted?
    case Release(who) => who in v.owners && !v.owners[who].Accepted?
    case Background(batch, outcome, acceptance) => Unmarked(batch) && !v.faulted && !v.closed
    case Close => v.owners == map[]
    case Reopen => Restore(v.journal, |v.journal|).RestoredAs?
  }

  function Next(v: View, step: Step): View
    requires Valid(v) && Enabled(v, step)
  {
    match step
    case Claim(who, key, digest) =>
      if Resolve(v, key, digest).Granted? then
        v.(claims := v.claims[key := who], owners := v.owners[who := Owning(key, digest)])
      else v
    case Accept(who, batch, outcome) =>
      var after := Appended(v, batch, outcome, true);
      if outcome.Stored? then after.(owners := v.owners[who := Accepted(v.owners[who].key, |v.journal| + |batch| - 1)]) else after
    case Remember(who) =>
      var at := v.owners[who].at;
      v.(idempotency := v.idempotency[v.owners[who].key := Kept(v.journal[at].command.digest, LiveReceipt(v, at))],
         owners := v.owners[who := Remembered(v.owners[who].key)])
    case Release(who) => v.(claims := v.claims - {v.owners[who].key}, owners := v.owners - {who})
    case Background(batch, outcome, acceptance) => Appended(v, batch, outcome, acceptance)
    case Close => v.(closed := true)
    case Reopen => View(v.journal, |v.journal|, Restore(v.journal, |v.journal|).idempotency, map[], map[], false, false, false)
  }

  // ---------------------------------------------------------------------
  // The invariant.

  /** Claims and owners name each other: one owner to a key. */
  predicate Claimed(v: View) {
    && (forall key :: key in v.claims ==> v.claims[key] in v.owners && v.owners[v.claims[key]].key == key)
    && (forall who :: who in v.owners ==> v.owners[who].key in v.claims && v.claims[v.owners[who].key] == who)
  }

  /** Everything remembered is in the journal; everything in the journal is remembered, or about to be, unless the handle failed. */
  ghost predicate Recorded(v: View) {
    && (forall key :: key in v.idempotency ==> exists i :: AcceptedAt(v.journal, i, key) && Backed(v.journal, i, v.idempotency[key]))
    && (forall who :: who in v.owners && v.owners[who].Accepted? ==>
          AcceptedAt(v.journal, v.owners[who].at, v.owners[who].key) && v.owners[who].at < v.cursor)
    && (!v.acceptanceFault ==> forall i :: 0 <= i < |v.journal| && v.journal[i].CommandAccepted? ==>
          Known(v, v.journal[i].command.key))
  }

  predicate Known(v: View, key: string) {
    key in v.idempotency || (key in v.claims && v.claims[key] in v.owners && v.owners[v.claims[key]].Accepted?)
  }

  /** An owner that has not appended yet holds a key nobody has remembered. */
  predicate Pending(v: View) {
    forall who :: who in v.owners && (v.owners[who].Owning? || v.owners[who].Accepted?) ==> v.owners[who].key !in v.idempotency
  }

  ghost predicate Valid(v: View) {
    && OnceEach(v.journal) && AllMarked(v.journal) && v.cursor <= |v.journal|
    && Claimed(v) && Recorded(v) && Pending(v) && (v.acceptanceFault ==> v.faulted) && (!v.faulted ==> v.cursor == |v.journal|)
  }

  lemma AcceptedOnce(journal: seq<J.Entry>, batch: seq<J.Entry>, key: string, digest: string)
    requires OnceEach(journal) && AllMarked(journal) && Marks(batch, key, digest)
    requires forall i :: 0 <= i < |journal| && journal[i].CommandAccepted? ==> journal[i].command.key != key
    ensures OnceEach(journal + batch) && AllMarked(journal + batch)
    ensures AcceptedAt(journal + batch, |journal| + |batch| - 1, key)
    ensures forall i :: |journal| <= i < |journal| + |batch| - 1 ==> !(journal + batch)[i].CommandAccepted?
  {
    var all := journal + batch;
    forall i | |journal| <= i < |all| - 1 ensures !all[i].CommandAccepted? {
      assert all[i] == batch[i - |journal|];
    }
    assert all[|all| - 1] == batch[|batch| - 1];
  }

  lemma UnmarkedKeeps(journal: seq<J.Entry>, batch: seq<J.Entry>)
    requires OnceEach(journal) && AllMarked(journal) && Unmarked(batch)
    ensures OnceEach(journal + batch) && AllMarked(journal + batch)
    ensures forall i :: |journal| <= i < |journal| + |batch| ==> !(journal + batch)[i].CommandAccepted?
  {
    var all := journal + batch;
    forall i | |journal| <= i < |all| ensures !all[i].CommandAccepted? {
      assert all[i] == batch[i - |journal|];
    }
  }

  lemma BackedStays(journal: seq<J.Entry>, batch: seq<J.Entry>, i: nat, key: string, kept: Kept)
    requires AcceptedAt(journal, i, key) && Backed(journal, i, kept)
    ensures AcceptedAt(journal + batch, i, key) && Backed(journal + batch, i, kept)
  {
    assert (journal + batch)[i] == journal[i];
  }

  /** What was remembered stays backed when the journal grows. */
  lemma RememberedStays(v: View, batch: seq<J.Entry>)
    requires Recorded(v)
    ensures forall key :: key in v.idempotency ==>
      exists i :: AcceptedAt(v.journal + batch, i, key) && Backed(v.journal + batch, i, v.idempotency[key])
  {
    forall key | key in v.idempotency
      ensures exists i :: AcceptedAt(v.journal + batch, i, key) && Backed(v.journal + batch, i, v.idempotency[key])
    {
      var i :| AcceptedAt(v.journal, i, key) && Backed(v.journal, i, v.idempotency[key]);
      BackedStays(v.journal, batch, i, key, v.idempotency[key]);
    }
  }

  lemma ClaimKeeps(v: View, who: nat, key: string, digest: string)
    requires Valid(v) && Enabled(v, Claim(who, key, digest))
    ensures Valid(Next(v, Claim(who, key, digest)))
  {
    hide Backed, AllMarked, OnceEach;
    var after := Next(v, Claim(who, key, digest));
    if after != v {
      forall i | 0 <= i < |v.journal| && v.journal[i].CommandAccepted? && !v.acceptanceFault ensures Known(after, v.journal[i].command.key) {
        assert Known(v, v.journal[i].command.key);
      }
    }
  }

  /** An owner that has not appended holds a key the journal does not have. */
  lemma OwnsFreshKey(v: View, who: nat)
    requires Valid(v) && !v.acceptanceFault && who in v.owners && v.owners[who].Owning?
    ensures forall i :: 0 <= i < |v.journal| && v.journal[i].CommandAccepted? ==> v.journal[i].command.key != v.owners[who].key
  {
    forall i | 0 <= i < |v.journal| && v.journal[i].CommandAccepted? ensures v.journal[i].command.key != v.owners[who].key {
      assert Known(v, v.journal[i].command.key);
    }
  }

  lemma AcceptKeeps(v: View, who: nat, batch: seq<J.Entry>, outcome: Outcome)
    requires Valid(v) && Enabled(v, Accept(who, batch, outcome))
    ensures Valid(Next(v, Accept(who, batch, outcome)))
  {
    hide Backed, WellMarked, AllMarked, OnceEach;
    var key := v.owners[who].key;
    var after := Next(v, Accept(who, batch, outcome));
    OwnsFreshKey(v, who);
    AcceptedOnce(v.journal, batch, key, v.owners[who].digest);
    RememberedStays(v, batch);
    var all := v.journal + batch;
    forall w | w in v.owners && v.owners[w].Accepted? ensures AcceptedAt(all, v.owners[w].at, v.owners[w].key) {
      assert all[v.owners[w].at] == v.journal[v.owners[w].at];
    }
    forall i | 0 <= i < |after.journal| && after.journal[i].CommandAccepted? && !after.acceptanceFault
      ensures Known(after, after.journal[i].command.key)
    {
      if i < |v.journal| {
        assert after.journal[i] == v.journal[i];
        assert Known(v, v.journal[i].command.key);
      }
    }
  }

  lemma BackgroundKeeps(v: View, batch: seq<J.Entry>, outcome: Outcome, acceptance: bool)
    requires Valid(v) && Enabled(v, Background(batch, outcome, acceptance))
    ensures Valid(Next(v, Background(batch, outcome, acceptance)))
  {
    hide Backed, WellMarked, AllMarked, OnceEach;
    var after := Next(v, Background(batch, outcome, acceptance));
    UnmarkedKeeps(v.journal, batch);
    RememberedStays(v, batch);
    var all := v.journal + batch;
    forall w | w in v.owners && v.owners[w].Accepted? ensures AcceptedAt(all, v.owners[w].at, v.owners[w].key) {
      assert all[v.owners[w].at] == v.journal[v.owners[w].at];
    }
    forall i | 0 <= i < |after.journal| && after.journal[i].CommandAccepted? && !after.acceptanceFault
      ensures Known(after, after.journal[i].command.key)
    {
      assert after.journal[i] == v.journal[i];
      assert Known(v, v.journal[i].command.key);
    }
  }

  lemma RememberKeeps(v: View, who: nat)
    requires Valid(v) && Enabled(v, Remember(who))
    ensures Valid(Next(v, Remember(who)))
  {
    hide AllMarked, OnceEach;
    var after := Next(v, Remember(who));
    var key, at := v.owners[who].key, v.owners[who].at;
    assert AcceptedAt(v.journal, at, key) && Backed(v.journal, at, after.idempotency[key]);
    forall k | k in after.idempotency
      ensures exists i :: AcceptedAt(after.journal, i, k) && Backed(after.journal, i, after.idempotency[k])
    {
      if k != key {
        var i :| AcceptedAt(v.journal, i, k) && Backed(v.journal, i, v.idempotency[k]);
        assert AcceptedAt(after.journal, i, k) && Backed(after.journal, i, after.idempotency[k]);
      }
    }
    forall i | 0 <= i < |v.journal| && v.journal[i].CommandAccepted? && !v.acceptanceFault ensures Known(after, v.journal[i].command.key) {
      assert Known(v, v.journal[i].command.key);
    }
  }

  lemma ReleaseKeeps(v: View, who: nat)
    requires Valid(v) && Enabled(v, Release(who))
    ensures Valid(Next(v, Release(who)))
  {
    hide Backed, WellMarked;
    var after := Next(v, Release(who));
    forall i | 0 <= i < |v.journal| && v.journal[i].CommandAccepted? && !v.acceptanceFault ensures Known(after, v.journal[i].command.key) {
      assert Known(v, v.journal[i].command.key);
    }
  }

  lemma ReopenKeeps(v: View)
    requires Valid(v) && Enabled(v, Reopen)
    ensures Valid(Next(v, Reopen))
  {
    RestoreExactly(v.journal);
    var after := Next(v, Reopen);
    forall key | key in after.idempotency
      ensures exists i :: AcceptedAt(after.journal, i, key) && Backed(after.journal, i, after.idempotency[key])
    {
      var i :| 0 <= i < |v.journal| && AcceptedAt(v.journal, i, key);
      assert Backed(after.journal, i, after.idempotency[key]);
    }
  }

  lemma StepKeeps(v: View, step: Step)
    requires Valid(v) && Enabled(v, step)
    ensures Valid(Next(v, step)) && v.journal <= Next(v, step).journal
  {
    hide Valid;
    match step
    case Claim(who, key, digest) => ClaimKeeps(v, who, key, digest);
    case Accept(who, batch, outcome) => AcceptKeeps(v, who, batch, outcome);
    case Remember(who) => RememberKeeps(v, who);
    case Release(who) => ReleaseKeeps(v, who);
    case Background(batch, outcome, acceptance) => BackgroundKeeps(v, batch, outcome, acceptance);
    case Close => CloseKeeps(v);
    case Reopen => ReopenKeeps(v);
  }

  lemma CloseKeeps(v: View)
    requires Valid(v)
    ensures Valid(v.(closed := true))
  {
    hide Backed, WellMarked, AcceptedAt;
    forall i | 0 <= i < |v.journal| && v.journal[i].CommandAccepted? && !v.acceptanceFault
      ensures Known(v.(closed := true), v.journal[i].command.key)
    {
      assert Known(v, v.journal[i].command.key);
    }
  }

  // ---------------------------------------------------------------------
  // Runs.

  /** The states a sequence of steps goes through; steps that are not enabled are skipped. */
  function RunSteps(v: View, steps: seq<Step>): View
    requires Valid(v)
    decreases steps
  {
    if steps == [] then v
    else if !Enabled(v, steps[0]) then RunSteps(v, steps[1..])
    else
      StepKeeps(v, steps[0]);
      RunSteps(Next(v, steps[0]), steps[1..])
  }

  const Initial := View([], 0, map[], map[], map[], false, false, false)

  lemma {:induction false} RunKeeps(v: View, steps: seq<Step>)
    requires Valid(v)
    ensures Valid(RunSteps(v, steps)) && v.journal <= RunSteps(v, steps).journal
    decreases steps
  {
    hide Valid, Enabled, Next;
    if steps != [] {
      if Enabled(v, steps[0]) {
        StepKeeps(v, steps[0]);
        RunKeeps(Next(v, steps[0]), steps[1..]);
      } else {
        RunKeeps(v, steps[1..]);
      }
    }
  }

  /** Whatever dispatchers, rejects, appends, faults, closes and reopens interleave, no key is ever accepted twice. */
  lemma AtMostOneAcceptance(steps: seq<Step>)
    ensures OnceEach(RunSteps(Initial, steps).journal)
    ensures Restore(RunSteps(Initial, steps).journal, |RunSteps(Initial, steps).journal|).RestoredAs?
  {
    RunKeeps(Initial, steps);
    RestoreExactly(RunSteps(Initial, steps).journal);
  }

  // ---------------------------------------------------------------------
  // What a dispatcher is told.

  /** A replayed receipt is the one the journal holds for the key, and the digest is the accepted one; conflicts mean another digest. */
  lemma AnswersRecorded(v: View, key: string, digest: string) returns (i: nat)
    requires Valid(v) && (Resolve(v, key, digest).Replayed? || Resolve(v, key, digest).Conflicts?)
    ensures AcceptedAt(v.journal, i, key)
    ensures Resolve(v, key, digest).Replayed? <==> v.journal[i].command.digest == digest
    ensures Resolve(v, key, digest).Replayed? ==>
      SameReceipt(v.journal[i].command.kind, v.journal[i].command.rejection != "", Resolve(v, key, digest).receipt, ReceiptAt(v.journal, i))
  {
    i :| AcceptedAt(v.journal, i, key) && Backed(v.journal, i, v.idempotency[key]);
  }

  /** While the handle has no acceptance fault: a key in the journal is never granted again, and one that is not is granted or in flight. */
  lemma GrantedIffNew(v: View, key: string, digest: string)
    requires Valid(v) && !v.acceptanceFault
    ensures Resolve(v, key, digest).Granted? ==> !Holds(v.journal, key)
    ensures !Holds(v.journal, key) ==> Resolve(v, key, digest).Granted? || Resolve(v, key, digest).Waits?
  {
    if key in v.idempotency {
      var i: nat :| AcceptedAt(v.journal, i, key) && Backed(v.journal, i, v.idempotency[key]);
      assert Holds(v.journal, key);
    }
    if Holds(v.journal, key) {
      var i: nat :| AcceptedAt(v.journal, i, key);
      assert Known(v, key);
    }
  }

  /**
   * Two successful answers for one key, any number of steps and reopens apart, carry the same receipt, except that a live
   * interrupt's position may differ from the restored one; and an answer for another digest is always a conflict.
   */
  lemma RetriesAgree(v: View, steps: seq<Step>, key: string, digest: string, other: string) returns (i: nat)
    requires Valid(v) && Resolve(v, key, digest).Replayed?
    ensures var w := RunSteps(v, steps);
      AcceptedAt(w.journal, i, key) && (Resolve(w, key, other).Granted? ==> w.acceptanceFault)
    ensures var w := RunSteps(v, steps);
      var first, again := Resolve(v, key, digest), Resolve(w, key, other);
      again.Replayed? ==>
        && other == digest && again.receipt.(position := 0) == first.receipt.(position := 0)
        && (w.journal[i].command.kind != J.CommandInterrupt || w.journal[i].command.rejection != "" ==> again.receipt == first.receipt)
  {
    RunKeeps(v, steps);
    var w := RunSteps(v, steps);
    i := AnswersRecorded(v, key, digest);
    assert w.journal[i] == v.journal[i];
    assert AcceptedAt(w.journal, i, key);
    if !w.acceptanceFault {
      GrantedIffNew(w, key, other);
    }
    if Resolve(w, key, other).Replayed? {
      var j := AnswersRecorded(w, key, other);
      OneIndex(w.journal, i, j, key);
      assert ReceiptAt(w.journal, i) == ReceiptAt(v.journal, i);
    }
  }

  lemma OneIndex(journal: seq<J.Entry>, i: nat, j: nat, key: string)
    requires OnceEach(journal) && AcceptedAt(journal, i, key) && AcceptedAt(journal, j, key)
    ensures i == j
  {
  }

  /** On a faulted or closed handle nothing is accepted, by any step short of a reopen. */
  lemma NothingOnFaulted(v: View, step: Step)
    requires Valid(v) && Enabled(v, step) && (v.faulted || v.closed)
    ensures Next(v, step).journal == v.journal
    ensures step != Reopen ==> Next(v, step).faulted == v.faulted && Next(v, step).acceptanceFault == v.acceptanceFault
  {
  }

  /** An acceptance whose append failed leaves a handle that answers nobody; only a reopen tells whether it took place. */
  lemma FailedAcceptanceIsClosed(v: View, who: nat, batch: seq<J.Entry>, outcome: Outcome)
    requires Valid(v) && Enabled(v, Accept(who, batch, outcome)) && outcome != Stored
    ensures !Available(Next(v, Accept(who, batch, outcome)))
    ensures var after := Next(v, Accept(who, batch, outcome));
      Restore(after.journal, |after.journal|).RestoredAs?
      && (v.owners[who].key in Restore(after.journal, |after.journal|).idempotency <==> outcome == Ambiguous)
  {
    var after := Next(v, Accept(who, batch, outcome));
    var key := v.owners[who].key;
    AcceptKeeps(v, who, batch, outcome);
    RestoreExactly(after.journal);
    OwnsFreshKey(v, who);
    if outcome == Ambiguous {
      AcceptedOnce(v.journal, batch, key, v.owners[who].digest);
    }
  }

  // ---------------------------------------------------------------------
  // An interrupt's receipt.

  /** The step moves the cursor when it takes effect. */
  predicate Stores(step: Step) {
    match step
    case Accept(_, _, outcome) => outcome.Stored?
    case Background(batch, outcome, _) => outcome.Stored? && batch != []
    case _ => false
  }

  /** Some step that takes effect moves the cursor. */
  predicate SomeStores(v: View, steps: seq<Step>)
    requires Valid(v)
    decreases steps
  {
    && steps != []
    && if !Enabled(v, steps[0]) then SomeStores(v, steps[1..])
       else
         StepKeeps(v, steps[0]);
         Stores(steps[0]) || SomeStores(Next(v, steps[0]), steps[1..])
  }

  lemma StepWaits(v: View, step: Step, who: nat, owner: Owner)
    requires Valid(v) && Enabled(v, step) && step != Reopen && step != Remember(who)
    requires who in v.owners && v.owners[who] == owner && owner.Accepted?
    ensures var after := Next(v, step);
      && who in after.owners && after.owners[who] == owner
      && v.cursor <= after.cursor && (after.cursor != v.cursor <==> Stores(step))
  {
    hide Recorded, Pending, Claimed, OnceEach, AllMarked;
  }

  lemma {:induction false} RunWaits(v: View, steps: seq<Step>, who: nat, owner: Owner)
    requires Valid(v) && Reopen !in steps && Remember(who) !in steps
    requires who in v.owners && v.owners[who] == owner && owner.Accepted?
    ensures var after := RunSteps(v, steps);
      && who in after.owners && after.owners[who] == owner
      && v.cursor <= after.cursor && (after.cursor != v.cursor <==> SomeStores(v, steps))
    decreases steps
  {
    hide Valid, Enabled, Next, Stores;
    if steps != [] {
      assert steps[0] in steps && forall s :: s in steps[1..] ==> s in steps;
      if Enabled(v, steps[0]) {
        StepKeeps(v, steps[0]);
        StepWaits(v, steps[0], who, owner);
        RunWaits(Next(v, steps[0]), steps[1..], who, owner);
      } else {
        RunWaits(v, steps[1..], who, owner);
      }
    }
  }

  function AfterAccept(v: View, who: nat, batch: seq<J.Entry>): (accepted: View)
    requires Valid(v) && Enabled(v, Accept(who, batch, Stored))
    ensures Valid(accepted)
  {
    AcceptKeeps(v, who, batch, Stored);
    Next(v, Accept(who, batch, Stored))
  }

  /**
   * A command is accepted, anything short of a reopen happens, and then its receipt is remembered. The receipt differs from the one a
   * reopen restores if and only if the command is an interrupt and some append was stored in between.
   */
  lemma InterruptReceiptDrifts(v: View, who: nat, batch: seq<J.Entry>, steps: seq<Step>, accepted: View, w: View, at: nat)
    requires Valid(v) && Enabled(v, Accept(who, batch, Stored)) && Reopen !in steps && Remember(who) !in steps
    requires accepted == AfterAccept(v, who, batch) && w == RunSteps(accepted, steps) && at == |v.journal| + |batch| - 1
    ensures Valid(w) && Enabled(w, Remember(who)) && w.owners[who].at == at < |w.journal| && w.journal[at] == batch[|batch| - 1]
    ensures var c := batch[|batch| - 1].command;
      LiveReceipt(w, at) != ReceiptAt(w.journal, at) <==>
        c.kind == J.CommandInterrupt && c.rejection == "" && SomeStores(accepted, steps)
  {
    hide Valid, SomeStores, Stores, Enabled, RunSteps;
    AcceptedStands(v, who, batch);
    RunWaits(accepted, steps, who, accepted.owners[who]);
    RunKeeps(accepted, steps);
    assert w.journal[at] == accepted.journal[at];
    RememberEnabled(w, who);
  }

  lemma AcceptedStands(v: View, who: nat, batch: seq<J.Entry>)
    requires Valid(v) && Enabled(v, Accept(who, batch, Stored))
    ensures var accepted := Next(v, Accept(who, batch, Stored));
      && batch != [] && batch[|batch| - 1].CommandAccepted? && accepted.journal == v.journal + batch && accepted.cursor == |accepted.journal|
      && who in accepted.owners && accepted.owners[who] == Accepted(v.owners[who].key, |v.journal| + |batch| - 1)
  {
  }

  lemma RememberEnabled(v: View, who: nat)
    requires who in v.owners && v.owners[who].Accepted?
    ensures Enabled(v, Remember(who))
  {
  }

  const Interrupting := J.CommandAccepted(J.Command("c", J.CommandInterrupt, "k", "d", "r", "", ""))

  /** A keyed interrupt of an open run, and a driver event stored before its receipt is remembered. */
  const Drifting := [
    Background([J.SessionCreated(None, false), J.RunOpened("r", J.DriveStart, None, "")], Stored, false),
    Claim(0, "k", "d"), Accept(0, [Interrupting], Stored), Background([J.EventEntry(J.TurnStarted, [], None)], Stored, false), Remember(0)]

  /** The live receipt names the event's position, the restored one the interrupt's own. */
  lemma DriftOccurs()
    ensures var w := RunSteps(Initial, Drifting);
      && "k" in w.idempotency && w.idempotency["k"].receipt.position == 4
      && Restore(w.journal, |w.journal|).RestoredAs? && "k" in Restore(w.journal, |w.journal|).idempotency
      && Restore(w.journal, |w.journal|).idempotency["k"].receipt.position == 3
  {
    DriftSteps();
    AtMostOneAcceptance(Drifting);
    var w := RunSteps(Initial, Drifting);
    RestoreExactly(w.journal);
    assert w.journal[2] == Interrupting;
  }

  lemma RunOne(v: View, steps: seq<Step>)
    requires Valid(v) && steps != [] && Enabled(v, steps[0])
    ensures Valid(Next(v, steps[0])) && RunSteps(v, steps) == RunSteps(Next(v, steps[0]), steps[1..])
  {
    StepKeeps(v, steps[0]);
  }

  lemma DriftSteps()
    ensures var w := RunSteps(Initial, Drifting);
      && |w.journal| == 4 && w.journal[2] == Interrupting && "k" in w.idempotency && w.idempotency["k"].receipt.position == 4
  {
    hide Valid, RunSteps;
    assert |"k"| == 1 && |"c"| == 1 && |"d"| == 1;
    InitialValid();
    RunOne(Initial, Drifting);
    var v1 := Next(Initial, Drifting[0]);
    RunOne(v1, Drifting[1..]);
    var v2 := Next(v1, Drifting[1]);
    assert Marks([Interrupting], "k", "d");
    RunOne(v2, Drifting[1..][1..]);
    var v3 := Next(v2, Drifting[2]);
    RunOne(v3, Drifting[1..][1..][1..]);
    var v4 := Next(v3, Drifting[3]);
    RunOne(v4, Drifting[1..][1..][1..][1..]);
    assert Drifting[1..][1..][1..][1..][1..] == [];
    RunNone(Next(v4, Drifting[4]));
  }

  lemma InitialValid()
    ensures Valid(Initial)
  {
  }

  lemma RunNone(v: View)
    requires Valid(v)
    ensures RunSteps(v, []) == v
  {
  }
}
