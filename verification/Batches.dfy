/** How the fold moves over the batches the session appends, and how the live queue moves with it. */
module Batches {
  import opened Messages
  import opened Usages
  import opened Suspensions
  import opened Journals
  import opened Lawful

  /** A lawful batch and the fold it leads to. */
  predicate Follows(f: Folded, batch: seq<Entry>, g: Folded) {
    LawfulFrom(f, batch) && FoldFrom(f, batch) == Some(g)
  }

  lemma FollowsOne(f: Folded, e: Entry)
    requires Healthy(f) && Legal(f, e)
    ensures Follows(f, [e], FoldStep(f, e)) && Healthy(FoldStep(f, e))
  {
    LegalKeepsHealthy(f, e);
    assert [e][1..] == [];
  }

  lemma FollowsThen(f: Folded, left: seq<Entry>, g: Folded, right: seq<Entry>, h: Folded)
    requires Follows(f, left, g) && Follows(g, right, h)
    ensures Follows(f, left + right, h)
  {
    FoldConcat(f, left, right);
    LawfulConcat(f, left, right);
  }

  // ---------------------------------------------------------------------
  // The queue in acceptance order.

  function OfKinds(queue: seq<QueueEntry>, kinds: set<QueueKind>): seq<QueueEntry> {
    if queue == [] then []
    else (if queue[0].kind in kinds then [queue[0]] else []) + OfKinds(queue[1..], kinds)
  }

  function Remove(queue: seq<QueueEntry>, id: string): seq<QueueEntry> {
    if queue == [] then []
    else if queue[0].id == id then queue[1..]
    else [queue[0]] + Remove(queue[1..], id)
  }

  function RemoveAll(queue: seq<QueueEntry>, entries: seq<QueueEntry>): seq<QueueEntry>
    decreases entries
  {
    if entries == [] then queue else RemoveAll(Remove(queue, entries[0].id), entries[1..])
  }

  function MessagesOf(entries: seq<QueueEntry>): (messages: Transcript)
    ensures |messages| == |entries|
  {
    seq(|entries|, i requires 0 <= i < |entries| => entries[i].message)
  }

  function IdsOf(entries: seq<QueueEntry>): (ids: seq<string>)
    ensures |ids| == |entries|
  {
    seq(|entries|, i requires 0 <= i < |entries| => entries[i].id)
  }

  predicate DistinctEntries(entries: seq<QueueEntry>) {
    forall i, j :: 0 <= i < j < |entries| ==> entries[i].id != entries[j].id
  }

  /** Distinct entries that wait in the queue. */
  predicate Waits(q: Queues, entries: seq<QueueEntry>) {
    && DistinctEntries(entries)
    && forall i :: 0 <= i < |entries| ==> entries[i].id in q.pending && q.pending[entries[i].id] == entries[i]
  }

  lemma {:induction false} InOrderWaits(order: seq<string>, live: map<string, QueueEntry>)
    requires Distinct(order) && forall id :: id in live ==> live[id].id == id
    ensures DistinctEntries(InOrder(order, live))
    ensures forall i :: 0 <= i < |InOrder(order, live)| ==>
      var e := InOrder(order, live)[i]; e.id in order && e.id in live && live[e.id] == e
    ensures forall id :: id in order && id in live ==> live[id] in InOrder(order, live)
    decreases order
  {
    if order != [] {
      var tail := order[1..];
      assert order == [order[0]] + tail;
      InOrderWaits(tail, live);
      var rest := InOrder(tail, live);
      forall i | 0 <= i < |rest| ensures rest[i].id in order && rest[i].id != order[0] {
        var k :| 0 <= k < |tail| && tail[k] == rest[i].id;
        assert order[k + 1] == rest[i].id;
      }
    }
  }

  lemma PendingWaits(q: Queues)
    requires QueueHealthy(q)
    ensures Waits(q, Pending(q))
    ensures forall id :: id in q.pending ==> q.pending[id] in Pending(q)
  {
    InOrderWaits(q.order, q.pending);
  }

  lemma {:induction false} OfKindsMembers(queue: seq<QueueEntry>, kinds: set<QueueKind>)
    ensures forall e :: e in OfKinds(queue, kinds) <==> e in queue && e.kind in kinds
    ensures DistinctEntries(queue) ==> DistinctEntries(OfKinds(queue, kinds))
    decreases queue
  {
    if queue != [] {
      var tail := queue[1..];
      assert queue == [queue[0]] + tail;
      OfKindsMembers(tail, kinds);
      if DistinctEntries(queue) {
        assert DistinctEntries(tail);
        var rest := OfKinds(tail, kinds);
        forall j | 0 <= j < |rest| ensures rest[j].id != queue[0].id {
          assert rest[j] in tail;
          var k :| 0 <= k < |tail| && tail[k] == rest[j];
          assert queue[k + 1] == rest[j];
        }
      }
    }
  }

  lemma KindsWait(q: Queues, kinds: set<QueueKind>)
    requires QueueHealthy(q)
    ensures Waits(q, OfKinds(Pending(q), kinds))
  {
    PendingWaits(q);
    OfKindsMembers(Pending(q), kinds);
    var chosen := OfKinds(Pending(q), kinds);
    forall i | 0 <= i < |chosen| ensures chosen[i].id in q.pending && q.pending[chosen[i].id] == chosen[i] {
      assert chosen[i] in chosen;
    }
  }

  lemma {:induction false} InOrderDropsAbsent(order: seq<string>, live: map<string, QueueEntry>, id: string)
    requires id !in order
    ensures InOrder(order, live - {id}) == InOrder(order, live)
    decreases order
  {
    if order != [] {
      InOrderDropsAbsent(order[1..], live, id);
    }
  }

  lemma {:induction false} InOrderRemove(order: seq<string>, live: map<string, QueueEntry>, id: string)
    requires Distinct(order) && forall k :: k in live ==> live[k].id == k
    requires id in live
    ensures InOrder(order, live - {id}) == Remove(InOrder(order, live), id)
    decreases order
  {
    if order != [] {
      var head, rest := order[0], order[1..];
      assert order == [head] + rest;
      assert head !in rest;
      if head == id {
        InOrderDropsAbsent(rest, live, id);
        assert InOrder(order, live) == [live[head]] + InOrder(rest, live);
      } else {
        InOrderRemove(rest, live, id);
        if head in live {
          assert live[head].id == head != id;
          assert InOrder(order, live) == [live[head]] + InOrder(rest, live);
          assert InOrder(order, live)[0] == live[head] && InOrder(order, live)[1..] == InOrder(rest, live);
          assert head in live - {id} && (live - {id})[head] == live[head];
        } else {
          assert InOrder(order, live) == InOrder(rest, live);
          assert InOrder(order, live - {id}) == InOrder(rest, live - {id});
        }
      }
    }
  }

  lemma {:induction false} InOrderExtends(order: seq<string>, live: map<string, QueueEntry>, entry: QueueEntry)
    requires entry.id !in order
    ensures InOrder(order + [entry.id], live[entry.id := entry]) == InOrder(order, live) + [entry]
    decreases order
  {
    var all, later := order + [entry.id], live[entry.id := entry];
    if order == [] {
      assert all[1..] == [];
    } else {
      var rest := order[1..];
      assert all[0] == order[0] && all[1..] == rest + [entry.id];
      InOrderExtends(rest, live, entry);
      var head := if order[0] in live then [live[order[0]]] else [];
      assert head + InOrder(rest + [entry.id], later) == head + InOrder(rest, live) + [entry];
    }
  }

  lemma AcceptExtendsPending(q: Queues, entry: QueueEntry)
    requires QueueHealthy(q) && entry.id !in q.order
    ensures Pending(QueueStep(q, QueueAccepted(entry))) == Pending(q) + [entry]
  {
    InOrderExtends(q.order, q.pending, entry);
  }

  // ---------------------------------------------------------------------
  // Batches of queue entries.

  function DrainBatch(entries: seq<QueueEntry>): seq<Entry> {
    if entries == [] then [] else [QueueDrained(entries[0].id)] + DrainBatch(entries[1..])
  }

  function CancelBatch(entries: seq<QueueEntry>): seq<Entry> {
    if entries == [] then [] else [QueueCancelled(entries[0].id)] + CancelBatch(entries[1..])
  }

  lemma RemovalStep(f: Folded, entry: QueueEntry, e: Entry)
    requires Healthy(f) && f.run.Some? && entry.id in f.queues.pending && f.queues.pending[entry.id] == entry
    requires e == QueueDrained(entry.id) || e == QueueCancelled(entry.id)
    ensures Legal(f, e) && FoldStep(f, e) == f.(queues := QueueStep(f.queues, e))
    ensures QueueStep(f.queues, e).pending == f.queues.pending - {entry.id}
    ensures QueueStep(f.queues, e).drained == if e.QueueDrained? then f.queues.drained[entry.id := entry] else f.queues.drained
    ensures entry.id !in f.queues.drained && QueueStep(f.queues, e).order == f.queues.order
    ensures Pending(QueueStep(f.queues, e)) == Remove(Pending(f.queues), entry.id)
  {
    InOrderRemove(f.queues.order, f.queues.pending, entry.id);
    assert e.QueueCancelled? ==> f.queues.drained - {entry.id} == f.queues.drained;
  }

  lemma WaitsTail(q: Queues, next: Queues, entries: seq<QueueEntry>)
    requires Waits(q, entries) && entries != [] && next.pending == q.pending - {entries[0].id}
    ensures Waits(next, entries[1..])
  {
  }

  lemma {:induction false} DrainFollows(f: Folded, entries: seq<QueueEntry>) returns (g: Folded)
    requires Healthy(f) && f.run.Some? && Waits(f.queues, entries)
    ensures Follows(f, DrainBatch(entries), g) && Healthy(g)
    ensures g == f.(queues := g.queues)
    ensures Pending(g.queues) == RemoveAll(Pending(f.queues), entries)
    ensures forall id :: id in f.queues.drained ==> id in g.queues.drained && g.queues.drained[id] == f.queues.drained[id]
    ensures forall i :: 0 <= i < |entries| ==> entries[i].id in g.queues.drained && g.queues.drained[entries[i].id] == entries[i]
    decreases entries
  {
    hide Healthy;
    if entries == [] {
      g := f;
    } else {
      var e := QueueDrained(entries[0].id);
      RemovalStep(f, entries[0], e);
      FollowsOne(f, e);
      var next := FoldStep(f, e);
      WaitsTail(f.queues, next.queues, entries);
      g := DrainFollows(next, entries[1..]);
      FollowsThen(f, [e], next, DrainBatch(entries[1..]), g);
    }
  }

  lemma {:induction false} CancelFollows(f: Folded, entries: seq<QueueEntry>) returns (g: Folded)
    requires Healthy(f) && f.run.Some? && Waits(f.queues, entries)
    ensures Follows(f, CancelBatch(entries), g) && Healthy(g)
    ensures g == f.(queues := g.queues)
    ensures Pending(g.queues) == RemoveAll(Pending(f.queues), entries)
    ensures forall id :: id in g.queues.pending ==> id in f.queues.pending && g.queues.pending[id] == f.queues.pending[id]
    ensures forall i :: 0 <= i < |entries| ==> entries[i].id !in g.queues.pending
    ensures g.queues.drained == f.queues.drained && g.queues.order == f.queues.order
    decreases entries
  {
    hide Healthy;
    if entries == [] {
      g := f;
    } else {
      var e := QueueCancelled(entries[0].id);
      RemovalStep(f, entries[0], e);
      FollowsOne(f, e);
      var next := FoldStep(f, e);
      WaitsTail(f.queues, next.queues, entries);
      g := CancelFollows(next, entries[1..]);
      FollowsThen(f, [e], next, CancelBatch(entries[1..]), g);
    }
  }

  const Targeted: set<QueueKind> := {QueueSteer, QueueFollowUp}

  /** Cancelling every targeted input leaves only session-targeted ones. */
  lemma CancelTargetedFollows(f: Folded) returns (g: Folded)
    requires Healthy(f) && f.run.Some?
    ensures var entries := OfKinds(Pending(f.queues), Targeted);
      && Follows(f, CancelBatch(entries), g) && Healthy(g)
      && g == f.(queues := g.queues) && Pending(g.queues) == RemoveAll(Pending(f.queues), entries)
      && g.queues.drained == f.queues.drained && g.queues.order == f.queues.order
    ensures NoTargeted(g.queues.pending)
  {
    var entries := OfKinds(Pending(f.queues), Targeted);
    KindsWait(f.queues, Targeted);
    g := CancelFollows(f, entries);
    PendingWaits(f.queues);
    OfKindsMembers(Pending(f.queues), Targeted);
    forall id | id in g.queues.pending ensures g.queues.pending[id].kind == QueueNextTurn {
      var entry := f.queues.pending[id];
      assert entry.id == id && entry !in entries;
      assert entry in Pending(f.queues);
    }
  }

  // ---------------------------------------------------------------------
  // Batches of messages and markers.

  function RepairBatch(messages: Transcript): seq<Entry> {
    if messages == [] then [] else [RepairMessage(messages[0])] + RepairBatch(messages[1..])
  }

  /** Messages committed at the end of the transcript and of what the run expects. */
  function WithCommitted(f: Folded, added: Transcript): Folded {
    f.(view := f.view.(messages := f.view.messages + added),
       run := if f.run.Some? then Some(f.run.value.(expected := f.run.value.expected + added)) else None)
  }

  lemma {:induction false} RepairFollows(f: Folded, added: Transcript)
    requires Healthy(f) && f.run.Some? && (added != [] ==> f.view.messages != [])
    ensures Follows(f, RepairBatch(added), WithCommitted(f, added)) && Healthy(WithCommitted(f, added))
    decreases added
  {
    if added == [] {
      assert f.view.messages + added == f.view.messages && f.run.value.expected + added == f.run.value.expected;
    } else {
      var e := RepairMessage(added[0]);
      FollowsOne(f, e);
      var next := FoldStep(f, e);
      assert next == WithCommitted(f, [added[0]]);
      RepairFollows(next, added[1..]);
      FollowsThen(f, [e], next, RepairBatch(added[1..]), WithCommitted(next, added[1..]));
      assert f.view.messages + [added[0]] + added[1..] == f.view.messages + added;
      assert f.run.value.expected + [added[0]] + added[1..] == f.run.value.expected + added;
    }
  }

  function MarkersAt(after: nat, messages: Transcript): seq<ContextMarker> {
    if messages == [] then [] else [ContextMarker(after, messages[0])] + MarkersAt(after, messages[1..])
  }

  function ContextBatch(after: nat, messages: Transcript): seq<Entry> {
    if messages == [] then [] else [ContextMessage(after, messages[0])] + ContextBatch(after, messages[1..])
  }

  function WithMarkers(f: Folded, markers: seq<ContextMarker>): Folded {
    f.(view := f.view.(markers := f.view.markers + markers))
  }

  lemma {:induction false} ContextFollows(f: Folded, added: Transcript)
    requires Healthy(f) && f.run.Some? && forall i :: 0 <= i < |added| ==> added[i].role != RoleSystem
    ensures var g := WithMarkers(f, MarkersAt(|f.view.messages|, added));
      Follows(f, ContextBatch(|f.view.messages|, added), g) && Healthy(g)
    decreases added
  {
    var after := |f.view.messages|;
    if added == [] {
      assert f.view.markers + [] == f.view.markers;
    } else {
      var e := ContextMessage(after, added[0]);
      FollowsOne(f, e);
      var next := FoldStep(f, e);
      assert next == WithMarkers(f, [ContextMarker(after, added[0])]);
      ContextFollows(next, added[1..]);
      var rest := MarkersAt(after, added[1..]);
      FollowsThen(f, [e], next, ContextBatch(after, added[1..]), WithMarkers(next, rest));
      assert f.view.markers + [ContextMarker(after, added[0])] + rest == f.view.markers + MarkersAt(after, added);
    }
  }

  // ---------------------------------------------------------------------
  // The next-turn inputs a run start drains and applies at once.

  function NextTurnBatch(entries: seq<QueueEntry>): seq<Entry> {
    if entries == [] then []
    else [QueueDrained(entries[0].id), MessageEntry(entries[0].message, FromNextTurn, entries[0].id)] + NextTurnBatch(entries[1..])
  }

  /** Messages that join the history of a run that has committed nothing yet. */
  function WithHistory(f: Folded, added: Transcript, q: Queues): Folded {
    f.(queues := q, view := f.view.(messages := f.view.messages + added),
       run := if f.run.Some? then Some(f.run.value.(history := f.run.value.history + added)) else None)
  }

  lemma WithHistoryTwice(f: Folded, first: Transcript, mid: Queues, rest: Transcript, last: Queues)
    ensures WithHistory(WithHistory(f, first, mid), rest, last) == WithHistory(f, first + rest, last)
  {
    assert f.view.messages + first + rest == f.view.messages + (first + rest);
    assert f.run.Some? ==> f.run.value.history + first + rest == f.run.value.history + (first + rest);
  }

  lemma ApplyStep(f: Folded, entry: QueueEntry)
    requires Healthy(f) && f.run.Some? && f.run.value.expected == []
    requires entry.id in f.queues.drained && f.queues.drained[entry.id] == entry && entry.kind == QueueNextTurn
    ensures var e := MessageEntry(entry.message, FromNextTurn, entry.id);
      Legal(f, e) && FoldStep(f, e) == WithHistory(f, [entry.message], f.queues.(drained := f.queues.drained - {entry.id}))
  {
    assert entry.id != "";
  }

  lemma NextTurnStep(f: Folded, entry: QueueEntry) returns (q: Queues)
    requires Healthy(f) && f.run.Some? && f.run.value.expected == []
    requires entry.id in f.queues.pending && f.queues.pending[entry.id] == entry && entry.kind == QueueNextTurn
    ensures Follows(f, [QueueDrained(entry.id), MessageEntry(entry.message, FromNextTurn, entry.id)],
                    WithHistory(f, [entry.message], q))
    ensures Healthy(WithHistory(f, [entry.message], q))
    ensures q.pending == f.queues.pending - {entry.id} && q.drained == f.queues.drained
    ensures Pending(q) == Remove(Pending(f.queues), entry.id)
  {
    hide Healthy, QueueHealthy;
    var drain, apply := QueueDrained(entry.id), MessageEntry(entry.message, FromNextTurn, entry.id);
    RemovalStep(f, entry, drain);
    FollowsOne(f, drain);
    var mid := FoldStep(f, drain);
    ApplyStep(mid, entry);
    FollowsOne(mid, apply);
    FollowsThen(f, [drain], mid, [apply], FoldStep(mid, apply));
    assert [drain] + [apply] == [drain, apply];
    q := mid.queues.(drained := mid.queues.drained - {entry.id});
    assert q.drained == f.queues.drained;
  }

  lemma {:induction false} NextTurnFollows(f: Folded, entries: seq<QueueEntry>) returns (q: Queues)
    requires Healthy(f) && f.run.Some? && f.run.value.expected == []
    requires Waits(f.queues, entries) && forall i :: 0 <= i < |entries| ==> entries[i].kind == QueueNextTurn
    ensures Follows(f, NextTurnBatch(entries), WithHistory(f, MessagesOf(entries), q))
    ensures Healthy(WithHistory(f, MessagesOf(entries), q))
    ensures Pending(q) == RemoveAll(Pending(f.queues), entries) && q.drained == f.queues.drained
    decreases entries
  {
    hide Healthy;
    if entries == [] {
      q := f.queues;
      assert f.view.messages + [] == f.view.messages && f.run.value.history + [] == f.run.value.history;
    } else {
      var head, rest := entries[0], entries[1..];
      var pair := [QueueDrained(head.id), MessageEntry(head.message, FromNextTurn, head.id)];
      var after := NextTurnStep(f, head);
      var mid := WithHistory(f, [head.message], after);
      WaitsTail(f.queues, after, entries);
      q := NextTurnFollows(mid, rest);
      FollowsThen(f, pair, mid, NextTurnBatch(rest), WithHistory(mid, MessagesOf(rest), q));
      WithHistoryTwice(f, [head.message], after, MessagesOf(rest), q);
      assert MessagesOf(entries) == [head.message] + MessagesOf(rest);
    }
  }
}
