/** Which waiting inputs an operation takes, by their places in the queue. */
module QueueOrders {
  import opened Messages
  import opened Selections
  import opened Journals
  import opened Lawful
  import opened Batches

  /** The places of these kinds of input. */
  function Places(queue: seq<QueueEntry>, kinds: set<QueueKind>): set<nat> {
    set i: nat | i < |queue| && queue[i].kind in kinds
  }

  const EveryKind := {QueueSteer, QueueFollowUp, QueueNextTurn}

  /** The inputs of these kinds are taken, in acceptance order, and the others stay in theirs. */
  ghost predicate Taken(queue: seq<QueueEntry>, kinds: set<QueueKind>, taken: seq<QueueEntry>, left: seq<QueueEntry>) {
    && Selects(taken, queue, Places(queue, kinds))
    && Selects(left, queue, Places(queue, EveryKind - kinds))
  }

  /** The places a turn boundary may take from: steering before anything else, follow-ups only at a candidate. */
  function Due(queue: seq<QueueEntry>, candidate: bool): set<nat> {
    if Places(queue, {QueueSteer}) != {} then Places(queue, {QueueSteer})
    else if candidate then Places(queue, {QueueFollowUp})
    else {}
  }

  /** What a turn boundary takes: all that is due, or only what was accepted first. The rest keeps its order. */
  ghost predicate TakenInTurn(queue: seq<QueueEntry>, candidate: bool, drainAll: bool, taken: seq<QueueEntry>, left: seq<QueueEntry>) {
    var due := Due(queue, candidate);
    if due == {} then taken == [] && left == queue
    else if drainAll then
      exists kind :: kind in {QueueSteer, QueueFollowUp} && due == Places(queue, {kind}) && Taken(queue, {kind}, taken, left)
    else
      exists first: nat :: first in due && (forall i :: i in due ==> first <= i)
        && taken == [queue[first]] && left == queue[..first] + queue[first + 1..]
  }

  lemma {:induction false} OfKindsSelects(queue: seq<QueueEntry>, kinds: set<QueueKind>)
    ensures Selects(OfKinds(queue, kinds), queue, Places(queue, kinds))
    decreases queue
  {
    if queue == [] {
      SelectsNothing<QueueEntry>();
      assert Places(queue, kinds) == {};
    } else {
      var head, tail := queue[0], queue[1..];
      OfKindsSelects(tail, kinds);
      SelectsCons(OfKinds(tail, kinds), tail, Places(tail, kinds), head);
      assert [head] + tail == queue;
      PlacesCons(head, tail, kinds);
    }
  }

  lemma PlacesCons(head: QueueEntry, tail: seq<QueueEntry>, kinds: set<QueueKind>)
    ensures Places([head] + tail, kinds) == Shifted(Places(tail, kinds)) + (if head.kind in kinds then {0} else {})
  {
    var queue := [head] + tail;
    forall i: nat | i < |tail| ensures queue[i + 1] == tail[i] {}
    forall i | i in Places(queue, kinds) ensures i in Shifted(Places(tail, kinds)) + (if head.kind in kinds then {0} else {}) {
      if i > 0 {
        assert i - 1 in Places(tail, kinds);
      }
    }
  }

  lemma {:induction false} RemoveAllSkips(head: QueueEntry, tail: seq<QueueEntry>, entries: seq<QueueEntry>)
    requires forall i :: 0 <= i < |entries| ==> entries[i].id != head.id
    ensures RemoveAll([head] + tail, entries) == [head] + RemoveAll(tail, entries)
    decreases entries
  {
    if entries != [] {
      assert ([head] + tail)[1..] == tail;
      RemoveAllSkips(head, Remove(tail, entries[0].id), entries[1..]);
    }
  }

  /** Taking out the inputs of some kinds leaves those of the others. */
  lemma {:induction false} RestOfKinds(queue: seq<QueueEntry>, kinds: set<QueueKind>)
    requires DistinctEntries(queue)
    ensures RemoveAll(queue, OfKinds(queue, kinds)) == OfKinds(queue, EveryKind - kinds)
    decreases queue
  {
    if queue != [] {
      var head, tail := queue[0], queue[1..];
      assert queue == [head] + tail;
      assert DistinctEntries(tail);
      RestOfKinds(tail, kinds);
      OfKindsMembers(tail, kinds);
      var rest := OfKinds(tail, kinds);
      if head.kind in kinds {
        assert OfKinds(queue, kinds) == [head] + rest;
        assert RemoveAll(queue, [head] + rest) == RemoveAll(Remove(queue, head.id), rest);
        assert Remove(queue, head.id) == tail;
      } else {
        forall i | 0 <= i < |rest| ensures rest[i].id != head.id {
          assert rest[i] in tail;
          var k :| 0 <= k < |tail| && tail[k] == rest[i];
          assert queue[k + 1] == rest[i];
        }
        RemoveAllSkips(head, tail, rest);
        assert OfKinds(queue, kinds) == rest && RemoveAll([head] + tail, rest) == [head] + RemoveAll(tail, rest);
        assert head.kind in EveryKind by {
          match head.kind case QueueSteer => case QueueFollowUp => case QueueNextTurn =>
        }
      }
    }
  }

  lemma KindsTaken(queue: seq<QueueEntry>, kinds: set<QueueKind>)
    requires DistinctEntries(queue)
    ensures Taken(queue, kinds, OfKinds(queue, kinds), RemoveAll(queue, OfKinds(queue, kinds)))
  {
    OfKindsSelects(queue, kinds);
    RestOfKinds(queue, kinds);
    OfKindsSelects(queue, EveryKind - kinds);
  }

  lemma {:induction false} RemoveAt(queue: seq<QueueEntry>, i: nat)
    requires DistinctEntries(queue) && i < |queue|
    ensures Remove(queue, queue[i].id) == queue[..i] + queue[i + 1..]
    decreases queue
  {
    if i > 0 {
      RemoveAt(queue[1..], i - 1);
      assert queue[..i] + queue[i + 1..] == [queue[0]] + (queue[1..][..i - 1] + queue[1..][i..]);
    }
  }

  /** The first of some kinds stands before the others of them. */
  lemma FirstOfKinds(queue: seq<QueueEntry>, kinds: set<QueueKind>) returns (first: nat)
    requires OfKinds(queue, kinds) != []
    ensures first in Places(queue, kinds) && queue[first] == OfKinds(queue, kinds)[0]
    ensures forall i :: i in Places(queue, kinds) ==> first <= i
  {
    OfKindsSelects(queue, kinds);
    var at: seq<nat> :| Picks(OfKinds(queue, kinds), queue, at) && PositionsOf(at) == Places(queue, kinds);
    first := at[0];
    forall i | i in Places(queue, kinds) ensures first <= i {
      assert i in PositionsOf(at);
      var j :| 0 <= j < |at| && at[j] == i;
    }
    assert at[0] in PositionsOf(at);
  }

  lemma KindsDue(queue: seq<QueueEntry>, kinds: set<QueueKind>)
    ensures OfKinds(queue, kinds) == [] <==> Places(queue, kinds) == {}
  {
    OfKindsSelects(queue, kinds);
    SelectsMembers(OfKinds(queue, kinds), queue, Places(queue, kinds));
  }
}
