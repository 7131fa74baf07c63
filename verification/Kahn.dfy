/** stableOrder as it runs: edge sets and indegrees in arrays, a ready list sorted at every step (harness/capability/capability.go). */
module Kahn {
  import opened Messages
  import opened StableOrder

  // ---------------------------------------------------------------------
  // sort.Ints on distinct indices.

  predicate Rising(s: seq<nat>) {
    forall i, j :: 0 <= i < j < |s| ==> s[i] < s[j]
  }

  predicate DistinctIndices(s: seq<nat>) {
    forall i, j :: 0 <= i < j < |s| ==> s[i] != s[j]
  }

  function Insert(x: nat, s: seq<nat>): seq<nat> {
    if s == [] then [x] else if x <= s[0] then [x] + s else [s[0]] + Insert(x, s[1..])
  }

  function SortInts(s: seq<nat>): seq<nat> {
    if s == [] then [] else Insert(s[0], SortInts(s[1..]))
  }

  lemma {:induction false} Inserts(x: nat, s: seq<nat>)
    requires Rising(s) && x !in s
    ensures Rising(Insert(x, s)) && forall y :: y in Insert(x, s) <==> y == x || y in s
    decreases s
  {
    if s != [] && x > s[0] {
      var tail := s[1..];
      Inserts(x, tail);
      var rest := Insert(x, tail);
      forall j | 0 <= j < |rest| ensures s[0] < rest[j] {
        assert rest[j] in rest;
        if rest[j] != x {
          var k :| 0 <= k < |tail| && tail[k] == rest[j];
          assert s[k + 1] == rest[j];
        }
      }
      assert s == [s[0]] + tail;
    }
  }

  lemma {:induction false} Sorts(s: seq<nat>)
    requires DistinctIndices(s)
    ensures Rising(SortInts(s)) && forall y :: y in SortInts(s) <==> y in s
    decreases s
  {
    if s != [] {
      Sorts(s[1..]);
      assert s[0] !in s[1..];
      Inserts(s[0], SortInts(s[1..]));
      assert s == [s[0]] + s[1..];
    }
  }

  // ---------------------------------------------------------------------
  // Edge sets and indegrees.

  /** The nodes with an edge into `t`. */
  function Into(edges: seq<set<nat>>, t: nat): set<nat> {
    set s: nat | s < |edges| && t in edges[s]
  }

  predicate Counted(edges: seq<set<nat>>, indegree: seq<nat>) {
    |edges| == |indegree| && forall t :: 0 <= t < |indegree| ==> indegree[t] == |Into(edges, t)|
  }

  lemma IntoGrows(edges: seq<set<nat>>, source: nat, target: nat, t: nat)
    requires source < |edges| && target !in edges[source]
    ensures var after := edges[source := edges[source] + {target}];
      |Into(after, t)| == |Into(edges, t)| + if t == target then 1 else 0
  {
    var after := edges[source := edges[source] + {target}];
    if t == target {
      assert Into(after, t) == Into(edges, t) + {source};
    } else {
      assert Into(after, t) == Into(edges, t);
    }
  }

  method AddEdge(edges: array<set<nat>>, indegree: array<nat>, source: nat, target: nat)
    requires edges.Length == indegree.Length && source < edges.Length && target < edges.Length
    requires Counted(edges[..], indegree[..])
    modifies edges, indegree
    ensures edges[..] == old(edges[..])[source := old(edges[source]) + {target}]
    ensures Counted(edges[..], indegree[..])
  {
    ghost var before := edges[..];
    if target in edges[source] {
      assert edges[source] + {target} == edges[source];
      assert before == before[source := before[source] + {target}];
      return;
    }
    forall t | 0 <= t < edges.Length
      ensures |Into(before[source := before[source] + {target}], t)| == |Into(before, t)| + if t == target then 1 else 0
    {
      IntoGrows(before, source, target, t);
    }
    edges[source] := edges[source] + {target};
    indegree[target] := indegree[target] + 1;
    assert edges[..] == before[source := before[source] + {target}];
  }

  /** What the first `i` capabilities declare, and the first `b` and `a` names of the next one. */
  predicate DeclaredBy(graph: Graph, i: nat, b: nat, a: nat, s: nat, t: nat)
    requires s < |graph| && t < |graph| && i <= |graph|
    requires i < |graph| ==> b <= |graph[i].before| && a <= |graph[i].after|
  {
    || (s < i && graph[t].id in graph[s].before) || (t < i && graph[s].id in graph[t].after)
    || (s == i && graph[t].id in graph[i].before[..b]) || (t == i && graph[s].id in graph[i].after[..a])
  }

  ghost predicate Built(graph: Graph, edges: seq<set<nat>>, i: nat, b: nat, a: nat)
    requires i <= |graph| && (i < |graph| ==> b <= |graph[i].before| && a <= |graph[i].after|)
  {
    && |edges| == |graph|
    && (forall s: nat, t: nat :: s < |graph| && t in edges[s] ==> t < |graph|)
    && forall s: nat, t: nat :: s < |graph| && t < |graph| ==> (t in edges[s] <==> DeclaredBy(graph, i, b, a, s, t))
  }

  /** byID: every ID leads to its capability. */
  ghost predicate Indexed(graph: Graph, byId: map<string, nat>) {
    && (forall i :: 0 <= i < |graph| ==> graph[i].id in byId && byId[graph[i].id] == i)
    && (forall id :: id in byId ==> byId[id] < |graph| && graph[byId[id]].id == id)
  }

  lemma BuiltBefore(graph: Graph, edges: seq<set<nat>>, byId: map<string, nat>, i: nat, b: nat)
    requires i < |graph| && b < |graph[i].before| && Built(graph, edges, i, b, 0) && Indexed(graph, byId)
    requires graph[i].before[b] in byId
    ensures var target := byId[graph[i].before[b]]; Built(graph, edges[i := edges[i] + {target}], i, b + 1, 0)
  {
    var name := graph[i].before[b];
    assert graph[i].before[..b + 1] == graph[i].before[..b] + [name];
    forall t: nat | t < |graph| ensures graph[t].id == name <==> t == byId[name] {}
  }

  lemma BuiltAfter(graph: Graph, edges: seq<set<nat>>, byId: map<string, nat>, i: nat, a: nat)
    requires i < |graph| && a < |graph[i].after| && Built(graph, edges, i, |graph[i].before|, a) && Indexed(graph, byId)
    requires graph[i].after[a] in byId
    ensures var source := byId[graph[i].after[a]]; Built(graph, edges[source := edges[source] + {i}], i, |graph[i].before|, a + 1)
  {
    var name := graph[i].after[a];
    assert graph[i].after[..a + 1] == graph[i].after[..a] + [name];
    forall s: nat | s < |graph| ensures graph[s].id == name <==> s == byId[name] {}
  }

  lemma BuiltNext(graph: Graph, edges: seq<set<nat>>, i: nat)
    requires i < |graph| && Built(graph, edges, i, |graph[i].before|, |graph[i].after|)
    ensures Built(graph, edges, i + 1, 0, 0)
  {
    assert graph[i].before[..|graph[i].before|] == graph[i].before && graph[i].after[..|graph[i].after|] == graph[i].after;
  }

  lemma MissingName(graph: Graph, byId: map<string, nat>, i: nat, name: string)
    requires Indexed(graph, byId) && i < |graph| && (name in graph[i].before || name in graph[i].after) && name !in byId
    ensures !AllNamed(graph)
  {
    assert !Named(graph, name);
  }

  predicate NamesKnown(names: seq<string>, byId: map<string, nat>) {
    forall k :: 0 <= k < |names| ==> names[k] in byId
  }

  /** The first loop over Ordering(): edges of every capability, or a name that is not there. */
  method DeclareEdges(graph: Graph, byId: map<string, nat>, edges: array<set<nat>>, indegree: array<nat>) returns (missing: bool)
    requires Indexed(graph, byId) && edges.Length == |graph| == indegree.Length
    requires forall i :: 0 <= i < |graph| ==> edges[i] == {} && indegree[i] == 0
    modifies edges, indegree
    ensures missing <==> !AllNamed(graph)
    ensures !missing ==> Counted(edges[..], indegree[..]) && Built(graph, edges[..], |graph|, 0, 0)
  {
    hide Built, Counted;
    missing := false;
    NothingBuilt(graph, edges[..], indegree[..]);
    for i := 0 to |graph|
      invariant Counted(edges[..], indegree[..]) && Built(graph, edges[..], i, 0, 0)
      invariant forall k :: 0 <= k < i ==> NamesKnown(graph[k].before, byId) && NamesKnown(graph[k].after, byId)
    {
      var order := graph[i];
      for b := 0 to |order.before|
        invariant Counted(edges[..], indegree[..]) && Built(graph, edges[..], i, b, 0)
        invariant NamesKnown(order.before[..b], byId)
      {
        if order.before[b] !in byId {
          MissingName(graph, byId, i, order.before[b]);
          return true;
        }
        BuiltBefore(graph, edges[..], byId, i, b);
        AddEdge(edges, indegree, i, byId[order.before[b]]);
      }
      for a := 0 to |order.after|
        invariant Counted(edges[..], indegree[..]) && Built(graph, edges[..], i, |order.before|, a)
        invariant NamesKnown(order.after[..a], byId)
      {
        if order.after[a] !in byId {
          MissingName(graph, byId, i, order.after[a]);
          return true;
        }
        BuiltAfter(graph, edges[..], byId, i, a);
        AddEdge(edges, indegree, byId[order.after[a]], i);
      }
      BuiltNext(graph, edges[..], i);
      assert order.before[..|order.before|] == order.before && order.after[..|order.after|] == order.after;
    }
    AllKnown(graph, byId);
  }

  lemma NothingBuilt(graph: Graph, edges: seq<set<nat>>, indegree: seq<nat>)
    requires |edges| == |graph| == |indegree| && forall i :: 0 <= i < |graph| ==> edges[i] == {} && indegree[i] == 0
    ensures Counted(edges, indegree) && Built(graph, edges, 0, 0, 0)
  {
    forall t | 0 <= t < |indegree| ensures Into(edges, t) == {} {}
  }

  lemma AllKnown(graph: Graph, byId: map<string, nat>)
    requires Indexed(graph, byId)
    requires forall k :: 0 <= k < |graph| ==> NamesKnown(graph[k].before, byId) && NamesKnown(graph[k].after, byId)
    ensures AllNamed(graph)
  {
    forall id | id in byId ensures Named(graph, id) {
      assert graph[byId[id]].id == id;
    }
    forall i | 0 <= i < |graph|
      ensures forall k :: 0 <= k < |graph[i].before| ==> Named(graph, graph[i].before[k])
      ensures forall k :: 0 <= k < |graph[i].after| ==> Named(graph, graph[i].after[k])
    {
      assert NamesKnown(graph[i].before, byId) && NamesKnown(graph[i].after, byId);
    }
  }

  // ---------------------------------------------------------------------
  // Taking nodes out.

  /** Sources of `t` not placed yet, counted in the indegree; a target still to be decremented counts one more. */
  predicate Degrees(graph: Graph, placed: set<nat>, rest: set<nat>, indegree: seq<nat>) {
    |indegree| == |graph| && forall t :: 0 <= t < |graph| ==>
      indegree[t] == |Sources(graph, t) - placed| + if t in rest then 1 else 0
  }

  predicate Lists(graph: Graph, placed: set<nat>, rest: set<nat>, ready: seq<nat>) {
    && DistinctIndices(ready) && (forall t :: t in ready ==> t < |graph|)
    && forall t: nat :: t < |graph| ==> (t in ready <==> Ready(graph, placed, t) && t !in rest)
  }

  /** The edge sets are exactly the declared graph. */
  ghost predicate Adjacent(graph: Graph, edges: seq<set<nat>>) {
    && |edges| == |graph| && (forall s: nat, t: nat :: s < |graph| && t in edges[s] ==> t < |graph|)
    && forall s: nat, t: nat :: s < |graph| && t < |graph| ==> (t in edges[s] <==> Edge(graph, s, t))
  }

  lemma FirstDegrees(graph: Graph, edges: seq<set<nat>>, indegree: seq<nat>)
    requires Counted(edges, indegree) && Built(graph, edges, |graph|, 0, 0)
    ensures Degrees(graph, {}, {}, indegree)
    ensures Adjacent(graph, edges)
  {
    forall t | 0 <= t < |graph| ensures indegree[t] == |Sources(graph, t) - {}| {
      assert Into(edges, t) == Sources(graph, t);
      assert Sources(graph, t) - {} == Sources(graph, t);
    }
  }

  /** Placing a ready node: its targets wait to be decremented, nothing else changes. */
  lemma PlacedDegrees(graph: Graph, placed: set<nat>, indegree: seq<nat>, index: nat, targets: set<nat>)
    requires Degrees(graph, placed, {}, indegree) && index < |graph| && index !in placed
    requires forall t: nat :: t < |graph| ==> (t in targets <==> Edge(graph, index, t))
    ensures Degrees(graph, placed + {index}, targets, indegree)
  {
    forall t: nat | t < |graph|
      ensures |Sources(graph, t) - placed| == |Sources(graph, t) - (placed + {index})| + if t in targets then 1 else 0
    {
      assert index in Sources(graph, t) <==> t in targets;
      OneFewer(Sources(graph, t), placed, index);
    }
  }

  lemma OneFewer(sources: set<nat>, placed: set<nat>, index: nat)
    requires index !in placed
    ensures |sources - placed| == |sources - (placed + {index})| + if index in sources then 1 else 0
  {
    var before, after := sources - placed, sources - (placed + {index});
    if index in sources {
      assert before == after + {index};
    } else {
      assert before == after;
    }
  }

  lemma PlacedLists(graph: Graph, placed: set<nat>, ready: seq<nat>, index: nat, rest: seq<nat>, targets: set<nat>)
    requires Lists(graph, placed, {}, ready) && index in ready && index < |graph|
    requires DistinctIndices(rest) && index !in rest && forall t :: t in ready <==> t == index || t in rest
    requires forall t: nat :: t < |graph| ==> (t in targets <==> Edge(graph, index, t))
    ensures Lists(graph, placed + {index}, targets, rest)
  {
    forall t: nat | t < |graph| ensures t in rest <==> Ready(graph, placed + {index}, t) && t !in targets {
      if Ready(graph, placed + {index}, t) && t !in targets {
        assert index !in Sources(graph, t);
      }
      if t in rest {
        assert Ready(graph, placed, t) && index !in placed;
        assert index !in Sources(graph, t);
      }
    }
  }

  /** One target decremented: it joins the ready list exactly when its last source is gone. */
  lemma TargetDone(graph: Graph, placed: set<nat>, rest: set<nat>, indegree: seq<nat>, ready: seq<nat>, t: nat, source: nat)
    requires Degrees(graph, placed, rest, indegree) && Lists(graph, placed, rest, ready)
    requires t in rest && t < |graph| && t !in placed
    ensures indegree[t] > 0
    ensures var after := indegree[t := indegree[t] - 1];
      && Degrees(graph, placed, rest - {t}, after)
      && Lists(graph, placed, rest - {t}, if after[t] == 0 then ready + [t] else ready)
  {
    var left := Sources(graph, t) - placed;
    assert indegree[t] == |left| + 1;
    if left == {} {
      forall s | s in Sources(graph, t) ensures s in placed {
        assert s !in left;
      }
    }
    assert Ready(graph, placed, t) <==> left == {};
  }

  /** A target of a node just placed cannot have been placed before it. */
  lemma TargetWaits(graph: Graph, order: seq<nat>, index: nat, t: nat)
    requires Greedy(graph, order) && Ready(graph, Placed(order), index) && t < |graph| && Edge(graph, index, t)
    ensures t !in Placed(order) + {index}
  {
    assert index in Sources(graph, t);
    assert index !in Sources(graph, index);
    forall k | 0 <= k < |order| ensures order[k] != t {
      assert Ready(graph, Placed(order[..k]), order[k]);
      forall m | 0 <= m < k ensures order[..k][m] in Placed(order) {
        assert order[m] in Placed(order);
      }
      assert index !in Placed(order[..k]);
    }
  }

  /** Decrements every target of the node just placed, in whatever order the map yields them. */
  method DropTargets(graph: Graph, ghost order: seq<nat>, ghost index: nat, targets: set<nat>, indegree: array<nat>, waiting: seq<nat>)
    returns (ready: seq<nat>)
    requires Greedy(graph, order) && index < |graph| && Ready(graph, Placed(order), index) && indegree.Length == |graph|
    requires forall t :: t in targets ==> t < |graph| && Edge(graph, index, t)
    requires Degrees(graph, Placed(order) + {index}, targets, indegree[..])
    requires Lists(graph, Placed(order) + {index}, targets, waiting)
    modifies indegree
    ensures Degrees(graph, Placed(order) + {index}, {}, indegree[..])
    ensures Lists(graph, Placed(order) + {index}, {}, ready)
  {
    hide Degrees, Lists, Ready, Greedy, Edge;
    ready := waiting;
    var rest := targets;
    while rest != {}
      invariant rest <= targets
      invariant Degrees(graph, Placed(order) + {index}, rest, indegree[..])
      invariant Lists(graph, Placed(order) + {index}, rest, ready)
      decreases |rest|
    {
      var target :| target in rest;
      TargetWaits(graph, order, index, target);
      TargetDone(graph, Placed(order) + {index}, rest, indegree[..], ready, target, index);
      ghost var before := indegree[..];
      indegree[target] := indegree[target] - 1;
      assert indegree[..] == before[target := before[target] - 1];
      if indegree[target] == 0 {
        ready := ready + [target];
      }
      rest := rest - {target};
    }
  }

  lemma ReadyStart(graph: Graph, indegree: seq<nat>, t: nat)
    requires Degrees(graph, {}, {}, indegree) && t < |graph|
    ensures indegree[t] == 0 <==> Ready(graph, {}, t)
  {
    assert Sources(graph, t) - {} == Sources(graph, t);
  }

  method FirstReady(graph: Graph, indegree: array<nat>) returns (ready: seq<nat>)
    requires indegree.Length == |graph| && Degrees(graph, {}, {}, indegree[..])
    ensures Lists(graph, {}, {}, ready)
  {
    hide Degrees, Ready;
    ready := [];
    for index := 0 to |graph|
      invariant DistinctIndices(ready) && (forall t :: t in ready ==> t < index)
      invariant forall t: nat :: t < index ==> (t in ready <==> Ready(graph, {}, t))
    {
      ReadyStart(graph, indegree[..], index);
      if indegree[index] == 0 {
        DistinctSnoc(ready, index);
        ready := ready + [index];
      }
    }
  }

  lemma DistinctSnoc(s: seq<nat>, x: nat)
    requires DistinctIndices(s) && x !in s
    ensures DistinctIndices(s + [x])
  {
    forall i | 0 <= i < |s| ensures s[i] != x { assert s[i] in s; }
  }

  /** One step of the main loop: sort the ready list, place its least index, drop its targets. */
  method PlaceLeast(graph: Graph, edges: array<set<nat>>, indegree: array<nat>, ghost order: seq<nat>, ready: seq<nat>)
    returns (index: nat, next: seq<nat>)
    requires edges.Length == |graph| == indegree.Length && ready != [] && Greedy(graph, order)
    requires Adjacent(graph, edges[..])
    requires Degrees(graph, Placed(order), {}, indegree[..]) && Lists(graph, Placed(order), {}, ready)
    modifies indegree
    ensures index < |graph| && index !in Placed(order)
    ensures Greedy(graph, order + [index]) && Placed(order + [index]) == Placed(order) + {index}
    ensures Degrees(graph, Placed(order + [index]), {}, indegree[..]) && Lists(graph, Placed(order + [index]), {}, next)
  {
    ListsDistinct(graph, Placed(order), {}, ready);
    ghost var table := edges[..];
    hide Degrees, Lists, Ready, Greedy, Edge;
    Sorts(ready);
    var sorted := SortInts(ready);
    assert ready[0] in sorted;
    index := sorted[0];
    var waiting := sorted[1..];
    SortedSplits(ready, sorted);
    ghost var placed := Placed(order);
    LeastReady(graph, placed, ready, sorted);
    ReadyOnly(graph, placed, index);
    assert table[index] == edges[index];
    PlacedDegrees(graph, placed, indegree[..], index, edges[index]);
    PlacedLists(graph, placed, ready, index, waiting, edges[index]);
    GreedyExtends(graph, order, index);
    next := DropTargets(graph, order, index, edges[index], indegree, waiting);
  }

  lemma ListsDistinct(graph: Graph, placed: set<nat>, rest: set<nat>, ready: seq<nat>)
    requires Lists(graph, placed, rest, ready)
    ensures DistinctIndices(ready)
  {
  }

  /** The main loop. */
  method TakeOut(graph: Graph, edges: array<set<nat>>, indegree: array<nat>) returns (order: seq<nat>)
    requires edges.Length == |graph| == indegree.Length
    requires Counted(edges[..], indegree[..]) && Built(graph, edges[..], |graph|, 0, 0)
    modifies indegree
    ensures Greedy(graph, order)
    ensures forall t: nat :: t < |graph| ==> !Ready(graph, Placed(order), t)
  {
    FirstDegrees(graph, edges[..], indegree[..]);
    ghost var table := edges[..];
    hide Degrees, Counted, Ready, Greedy, Edge, Lists, Built, Adjacent;
    order := [];
    NothingPlaced(graph);
    var ready := FirstReady(graph, indegree);
    while |ready| > 0
      invariant edges[..] == table && Greedy(graph, order)
      invariant Degrees(graph, Placed(order), {}, indegree[..]) && Lists(graph, Placed(order), {}, ready)
      decreases |Range(|graph|) - Placed(order)|
    {
      var index;
      index, ready := PlaceLeast(graph, edges, indegree, order, ready);
      RangeShrinks(|graph|, Placed(order), index);
      order := order + [index];
    }
    NoneReady(graph, Placed(order), ready);
  }

  lemma NoneReady(graph: Graph, placed: set<nat>, ready: seq<nat>)
    requires Lists(graph, placed, {}, ready) && ready == []
    ensures forall t: nat :: t < |graph| ==> !Ready(graph, placed, t)
  {
    hide Ready;
  }

  lemma NothingPlaced(graph: Graph)
    ensures Greedy(graph, []) && Placed([]) == {}
  {
  }

  lemma ReadyOnly(graph: Graph, placed: set<nat>, t: nat)
    ensures Ready(graph, placed, t) ==> t < |graph| && t !in placed
  {
  }

  lemma LeastReady(graph: Graph, placed: set<nat>, ready: seq<nat>, sorted: seq<nat>)
    requires Lists(graph, placed, {}, ready) && Rising(sorted) && sorted != [] && forall y :: y in sorted <==> y in ready
    ensures Ready(graph, placed, sorted[0])
    ensures forall r: nat :: r < |graph| && Ready(graph, placed, r) ==> sorted[0] <= r
  {
    hide Ready;
    assert sorted[0] in sorted;
    forall r: nat | r < |graph| && Ready(graph, placed, r) ensures sorted[0] <= r {
      assert r in ready;
      var k :| 0 <= k < |sorted| && sorted[k] == r;
    }
  }

  lemma SortedSplits(ready: seq<nat>, sorted: seq<nat>)
    requires sorted != [] && Rising(sorted) && forall y :: y in sorted <==> y in ready
    ensures DistinctIndices(sorted[1..]) && sorted[0] !in sorted[1..]
    ensures forall t :: t in ready <==> t == sorted[0] || t in sorted[1..]
  {
    assert sorted == [sorted[0]] + sorted[1..];
  }

  lemma RangeShrinks(n: nat, placed: set<nat>, index: nat)
    requires index < n && index !in placed
    ensures |Range(n) - (placed + {index})| < |Range(n) - placed|
  {
    assert Range(n) - placed == (Range(n) - (placed + {index})) + {index};
  }

  // ---------------------------------------------------------------------
  // stableOrder.

  lemma {:induction false} NoFault(caps: Declared, i: nat)
    requires i <= |caps| && FirstFault(caps, i).None?
    requires forall k :: 0 <= k < i ==> caps[k].Some?
    ensures forall k :: 0 <= k < |caps| ==> caps[k].Some?
    decreases |caps| - i
  {
    if i < |caps| {
      NoFault(caps, i + 1);
    }
  }

  /** The first loop: an index by ID, or the first fault. */
  method IndexCapabilities(caps: Declared) returns (fault: Option<OrderError>, byId: map<string, nat>)
    ensures fault == FirstFault(caps, 0)
    ensures fault.None? ==>
      (forall k :: 0 <= k < |caps| ==> caps[k].Some?) && UniqueIds(Values(caps)) && Indexed(Values(caps), byId)
  {
    byId := map[];
    for i := 0 to |caps|
      invariant FirstFault(caps, 0) == FirstFault(caps, i)
      invariant forall k :: 0 <= k < i ==> caps[k].Some? && caps[k].value.id in byId && byId[caps[k].value.id] == k
      invariant forall id :: id in byId ==> byId[id] < i && caps[byId[id]].value.id == id
    {
      if caps[i].None? {
        return Some(NilCapability), byId;
      }
      var id := caps[i].value.id;
      if id == "" || !Trimmed(id) {
        return Some(BlankId), byId;
      }
      if id in byId {
        assert caps[byId[id]].Some? && caps[byId[id]].value.id == id;
        return Some(DuplicateId), byId;
      }
      byId := byId[id := i];
    }
    fault := None;
  }

  /**
   * stableOrder: the first fault; else a name that is not there; else the least order that respects every edge, or a cycle
   * when the graph has one. The outcome is the same for every order in which a map yields its keys.
   */
  method Arrange(caps: Declared) returns (result: Ordered)
    ensures FirstFault(caps, 0).Some? ==> result == Refused(FirstFault(caps, 0).value)
    ensures FirstFault(caps, 0).None? ==>
      && (forall k :: 0 <= k < |caps| ==> caps[k].Some?)
      && if AllNamed(Values(caps)) then Meets(Values(caps), result) else result == Refused(MissingOrdering)
  {
    hide FirstFault, Greedy, Ready, AllNamed, Built, Counted, IsOrder, NoLater;
    var fault, byId := IndexCapabilities(caps);
    if fault.Some? {
      return Refused(fault.value);
    }
    var graph := Values(caps);
    var edges := new set<nat>[|graph|](i => {});
    var indegree := new nat[|graph|](i => 0);
    var missing := DeclareEdges(graph, byId, edges, indegree);
    if missing {
      return Refused(MissingOrdering);
    }
    var order := TakeOut(graph, edges, indegree);
    GreedyFits(graph, order);
    if |order| != |graph| {
      StuckMeansCycle(graph, order);
      return Refused(CapabilityCycle);
    }
    GreedyIsOrder(graph, order);
    forall other | IsOrder(graph, other) ensures NoLater(order, other) {
      GreedyIsLeast(graph, order, other);
    }
    result := Sorted(order);
  }

  lemma GreedyFits(graph: Graph, order: seq<nat>)
    requires Greedy(graph, order)
    ensures |order| <= |graph|
  {
    GreedyDistinct(graph, order);
    PlacedSize(order);
    RangeSize(|graph|);
    assert Placed(order) <= Range(|graph|);
    SubsetSmaller(Placed(order), Range(|graph|));
  }
}
