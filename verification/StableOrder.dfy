/** The capability graph: a stable topological order, least by declaration index, or a cycle (harness/capability/capability.go). */
module StableOrder {
  import opened Messages

  /** One capability as the ordering sees it. */
  datatype Capability = Capability(id: string, before: seq<string>, after: seq<string>)

  datatype OrderError = NilCapability | BlankId | DuplicateId | MissingOrdering | CapabilityCycle

  datatype Ordered = Sorted(order: seq<nat>) | Refused(error: OrderError)

  type Declared = seq<Option<Capability>>

  type Graph = seq<Capability>

  // ---------------------------------------------------------------------
  // The declared graph.

  predicate IsSpace(c: char) {
    var code := c as int;
    9 <= code <= 13 || 0x2000 <= code <= 0x200A
    || code in {0x20, 0x85, 0xA0, 0x1680, 0x2028, 0x2029, 0x202F, 0x205F, 0x3000}
  }

  /** Equal to its own strings.TrimSpace. */
  predicate Trimmed(id: string) {
    id != "" ==> !IsSpace(id[0]) && !IsSpace(id[|id| - 1])
  }

  /** The first capability that cannot be indexed, and why. */
  function FirstFault(caps: Declared, i: nat): Option<OrderError>
    requires i <= |caps|
    decreases |caps| - i
  {
    if i == |caps| then None
    else if caps[i].None? then Some(NilCapability)
    else if caps[i].value.id == "" || !Trimmed(caps[i].value.id) then Some(BlankId)
    else if exists j :: 0 <= j < i && caps[j].Some? && caps[j].value.id == caps[i].value.id then Some(DuplicateId)
    else FirstFault(caps, i + 1)
  }

  function Values(caps: Declared): (graph: Graph)
    requires forall i :: 0 <= i < |caps| ==> caps[i].Some?
    ensures |graph| == |caps|
  {
    seq(|caps|, i requires 0 <= i < |caps| => caps[i].value)
  }

  predicate UniqueIds(graph: Graph) {
    forall i, j :: 0 <= i < j < |graph| ==> graph[i].id != graph[j].id
  }

  predicate Named(graph: Graph, id: string) {
    exists i :: 0 <= i < |graph| && graph[i].id == id
  }

  predicate AllNamed(graph: Graph) {
    forall i :: 0 <= i < |graph| ==>
      (forall k :: 0 <= k < |graph[i].before| ==> Named(graph, graph[i].before[k]))
      && (forall k :: 0 <= k < |graph[i].after| ==> Named(graph, graph[i].after[k]))
  }

  /** `s` must come before `t`: one of the two says so. */
  predicate Edge(graph: Graph, s: nat, t: nat)
    requires s < |graph| && t < |graph|
  {
    graph[t].id in graph[s].before || graph[s].id in graph[t].after
  }

  /** A permutation of the indices that respects every edge. */
  predicate IsOrder(graph: Graph, order: seq<nat>) {
    && |order| == |graph| && (forall i :: 0 <= i < |order| ==> order[i] < |graph|)
    && (forall i, j :: 0 <= i < j < |order| ==> order[i] != order[j])
    && (forall i, j :: 0 <= i <= j < |order| ==> !Edge(graph, order[j], order[i]))
  }

  /** `a` is `b`, or has the smaller index at the first difference. */
  predicate NoLater(a: seq<nat>, b: seq<nat>) {
    a == b || exists k :: 0 <= k < |a| && k < |b| && a[..k] == b[..k] && a[k] < b[k]
  }

  /** A closed walk along edges. */
  predicate Cycle(graph: Graph, walk: seq<nat>) {
    && walk != [] && (forall i :: 0 <= i < |walk| ==> walk[i] < |graph|)
    && (forall i :: 0 <= i < |walk| - 1 ==> Edge(graph, walk[i], walk[i + 1]))
    && Edge(graph, walk[|walk| - 1], walk[0])
  }

  ghost predicate Cyclic(graph: Graph) {
    exists walk :: Cycle(graph, walk)
  }

  // ---------------------------------------------------------------------
  // Greedy orders.

  function Range(n: nat): (range: set<nat>)
    ensures forall i: nat :: i in range <==> i < n
  {
    if n == 0 then {} else Range(n - 1) + {n - 1}
  }

  function Placed(order: seq<nat>): set<nat> {
    set i | 0 <= i < |order| :: order[i]
  }

  function Sources(graph: Graph, t: nat): set<nat>
    requires t < |graph|
  {
    set s: nat | s < |graph| && Edge(graph, s, t)
  }

  /** Not placed yet, with every source placed. */
  predicate Ready(graph: Graph, placed: set<nat>, t: nat) {
    t < |graph| && t !in placed && Sources(graph, t) <= placed
  }

  /** Each element was the least ready one when it was placed. */
  predicate Greedy(graph: Graph, order: seq<nat>) {
    forall k :: 0 <= k < |order| ==>
      Ready(graph, Placed(order[..k]), order[k])
      && forall r: nat :: r < |graph| && Ready(graph, Placed(order[..k]), r) ==> order[k] <= r
  }

  lemma GreedyExtends(graph: Graph, order: seq<nat>, next: nat)
    requires Greedy(graph, order) && Ready(graph, Placed(order), next)
    requires forall r: nat :: r < |graph| && Ready(graph, Placed(order), r) ==> next <= r
    ensures Greedy(graph, order + [next]) && Placed(order + [next]) == Placed(order) + {next}
  {
    hide Ready;
    var longer := order + [next];
    forall k | 0 <= k < |longer|
      ensures Ready(graph, Placed(longer[..k]), longer[k])
      ensures forall r: nat :: r < |graph| && Ready(graph, Placed(longer[..k]), r) ==> longer[k] <= r
    {
      if k < |order| {
        assert longer[..k] == order[..k];
      } else {
        assert longer[..k] == order;
      }
    }
    forall x ensures x in Placed(longer) <==> x in Placed(order) + {next} {
      if x in Placed(order) {
        var i :| 0 <= i < |order| && order[i] == x;
        assert longer[i] == x;
      }
      if x == next {
        assert longer[|order|] == x;
      }
    }
  }

  lemma GreedyDistinct(graph: Graph, order: seq<nat>)
    requires Greedy(graph, order)
    ensures forall i :: 0 <= i < |order| ==> order[i] < |graph|
    ensures forall i, j :: 0 <= i < j < |order| ==> order[i] != order[j]
  {
    forall i, j | 0 <= i < j < |order| ensures order[i] != order[j] {
      assert Ready(graph, Placed(order[..j]), order[j]);
      assert order[..j][i] in Placed(order[..j]);
    }
  }

  lemma GreedyIsOrder(graph: Graph, order: seq<nat>)
    requires Greedy(graph, order) && |order| == |graph|
    ensures IsOrder(graph, order)
  {
    GreedyDistinct(graph, order);
    forall i, j | 0 <= i <= j < |order| ensures !Edge(graph, order[j], order[i]) {
      assert Ready(graph, Placed(order[..i]), order[i]);
      forall k | 0 <= k < i ensures order[..i][k] != order[j] {}
      assert order[j] !in Placed(order[..i]);
      assert order[j] !in Sources(graph, order[i]);
    }
  }

  lemma {:induction false} RangeSize(n: nat)
    ensures |Range(n)| == n
  {
    if n > 0 {
      RangeSize(n - 1);
    }
  }

  lemma {:induction false} PlacedSize(order: seq<nat>)
    requires forall i, j :: 0 <= i < j < |order| ==> order[i] != order[j]
    ensures |Placed(order)| == |order|
  {
    if order != [] {
      var front, last := order[..|order| - 1], order[|order| - 1];
      PlacedSize(front);
      assert Placed(order) == Placed(front) + {last} by {
        forall x ensures x in Placed(order) <==> x in Placed(front) + {last} {
          if x in Placed(order) {
            var i :| 0 <= i < |order| && order[i] == x;
            if i < |front| { assert front[i] == x; }
          }
          if x in Placed(front) {
            var i :| 0 <= i < |front| && front[i] == x;
            assert order[i] == x;
          }
          if x == last { assert order[|order| - 1] == x; }
        }
      }
    }
  }

  /** In any order, the next element is ready: nothing it depends on comes later. */
  lemma NextIsReady(graph: Graph, order: seq<nat>, k: nat)
    requires IsOrder(graph, order) && k < |order|
    ensures Ready(graph, Placed(order[..k]), order[k])
  {
    forall s | s in Sources(graph, order[k]) ensures s in Placed(order[..k]) {
      OrderCovers(graph, order, s);
      var i :| 0 <= i < |order| && order[i] == s;
      assert i < k;
      assert order[..k][i] == s;
    }
    forall i | 0 <= i < k ensures order[..k][i] != order[k] {}
  }

  lemma OrderCovers(graph: Graph, order: seq<nat>, t: nat)
    requires IsOrder(graph, order) && t < |graph|
    ensures exists i :: 0 <= i < |order| && order[i] == t
  {
    RangeSize(|graph|);
    PlacedSize(order);
    assert Placed(order) <= Range(|graph|);
    SubsetSame(Placed(order), Range(|graph|));
    assert t in Placed(order);
  }

  lemma SubsetSame(a: set<nat>, b: set<nat>)
    requires a <= b && |a| == |b|
    ensures a == b
  {
    assert |b - a| == |b| - |a|;
  }

  /** A greedy order is the least of all orders: no other one has a smaller index where they first differ. */
  lemma GreedyIsLeast(graph: Graph, order: seq<nat>, other: seq<nat>)
    requires Greedy(graph, order) && |order| == |graph| && IsOrder(graph, other)
    ensures NoLater(order, other)
  {
    hide Ready, IsOrder, Greedy;
    var k := 0;
    assert |other| == |graph| by { OrderLength(graph, other); }
    while k < |order| && order[k] == other[k]
      invariant k <= |order| && order[..k] == other[..k]
    {
      k := k + 1;
    }
    if k == |order| {
      assert order == other;
    } else {
      NextIsReady(graph, other, k);
      LeastAmongReady(graph, order, k, other[k]);
    }
  }

  lemma OrderLength(graph: Graph, order: seq<nat>)
    requires IsOrder(graph, order)
    ensures |order| == |graph|
  {
  }

  lemma LeastAmongReady(graph: Graph, order: seq<nat>, k: nat, r: nat)
    requires Greedy(graph, order) && k < |order| && Ready(graph, Placed(order[..k]), r)
    ensures order[k] <= r
  {
  }

  // ---------------------------------------------------------------------
  // Cycles.

  /** A cycle leaves no order: positions would have to rise all the way round. */
  lemma CycleForbidsOrder(graph: Graph, walk: seq<nat>, order: seq<nat>)
    requires Cycle(graph, walk)
    ensures !IsOrder(graph, order)
  {
    hide Edge;
    if IsOrder(graph, order) {
      OrderCovers(graph, order, walk[0]);
      var first :| 0 <= first < |order| && order[first] == walk[0];
      var i, at := 0, first;
      while i < |walk| - 1
        invariant 0 <= i < |walk| && first <= at < |order| && order[at] == walk[i]
      {
        OrderCovers(graph, order, walk[i + 1]);
        var next :| 0 <= next < |order| && order[next] == walk[i + 1];
        at, i := next, i + 1;
      }
    }
  }

  /** A walk backwards among unplaced nodes, each a source of the one before it. */
  predicate Backwards(graph: Graph, left: set<nat>, walk: seq<nat>) {
    && (forall i :: 0 <= i < |walk| ==> walk[i] in left && walk[i] < |graph|)
    && (forall i :: 0 <= i < |walk| - 1 ==> Edge(graph, walk[i + 1], walk[i]))
  }

  /** Where every node left has a source left, walking backwards comes round. */
  lemma {:induction false} WalkCloses(graph: Graph, left: set<nat>, walk: seq<nat>) returns (cycle: seq<nat>)
    requires left <= Range(|graph|) && walk != [] && Backwards(graph, left, walk)
    requires forall i, j :: 0 <= i < j < |walk| ==> walk[i] != walk[j]
    requires forall t :: t in left ==> Sources(graph, t) * left != {}
    ensures Cycle(graph, cycle)
    decreases |left| - |walk|
  {
    hide Edge, Cycle;
    WalkFits(left, walk);
    var last := walk[|walk| - 1];
    var s :| s in Sources(graph, last) * left;
    assert Edge(graph, s, last) && s in left;
    hide Sources;
    if s in walk {
      var i :| 0 <= i < |walk| && walk[i] == s;
      cycle := Reverse(walk[i..]);
      ReversedCycle(graph, left, walk, i, cycle);
    } else {
      cycle := WalkCloses(graph, left, walk + [s]);
    }
  }

  lemma WalkFits(left: set<nat>, walk: seq<nat>)
    requires forall i :: 0 <= i < |walk| ==> walk[i] in left
    requires forall i, j :: 0 <= i < j < |walk| ==> walk[i] != walk[j]
    ensures |walk| <= |left|
  {
    PlacedSize(walk);
    assert Placed(walk) <= left;
    SubsetSmaller(Placed(walk), left);
  }

  lemma SubsetSmaller(a: set<nat>, b: set<nat>)
    requires a <= b
    ensures |a| <= |b|
  {
    assert |b - a| == |b| - |a|;
  }

  lemma DifferenceSize(a: set<nat>, b: set<nat>)
    ensures |a - b| >= |a| - |b|
  {
    assert a == (a - b) + a * b;
    SubsetSmaller(a * b, b);
  }

  function Reverse(walk: seq<nat>): (r: seq<nat>)
    ensures |r| == |walk| && forall i :: 0 <= i < |walk| ==> r[i] == walk[|walk| - 1 - i]
  {
    if walk == [] then [] else Reverse(walk[1..]) + [walk[0]]
  }

  lemma ReversedCycle(graph: Graph, left: set<nat>, walk: seq<nat>, i: nat, cycle: seq<nat>)
    requires Backwards(graph, left, walk) && i < |walk| && cycle == Reverse(walk[i..])
    requires Edge(graph, walk[i], walk[|walk| - 1])
    ensures Cycle(graph, cycle)
  {
    hide Edge;
    var n := |walk| - i;
    forall k | 0 <= k < n ensures cycle[k] == walk[|walk| - 1 - k] {
      assert walk[i..][n - 1 - k] == walk[|walk| - 1 - k];
    }
  }

  lemma SomeLeft(graph: Graph, order: seq<nat>)
    requires Greedy(graph, order) && |order| < |graph|
    ensures Range(|graph|) - Placed(order) != {}
  {
    GreedyDistinct(graph, order);
    PlacedSize(order);
    RangeSize(|graph|);
    DifferenceSize(Range(|graph|), Placed(order));
  }

  /** When nothing is ready and something is left, the graph has a cycle. */
  lemma StuckMeansCycle(graph: Graph, order: seq<nat>)
    requires Greedy(graph, order) && |order| < |graph|
    requires forall t: nat :: t < |graph| ==> !Ready(graph, Placed(order), t)
    ensures Cyclic(graph)
  {
    hide Sources, Greedy, Cycle;
    var left := Range(|graph|) - Placed(order);
    SomeLeft(graph, order);
    forall t | t in left ensures Sources(graph, t) * left != {} {
      UnplacedHasSource(graph, Placed(order), left, t);
    }
    hide Ready;
    var t :| t in left;
    var cycle := WalkCloses(graph, left, [t]);
  }

  lemma UnplacedHasSource(graph: Graph, placed: set<nat>, left: set<nat>, t: nat)
    requires left == Range(|graph|) - placed && t in left && !Ready(graph, placed, t)
    ensures Sources(graph, t) * left != {}
  {
    var s :| s in Sources(graph, t) && s !in placed;
    assert s in Sources(graph, t) * left;
  }

  /** What a sorted or refused graph means, and that the answer is unique. */
  ghost predicate Meets(graph: Graph, result: Ordered) {
    match result
    case Sorted(order) => IsOrder(graph, order) && forall other :: IsOrder(graph, other) ==> NoLater(order, other)
    case Refused(error) => error == CapabilityCycle && Cyclic(graph)
  }

  /** There is an order exactly when there is no cycle, so the two answers exclude each other. */
  lemma OrderXorCycle(graph: Graph, result: Ordered)
    requires Meets(graph, result)
    ensures result.Sorted? <==> !Cyclic(graph)
    ensures result.Refused? <==> forall order :: !IsOrder(graph, order)
  {
    if Cyclic(graph) {
      var walk :| Cycle(graph, walk);
      forall order ensures !IsOrder(graph, order) {
        CycleForbidsOrder(graph, walk, order);
      }
    }
  }

  /** Two answers that meet the specification are the same: the result does not depend on map iteration. */
  lemma AnswerUnique(graph: Graph, a: Ordered, b: Ordered)
    requires Meets(graph, a) && Meets(graph, b)
    ensures a == b
  {
    OrderXorCycle(graph, a);
    OrderXorCycle(graph, b);
    if a.Sorted? && a.order != b.order {
      LaterOneWay(a.order, b.order);
    }
  }

  lemma LaterOneWay(a: seq<nat>, b: seq<nat>)
    requires NoLater(a, b) && a != b
    ensures !NoLater(b, a)
  {
    var k :| 0 <= k < |a| && k < |b| && a[..k] == b[..k] && a[k] < b[k];
    forall l | 0 <= l < |b| && l < |a| ensures !(b[..l] == a[..l] && b[l] < a[l]) {
      assert k < l ==> b[..l][k] == b[k] && a[..l][k] == a[k];
      assert l < k ==> b[..k][l] == b[l] && a[..k][l] == a[l];
    }
  }
}
