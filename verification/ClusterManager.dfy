/** Topology decisions: which clusters to split, where to place a node, what to consolidate.
    `order` is the iteration order of the hash map of sub-clusters. */
module ClusterManager {
  import opened MapSums
  import opened ManagementState

  /** The drain threshold is the exact ratio drainNum / drainDen. */
  datatype Config = Config(target: nat, maxSize: nat, splitSize: nat, drainNum: nat, drainDen: nat, minClusters: nat)

  datatype Action =
    | AddNodeToCluster(cluster: nat, node: nat)
    | CreateCluster(nodes: seq<nat>)
    | RemoveNodesFromCluster(cluster: nat, nodes: seq<nat>)
    | DrainCluster(cluster: nat)
    | DestroyCluster(cluster: nat)

  ghost predicate IsOrder(order: seq<nat>, s: State) {
    NoDuplicates(order) && forall k :: k in order <==> k in s.clusters
  }

  function SizeOf(s: State, k: nat): nat {
    if k in s.clusters then |s.clusters[k].nodes| else 0
  }

  // ----- Sorting -----

  predicate Sorted(a: seq<nat>) {
    forall i, j :: 0 <= i < j < |a| ==> a[i] <= a[j]
  }

  function Insert(x: nat, a: seq<nat>): seq<nat> {
    if a == [] then [x] else if x <= a[0] then [x] + a else [a[0]] + Insert(x, a[1..])
  }

  function Sort(a: seq<nat>): seq<nat> {
    if a == [] then [] else Insert(a[0], Sort(a[1..]))
  }

  lemma {:induction false} InsertPermutes(x: nat, a: seq<nat>)
    ensures multiset(Insert(x, a)) == multiset{x} + multiset(a)
  {
    if a != [] {
      assert a == [a[0]] + a[1..];
      if x > a[0] {
        InsertPermutes(x, a[1..]);
      }
    }
  }

  lemma {:induction false} InsertMembers(x: nat, a: seq<nat>)
    ensures forall y :: y in Insert(x, a) ==> y == x || y in a
  {
    if a != [] && x > a[0] {
      InsertMembers(x, a[1..]);
    }
  }

  lemma SortedFromHead(x: nat, rest: seq<nat>)
    requires Sorted(rest) && forall y :: y in rest ==> x <= y
    ensures Sorted([x] + rest)
  {
    assert forall j :: 0 <= j < |rest| ==> rest[j] in rest;
  }

  lemma {:induction false} InsertSorts(x: nat, a: seq<nat>)
    requires Sorted(a)
    ensures Sorted(Insert(x, a))
  {
    if a != [] {
      assert forall y :: y in a ==> a[0] <= y;
      if x <= a[0] {
        SortedFromHead(x, a);
      } else {
        InsertSorts(x, a[1..]);
        InsertMembers(x, a[1..]);
        SortedFromHead(a[0], Insert(x, a[1..]));
      }
    }
  }

  lemma {:induction false} SortSorts(a: seq<nat>)
    ensures Sorted(Sort(a)) && multiset(Sort(a)) == multiset(a)
  {
    if a != [] {
      SortSorts(a[1..]);
      InsertSorts(a[0], Sort(a[1..]));
      InsertPermutes(a[0], Sort(a[1..]));
      assert a == [a[0]] + a[1..];
    }
  }

  /** The lowest n node ids. */
  function Lowest(nodes: seq<nat>, n: nat): seq<nat> {
    var sorted := Sort(nodes);
    if n <= |sorted| then sorted[..n] else sorted
  }

  lemma SameElements(a: seq<nat>, b: seq<nat>)
    requires multiset(a) == multiset(b)
    ensures |a| == |b| && forall x :: x in a <==> x in b
  {
    assert |multiset(a)| == |multiset(b)|;
    assert forall x :: x in a <==> x in multiset(a);
    assert forall x :: x in b <==> x in multiset(b);
  }

  /** Lowest takes min(n, size) of the nodes and leaves no smaller id behind. */
  lemma LowestAreLowest(nodes: seq<nat>, n: nat)
    ensures |Lowest(nodes, n)| == if n <= |nodes| then n else |nodes|
    ensures forall x :: x in Lowest(nodes, n) ==> x in nodes
    ensures forall x, y :: x in Lowest(nodes, n) && y in nodes && y !in Lowest(nodes, n) ==> x < y
    ensures NoDuplicates(nodes) ==> NoDuplicates(Lowest(nodes, n))
  {
    hide Sort;
    var sorted, low := Sort(nodes), Lowest(nodes, n);
    SortSorts(nodes);
    SameElements(sorted, nodes);
    forall x | x in low ensures x in nodes {
      assert x in sorted;
    }
    forall x, y | x in low && y in nodes && y !in low ensures x < y {
      var i :| 0 <= i < |low| && low[i] == x;
      assert y in sorted;
      var j :| 0 <= j < |sorted| && sorted[j] == y;
      assert forall m :: 0 <= m < |low| ==> sorted[m] in low;
      assert |low| <= j;
      assert sorted[i] <= sorted[j];
    }
    if NoDuplicates(nodes) {
      DistinctByCount(nodes, sorted);
    }
  }

  lemma DistinctByCount(a: seq<nat>, b: seq<nat>)
    requires NoDuplicates(a) && multiset(a) == multiset(b)
    ensures NoDuplicates(b)
  {
    forall i, j | 0 <= i < j < |b| ensures b[i] != b[j] {
      if b[i] == b[j] {
        TwiceCounts(b, i, j);
        OnceCounts(a, b[i]);
      }
    }
  }

  lemma TwiceCounts(b: seq<nat>, i: nat, j: nat)
    requires i < j < |b| && b[i] == b[j]
    ensures multiset(b)[b[i]] >= 2
  {
    assert b == b[..j] + b[j..];
    assert b[i] in b[..j] && b[j] in b[j..];
    assert multiset(b) == multiset(b[..j]) + multiset(b[j..]);
  }

  lemma {:induction false} OnceCounts(a: seq<nat>, x: nat)
    requires NoDuplicates(a)
    ensures multiset(a)[x] <= 1
  {
    if a != [] {
      var front, last := a[..|a| - 1], a[|a| - 1];
      assert a == front + [last];
      OnceCounts(front, x);
      assert last !in front;
    }
  }

  // ----- Splits -----

  predicate NeedsSplit(cfg: Config, sub: SubCluster) {
    !IsDraining(sub) && |sub.nodes| >= cfg.maxSize
  }

  function Moved(cfg: Config, sub: SubCluster): seq<nat> {
    Lowest(sub.nodes, cfg.splitSize)
  }

  function SplitActions(cfg: Config, s: State, order: seq<nat>): seq<Action> {
    if order == [] then []
    else
      var k := order[|order| - 1];
      SplitActions(cfg, s, order[..|order| - 1])
      + if k in s.clusters && NeedsSplit(cfg, s.clusters[k])
        then [CreateCluster(Moved(cfg, s.clusters[k])), RemoveNodesFromCluster(k, Moved(cfg, s.clusters[k]))]
        else []
  }

  method DecideSplits(cfg: Config, s: State, order: seq<nat>) returns (actions: seq<Action>)
    requires IsOrder(order, s)
    ensures actions == SplitActions(cfg, s, order)
  {
    actions := [];
    for i := 0 to |order|
      invariant actions == SplitActions(cfg, s, order[..i])
    {
      assert order[..i + 1][..i] == order[..i];
      assert order[i] in s.clusters;
      var sub := s.clusters[order[i]];
      if IsDraining(sub) {
        continue;
      }
      if |sub.nodes| >= cfg.maxSize {
        var moved := Lowest(sub.nodes, cfg.splitSize);
        actions := actions + [CreateCluster(moved)];
        actions := actions + [RemoveNodesFromCluster(order[i], moved)];
      }
    }
    assert order[..|order|] == order;
  }

  // ----- The smallest cluster that is not draining -----

  function NonDraining(s: State, order: seq<nat>): seq<nat> {
    if order == [] then []
    else
      var k := order[|order| - 1];
      NonDraining(s, order[..|order| - 1]) + if k in s.clusters && !IsDraining(s.clusters[k]) then [k] else []
  }

  lemma {:induction false} NonDrainingMembers(s: State, order: seq<nat>)
    ensures forall k :: k in NonDraining(s, order) <==> k in order && k in s.clusters && !IsDraining(s.clusters[k])
    ensures NoDuplicates(order) ==> NoDuplicates(NonDraining(s, order))
  {
    if order != [] {
      var front, last := order[..|order| - 1], order[|order| - 1];
      NonDrainingMembers(s, front);
      assert order == front + [last];
      assert NoDuplicates(order) ==> last !in front;
    }
  }

  /** The first of the smallest, as a stable sort by size puts it in front. */
  function FirstSmallest(s: State, ks: seq<nat>): nat
    requires ks != []
  {
    var last := ks[|ks| - 1];
    if |ks| == 1 then last
    else
      var best := FirstSmallest(s, ks[..|ks| - 1]);
      if SizeOf(s, last) < SizeOf(s, best) then last else best
  }

  lemma {:induction false} FirstSmallestIsSmallest(s: State, ks: seq<nat>)
    requires ks != []
    ensures FirstSmallest(s, ks) in ks
    ensures forall x :: x in ks ==> SizeOf(s, FirstSmallest(s, ks)) <= SizeOf(s, x)
  {
    hide SizeOf;
    var front, last := ks[..|ks| - 1], ks[|ks| - 1];
    assert ks == front + [last];
    if |ks| > 1 {
      FirstSmallestIsSmallest(s, front);
      forall x | x in ks ensures SizeOf(s, FirstSmallest(s, ks)) <= SizeOf(s, x) {
        assert x in front || x == last;
      }
    }
  }

  lemma FirstSmallestStep(s: State, front: seq<nat>, x: nat)
    ensures FirstSmallest(s, front + [x])
            == if front == [] || SizeOf(s, x) < SizeOf(s, FirstSmallest(s, front)) then x else FirstSmallest(s, front)
  {
    assert (front + [x])[..|front|] == front;
  }

  lemma FirstSmallestKnown(s: State, order: seq<nat>, i: nat)
    requires i <= |order| && NonDraining(s, order[..i]) != []
    ensures FirstSmallest(s, NonDraining(s, order[..i])) in s.clusters
  {
    NonDrainingMembers(s, order[..i]);
    FirstSmallestIsSmallest(s, NonDraining(s, order[..i]));
  }

  lemma NonDrainingStep(s: State, order: seq<nat>, i: nat)
    requires i < |order| && order[i] in s.clusters
    ensures NonDraining(s, order[..i + 1])
            == if IsDraining(s.clusters[order[i]]) then NonDraining(s, order[..i])
               else NonDraining(s, order[..i]) + [order[i]]
  {
    assert order[..i + 1][..i] == order[..i];
  }

  lemma NonDrainingNone(s: State, order: seq<nat>)
    ensures NonDraining(s, order[..0]) == []
  {
  }

  method SmallestNonDraining(s: State, order: seq<nat>) returns (count: nat, k: nat)
    requires IsOrder(order, s)
    ensures count == |NonDraining(s, order)|
    ensures count > 0 ==> k == FirstSmallest(s, NonDraining(s, order))
  {
    hide FirstSmallest, IsDraining, NonDraining;
    NonDrainingNone(s, order);
    count, k := 0, 0;
    for i := 0 to |order|
      invariant count == |NonDraining(s, order[..i])|
      invariant count > 0 ==> k == FirstSmallest(s, NonDraining(s, order[..i]))
    {
      assert order[i] in s.clusters;
      if count > 0 {
        FirstSmallestKnown(s, order, i);
      }
      NonDrainingStep(s, order, i);
      if !IsDraining(s.clusters[order[i]]) {
        FirstSmallestStep(s, NonDraining(s, order[..i]), order[i]);
        if count == 0 || |s.clusters[order[i]].nodes| < |s.clusters[k].nodes| {
          k := order[i];
        }
        count := count + 1;
      }
    }
    assert order[..|order|] == order;
  }

  // ----- Placement -----

  function PlacementAction(cfg: Config, s: State, order: seq<nat>, node: nat): Action {
    var eligible := NonDraining(s, order);
    if s.clusters != map[] && eligible != [] && SizeOf(s, FirstSmallest(s, eligible)) < cfg.target
    then AddNodeToCluster(FirstSmallest(s, eligible), node)
    else CreateCluster([node])
  }

  ghost predicate Active(s: State, k: nat) {
    k in s.clusters && !IsDraining(s.clusters[k])
  }

  /** The node goes to an active cluster of minimal size whenever some active cluster is below the target,
      and to a cluster of its own otherwise. */
  lemma PlacementExactly(cfg: Config, s: State, order: seq<nat>, node: nat)
    requires IsOrder(order, s)
    ensures var a := PlacementAction(cfg, s, order, node);
            if exists k :: Active(s, k) && |s.clusters[k].nodes| < cfg.target
            then a.AddNodeToCluster? && a.node == node && Active(s, a.cluster)
                 && forall k :: Active(s, k) ==> |s.clusters[a.cluster].nodes| <= |s.clusters[k].nodes|
            else a == CreateCluster([node])
  {
    hide FirstSmallest, NonDraining, IsDraining;
    var eligible := NonDraining(s, order);
    NonDrainingMembers(s, order);
    if eligible != [] {
      FirstSmallestIsSmallest(s, eligible);
      var best := FirstSmallest(s, eligible);
      forall k | Active(s, k) ensures |s.clusters[best].nodes| <= |s.clusters[k].nodes| {
        assert SizeOf(s, best) <= SizeOf(s, k);
      }
    } else {
      assert forall k :: Active(s, k) ==> k in eligible;
    }
  }

  method DecideNodePlacement(cfg: Config, s: State, order: seq<nat>, node: nat) returns (actions: seq<Action>)
    requires IsOrder(order, s)
    ensures actions == [PlacementAction(cfg, s, order, node)]
  {
    if |s.clusters| == 0 {
      return [CreateCluster([node])];
    }
    var count, k := SmallestNonDraining(s, order);
    if count > 0 {
      assert order[..|order|] == order;
      FirstSmallestKnown(s, order, |order|);
      if |s.clusters[k].nodes| < cfg.target {
        return [AddNodeToCluster(k, node)];
      }
    }
    return [CreateCluster([node])];
  }

  // ----- Consolidation -----

  function Destroys(s: State, order: seq<nat>): seq<Action> {
    if order == [] then []
    else
      var k := order[|order| - 1];
      Destroys(s, order[..|order| - 1])
      + if k in s.clusters && IsDraining(s.clusters[k]) && s.clusters[k].nodes == [] then [DestroyCluster(k)] else []
  }

  ghost function Sizes(s: State): map<nat, nat> {
    map k | k in s.clusters :: |s.clusters[k].nodes|
  }

  ghost function TotalNodes(s: State): nat {
    Sum(Sizes(s))
  }

  /** Drain one more cluster: there are nodes, more clusters than the minimum, the ratio of clusters
      to nodes is above the threshold, and more than the minimum of clusters are not draining. */
  ghost predicate Drains(cfg: Config, s: State, order: seq<nat>) {
    && TotalNodes(s) > 0
    && |s.clusters| > cfg.minClusters
    && |s.clusters| * cfg.drainDen > TotalNodes(s) * cfg.drainNum
    && |NonDraining(s, order)| > cfg.minClusters
  }

  ghost function ConsolidationActions(cfg: Config, s: State, order: seq<nat>): seq<Action> {
    Destroys(s, order) + if Drains(cfg, s, order) then [DrainCluster(FirstSmallest(s, NonDraining(s, order)))] else []
  }

  function SizeSum(s: State, order: seq<nat>): nat {
    if order == [] then 0 else SizeSum(s, order[..|order| - 1]) + SizeOf(s, order[|order| - 1])
  }

  lemma {:induction false} SumAlongOrder(s: State, order: seq<nat>)
    requires NoDuplicates(order) && forall k :: k in order ==> k in s.clusters
    ensures SizeSum(s, order) == Sum(map k | k in order :: SizeOf(s, k))
  {
    if order == [] {
      assert (map k | k in order :: SizeOf(s, k)) == map[];
    } else {
      var front, last := order[..|order| - 1], order[|order| - 1];
      assert order == front + [last];
      assert last !in front;
      SumAlongOrder(s, front);
      var m := map k | k in front :: SizeOf(s, k);
      SumPutsIn(m, last, SizeOf(s, last));
      assert m[last := SizeOf(s, last)] == map k | k in order :: SizeOf(s, k);
    }
  }

  method EmptyDrained(s: State, order: seq<nat>) returns (actions: seq<Action>)
    requires IsOrder(order, s)
    ensures actions == Destroys(s, order)
  {
    actions := [];
    for i := 0 to |order|
      invariant actions == Destroys(s, order[..i])
    {
      assert order[..i + 1][..i] == order[..i];
      assert order[i] in s.clusters;
      var sub := s.clusters[order[i]];
      if IsDraining(sub) && |sub.nodes| == 0 {
        actions := actions + [DestroyCluster(order[i])];
      }
    }
    assert order[..|order|] == order;
  }

  method CountNodes(s: State, order: seq<nat>) returns (total: nat)
    requires IsOrder(order, s)
    ensures total == TotalNodes(s)
  {
    hide TotalNodes;
    total := 0;
    for i := 0 to |order|
      invariant total == SizeSum(s, order[..i])
    {
      assert order[..i + 1][..i] == order[..i];
      assert order[i] in s.clusters;
      total := total + |s.clusters[order[i]].nodes|;
    }
    assert order[..|order|] == order;
    SizesAlongOrder(s, order);
  }

  lemma SizesAlongOrder(s: State, order: seq<nat>)
    requires IsOrder(order, s)
    ensures SizeSum(s, order) == TotalNodes(s)
  {
    SumAlongOrder(s, order);
    assert (map k | k in order :: SizeOf(s, k)) == Sizes(s);
  }

  method DecideConsolidation(cfg: Config, s: State, order: seq<nat>) returns (actions: seq<Action>)
    requires IsOrder(order, s)
    ensures actions == ConsolidationActions(cfg, s, order)
  {
    hide Destroys, NonDraining, FirstSmallest, TotalNodes, IsOrder;
    actions := EmptyDrained(s, order);
    var total := CountNodes(s, order);
    if total == 0 {
      return;
    }
    if |s.clusters| <= cfg.minClusters {
      return;
    }
    if |s.clusters| * cfg.drainDen > total * cfg.drainNum {
      var count, k := SmallestNonDraining(s, order);
      if count > cfg.minClusters {
        actions := actions + [DrainCluster(k)];
      }
    }
  }

  // ----- Execution: one command at a time -----

  function Removes(k: nat, nodes: seq<nat>): seq<Command> {
    if nodes == [] then [] else Removes(k, nodes[..|nodes| - 1]) + [RemoveNodeFromSubCluster(k, nodes[|nodes| - 1])]
  }

  function CommandsOf(a: Action): seq<Command> {
    match a
    case AddNodeToCluster(k, n) => [AddNodeToSubCluster(k, n)]
    case CreateCluster(nodes) => [CreateSubCluster(nodes)]
    case RemoveNodesFromCluster(k, nodes) => Removes(k, nodes)
    case DrainCluster(k) => [SetMetadata(k, "draining", "true")]
    case DestroyCluster(k) => [DeleteSubCluster(k)]
  }

  function Commands(actions: seq<Action>): seq<Command> {
    if actions == [] then [] else Commands(actions[..|actions| - 1]) + CommandsOf(actions[|actions| - 1])
  }

  lemma OneAction(acts: seq<Action>, a: Action)
    ensures Commands(acts + [a]) == Commands(acts) + CommandsOf(a)
  {
    hide CommandsOf;
    assert (acts + [a])[..|acts|] == acts;
  }

  lemma {:induction false} CommandsConcat(a: seq<Action>, b: seq<Action>)
    ensures Commands(a + b) == Commands(a) + Commands(b)
  {
    if b == [] {
      assert a + b == a;
    } else {
      hide CommandsOf;
      var front, last := b[..|b| - 1], b[|b| - 1];
      assert (a + b)[..|a + b| - 1] == a + front;
      CommandsConcat(a, front);
      assert (Commands(a) + Commands(front)) + CommandsOf(last) == Commands(a) + (Commands(front) + CommandsOf(last));
    }
  }
}
