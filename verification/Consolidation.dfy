/** Executing consolidation decisions: what a round may delete, how far it may drain, why rounds
    come to an end, and how small a drained cluster must be. */
module Consolidation {
  import opened MapSums
  import opened ManagementState
  import opened ClusterManager

  function Emptied(s: State, order: seq<nat>): set<nat> {
    set k | k in order && k in s.clusters && IsDraining(s.clusters[k]) && s.clusters[k].nodes == []
  }

  function ActiveClusters(s: State): set<nat> {
    set k | k in s.clusters && !IsDraining(s.clusters[k])
  }

  ghost function Consolidate(cfg: Config, s: State, order: seq<nat>): State {
    ApplyAll(s, Commands(ConsolidationActions(cfg, s, order)))
  }

  function Drained(s: State, k: nat): State
    requires k in s.clusters
  {
    Update(s, k, s.clusters[k].(metadata := s.clusters[k].metadata["draining" := "true"]))
  }

  predicate EmptyDrainedCluster(s: State, k: nat) {
    k in s.clusters && IsDraining(s.clusters[k]) && s.clusters[k].nodes == []
  }

  lemma EmptiedStep(s: State, front: seq<nat>, k: nat)
    ensures Emptied(s, front + [k]) == Emptied(s, front) + if EmptyDrainedCluster(s, k) then {k} else {}
    ensures Destroys(s, front + [k])
        == if EmptyDrainedCluster(s, k) then Destroys(s, front) + [DestroyCluster(k)] else Destroys(s, front)
  {
    hide IsDraining;
    assert (front + [k])[..|front|] == front;
  }

  lemma NothingEmptied(s: State)
    ensures ApplyAll(s, Commands(Destroys(s, []))) == s && s.clusters - Emptied(s, []) == s.clusters
  {
  }

  lemma {:induction false} DestroysEffect(s: State, order: seq<nat>)
    ensures ApplyAll(s, Commands(Destroys(s, order))) == s.(clusters := s.clusters - Emptied(s, order))
  {
    hide EmptyDrainedCluster, Emptied, Destroys, ApplyAll, Commands;
    if order == [] {
      NothingEmptied(s);
    } else {
      var front, k := order[..|order| - 1], order[|order| - 1];
      DestroysEffect(s, front);
      assert order == front + [k];
      EmptiedStep(s, front, k);
      if EmptyDrainedCluster(s, k) {
        OneAction(Destroys(s, front), DestroyCluster(k));
        ApplyOne(s, Commands(Destroys(s, front)), DeleteSubCluster(k));
        assert s.clusters - Emptied(s, front) - {k} == s.clusters - (Emptied(s, front) + {k});
      }
    }
  }

  lemma SmallestIsActive(s: State, order: seq<nat>)
    requires IsOrder(order, s) && NonDraining(s, order) != []
    ensures FirstSmallest(s, NonDraining(s, order)) in ActiveClusters(s)
  {
    NonDrainingMembers(s, order);
    FirstSmallestIsSmallest(s, NonDraining(s, order));
  }

  /** What executing the decisions leaves: the empty drained clusters are gone, at most one more
      cluster is marked as draining, everything else is as before. */
  lemma ConsolidateEffect(cfg: Config, s: State, order: seq<nat>)
    requires IsOrder(order, s)
    ensures var base := s.(clusters := s.clusters - Emptied(s, order));
            var k := if Drains(cfg, s, order) then FirstSmallest(s, NonDraining(s, order)) else 0;
            && (Drains(cfg, s, order) ==> k in base.clusters && k in ActiveClusters(s))
            && Consolidate(cfg, s, order) == if Drains(cfg, s, order) then Drained(base, k) else base
  {
    hide ApplyAll, Commands, Destroys, NonDraining, FirstSmallest, IsDraining, TotalNodes;
    DestroysEffect(s, order);
    if Drains(cfg, s, order) {
      var k := FirstSmallest(s, NonDraining(s, order));
      SmallestIsActive(s, order);
      OneAction(Destroys(s, order), DrainCluster(k));
      ApplyOne(s, Commands(Destroys(s, order)), SetMetadata(k, "draining", "true"));
    } else {
      assert Destroys(s, order) + [] == Destroys(s, order);
    }
  }

  /** No node is moved or dropped: surviving clusters keep their node lists, and only clusters
      without nodes are deleted. */
  lemma ConsolidationKeepsNodes(cfg: Config, s: State, order: seq<nat>)
    requires IsOrder(order, s)
    ensures var t := Consolidate(cfg, s, order);
            && t.nextId == s.nextId
            && (forall k :: k in t.clusters ==> k in s.clusters && t.clusters[k].nodes == s.clusters[k].nodes)
            && (forall k :: k in s.clusters && k !in t.clusters ==> s.clusters[k].nodes == [])
            && Placed(t) == Placed(s)
  {
    hide Consolidate, NonDraining, FirstSmallest, Drains, IsDraining;
    ConsolidateEffect(cfg, s, order);
    var t := Consolidate(cfg, s, order);
    forall n ensures n in Placed(t) <==> n in Placed(s) {
      if n in Placed(s) {
        var k :| k in s.clusters && n in s.clusters[k].nodes;
        assert k in t.clusters && n in t.clusters[k].nodes;
      }
    }
  }

  /** One more cluster is to be drained: the four guards, read off the state. */
  ghost predicate DrainsOne(cfg: Config, s: State) {
    && TotalNodes(s) > 0
    && |s.clusters| > cfg.minClusters
    && |s.clusters| * cfg.drainDen > TotalNodes(s) * cfg.drainNum
    && |ActiveClusters(s)| > cfg.minClusters
  }

  /** t is s except that k, an active cluster of minimal size, is marked as draining. */
  ghost predicate MarksSmallest(s: State, t: State, k: nat) {
    && k in t.clusters && k in ActiveClusters(s)
    && (forall x :: x in ActiveClusters(s) ==> |s.clusters[k].nodes| <= |s.clusters[x].nodes|)
    && t.clusters[k].nodes == s.clusters[k].nodes
    && t.clusters[k].metadata == s.clusters[k].metadata["draining" := "true"]
    && forall x :: x in t.clusters && x != k ==> x in s.clusters && t.clusters[x] == s.clusters[x]
  }

  /** What a consolidation has to leave of s, without regard to how it is decided: a cluster is gone if
      and only if it was draining and empty, and exactly one active cluster, of minimal size, has started
      to drain if the guards hold in s, and none otherwise. */
  ghost predicate Consolidated(cfg: Config, s: State, t: State) {
    && t.nextId == s.nextId && t.addresses == s.addresses
    && (forall k :: k in t.clusters <==>
          k in s.clusters && !(IsDraining(s.clusters[k]) && s.clusters[k].nodes == []))
    && if DrainsOne(cfg, s) then exists k :: MarksSmallest(s, t, k)
       else forall k :: k in t.clusters ==> t.clusters[k] == s.clusters[k]
  }

  lemma SmallestActive(s: State, order: seq<nat>)
    requires IsOrder(order, s) && NonDraining(s, order) != []
    ensures var k := FirstSmallest(s, NonDraining(s, order));
            && k in ActiveClusters(s)
            && forall x :: x in ActiveClusters(s) ==> |s.clusters[k].nodes| <= |s.clusters[x].nodes|
  {
    hide NonDraining, FirstSmallest, IsDraining;
    SmallestIsActive(s, order);
    NonDrainingMembers(s, order);
    FirstSmallestIsSmallest(s, NonDraining(s, order));
    var k := FirstSmallest(s, NonDraining(s, order));
    forall x | x in ActiveClusters(s) ensures |s.clusters[k].nodes| <= |s.clusters[x].nodes| {
      assert SizeOf(s, k) <= SizeOf(s, x);
    }
  }

  /** The state without the clusters that were empty and draining. */
  ghost predicate Swept(s: State, base: State) {
    && base.nextId == s.nextId && base.addresses == s.addresses
    && (forall k :: k in base.clusters <==> k in s.clusters && !EmptyDrainedCluster(s, k))
    && forall k :: k in base.clusters ==> base.clusters[k] == s.clusters[k]
  }

  lemma EmptiedIsSwept(s: State, order: seq<nat>)
    requires IsOrder(order, s)
    ensures Swept(s, s.(clusters := s.clusters - Emptied(s, order)))
  {
    hide IsDraining;
  }

  lemma MarkingSwept(s: State, base: State, k: nat)
    requires Swept(s, base) && k in base.clusters && k in ActiveClusters(s)
    requires forall x :: x in ActiveClusters(s) ==> |s.clusters[k].nodes| <= |s.clusters[x].nodes|
    ensures MarksSmallest(s, Drained(base, k), k)
  {
    hide IsDraining;
  }

  lemma ConsolidateConsolidates(cfg: Config, s: State, order: seq<nat>)
    requires IsOrder(order, s)
    ensures Consolidated(cfg, s, Consolidate(cfg, s, order))
  {
    hide Consolidate, NonDraining, FirstSmallest, TotalNodes, IsDraining, ActiveClusters, Emptied, MarksSmallest;
    hide IsOrder;
    ConsolidateEffect(cfg, s, order);
    NonDrainingCount(s, order);
    EmptiedIsSwept(s, order);
    if Drains(cfg, s, order) {
      SmallestActive(s, order);
      var base := s.(clusters := s.clusters - Emptied(s, order));
      MarkingSwept(s, base, FirstSmallest(s, NonDraining(s, order)));
    }
  }

  /** So afterwards the only empty cluster that can be draining is the one that has just started to. */
  lemma NoEmptyDrainedIsLeft(cfg: Config, s: State, t: State, k: nat)
    requires Consolidated(cfg, s, t) && EmptyDrainedCluster(t, k)
    ensures MarksSmallest(s, t, k) && DrainsOne(cfg, s) && s.clusters[k].nodes == []
  {
    hide TotalNodes;
  }

  lemma {:induction false} ListSize(a: seq<nat>, s: set<nat>)
    requires NoDuplicates(a) && forall x :: x in a <==> x in s
    ensures |a| == |s|
  {
    if a != [] {
      var front, last := a[..|a| - 1], a[|a| - 1];
      assert a == front + [last];
      assert last !in front;
      ListSize(front, s - {last});
    } else {
      assert s == {};
    }
  }

  ghost function Weight(s: State): nat {
    |s.clusters| + |ActiveClusters(s)|
  }

  lemma NonDrainingCount(s: State, order: seq<nat>)
    requires IsOrder(order, s)
    ensures |NonDraining(s, order)| == |ActiveClusters(s)|
  {
    NonDrainingMembers(s, order);
    ListSize(NonDraining(s, order), ActiveClusters(s));
  }

  lemma DrainingOneMore(s: State, k: nat)
    requires k in ActiveClusters(s)
    ensures ActiveClusters(Drained(s, k)) == ActiveClusters(s) - {k}
    ensures Drained(s, k).clusters.Keys == s.clusters.Keys
  {
  }

  lemma {:induction false} DestroysNothing(s: State, order: seq<nat>)
    ensures Destroys(s, order) == [] <==> Emptied(s, order) == {}
  {
    if order == [] {
      assert Emptied(s, order) == {};
    } else {
      hide EmptyDrainedCluster, Emptied, Destroys;
      var front, k := order[..|order| - 1], order[|order| - 1];
      DestroysNothing(s, front);
      assert order == front + [k];
      EmptiedStep(s, front, k);
    }
  }

  /** Deleting empty drained clusters leaves the active ones and lowers the number of clusters. */
  lemma DestroyingLowersCount(s: State, order: seq<nat>)
    ensures var base := s.(clusters := s.clusters - Emptied(s, order));
            && ActiveClusters(base) == ActiveClusters(s)
            && |base.clusters| <= |s.clusters|
            && (Emptied(s, order) == {} ==> base == s)
            && (Emptied(s, order) != {} ==> |base.clusters| < |s.clusters|)
  {
    hide IsDraining;
    var gone := Emptied(s, order);
    var base := s.(clusters := s.clusters - gone);
    assert base.clusters.Keys == s.clusters.Keys - gone;
    assert |base.clusters| == |base.clusters.Keys| && |s.clusters| == |s.clusters.Keys|;
    FewerKeys(base.clusters.Keys, s.clusters.Keys);
    if gone != {} {
      var x :| x in gone;
      FewerKeys(base.clusters.Keys, s.clusters.Keys - {x});
    } else {
      assert base.clusters == s.clusters;
    }
  }

  /** A round never takes the active clusters below the minimum, and lowers the weight (clusters plus
      active clusters) unless it decides nothing. */
  lemma ConsolidationIsBoundedAndEnds(cfg: Config, s: State, order: seq<nat>)
    requires IsOrder(order, s)
    ensures var t := Consolidate(cfg, s, order);
            && (|ActiveClusters(t)| == |ActiveClusters(s)| || |ActiveClusters(t)| >= cfg.minClusters)
            && (ConsolidationActions(cfg, s, order) == [] ==> t == s)
            && (ConsolidationActions(cfg, s, order) != [] ==> Weight(t) < Weight(s))
  {
    hide NonDraining, FirstSmallest, TotalNodes, Destroys, Consolidate, Emptied, ActiveClusters, IsOrder, Drained;
    ConsolidateEffect(cfg, s, order);
    NonDrainingCount(s, order);
    DestroysNothing(s, order);
    DestroyingLowersCount(s, order);
    if Drains(cfg, s, order) {
      var base := s.(clusters := s.clusters - Emptied(s, order));
      var k := FirstSmallest(s, NonDraining(s, order));
      DrainingOneMore(base, k);
      var t := Consolidate(cfg, s, order);
      assert |t.clusters| == |t.clusters.Keys| && |base.clusters| == |base.clusters.Keys|;
    }
  }

  lemma {:induction false} FewerKeys(a: set<nat>, b: set<nat>)
    requires a <= b
    ensures |a| <= |b|
  {
    if a != {} {
      var x :| x in a;
      FewerKeys(a - {x}, b - {x});
    }
  }

  // ----- Runs of rounds -----

  /** Nothing left to destroy or to drain, in terms of the state alone. */
  ghost predicate Settled(cfg: Config, s: State) {
    && (forall k :: !EmptyDrainedCluster(s, k))
    && !DrainsOne(cfg, s)
  }

  /** A round decides nothing if and only if the state is settled, whatever the iteration order. */
  lemma SettledExactlyWithoutActions(cfg: Config, s: State, order: seq<nat>)
    requires IsOrder(order, s)
    ensures ConsolidationActions(cfg, s, order) == [] <==> Settled(cfg, s)
  {
    hide NonDraining, FirstSmallest, TotalNodes, Destroys, IsDraining;
    NonDrainingCount(s, order);
    DestroysNothing(s, order);
    assert forall k :: k in Emptied(s, order) <==> EmptyDrainedCluster(s, k);
  }

  ghost function Rounds(cfg: Config, s: State, orders: seq<seq<nat>>): State {
    if orders == [] then s else Consolidate(cfg, Rounds(cfg, s, orders[..|orders| - 1]), orders[|orders| - 1])
  }

  /** Every round sees the clusters of its own state, in any order. */
  ghost predicate ValidOrders(cfg: Config, s: State, orders: seq<seq<nat>>) {
    forall i :: 0 <= i < |orders| ==> IsOrder(orders[i], Rounds(cfg, s, orders[..i]))
  }

  /** Each round either finds the state settled or uses up some weight; no node is lost and the active
      clusters are never taken below the minimum on the way. */
  lemma {:induction false} RoundsUseUpWeight(cfg: Config, s: State, orders: seq<seq<nat>>)
    requires ValidOrders(cfg, s, orders)
    ensures var t := Rounds(cfg, s, orders);
            && (Settled(cfg, t) || Weight(t) + |orders| <= Weight(s))
            && Placed(t) == Placed(s)
            && (|ActiveClusters(t)| == |ActiveClusters(s)| || |ActiveClusters(t)| >= cfg.minClusters)
  {
    if orders != [] {
      hide Consolidate, Settled, Weight, Placed, IsOrder, ActiveClusters, ConsolidationActions;
      var front, order := orders[..|orders| - 1], orders[|orders| - 1];
      forall i | 0 <= i < |front| ensures IsOrder(front[i], Rounds(cfg, s, front[..i])) {
        assert front[..i] == orders[..i] && front[i] == orders[i];
      }
      RoundsUseUpWeight(cfg, s, front);
      var t := Rounds(cfg, s, front);
      ConsolidationIsBoundedAndEnds(cfg, t, order);
      ConsolidationKeepsNodes(cfg, t, order);
      SettledExactlyWithoutActions(cfg, t, order);
    }
  }

  lemma WeightlessIsSettled(cfg: Config, s: State)
    requires Weight(s) == 0
    ensures Settled(cfg, s)
  {
    assert s.clusters == map[];
  }

  /** As many rounds as there is weight always end in a settled state, in any iteration orders. */
  lemma ConsolidationSettles(cfg: Config, s: State, orders: seq<seq<nat>>)
    requires ValidOrders(cfg, s, orders) && |orders| >= Weight(s)
    ensures Settled(cfg, Rounds(cfg, s, orders))
  {
    hide Rounds, Settled, Weight;
    RoundsUseUpWeight(cfg, s, orders);
    if Weight(Rounds(cfg, s, orders)) == 0 {
      WeightlessIsSettled(cfg, Rounds(cfg, s, orders));
    }
  }

  /** When nothing was draining, the cluster a round starts to drain is smaller than the inverse of
      the threshold: size < drainDen / drainNum. */
  lemma DrainedClusterIsSmall(cfg: Config, s: State, order: seq<nat>)
    requires IsOrder(order, s) && Drains(cfg, s, order)
    requires forall k :: k in s.clusters ==> !IsDraining(s.clusters[k])
    ensures var k := FirstSmallest(s, NonDraining(s, order));
            k in s.clusters && |s.clusters[k].nodes| * cfg.drainNum < cfg.drainDen
  {
    hide NonDraining, FirstSmallest, Sum;
    NonDrainingMembers(s, order);
    FirstSmallestIsSmallest(s, NonDraining(s, order));
    var k := FirstSmallest(s, NonDraining(s, order));
    var size, count := |s.clusters[k].nodes|, |s.clusters|;
    forall x | x in Sizes(s) ensures size <= Sizes(s)[x] {
      assert x in NonDraining(s, order);
      assert SizeOf(s, k) <= SizeOf(s, x);
    }
    SumAtLeast(Sizes(s), size);
    assert Sizes(s).Keys == s.clusters.Keys;
    assert |Sizes(s)| == |Sizes(s).Keys| == |s.clusters.Keys| == count;
    RatioBound(count, size, TotalNodes(s), cfg.drainNum, cfg.drainDen);
  }

  lemma RatioBound(count: nat, size: nat, total: nat, num: nat, den: nat)
    requires count * size <= total && count * den > total * num
    ensures size * num < den
  {
    assert (count * size) * num <= total * num;
    assert count * (size * num) == (count * size) * num;
    assert count * (den - size * num) == count * den - count * (size * num);
  }

  // ----- Removing a failed node -----

  /** One step of the removal: take the node out of one cluster, then consolidate. */
  ghost function RemoveFrom(cfg: Config, s: State, k: nat, node: nat, order: seq<nat>): State {
    if Emits(s, RemoveNodeFromSubCluster(k, node)).None? then s
    else Consolidate(cfg, Apply(s, RemoveNodeFromSubCluster(k, node)), order)
  }

  /** The state after visiting the affected clusters; orders[i] is the iteration order the i-th
      consolidation sees. */
  ghost function RemoveFromAll(cfg: Config, s: State, node: nat, affected: seq<nat>, orders: seq<seq<nat>>): State
    requires |orders| == |affected|
  {
    if affected == [] then s
    else
      var n := |affected| - 1;
      RemoveFrom(cfg, RemoveFromAll(cfg, s, node, affected[..n], orders[..n]), affected[n], node, orders[n])
  }

  /** Each consolidation sees the clusters of its own state. */
  ghost predicate OrdersOk(cfg: Config, s: State, node: nat, affected: seq<nat>, orders: seq<seq<nat>>)
    requires |orders| == |affected|
  {
    forall i :: 0 <= i < |affected| ==>
      IsOrder(orders[i], Apply(RemoveFromAll(cfg, s, node, affected[..i], orders[..i]),
          RemoveNodeFromSubCluster(affected[i], node)))
  }

  /** After visiting `done`: surviving clusters have their old nodes, without the failed one where
      visited; clusters that are gone held no other node, and were visited if they held it. */
  ghost predicate Cleaned(s: State, node: nat, done: seq<nat>, t: State) {
    && (forall k :: k in t.clusters ==>
          k in s.clusters && t.clusters[k].nodes
              == if k in done then Without(s.clusters[k].nodes, node) else s.clusters[k].nodes)
    && (forall k :: k in s.clusters && k !in t.clusters ==>
          (if k in done then Without(s.clusters[k].nodes, node) else s.clusters[k].nodes) == [])
  }

  /** states[i + 1] is what a removal from visited[i] and a consolidation make of states[i]. */
  ghost predicate Visits(cfg: Config, node: nat, visited: seq<nat>, states: seq<State>) {
    && |states| == |visited| + 1
    && forall i :: 0 <= i < |visited| ==>
         && visited[i] in states[i].clusters
         && Consolidated(cfg, Apply(states[i], RemoveNodeFromSubCluster(visited[i], node)), states[i + 1])
  }

  /** An affected cluster that was not visited yet is still there. */
  lemma UnvisitedRemain(cfg: Config, s: State, node: nat, done: seq<nat>, orders: seq<seq<nat>>, k: nat)
    requires |orders| == |done| && NoDuplicates(done) && OrdersOk(cfg, s, node, done, orders)
    requires forall x :: x in done ==> x in s.clusters && node in s.clusters[x].nodes
    requires k in s.clusters && node in s.clusters[k].nodes && k !in done
    ensures k in RemoveFromAll(cfg, s, node, done, orders).clusters
  {
    hide RemoveFromAll, OrdersOk;
    AllVisitsClean(cfg, s, node, done, orders);
  }

  lemma WithoutTwice(nodes: seq<nat>, n: nat)
    requires n !in nodes
    ensures Without(nodes, n) == nodes
  {
    if nodes != [] {
      assert nodes == nodes[..|nodes| - 1] + [nodes[|nodes| - 1]];
      WithoutTwice(nodes[..|nodes| - 1], n);
    }
  }

  lemma RemoveFromCleans(cfg: Config, s: State, node: nat, done: seq<nat>, t: State, k: nat, order: seq<nat>)
    requires Cleaned(s, node, done, t) && k in s.clusters && k !in done && node in s.clusters[k].nodes
    requires IsOrder(order, Apply(t, RemoveNodeFromSubCluster(k, node)))
    ensures k in t.clusters
    ensures Cleaned(s, node, done + [k], RemoveFrom(cfg, t, k, node, order))
  {
    hide Consolidate, Without, IsOrder, Placed;
    var mid := Apply(t, RemoveNodeFromSubCluster(k, node));
    assert k in t.clusters;
    ConsolidationKeepsNodes(cfg, mid, order);
    var u := Consolidate(cfg, mid, order);
    forall x | x in u.clusters
      ensures x in s.clusters
      ensures u.clusters[x].nodes == if x in done + [k] then Without(s.clusters[x].nodes, node) else s.clusters[x].nodes
    {
      assert x in mid.clusters && x in t.clusters;
    }
    forall x | x in s.clusters && x !in u.clusters
      ensures (if x in done + [k] then Without(s.clusters[x].nodes, node) else s.clusters[x].nodes) == []
    {
      if x in t.clusters {
        assert x in mid.clusters;
      }
    }
  }

  lemma OrdersFront(cfg: Config, s: State, node: nat, affected: seq<nat>, orders: seq<seq<nat>>, n: nat)
    requires |orders| == |affected| == n + 1 && OrdersOk(cfg, s, node, affected, orders)
    ensures OrdersOk(cfg, s, node, affected[..n], orders[..n])
    ensures IsOrder(orders[n], Apply(RemoveFromAll(cfg, s, node, affected[..n], orders[..n]),
        RemoveNodeFromSubCluster(affected[n], node)))
  {
    hide RemoveFromAll, IsOrder, Apply;
    var front, os := affected[..n], orders[..n];
    forall i | 0 <= i < n
      ensures IsOrder(os[i], Apply(RemoveFromAll(cfg, s, node, front[..i], os[..i]),
          RemoveNodeFromSubCluster(front[i], node)))
    {
      assert front[..i] == affected[..i] && os[..i] == orders[..i] && front[i] == affected[i] && os[i] == orders[i];
    }
  }

  lemma NothingVisited(s: State, node: nat)
    ensures Cleaned(s, node, [], s)
  {
  }

  lemma {:induction false} AllVisitsClean(cfg: Config, s: State, node: nat, affected: seq<nat>, orders: seq<seq<nat>>)
    requires |orders| == |affected| && NoDuplicates(affected) && OrdersOk(cfg, s, node, affected, orders)
    requires forall k :: k in affected ==> k in s.clusters && node in s.clusters[k].nodes
    ensures Cleaned(s, node, affected, RemoveFromAll(cfg, s, node, affected, orders))
  {
    hide RemoveFrom, IsOrder, OrdersOk, Cleaned, Apply;
    if affected == [] {
      NothingVisited(s, node);
    } else {
      var n := |affected| - 1;
      var front, os := affected[..n], orders[..n];
      assert affected == front + [affected[n]];
      OrdersFront(cfg, s, node, affected, orders, n);
      AllVisitsClean(cfg, s, node, front, os);
      RemoveFromCleans(cfg, s, node, front, RemoveFromAll(cfg, s, node, front, os), affected[n], orders[n]);
    }
  }

  /** Removing a failed node from all clusters it is in, with a consolidation after each removal,
      ends with the node in no cluster; every surviving cluster keeps its other nodes, in order;
      and every cluster deleted on the way held nobody else. */
  lemma FailedNodeIsRemoved(cfg: Config, s: State, node: nat, affected: seq<nat>, orders: seq<seq<nat>>)
    requires |orders| == |affected| && NoDuplicates(affected) && OrdersOk(cfg, s, node, affected, orders)
    requires forall k :: k in affected <==> k in s.clusters && node in s.clusters[k].nodes
    ensures var t := RemoveFromAll(cfg, s, node, affected, orders);
            && node !in Placed(t)
            && (forall k :: k in t.clusters ==>
                k in s.clusters && t.clusters[k].nodes == Without(s.clusters[k].nodes, node))
            && (forall k :: k in s.clusters && k !in t.clusters ==> forall n :: n in s.clusters[k].nodes ==> n == node)
            && Placed(t) == Placed(s) - {node}
  {
    hide RemoveFromAll, IsOrder;
    AllVisitsClean(cfg, s, node, affected, orders);
    var t := RemoveFromAll(cfg, s, node, affected, orders);
    forall k | k in t.clusters ensures t.clusters[k].nodes == Without(s.clusters[k].nodes, node) {
      if k !in affected {
        WithoutTwice(s.clusters[k].nodes, node);
      }
    }
    forall k, n | k in s.clusters && k !in t.clusters && n in s.clusters[k].nodes ensures n == node {
      assert n in Without(s.clusters[k].nodes, node) || n == node;
    }
    forall n ensures n in Placed(t) <==> n in Placed(s) && n != node {
      if n in Placed(s) && n != node {
        var k :| k in s.clusters && n in s.clusters[k].nodes;
        assert k in t.clusters && n in t.clusters[k].nodes;
      }
      if n in Placed(t) {
        var k :| k in t.clusters && n in t.clusters[k].nodes;
        assert n in s.clusters[k].nodes;
      }
    }
  }
}
