/** Placing fresh nodes one at a time from the empty topology. */
module Placement {
  import opened ManagementState
  import opened ClusterManager

  function Place(cfg: Config, s: State, order: seq<nat>, node: nat): State {
    ApplyAll(s, CommandsOf(PlacementAction(cfg, s, order, node)))
  }

  /** orders[i] is the iteration order the i-th placement sees. */
  function PlaceAll(cfg: Config, nodes: seq<nat>, orders: seq<seq<nat>>): State
    requires |orders| == |nodes|
  {
    if nodes == [] then INITIAL
    else
      var n := |nodes| - 1;
      Place(cfg, PlaceAll(cfg, nodes[..n], orders[..n]), orders[n], nodes[n])
  }

  ghost predicate OrdersOk(cfg: Config, nodes: seq<nat>, orders: seq<seq<nat>>)
    requires |orders| == |nodes|
  {
    forall i :: 0 <= i < |nodes| ==> IsOrder(orders[i], PlaceAll(cfg, nodes[..i], orders[..i]))
  }

  /** `full` clusters of the target size, and one of size `rest` if that is not 0; none is draining. */
  ghost predicate Shape(s: State, target: nat, full: nat, rest: nat) {
    && IdsOk(s)
    && |s.clusters| == full + (if rest == 0 then 0 else 1)
    && (forall k :: k in s.clusters ==> !IsDraining(s.clusters[k]))
    && (rest == 0 ==> forall k :: k in s.clusters ==> |s.clusters[k].nodes| == target)
    && (rest != 0 ==> exists k :: k in s.clusters && OnlyOpen(s, target, rest, k))
  }

  ghost predicate OnlyOpen(s: State, target: nat, rest: nat, k: nat)
    requires k in s.clusters
  {
    && |s.clusters[k].nodes| == rest
    && forall x :: x in s.clusters && x != k ==> |s.clusters[x].nodes| == target
  }

  ghost predicate Packed(cfg: Config, n: nat, s: State)
    requires cfg.target > 0
  {
    Shape(s, cfg.target, n / cfg.target, n % cfg.target)
  }

  /** Both decisions for a placement are carried out by one command. */
  lemma PlaceIsOneCommand(cfg: Config, s: State, order: seq<nat>, node: nat)
    ensures var a := PlacementAction(cfg, s, order, node);
            Place(cfg, s, order, node)
            == Apply(s, if a.AddNodeToCluster? then AddNodeToSubCluster(a.cluster, node) else CreateSubCluster([node]))
  {
    hide Apply, FirstSmallest, NonDraining;
    var c := CommandsOf(PlacementAction(cfg, s, order, node));
    assert |c| == 1 && c[..0] == [];
    assert ApplyAll(s, c) == Apply(ApplyAll(s, c[..0]), c[0]);
  }

  /** What placing a node has to do, without regard to how it is decided: the node joins an active cluster
      of minimal size if one is below the target, and gets a new cluster otherwise. */
  ghost predicate WellPlaced(cfg: Config, s: State, node: nat, t: State) {
    if exists k :: Active(s, k) && |s.clusters[k].nodes| < cfg.target
    then exists k :: Joins(s, node, k, t)
    else t == s.(clusters := s.clusters[s.nextId := SubCluster([node], map[])], nextId := s.nextId + 1)
  }

  /** The node is in k, an active cluster of minimal size, and nothing else has changed. */
  ghost predicate Joins(s: State, node: nat, k: nat, t: State) {
    && Active(s, k)
    && (forall x :: Active(s, x) ==> |s.clusters[k].nodes| <= |s.clusters[x].nodes|)
    && t == (if node in s.clusters[k].nodes then s
             else s.(clusters := s.clusters[k := s.clusters[k].(nodes := s.clusters[k].nodes + [node])]))
  }

  lemma PlacesWell(cfg: Config, s: State, order: seq<nat>, node: nat)
    requires IsOrder(order, s)
    ensures WellPlaced(cfg, s, node, Place(cfg, s, order, node))
  {
    hide PlacementAction, Place;
    PlaceIsOneCommand(cfg, s, order, node);
    PlacementExactly(cfg, s, order, node);
    var a := PlacementAction(cfg, s, order, node);
    if a.AddNodeToCluster? {
      assert Joins(s, node, a.cluster, Place(cfg, s, order, node));
    }
  }

  lemma NextRemainder(n: nat, t: nat)
    requires t > 0
    ensures n % t + 1 < t ==> (n + 1) / t == n / t && (n + 1) % t == n % t + 1
    ensures n % t + 1 == t ==> (n + 1) / t == n / t + 1 && (n + 1) % t == 0
  {
    var q, r := n / t, n % t;
    assert n == q * t + r;
    if r + 1 < t {
      DivModUnique(n + 1, t, q, r + 1);
    } else {
      assert n + 1 == (q + 1) * t + 0;
      DivModUnique(n + 1, t, q + 1, 0);
    }
  }

  lemma Ceiling(n: nat, t: nat)
    requires t > 0
    ensures n / t + (if n % t == 0 then 0 else 1) == (n + t - 1) / t
    ensures n % t < t
  {
    var q, r := n / t, n % t;
    assert n == q * t + r;
    if r == 0 {
      DivModUnique(n + t - 1, t, q, t - 1);
    } else {
      assert n + t - 1 == (q + 1) * t + (r - 1);
      DivModUnique(n + t - 1, t, q + 1, r - 1);
    }
  }

  lemma DivModUnique(n: nat, t: nat, q: nat, r: nat)
    requires t > 0 && r < t && n == q * t + r
    ensures n / t == q && n % t == r
  {
    QuotientUnique(t, q, r, n / t, n % t);
  }

  lemma QuotientUnique(t: nat, q: nat, r: nat, q1: nat, r1: nat)
    requires r < t && r1 < t && q * t + r == q1 * t + r1
    ensures q == q1 && r == r1
  {
    if q < q1 {
      MultipleIsLarger(t, q, q1);
    } else if q1 < q {
      MultipleIsLarger(t, q1, q);
    }
  }

  lemma MultipleIsLarger(t: nat, q: nat, q1: nat)
    requires q < q1
    ensures q * t + t <= q1 * t
  {
    assert q1 * t == (q + 1) * t + (q1 - q - 1) * t;
  }

  /** The action is an addition to the one open cluster if there is one, else a new cluster. */
  lemma PlacementChoice(cfg: Config, s: State, full: nat, rest: nat, order: seq<nat>, node: nat)
    requires Shape(s, cfg.target, full, rest) && rest < cfg.target && IsOrder(order, s)
    ensures var a := PlacementAction(cfg, s, order, node);
            if rest == 0 then a == CreateCluster([node])
            else a.AddNodeToCluster? && a.node == node && a.cluster in s.clusters
                 && OnlyOpen(s, cfg.target, rest, a.cluster)
  {
    hide FirstSmallest, NonDraining, IsDraining;
    NonDrainingMembers(s, order);
    var eligible := NonDraining(s, order);
    if eligible != [] {
      FirstSmallestIsSmallest(s, eligible);
      assert FirstSmallest(s, eligible) in s.clusters;
    }
    if rest != 0 {
      var k :| k in s.clusters && OnlyOpen(s, cfg.target, rest, k);
      assert k in eligible;
      assert SizeOf(s, FirstSmallest(s, eligible)) <= SizeOf(s, k);
    }
  }

  lemma OneMoreKey(m: map<nat, SubCluster>, k: nat, sub: SubCluster)
    requires k !in m
    ensures |m[k := sub]| == |m| + 1
  {
    assert m[k := sub].Keys == m.Keys + {k};
    assert |m[k := sub]| == |m[k := sub].Keys| && |m| == |m.Keys|;
  }

  lemma OpenCluster(s: State, target: nat, full: nat, node: nat)
    requires target > 0 && Shape(s, target, full, 0)
    ensures var t := Apply(s, CreateSubCluster([node]));
            if target == 1 then Shape(t, target, full + 1, 0) else Shape(t, target, full, 1)
  {
    var t := Apply(s, CreateSubCluster([node]));
    OneMoreKey(s.clusters, s.nextId, SubCluster([node], map[]));
    if target != 1 {
      assert OnlyOpen(t, target, 1, s.nextId);
    }
  }

  lemma FillCluster(s: State, target: nat, full: nat, rest: nat, k: nat, node: nat)
    requires 0 < rest < target && Shape(s, target, full, rest) && k in s.clusters && OnlyOpen(s, target, rest, k)
    requires node !in s.clusters[k].nodes
    ensures var t := Apply(s, AddNodeToSubCluster(k, node));
            if rest + 1 == target then Shape(t, target, full + 1, 0) else Shape(t, target, full, rest + 1)
  {
    var t := Apply(s, AddNodeToSubCluster(k, node));
    assert t.clusters.Keys == s.clusters.Keys;
    assert |t.clusters| == |t.clusters.Keys| && |s.clusters| == |s.clusters.Keys|;
    assert OnlyOpen(t, target, rest + 1, k);
  }

  lemma PlaceKeepsPacked(cfg: Config, n: nat, s: State, order: seq<nat>, node: nat)
    requires cfg.target > 0 && Packed(cfg, n, s) && IsOrder(order, s) && node !in Placed(s)
    ensures Packed(cfg, n + 1, Place(cfg, s, order, node))
  {
    hide FirstSmallest, NonDraining, Place, PlacementAction, Shape, OnlyOpen, Apply;
    NextRemainder(n, cfg.target);
    var full, rest := n / cfg.target, n % cfg.target;
    PlacementChoice(cfg, s, full, rest, order, node);
    PlaceIsOneCommand(cfg, s, order, node);
    var a := PlacementAction(cfg, s, order, node);
    if a.CreateCluster? {
      OpenCluster(s, cfg.target, full, node);
    } else {
      FillCluster(s, cfg.target, full, rest, a.cluster, node);
    }
  }

  function NodesIn(s: State, k: nat): seq<nat> {
    if k in s.clusters then s.clusters[k].nodes else []
  }

  /** One cluster, possibly new, gains the node at the end of its list. */
  ghost predicate Gains(s: State, t: State, home: nat, node: nat) {
    && t.clusters.Keys == s.clusters.Keys + {home}
    && t.clusters[home].nodes == NodesIn(s, home) + [node]
    && forall k :: k in s.clusters && k != home ==> t.clusters[k].nodes == s.clusters[k].nodes
  }

  lemma GainedMembers(s: State, t: State, home: nat, node: nat)
    requires Gains(s, t, home, node)
    ensures forall k, n :: k in t.clusters ==>
              (n in t.clusters[k].nodes <==> n in NodesIn(s, k) || (k == home && n == node))
    ensures Placed(t) == Placed(s) + {node}
  {
    forall n ensures n in Placed(t) <==> n in Placed(s) || n == node {
      assert n in Placed(s) <==> exists k :: k in t.clusters && n in NodesIn(s, k);
      assert n in Placed(t) <==> exists k :: k in t.clusters && n in t.clusters[k].nodes;
    }
  }

  lemma GainKeepsPartition(s: State, t: State, home: nat, node: nat)
    requires Gains(s, t, home, node) && Partitioned(s) && node !in Placed(s)
    ensures Partitioned(t)
  {
    GainedMembers(s, t, home, node);
    assert forall k :: node !in NodesIn(s, k);
    forall k1, k2, n | k1 in t.clusters && k2 in t.clusters && n in t.clusters[k1].nodes && n in t.clusters[k2].nodes
      ensures k1 == k2
    {
      assert n != node ==> n in NodesIn(s, k1) && n in NodesIn(s, k2);
    }
  }

  lemma PlacementGains(cfg: Config, s: State, order: seq<nat>, node: nat) returns (home: nat)
    requires IsOrder(order, s) && IdsOk(s) && node !in Placed(s)
    ensures Gains(s, Place(cfg, s, order, node), home, node)
  {
    hide FirstSmallest, NonDraining, IsDraining, Place;
    PlaceIsOneCommand(cfg, s, order, node);
    var a := PlacementAction(cfg, s, order, node);
    home := s.nextId;
    if a.AddNodeToCluster? {
      NonDrainingMembers(s, order);
      FirstSmallestIsSmallest(s, NonDraining(s, order));
      home := a.cluster;
      assert node !in s.clusters[home].nodes;
    }
  }

  lemma PlaceAddsOneNode(cfg: Config, s: State, order: seq<nat>, node: nat)
    requires IsOrder(order, s) && IdsOk(s) && Partitioned(s) && node !in Placed(s)
    ensures Partitioned(Place(cfg, s, order, node)) && Placed(Place(cfg, s, order, node)) == Placed(s) + {node}
  {
    hide Gains, Partitioned, Placed, Place, IsOrder, IdsOk;
    var home := PlacementGains(cfg, s, order, node);
    GainedMembers(s, Place(cfg, s, order, node), home, node);
    GainKeepsPartition(s, Place(cfg, s, order, node), home, node);
  }

  lemma OrdersFront(cfg: Config, nodes: seq<nat>, orders: seq<seq<nat>>, n: nat)
    requires |orders| == |nodes| == n + 1 && OrdersOk(cfg, nodes, orders)
    ensures OrdersOk(cfg, nodes[..n], orders[..n])
    ensures IsOrder(orders[n], PlaceAll(cfg, nodes[..n], orders[..n]))
  {
    hide PlaceAll, IsOrder;
    var front, os := nodes[..n], orders[..n];
    forall i | 0 <= i < n ensures IsOrder(os[i], PlaceAll(cfg, front[..i], os[..i])) {
      assert front[..i] == nodes[..i] && os[..i] == orders[..i] && os[i] == orders[i];
    }
  }

  lemma {:induction false} PlacementRunPacks(cfg: Config, nodes: seq<nat>, orders: seq<seq<nat>>)
    requires cfg.target > 0 && |orders| == |nodes| && NoDuplicates(nodes) && OrdersOk(cfg, nodes, orders)
    ensures var s := PlaceAll(cfg, nodes, orders);
            && Packed(cfg, |nodes|, s) && Partitioned(s)
            && forall n :: n in Placed(s) <==> n in nodes
  {
    if nodes == [] {
      NothingPlaced(cfg);
    } else {
      hide Packed, Partitioned, Placed, IsOrder, OrdersOk, Place;
      var n := |nodes| - 1;
      var s := PlaceAll(cfg, nodes[..n], orders[..n]);
      OrdersFront(cfg, nodes, orders, n);
      DistinctFront(nodes);
      PlacementRunPacks(cfg, nodes[..n], orders[..n]);
      hide NoDuplicates;
      PlaceOneMore(cfg, n, s, orders[n], nodes[n]);
    }
  }

  lemma DistinctFront(nodes: seq<nat>)
    requires nodes != [] && NoDuplicates(nodes)
    ensures var front, last := nodes[..|nodes| - 1], nodes[|nodes| - 1];
            NoDuplicates(front) && last !in front && forall n :: n in nodes <==> n in front || n == last
  {
    assert nodes == nodes[..|nodes| - 1] + [nodes[|nodes| - 1]];
  }

  lemma PlaceOneMore(cfg: Config, n: nat, s: State, order: seq<nat>, node: nat)
    requires cfg.target > 0 && Packed(cfg, n, s) && Partitioned(s) && IsOrder(order, s) && node !in Placed(s)
    ensures var t := Place(cfg, s, order, node);
            Packed(cfg, n + 1, t) && Partitioned(t) && Placed(t) == Placed(s) + {node}
  {
    hide Packed, Partitioned, Placed, IsOrder, Place;
    PackedIds(cfg, n, s);
    PlaceKeepsPacked(cfg, n, s, order, node);
    PlaceAddsOneNode(cfg, s, order, node);
  }

  lemma PackedIds(cfg: Config, n: nat, s: State)
    requires cfg.target > 0 && Packed(cfg, n, s)
    ensures IdsOk(s)
  {
  }

  lemma NothingPlaced(cfg: Config)
    requires cfg.target > 0
    ensures Packed(cfg, 0, INITIAL) && Partitioned(INITIAL) && Placed(INITIAL) == {}
  {
    DivModUnique(0, cfg.target, 0, 0);
  }

  predicate BelowTarget(cfg: Config, s: State, k: nat)
    requires k in s.clusters
  {
    |s.clusters[k].nodes| < cfg.target
  }

  /** However ties between equally small clusters are broken: n distinct nodes placed one after the
      other end in exactly ceil(n / target) clusters, at most one of them below the target, none
      above it, and every node is in exactly one of them. */
  lemma PlacementRunsAreTight(cfg: Config, nodes: seq<nat>, orders: seq<seq<nat>>)
    requires cfg.target > 0 && |orders| == |nodes| && NoDuplicates(nodes) && OrdersOk(cfg, nodes, orders)
    ensures var s := PlaceAll(cfg, nodes, orders);
            && |s.clusters| == (|nodes| + cfg.target - 1) / cfg.target
            && (forall k :: k in s.clusters ==> |s.clusters[k].nodes| <= cfg.target)
            && (forall k1, k2 ::
                  (k1 in s.clusters && k2 in s.clusters && BelowTarget(cfg, s, k1) && BelowTarget(cfg, s, k2)) ==>
                    k1 == k2)
            && Partitioned(s) && forall n :: n in Placed(s) <==> n in nodes
  {
    hide PlaceAll, OrdersOk, Placed, Partitioned, IsDraining;
    PlacementRunPacks(cfg, nodes, orders);
    Ceiling(|nodes|, cfg.target);
  }
}
