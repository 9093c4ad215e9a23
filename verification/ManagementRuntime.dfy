/** The management runtime: turns decisions into proposed commands, one at a time. Every proposal is
    applied before the next decision is taken. */
module ManagementRuntimes {
  import opened ManagementState
  import opened ManagementStateMachines
  import opened ClusterManager
  import opened Consolidation
  import Splits
  import SplitFixpoint
  import Placement

  /** Some iteration order of the hash map of sub-clusters: any order may come out. */
  method HashOrder(s: State) returns (order: seq<nat>)
    ensures IsOrder(order, s)
  {
    order := [];
    var rest := s.clusters.Keys;
    while rest != {}
      invariant NoDuplicates(order) && rest <= s.clusters.Keys
      invariant forall k :: k in s.clusters <==> k in order || k in rest
      invariant forall k :: k in order ==> k !in rest
    {
      var k :| k in rest;
      order, rest := order + [k], rest - {k};
    }
  }

  /** The clusters that list the node, in iteration order. */
  method AffectedClusters(s: State, node: nat) returns (affected: seq<nat>)
    ensures NoDuplicates(affected)
    ensures forall k :: k in affected <==> k in s.clusters && node in s.clusters[k].nodes
  {
    var order := HashOrder(s);
    affected := [];
    for i := 0 to |order|
      invariant NoDuplicates(affected)
      invariant forall k :: k in affected <==> k in order[..i] && node in s.clusters[k].nodes
    {
      assert order[i] in s.clusters && order[i] !in order[..i];
      assert order[..i + 1] == order[..i] + [order[i]];
      if node in s.clusters[order[i]].nodes {
        affected := affected + [order[i]];
      }
    }
    assert order[..|order|] == order;
  }

  class ManagementRuntime {
    const cfg: Config
    const sm: ManagementStateMachine

    constructor (cfg: Config, sm: ManagementStateMachine)
      ensures this.cfg == cfg && this.sm == sm
    {
      this.cfg, this.sm := cfg, sm;
    }

    /** One command per action, except a removal of several nodes: one command per node. */
    method ExecuteAction(a: Action)
      modifies sm
      ensures sm.Contents() == ApplyAll(old(sm.Contents()), CommandsOf(a))
    {
      hide Apply, Emits;
      ghost var before := sm.Contents();
      match a {
        case AddNodeToCluster(k, n) =>
          var _ := sm.Apply(AddNodeToSubCluster(k, n));
          OneCommand(before, AddNodeToSubCluster(k, n));
        case CreateCluster(nodes) =>
          var _ := sm.Apply(CreateSubCluster(nodes));
          OneCommand(before, CreateSubCluster(nodes));
        case RemoveNodesFromCluster(k, nodes) =>
          for i := 0 to |nodes|
            invariant sm.Contents() == ApplyAll(before, Removes(k, nodes[..i]))
          {
            var _ := sm.Apply(RemoveNodeFromSubCluster(k, nodes[i]));
            assert nodes[..i + 1][..i] == nodes[..i];
            ApplyOne(before, Removes(k, nodes[..i]), RemoveNodeFromSubCluster(k, nodes[i]));
          }
          assert nodes[..|nodes|] == nodes;
        case DrainCluster(k) =>
          var _ := sm.Apply(SetMetadata(k, "draining", "true"));
          OneCommand(before, SetMetadata(k, "draining", "true"));
        case DestroyCluster(k) =>
          var _ := sm.Apply(DeleteSubCluster(k));
          OneCommand(before, DeleteSubCluster(k));
      }
    }

    method ExecuteActions(actions: seq<Action>)
      modifies sm
      ensures sm.Contents() == ApplyAll(old(sm.Contents()), Commands(actions))
    {
      hide CommandsOf;
      ghost var before := sm.Contents();
      assert Commands(actions[..0]) == [];
      for i := 0 to |actions|
        invariant sm.Contents() == ApplyAll(before, Commands(actions[..i]))
      {
        ExecuteAction(actions[i]);
        assert actions[..i + 1][..i] == actions[..i];
        ApplyConcat(before, Commands(actions[..i]), CommandsOf(actions[i]));
      }
      assert actions[..|actions|] == actions;
    }

    /** Place a node that joined the management cluster. */
    method PlaceNode(node: nat) returns (ghost order: seq<nat>)
      modifies sm
      ensures IsOrder(order, old(sm.Contents()))
      ensures sm.Contents() == Placement.Place(cfg, old(sm.Contents()), order, node)
      ensures Placement.WellPlaced(cfg, old(sm.Contents()), node, sm.Contents())
    {
      var s := sm.Snapshot();
      var o := HashOrder(s);
      order := o;
      var actions := DecideNodePlacement(cfg, s, o, node);
      ExecuteActions(actions);
      hide Apply, CommandsOf;
      OneAction([], PlacementAction(cfg, s, o, node));
      assert [] + actions == actions && Commands(actions) == CommandsOf(PlacementAction(cfg, s, o, node));
      hide Placement.WellPlaced;
      Placement.PlacesWell(cfg, s, o, node);
    }

    /** Add a node to a sub-cluster, then split what has grown too large. When the node lists were
        duplicate-free and disjoint and the node was in none, they stay so, and no node loses its
        place. */
    method AddNodeToCluster(k: nat, node: nat) returns (ok: bool, ghost order: seq<nat>)
      modifies sm
      ensures ok == (k in old(sm.Contents()).clusters)
      ensures !ok ==> sm.Contents() == old(sm.Contents())
      ensures var grown := Apply(old(sm.Contents()), AddNodeToSubCluster(k, node));
              ok ==> IsOrder(order, grown) && sm.Contents() == Splits.Round(cfg, grown, order)
                     && (IdsOk(grown) ==> SplitFixpoint.SplitUp(cfg, grown, order, sm.Contents()))
      ensures var s, t := old(sm.Contents()), sm.Contents();
              IdsOk(s) && Partitioned(s) && node !in Placed(s) ==>
                IdsOk(t) && Partitioned(t) && Placed(t) == Placed(s) + if ok then {node} else {}
    {
      hide SplitFixpoint.SplitUp;
      ghost var before := sm.Contents();
      var events := sm.Apply(AddNodeToSubCluster(k, node));
      ok, order := events.Some?, [];
      if ok {
        var s := sm.Snapshot();
        var o := HashOrder(s);
        order := o;
        var actions := DecideSplits(cfg, s, o);
        ExecuteActions(actions);
        if IdsOk(s) {
          SplitFixpoint.RoundSplitsUp(cfg, s, o);
        }
        if IdsOk(before) && Partitioned(before) && node !in Placed(before) {
          GrownCluster(before, k, node);
          Splits.SplitsAreSafe(cfg, s, o);
        }
      }
    }

    /** Remove a node from a sub-cluster, then consolidate what that leaves. */
    method RemoveNodeFromCluster(k: nat, node: nat) returns (ok: bool, ghost order: seq<nat>)
      modifies sm
      ensures ok == (k in old(sm.Contents()).clusters)
      ensures IsOrder(order, Apply(old(sm.Contents()), RemoveNodeFromSubCluster(k, node)))
      ensures sm.Contents() == RemoveFrom(cfg, old(sm.Contents()), k, node, order)
      ensures ok ==> Consolidated(cfg, Apply(old(sm.Contents()), RemoveNodeFromSubCluster(k, node)), sm.Contents())
      ensures !ok ==> sm.Contents() == old(sm.Contents())
    {
      hide ConsolidationActions, IsOrder, Consolidated;
      var events := sm.Apply(RemoveNodeFromSubCluster(k, node));
      ok := events.Some?;
      var s := sm.Snapshot();
      var o := HashOrder(s);
      order := o;
      if ok {
        var actions := DecideConsolidation(cfg, s, o);
        ExecuteActions(actions);
        ConsolidateConsolidates(cfg, s, o);
      }
    }

    /** Remove a failed node from every sub-cluster it is in. It ends up in none; the other nodes of
        surviving clusters stay, in order; clusters deleted on the way held nobody else. Each removal is
        followed by a consolidation of what it left. */
    method HandleFailedNode(node: nat) returns (ghost visited: seq<nat>, ghost states: seq<State>)
      modifies sm
      ensures NoDuplicates(visited)
      ensures forall k :: k in visited <==>
                k in old(sm.Contents()).clusters && node in old(sm.Contents()).clusters[k].nodes
      ensures Visits(cfg, node, visited, states)
      ensures states[0] == old(sm.Contents()) && states[|visited|] == sm.Contents()
      ensures node !in Placed(sm.Contents())
      ensures Placed(sm.Contents()) == Placed(old(sm.Contents())) - {node}
      ensures var s, t := old(sm.Contents()), sm.Contents();
              && (forall k :: k in t.clusters ==>
                  k in s.clusters && t.clusters[k].nodes == Without(s.clusters[k].nodes, node))
              && (forall k :: k in s.clusters && k !in t.clusters ==>
                  forall n :: n in s.clusters[k].nodes ==> n == node)
    {
      hide RemoveFrom, IsOrder, Apply, Without, Placed, Consolidated, Consolidation.OrdersOk, RemoveFromAll;
      ghost var before := sm.Contents();
      visited, states := [], [before];
      NoVisits(cfg, before, node);
      var s := sm.Snapshot();
      var affected := AffectedClusters(s, node);
      ghost var orders: seq<seq<nat>> := [];
      for i := 0 to |affected|
        invariant |orders| == i
        invariant Consolidation.OrdersOk(cfg, before, node, affected[..i], orders)
        invariant sm.Contents() == RemoveFromAll(cfg, before, node, affected[..i], orders)
        invariant Visits(cfg, node, affected[..i], states) && states[0] == before && states[i] == sm.Contents()
      {
        UnvisitedRemain(cfg, before, node, affected[..i], orders, affected[i]);
        var _, order := RemoveNodeFromCluster(affected[i], node);
        OneMoreVisit(cfg, before, node, affected[..i], orders, affected[i], order);
        assert affected[..i + 1] == affected[..i] + [affected[i]];
        orders := orders + [order];
        states := states + [sm.Contents()];
      }
      assert affected[..|affected|] == affected;
      visited := affected;
      FailedNodeIsRemoved(cfg, before, node, affected, orders);
    }
  }

  lemma OneCommand(s: State, c: Command)
    ensures ApplyAll(s, [c]) == Apply(s, c)
  {
    hide Apply;
    ApplyOne(s, [], c);
    assert [] + [c] == [c];
  }

  lemma GrownCluster(s: State, k: nat, node: nat)
    requires IdsOk(s) && Partitioned(s) && node !in Placed(s) && k in s.clusters
    ensures var t := Apply(s, AddNodeToSubCluster(k, node));
            IdsOk(t) && Partitioned(t) && Placed(t) == Placed(s) + {node}
  {
    var t := Apply(s, AddNodeToSubCluster(k, node));
    assert node !in s.clusters[k].nodes;
    Placement.GainedMembers(s, t, k, node);
    Placement.GainKeepsPartition(s, t, k, node);
  }

  lemma NoVisits(cfg: Config, s: State, node: nat)
    ensures Consolidation.OrdersOk(cfg, s, node, [], []) && RemoveFromAll(cfg, s, node, [], []) == s
  {
  }

  lemma OneMoreVisit(cfg: Config, s: State, node: nat, done: seq<nat>, orders: seq<seq<nat>>, k: nat, order: seq<nat>)
    requires |orders| == |done| && Consolidation.OrdersOk(cfg, s, node, done, orders)
    requires IsOrder(order, Apply(RemoveFromAll(cfg, s, node, done, orders), RemoveNodeFromSubCluster(k, node)))
    ensures Consolidation.OrdersOk(cfg, s, node, done + [k], orders + [order])
    ensures RemoveFromAll(cfg, s, node, done + [k], orders + [order])
            == RemoveFrom(cfg, RemoveFromAll(cfg, s, node, done, orders), k, node, order)
  {
    hide RemoveFrom, IsOrder, Apply;
    var all, os := done + [k], orders + [order];
    assert all[..|done|] == done && os[..|done|] == orders;
    forall i | 0 <= i < |all|
      ensures IsOrder(os[i], Apply(RemoveFromAll(cfg, s, node, all[..i], os[..i]),
                                   RemoveNodeFromSubCluster(all[i], node)))
    {
      if i < |done| {
        assert all[..i] == done[..i] && os[..i] == orders[..i];
      }
    }
  }
}
