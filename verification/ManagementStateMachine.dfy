/** The management state machine as an object: three collections updated in place. */
module ManagementStateMachines {
  import opened Wrappers
  import MS = ManagementState

  class ManagementStateMachine {
    var subClusters: map<nat, MS.SubCluster>
    var nextClusterId: nat
    var nodeAddresses: map<nat, string>

    ghost function Contents(): MS.State
      reads this
    {
      MS.State(subClusters, nextClusterId, nodeAddresses)
    }

    constructor ()
      ensures Contents() == MS.INITIAL
    {
      subClusters, nextClusterId, nodeAddresses := map[], 1, map[];
    }

    method Apply(c: MS.Command) returns (events: Option<seq<MS.Event>>)
      modifies this
      ensures Contents() == MS.Apply(old(Contents()), c)
      ensures events == MS.Emits(old(Contents()), c)
    {
      match c {
        case CreateSubCluster(nodes) =>
          var id := nextClusterId;
          nextClusterId := nextClusterId + 1;
          subClusters := subClusters[id := MS.SubCluster(nodes, map[])];
          events := Some([MS.SubClusterCreated(id, nodes)]);
        case DeleteSubCluster(k) =>
          subClusters := subClusters - {k};
          events := Some([MS.SubClusterDeleted(k)]);
        case AddNodeToSubCluster(k, n) =>
          if k !in subClusters {
            return None;
          }
          var sub := subClusters[k];
          if n !in sub.nodes {
            subClusters := subClusters[k := sub.(nodes := sub.nodes + [n])];
          }
          events := Some([MS.NodeAddedToSubCluster(k, n)]);
        case RemoveNodeFromSubCluster(k, n) =>
          if k !in subClusters {
            return None;
          }
          var sub := subClusters[k];
          var kept := Retain(sub.nodes, n);
          subClusters := subClusters[k := sub.(nodes := kept)];
          events := Some([MS.NodeRemovedFromSubCluster(k, n)]);
        case SetMetadata(k, key, v) =>
          if k !in subClusters {
            return None;
          }
          var sub := subClusters[k];
          subClusters := subClusters[k := sub.(metadata := sub.metadata[key := v])];
          events := Some([MS.MetadataUpdated(k, key, Some(v))]);
        case DeleteMetadata(k, key) =>
          if k !in subClusters {
            return None;
          }
          var sub := subClusters[k];
          subClusters := subClusters[k := sub.(metadata := sub.metadata - {key})];
          events := Some([MS.MetadataUpdated(k, key, None)]);
        case RegisterNodeAddress(n, address) =>
          nodeAddresses := nodeAddresses[n := address];
          events := Some([]);
      }
    }

    /** A snapshot carries the whole state. */
    method Snapshot() returns (d: MS.State)
      ensures d == Contents()
    {
      d := MS.State(subClusters, nextClusterId, nodeAddresses);
    }

    method Restore(d: MS.State)
      modifies this
      ensures Contents() == d
    {
      subClusters := d.clusters;
      nextClusterId := d.nextId;
      nodeAddresses := d.addresses;
    }
  }

  /** Keep every entry but the given node, in order. */
  method Retain(nodes: seq<nat>, node: nat) returns (r: seq<nat>)
    ensures r == MS.Without(nodes, node)
  {
    r := [];
    for i := 0 to |nodes|
      invariant r == MS.Without(nodes[..i], node)
    {
      assert nodes[..i + 1][..i] == nodes[..i];
      if nodes[i] != node {
        r := r + [nodes[i]];
      }
    }
    assert nodes[..|nodes|] == nodes;
  }
}
