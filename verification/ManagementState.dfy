/** The management state as a value: sub-clusters with their node lists and metadata,
    the commands that change them, and the events each command emits. */
module ManagementState {
  import opened Wrappers

  datatype SubCluster = SubCluster(nodes: seq<nat>, metadata: map<string, string>)

  /** Ids are assigned from nextId, starting at 1; 0 is the management cluster. */
  datatype State = State(clusters: map<nat, SubCluster>, nextId: nat, addresses: map<nat, string>)

  datatype Command =
    | CreateSubCluster(nodes: seq<nat>)
    | DeleteSubCluster(cluster: nat)
    | AddNodeToSubCluster(cluster: nat, node: nat)
    | RemoveNodeFromSubCluster(cluster: nat, node: nat)
    | SetMetadata(cluster: nat, key: string, value: string)
    | DeleteMetadata(cluster: nat, key: string)
    | RegisterNodeAddress(node: nat, address: string)

  datatype Event =
    | SubClusterCreated(cluster: nat, nodes: seq<nat>)
    | SubClusterDeleted(cluster: nat)
    | NodeAddedToSubCluster(cluster: nat, node: nat)
    | NodeRemovedFromSubCluster(cluster: nat, node: nat)
    | MetadataUpdated(cluster: nat, key: string, value: Option<string>)
    | FailedNodeDetected(node: nat)

  const INITIAL: State := State(map[], 1, map[])

  /** The list without any occurrence of the node, order kept. */
  function Without(nodes: seq<nat>, node: nat): (r: seq<nat>)
    ensures forall n :: n in r <==> n in nodes && n != node
  {
    if nodes == [] then []
    else Without(nodes[..|nodes| - 1], node) + if nodes[|nodes| - 1] == node then [] else [nodes[|nodes| - 1]]
  }

  function Update(s: State, cluster: nat, sub: SubCluster): State {
    s.(clusters := s.clusters[cluster := sub])
  }

  /** The state after a command; a command naming an unknown sub-cluster changes nothing. */
  function Apply(s: State, c: Command): State {
    match c
    case CreateSubCluster(nodes) =>
      s.(clusters := s.clusters[s.nextId := SubCluster(nodes, map[])], nextId := s.nextId + 1)
    case DeleteSubCluster(k) => s.(clusters := s.clusters - {k})
    case AddNodeToSubCluster(k, n) =>
      if k in s.clusters && n !in s.clusters[k].nodes
      then Update(s, k, s.clusters[k].(nodes := s.clusters[k].nodes + [n])) else s
    case RemoveNodeFromSubCluster(k, n) =>
      if k in s.clusters then Update(s, k, s.clusters[k].(nodes := Without(s.clusters[k].nodes, n))) else s
    case SetMetadata(k, key, v) =>
      if k in s.clusters then Update(s, k, s.clusters[k].(metadata := s.clusters[k].metadata[key := v])) else s
    case DeleteMetadata(k, key) =>
      if k in s.clusters then Update(s, k, s.clusters[k].(metadata := s.clusters[k].metadata - {key})) else s
    case RegisterNodeAddress(n, address) => s.(addresses := s.addresses[n := address])
  }

  /** The events of a command, None for an error. */
  function Emits(s: State, c: Command): Option<seq<Event>> {
    match c
    case CreateSubCluster(nodes) => Some([SubClusterCreated(s.nextId, nodes)])
    case DeleteSubCluster(k) => Some([SubClusterDeleted(k)])
    case AddNodeToSubCluster(k, n) => if k in s.clusters then Some([NodeAddedToSubCluster(k, n)]) else None
    case RemoveNodeFromSubCluster(k, n) => if k in s.clusters then Some([NodeRemovedFromSubCluster(k, n)]) else None
    case SetMetadata(k, key, v) => if k in s.clusters then Some([MetadataUpdated(k, key, Some(v))]) else None
    case DeleteMetadata(k, key) => if k in s.clusters then Some([MetadataUpdated(k, key, None)]) else None
    case RegisterNodeAddress(_, _) => Some([])
  }

  function ApplyAll(s: State, cs: seq<Command>): State {
    if cs == [] then s else Apply(ApplyAll(s, cs[..|cs| - 1]), cs[|cs| - 1])
  }

  lemma ApplyOne(s: State, cs: seq<Command>, c: Command)
    ensures ApplyAll(s, cs + [c]) == Apply(ApplyAll(s, cs), c)
  {
    hide Apply;
    assert (cs + [c])[..|cs|] == cs;
  }

  lemma {:induction false} ApplyConcat(s: State, a: seq<Command>, b: seq<Command>)
    ensures ApplyAll(s, a + b) == ApplyAll(ApplyAll(s, a), b)
  {
    if b == [] {
      assert a + b == a;
    } else {
      assert (a + b)[..|a + b| - 1] == a + b[..|b| - 1];
      ApplyConcat(s, a, b[..|b| - 1]);
    }
  }

  // ----- Topology -----

  predicate IsDraining(c: SubCluster) {
    "draining" in c.metadata && c.metadata["draining"] == "true"
  }

  /** The nodes that are in some sub-cluster. */
  ghost function Placed(s: State): set<nat> {
    set k, n | k in s.clusters && n in s.clusters[k].nodes :: n
  }

  predicate NoDuplicates(nodes: seq<nat>) {
    forall i, j :: 0 <= i < j < |nodes| ==> nodes[i] != nodes[j]
  }

  /** Duplicate-free and pairwise disjoint memberships: every placed node is in exactly one place. */
  ghost predicate Partitioned(s: State) {
    && (forall k :: k in s.clusters ==> NoDuplicates(s.clusters[k].nodes))
    && (forall k1, k2, n ::
          (k1 in s.clusters && k2 in s.clusters && n in s.clusters[k1].nodes && n in s.clusters[k2].nodes) ==> k1 == k2)
  }

  /** Assigned ids are below the next one and never 0. */
  ghost predicate IdsOk(s: State) {
    1 <= s.nextId && forall k :: k in s.clusters ==> 1 <= k < s.nextId
  }

  lemma ApplyKeepsIds(s: State, c: Command)
    requires IdsOk(s)
    ensures IdsOk(Apply(s, c))
  {
  }

  /** A command is an error exactly when it names an unknown cluster, and then it changes nothing. */
  lemma ErrorsExactly(s: State, c: Command)
    ensures Emits(s, c).None? <==>
              (c.AddNodeToSubCluster? || c.RemoveNodeFromSubCluster? || c.SetMetadata? || c.DeleteMetadata?)
              && c.cluster !in s.clusters
    ensures Emits(s, c).None? ==> Apply(s, c) == s
  {
  }

  // ----- Metadata and addresses -----

  function MetadataOf(s: State, k: nat, key: string): Option<string> {
    if k in s.clusters && key in s.clusters[k].metadata then Some(s.clusters[k].metadata[key]) else None
  }

  /** A metadata event is emitted exactly when a value was set or removed in a known cluster, and tells
      what is found there afterwards; no other value and no node list changes with it. */
  lemma MetadataEventsTellTheState(s: State, c: Command, k: nat, key: string)
    requires IdsOk(s)
    ensures var t, after := Apply(s, c), MetadataOf(Apply(s, c), k, key);
            match Emits(s, c)
            case Some(events) =>
              if events != [] && events[0].MetadataUpdated? && events[0].cluster == k
              then after == (if events[0].key == key then events[0].value else MetadataOf(s, k, key))
                   && k in t.clusters && k in s.clusters && t.clusters[k].nodes == s.clusters[k].nodes
              else after == if c == DeleteSubCluster(k) then None else MetadataOf(s, k, key)
            case None => after == MetadataOf(s, k, key)
  {
  }

  /** Draining is read off the metadata: a cluster drains from the command that sets the mark until one
      that sets it to something else, removes it or deletes the cluster. */
  lemma DrainingFollowsCommands(s: State, c: Command, k: nat)
    requires IdsOk(s)
    ensures k in Apply(s, c).clusters && IsDraining(Apply(s, c).clusters[k]) <==>
              if k in s.clusters && c.SetMetadata? && c.cluster == k && c.key == "draining" then c.value == "true"
              else k in s.clusters && IsDraining(s.clusters[k])
                   && c != DeleteMetadata(k, "draining") && c != DeleteSubCluster(k)
  {
  }

  /** The address of a node is the one registered last. */
  lemma {:induction false} AddressIsLastRegistered(cs: seq<Command>, i: nat)
    requires i < |cs| && cs[i].RegisterNodeAddress?
    requires forall j :: i < j < |cs| ==> !(cs[j].RegisterNodeAddress? && cs[j].node == cs[i].node)
    ensures var s := ApplyAll(INITIAL, cs);
            cs[i].node in s.addresses && s.addresses[cs[i].node] == cs[i].address
  {
    if i < |cs| - 1 {
      assert cs[..|cs| - 1][i] == cs[i];
      assert !(cs[|cs| - 1].RegisterNodeAddress? && cs[|cs| - 1].node == cs[i].node);
      AddressIsLastRegistered(cs[..|cs| - 1], i);
    }
  }

  /** No command puts a node into a list twice; only a list given at creation can hold one twice. */
  lemma ApplyKeepsDistinct(s: State, c: Command)
    requires forall k :: k in s.clusters ==> NoDuplicates(s.clusters[k].nodes)
    requires c.CreateSubCluster? ==> NoDuplicates(c.nodes)
    ensures forall k :: k in Apply(s, c).clusters ==> NoDuplicates(Apply(s, c).clusters[k].nodes)
  {
    if c.RemoveNodeFromSubCluster? && c.cluster in s.clusters {
      WithoutKeepsDistinct(s.clusters[c.cluster].nodes, c.node);
    }
  }

  /** Without drops the node and keeps everything else where it stood among the others. */
  lemma {:induction false} WithoutConcat(a: seq<nat>, b: seq<nat>, node: nat)
    ensures Without(a + b, node) == Without(a, node) + Without(b, node)
    ensures |b| == 1 ==> Without(b, node) == if b[0] == node then [] else b
  {
    if b == [] {
      assert a + b == a;
    } else {
      assert (a + b)[..|a + b| - 1] == a + b[..|b| - 1];
      WithoutConcat(a, b[..|b| - 1], node);
    }
  }

  lemma {:induction false} WithoutKeepsDistinct(nodes: seq<nat>, node: nat)
    requires NoDuplicates(nodes)
    ensures NoDuplicates(Without(nodes, node))
    ensures |Without(nodes, node)| == |nodes| - if node in nodes then 1 else 0
  {
    if nodes != [] {
      var front, last := nodes[..|nodes| - 1], nodes[|nodes| - 1];
      WithoutKeepsDistinct(front, node);
      assert last !in front;
      assert nodes == front + [last];
    }
  }
}
