/** The event observer: the set of sub-cluster runtimes a node keeps, maintained from events it
    handles in order while the state machine has already run ahead. */
module Observer {
  import opened ManagementState

  /** `view` is the key set of the node's runtimes; `handled` counts the events behind the observer. */
  datatype System = System(sm: State, emitted: seq<Event>, handled: nat, view: set<nat>)

  const START: System := System(INITIAL, [], 0, {})

  datatype Step = ApplyCommand(c: Command) | HandleNext

  /** The observer reads the current state machine, not the one the event was emitted from. */
  function Handle(me: nat, current: State, e: Event, view: set<nat>): set<nat> {
    match e
    case SubClusterCreated(k, nodes) => if me in nodes && k != 0 then view + {k} else view
    case NodeAddedToSubCluster(k, n) =>
      if k in view then view                       // changes only the sub-cluster's own configuration
      else if n == me && k in current.clusters && k != 0 then view + {k}
      else view
    case NodeRemovedFromSubCluster(k, n) => if n == me then view - {k} else view
    case SubClusterDeleted(k) => view - {k}
    case _ => view
  }

  function Publish(s: State, c: Command): seq<Event> {
    match Emits(s, c)
    case Some(events) => events
    case None => []
  }

  function Next(me: nat, s: System, step: Step): System {
    match step
    case ApplyCommand(c) => s.(sm := Apply(s.sm, c), emitted := s.emitted + Publish(s.sm, c))
    case HandleNext =>
      if s.handled < |s.emitted|
      then s.(handled := s.handled + 1, view := Handle(me, s.sm, s.emitted[s.handled], s.view)) else s
  }

  function Execute(me: nat, steps: seq<Step>): System {
    if steps == [] then START else Next(me, Execute(me, steps[..|steps| - 1]), steps[|steps| - 1])
  }

  /** What one event says about the node's memberships. */
  function MemberNext(me: nat, before: set<nat>, e: Event): set<nat> {
    match e
    case SubClusterCreated(k, nodes) => if me in nodes then before + {k} else before
    case NodeAddedToSubCluster(k, n) => if n == me then before + {k} else before
    case NodeRemovedFromSubCluster(k, n) => if n == me then before - {k} else before
    case SubClusterDeleted(k) => before - {k}
    case _ => before
  }

  /** The clusters the node was a member of right after an event sequence was emitted. */
  function MemberAfter(me: nat, events: seq<Event>): set<nat> {
    if events == [] then {}
    else MemberNext(me, MemberAfter(me, events[..|events| - 1]), events[|events| - 1])
  }

  /** The clusters that contain the node now. */
  function Membership(me: nat, s: State): set<nat> {
    set k | k in s.clusters && me in s.clusters[k].nodes
  }

  lemma MemberStep(me: nat, events: seq<Event>, e: Event)
    ensures MemberAfter(me, events + [e]) == MemberNext(me, MemberAfter(me, events), e)
  {
    assert (events + [e])[..|events|] == events;
  }

  /** How far behind the view may be: it lists only clusters the node was in when the last handled
      event was emitted, and among those that still exist it misses none. */
  ghost predicate Lagging(live: set<nat>, view: set<nat>, member: set<nat>) {
    view <= member && forall k :: k in live && k in member ==> k in view
  }

  /** Ids known to any past membership were assigned before nextId, so a cluster created from now on
      is in none of them. */
  ghost predicate IdsAssigned(me: nat, s: System) {
    && IdsOk(s.sm)
    && forall i, k :: 0 <= i <= |s.emitted| && k in MemberAfter(me, s.emitted[..i]) ==> k < s.sm.nextId
  }

  ghost predicate Inv(me: nat, s: System) {
    && s.handled <= |s.emitted|
    && IdsAssigned(me, s)
    && MemberAfter(me, s.emitted) == Membership(me, s.sm)
    && Lagging(s.sm.clusters.Keys, s.view, MemberAfter(me, s.emitted[..s.handled]))
  }

  /** Applying a command changes the memberships just as its event says. */
  lemma PublishedChange(me: nat, s: State, c: Command)
    requires IdsOk(s)
    ensures Publish(s, c) == [] ==> Membership(me, Apply(s, c)) == Membership(me, s)
    ensures Publish(s, c) != [] ==>
              |Publish(s, c)| == 1
              && Membership(me, Apply(s, c)) == MemberNext(me, Membership(me, s), Publish(s, c)[0])
  {
  }

  lemma PublishedMembership(me: nat, s: State, c: Command, events: seq<Event>)
    requires MemberAfter(me, events) == Membership(me, s) && IdsOk(s)
    ensures MemberAfter(me, events + Publish(s, c)) == Membership(me, Apply(s, c))
    ensures |Publish(s, c)| <= 1
  {
    hide Apply, Publish, Membership, MemberAfter, MemberNext;
    PublishedChange(me, s, c);
    var p := Publish(s, c);
    if p == [] {
      assert events + p == events;
    } else {
      MemberStep(me, events, p[0]);
      assert p == [p[0]];
    }
  }

  lemma ApplyKeepsIdsAssigned(me: nat, s: System, c: Command)
    requires IdsAssigned(me, s) && MemberAfter(me, s.emitted) == Membership(me, s.sm)
    ensures IdsAssigned(me, Next(me, s, ApplyCommand(c)))
  {
    hide MemberAfter;
    var t := Next(me, s, ApplyCommand(c));
    PublishedMembership(me, s.sm, c, s.emitted);
    ApplyKeepsIds(s.sm, c);
    forall i, k | 0 <= i <= |t.emitted| && k in MemberAfter(me, t.emitted[..i]) ensures k < t.sm.nextId {
      if i <= |s.emitted| {
        assert t.emitted[..i] == s.emitted[..i];
      } else {
        assert t.emitted[..i] == t.emitted;
        assert k in Membership(me, t.sm);
      }
    }
  }

  /** The state machine runs ahead: a cluster that is new now was in no earlier membership. */
  lemma ApplyInv(me: nat, s: System, c: Command)
    requires Inv(me, s)
    ensures Inv(me, Next(me, s, ApplyCommand(c)))
  {
    hide MemberAfter;
    var t := Next(me, s, ApplyCommand(c));
    PublishedMembership(me, s.sm, c, s.emitted);
    ApplyKeepsIdsAssigned(me, s, c);
    assert t.emitted[..t.handled] == s.emitted[..s.handled];
    var member := MemberAfter(me, s.emitted[..s.handled]);
    forall k | k in t.sm.clusters.Keys && k in member ensures k in t.view {
      assert k < s.sm.nextId;
      assert k in s.sm.clusters;
    }
  }

  /** Handling an event keeps the view in step with the memberships, whatever was deleted since. */
  lemma HandleLags(me: nat, current: State, e: Event, view: set<nat>, member: set<nat>)
    requires Lagging(current.clusters.Keys, view, member) && 0 !in current.clusters
    ensures Lagging(current.clusters.Keys, Handle(me, current, e, view), MemberNext(me, member, e))
  {
  }

  /** An addition never starts a runtime for a cluster that was deleted since, no event starts one for the
      management cluster, and no event touches the runtime of a cluster it is not about. */
  lemma HandleStartsOnly(me: nat, current: State, e: Event, view: set<nat>, k: nat)
    ensures e.NodeAddedToSubCluster? && k in Handle(me, current, e, view) && k !in view ==> k in current.clusters
    ensures k == 0 && k in Handle(me, current, e, view) ==> k in view
    ensures e.FailedNodeDetected? || e.cluster != k ==> (k in Handle(me, current, e, view) <==> k in view)
  {
  }

  lemma HandleInv(me: nat, s: System)
    requires Inv(me, s)
    ensures Inv(me, Next(me, s, HandleNext))
  {
    hide MemberAfter, MemberNext, Handle, Membership, Lagging;
    if s.handled < |s.emitted| {
      var e := s.emitted[s.handled];
      assert s.emitted[..s.handled + 1] == s.emitted[..s.handled] + [e];
      MemberStep(me, s.emitted[..s.handled], e);
      HandleLags(me, s.sm, e, s.view, MemberAfter(me, s.emitted[..s.handled]));
    }
  }

  lemma StartInv(me: nat)
    ensures Inv(me, START)
  {
    assert START.emitted[..0] == [];
  }

  /** On every interleaving of state machine and observer the view lags in the way described. */
  lemma {:induction false} ObserverInvariant(me: nat, steps: seq<Step>)
    ensures Inv(me, Execute(me, steps))
  {
    hide Inv, Next;
    if steps == [] {
      StartInv(me);
    } else {
      ObserverInvariant(me, steps[..|steps| - 1]);
      match steps[|steps| - 1]
      case ApplyCommand(c) => ApplyInv(me, Execute(me, steps[..|steps| - 1]), c);
      case HandleNext => HandleInv(me, Execute(me, steps[..|steps| - 1]));
    }
  }

  /** Once the queue is drained the node keeps runtimes for exactly the clusters it is a member of. */
  lemma DrainedObserverAgrees(me: nat, steps: seq<Step>)
    requires Execute(me, steps).handled == |Execute(me, steps).emitted|
    ensures Execute(me, steps).view == Membership(me, Execute(me, steps).sm)
  {
    ObserverInvariant(me, steps);
    var s := Execute(me, steps);
    hide Execute, MemberAfter, IdsAssigned;
    assert s.emitted[..s.handled] == s.emitted;
  }

  /** At any time, among the clusters that exist now, the node keeps runtimes for exactly those it was
      a member of when the last handled event was emitted. */
  lemma ObserverLagsConsistently(me: nat, steps: seq<Step>, k: nat)
    requires k in Execute(me, steps).sm.clusters
    ensures var s := Execute(me, steps);
            s.handled <= |s.emitted| && (k in s.view <==> k in MemberAfter(me, s.emitted[..s.handled]))
  {
    ObserverInvariant(me, steps);
    hide Execute, MemberAfter, IdsAssigned;
  }

  /** The observer as the object it is: one set of runtimes, updated event by event. */
  class EventObserver {
    const me: nat
    var subClusters: set<nat>

    constructor (me: nat)
      ensures this.me == me && subClusters == {}
    {
      this.me, subClusters := me, {};
    }

    method HandleEvent(current: State, e: Event)
      modifies this
      ensures subClusters == Handle(me, current, e, old(subClusters))
    {
      match e {
        case SubClusterCreated(k, nodes) =>
          if me !in nodes {
            return;
          }
          if k == 0 {
            return;
          }
          subClusters := subClusters + {k};
        case NodeAddedToSubCluster(k, n) =>
          if k in subClusters {
            // the owner adds the node to the sub-cluster's raft configuration
          } else if n == me {
            if k in current.clusters {
              if k == 0 {
                return;
              }
              subClusters := subClusters + {k};
            }
          }
        case NodeRemovedFromSubCluster(k, n) =>
          if n == me {
            subClusters := subClusters - {k};
          }
        case SubClusterDeleted(k) =>
          subClusters := subClusters - {k};
        case _ =>
      }
    }
  }
}
