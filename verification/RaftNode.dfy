/** The replica loop as the object it is: indices, waiters and state machine updated in place. */
module RaftNodes {
  import opened Wrappers
  import opened ProposalContext
  import R = Replication
  import WaiterProgress

  class RaftNode<S, C, D, V> {
    const machine: R.Machine<S, C, D, V>
    const settings: R.Settings

    var stateMachine: S
    var committedIndex: nat
    var lastSnapshotIndex: nat
    var pendingProposals: set<nat>
    var storedSnapshot: Option<R.Snap<D>>

    /** Bookkeeping: log entries behind this node, ids ever registered, completions sent. */
    ghost var applied: nat
    ghost var registered: set<nat>
    ghost var done: seq<R.Completion>

    ghost function Contents(): R.Node<S, D>
      reads this
    {
      R.Node(stateMachine, applied, committedIndex, lastSnapshotIndex, pendingProposals, registered, done,
          storedSnapshot)
    }

    constructor (m: R.Machine<S, C, D, V>, g: R.Settings)
      ensures machine == m && settings == g && Contents() == R.NewNode(m)
    {
      machine, settings, stateMachine := m, g, m.init;
      committedIndex, lastSnapshotIndex, pendingProposals, storedSnapshot := 0, 0, {}, None;
      applied, registered, done := 0, {}, [];
    }

    /** A local proposal: the waiter is registered first and taken back if raft refuses. */
    method Propose(id: u64, accepted: bool) returns (context: Bytes)
      modifies this`pendingProposals, this`registered
      ensures var n := R.Register(old(Contents()), id);
              Contents() == if accepted then n else n.(pending := n.pending - {id})
      ensures NormalSyncId(context) == Some(id)
      ensures pendingProposals == if accepted then old(pendingProposals) + {id} else old(pendingProposals) - {id}
    {
      pendingProposals := pendingProposals + {id};
      registered := registered + {id};
      context := SyncContext(id);
      ContextRoundTrip(id, []);
      if !accepted {
        pendingProposals := pendingProposals - {id};
      }
    }

    /** The forwarding half: the waiter stays on this node, the leader builds the context. */
    method RegisterForwardedProposal(id: u64)
      modifies this`pendingProposals, this`registered
      ensures Contents() == R.Register(old(Contents()), id)
      ensures pendingProposals == old(pendingProposals) + {id}
    {
      pendingProposals := pendingProposals + {id};
      registered := registered + {id};
    }

    method CompleteWaiter(id: Option<nat>, ok: bool)
      modifies this`pendingProposals, this`done
      ensures Contents() == R.Complete(old(Contents()), id, ok)
      ensures pendingProposals == old(pendingProposals) - if id.Some? then {id.value} else {}
    {
      if id.Some? && id.value in pendingProposals {
        pendingProposals := pendingProposals - {id.value};
        done := done + [R.Completion(id.value, applied, ok)];
      }
    }

    /** Entry i of the batch has raft index first + i. */
    method ApplyCommitted(es: seq<R.Entry<C>>, first: nat)
      requires first == applied + 1
      modifies this
      ensures Contents() == R.ApplyAll(machine, old(Contents()), es)
      ensures forall id :: id in pendingProposals <==> id in old(pendingProposals) && WaiterProgress.NoneCarries(es, id)
    {
      for i := 0 to |es|
        invariant Contents() == R.ApplyAll(machine, old(Contents()), es[..i])
        invariant applied == old(applied) + i
      {
        assert es[..i + 1][..i] == es[..i];
        ghost var before := Contents();
        match es[i] {
          case Empty =>
          case Normal(payload, context) =>
            var ok := false;
            if payload.Some? {
              var result := machine.apply(stateMachine, payload.value);
              stateMachine, ok := result.0, result.1;
            }
            CompleteWaiter(NormalSyncId(context), ok);
            committedIndex := first + i;
          case Conf(kind, node, context, metadataDecodes) =>
            var ok := true;
            if kind == R.AddNode && ConfMetadata(context) != [] {
              ok := metadataDecodes;
            }
            CompleteWaiter(ConfSyncId(context), ok);
        }
        applied := applied + 1;
        assert Contents() == R.ApplyEntry(machine, before, es[i]);
      }
      assert es[..|es|] == es;
      forall id: nat
        ensures id in pendingProposals <==> id in old(pendingProposals) && WaiterProgress.NoneCarries(es, id)
      {
        WaiterProgress.WaitsUntilCarried(machine, old(Contents()), es, id);
      }
    }

    method MaybeCreateSnapshot(hardTerm: nat) returns (panicked: bool)
      modifies this`storedSnapshot, this`lastSnapshotIndex
      ensures panicked <==> R.MaybeSnapshot(machine, settings, old(Contents()), hardTerm).None?
      ensures panicked ==> Contents() == old(Contents())
      ensures !panicked ==> Contents() == R.MaybeSnapshot(machine, settings, old(Contents()), hardTerm).value
    {
      panicked := false;
      if settings.interval == 0 {
        return;
      }
      if committedIndex < lastSnapshotIndex && settings.overflowChecks {
        return true;
      }
      if R.WrappingSub(committedIndex, lastSnapshotIndex) < settings.interval {
        return;
      }
      var data := machine.snap(stateMachine);
      storedSnapshot := Some(R.Snap(committedIndex, hardTerm, data));
      lastSnapshotIndex := committedIndex;
    }

    /** One round: snapshot, committed entries, the early return of a pre-candidate, light committed
        entries, own snapshot.
        `first` is the raft index of the first entry delivered. */
    method OnReady(r: R.Ready<C, D>, first: nat) returns (panicked: bool)
      requires first == R.Start(Contents(), r) + 1
      modifies this
      ensures var after := R.OnReady(machine, settings, old(Contents()), r);
              && (panicked <==> after.None?)
              && (!panicked ==> Contents() == after.value)
      ensures !panicked && WaiterProgress.NoLightWhenEarly(r) ==>
                forall id :: id in pendingProposals <==>
                             id in old(pendingProposals) && WaiterProgress.NoneCarries(r.committed + r.light, id)
    {
      hide WaiterProgress.NoneCarries;
      ghost var before := Contents();
      if R.OnReady(machine, settings, before, r).Some? && WaiterProgress.NoLightWhenEarly(r) {
        WaiterProgress.StillPending(machine, settings, before, r);
      }
      if r.snapshot.Some? {
        stateMachine := machine.restore(stateMachine, r.snapshot.value.data);
        lastSnapshotIndex := r.snapshot.value.index;
        storedSnapshot := r.snapshot;
        applied := r.snapshot.value.index;
      }
      assert Contents() == R.Install(machine, old(Contents()), r.snapshot);
      ApplyCommitted(r.committed, first);
      if r.preCandidate {
        return false;
      }
      R.AppliedAdvances(machine, R.Install(machine, old(Contents()), r.snapshot), r.committed);
      ApplyCommitted(r.light, first + |r.committed|);
      panicked := MaybeCreateSnapshot(r.hardTerm);
    }
  }
}
