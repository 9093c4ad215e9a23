/** Where in the committed sequence every value stands that a call returns, by whatever path: a dequeue,
    the owner's own proposal, or an event. This holds on all runs, also on those that install snapshots
    into executions that have already read. */
module CheckpointPositions {
  import opened Wrappers
  import opened CheckpointKeys
  import opened WorkflowState
  import opened CheckpointProtocol
  import opened CheckpointAgreement

  // ----- What all runs keep -----

  /** A replica follows the log: its replicated state is the replay, and what is queued for a key is
      the end of the key's current values. */
  ghost predicate Follows(log: seq<Command>, r: Replica) {
    && r.applied <= |log|
    && TakeSnapshot(r.sm) == TakeSnapshot(Replay(log[..r.applied]))
    && Queued(log[..r.applied], r.sm.queues)
  }

  ghost predicate Queued(now: seq<Command>, queues: Queues) {
    forall flat :: IsSuffix(Values(queues, flat), CurrentValues(now, flat))
  }

  /** The entry of an owner operation. */
  predicate PlacedAt(log: seq<Command>, tags: seq<nat>, p: Pending, k: nat) {
    k < |log| == |tags| && tags[k] == p.tag && log[k] == p.cmd
  }

  ghost predicate PendingPlaced(log: seq<Command>, tags: seq<nat>, p: Pending, applied: nat) {
    if p.phase == Sent then p.tag !in tags
    else exists k: nat :: PlacedAt(log, tags, p, k) && (p.phase == Done ==> k < applied)
  }

  ghost predicate OwnerPlaced(c: Config, s: System, w: string)
    requires w in s.pending
  {
    && w in c.owner && c.owner[w] in s.replicas
    && PendingPlaced(s.log, s.tags, s.pending[w], s.replicas[c.owner[w]].applied)
  }

  ghost predicate AllRunsInv(c: Config, s: System) {
    && s.replicas.Keys == c.nodes
    && LogOk(c, s)
    && (forall n :: n in s.replicas ==> Follows(s.log, s.replicas[n]))
    && (forall w :: w in s.pending ==> OwnerPlaced(c, s, w))
    && (forall snap :: snap in s.snaps ==> SnapOk(s.log, snap))
  }

  // ----- One replica -----

  lemma SuffixGrows(a: seq<Bytes>, b: seq<Bytes>, v: Bytes)
    requires IsSuffix(a, b)
    ensures IsSuffix(a + [v], b + [v])
  {
    assert (b + [v])[|b| - |a|..] == b[|b| - |a|..] + [v];
  }

  lemma ApplyQueued(now: seq<Command>, cmd: Command, sm: State)
    requires Queued(now, sm.queues)
    ensures Queued(now + [cmd], Apply(sm, cmd).queues)
  {
    hide Committed, Epoch, Replay;
    forall flat ensures IsSuffix(Values(Apply(sm, cmd).queues, flat), CurrentValues(now + [cmd], flat)) {
      assert IsSuffix(Values(sm.queues, flat), CurrentValues(now, flat));
      ExtendLog(now, cmd, flat, Epoch(now + [cmd], flat));
      if IsSweep(cmd, flat) {
        FutureEpochsAreEmpty(now, flat, Epoch(now, flat) + 1);
      } else if IsSet(cmd, flat) {
        SuffixGrows(Values(sm.queues, flat), CurrentValues(now, flat), cmd.value);
      }
    }
  }

  lemma ApplyFollows(log: seq<Command>, r: Replica)
    requires Follows(log, r) && r.applied < |log|
    ensures Follows(log, r.(applied := r.applied + 1, sm := Apply(r.sm, log[r.applied])))
  {
    hide Queued, Apply;
    var now, cmd := log[..r.applied], log[r.applied];
    assert log[..r.applied + 1] == now + [cmd];
    ApplyQueued(now, cmd, r.sm);
    ApplyRespectsSnapshots(r.sm, Replay(now), cmd);
    ExtendLog(now, cmd, "", 0);
  }

  lemma PopQueued(now: seq<Command>, sm: State, flat: string)
    requires Queued(now, sm.queues)
    ensures Queued(now, Pop(sm, flat).queues)
  {
    hide CurrentValues;
    forall f ensures IsSuffix(Values(Pop(sm, flat).queues, f), CurrentValues(now, f)) {
      assert IsSuffix(Values(sm.queues, f), CurrentValues(now, f));
    }
  }

  lemma PopFollows(log: seq<Command>, r: Replica, flat: string)
    requires Follows(log, r)
    ensures forall t: Ledger :: Follows(log, r.(sm := Pop(r.sm, flat), taken := t))
  {
    hide Queued, Replay;
    PopQueued(log[..r.applied], r.sm, flat);
  }

  /** A restored replica queues every current value again, from the first one. */
  lemma InstallFollows(log: seq<Command>, r: Replica, snap: Snap)
    requires SnapOk(log, snap)
    ensures Follows(log, r.(applied := snap.index, sm := Restored(snap.data)))
    ensures forall flat :: Values(Restored(snap.data).queues, flat) == CurrentValues(log[..snap.index], flat)
  {
    hide CurrentValues, Replay;
    forall flat ensures Values(Restored(snap.data).queues, flat) == CurrentValues(log[..snap.index], flat) {
      HistoryIsCurrentValues(log[..snap.index], flat);
      assert Restored(snap.data).queues == Replay(log[..snap.index]).history;
    }
  }

  lemma FollowsSurvivesAppend(log: seq<Command>, cmd: Command, r: Replica)
    requires Follows(log, r)
    ensures Follows(log + [cmd], r)
  {
    hide Queued, Replay;
    assert (log + [cmd])[..r.applied] == log[..r.applied];
  }

  // ----- The owner's entry -----

  lemma PlacedSurvivesAppend(log: seq<Command>, tags: seq<nat>, p: Pending, applied: nat, cmd: Command, tag: nat)
    requires PendingPlaced(log, tags, p, applied) && tag != p.tag
    ensures PendingPlaced(log + [cmd], tags + [tag], p, applied)
  {
    if p.phase != Sent {
      var k: nat :| PlacedAt(log, tags, p, k) && (p.phase == Done ==> k < applied);
      assert PlacedAt(log + [cmd], tags + [tag], p, k);
    }
  }

  lemma PlacedSurvivesApply(log: seq<Command>, tags: seq<nat>, p: Pending, applied: nat, w: string)
    requires PendingPlaced(log, tags, p, applied) && applied < |log| == |tags|
    requires forall i, j :: 0 <= i < j < |tags| ==> tags[i] != tags[j]
    ensures PendingPlaced(log, tags, MarkDone(Some(p), w, w, tags[applied]).value, applied + 1)
    ensures PendingPlaced(log, tags, p, applied + 1)
  {
    if p.phase != Sent {
      var k: nat :| PlacedAt(log, tags, p, k) && (p.phase == Done ==> k < applied);
      assert k != applied ==> tags[k] != tags[applied];
      assert forall phase :: PlacedAt(log, tags, p.(phase := phase), k);
    }
  }

  lemma PlacedSurvivesAdvance(log: seq<Command>, tags: seq<nat>, p: Pending, applied: nat, later: nat)
    requires PendingPlaced(log, tags, p, applied) && applied <= later
    ensures PendingPlaced(log, tags, p, later)
  {
    if p.phase != Sent {
      var k: nat :| PlacedAt(log, tags, p, k) && (p.phase == Done ==> k < applied);
      assert PlacedAt(log, tags, p, k) && (p.phase == Done ==> k < later);
    }
  }

  // ----- One lemma per step -----

  lemma StartAllRuns(c: Config)
    ensures AllRunsInv(c, Start(c))
  {
    var s := Start(c);
    forall n | n in s.replicas ensures Follows(s.log, s.replicas[n]) {
      assert s.replicas[n] == FRESH && s.log[..0] == [];
    }
  }

  /** Appending one entry, the one of w's operation or of none. */
  lemma AppendAllRuns(c: Config, s: System, cmd: Command, tag: nat, pending: map<string, Pending>, w: Option<string>)
    requires AllRunsInv(c, s) && LoggedOk(c, cmd) && tag !in s.tags && tag !in s.lost && pending.Keys == s.pending.Keys
    requires forall x :: x in pending && w != Some(x) ==> pending[x] == s.pending[x] && pending[x].tag != tag
    requires forall x :: x in pending ==> pending[x].tag == s.pending[x].tag && pending[x].cmd == s.pending[x].cmd
    requires w.Some? && w.value in pending ==>
               && PlacedAt(s.log + [cmd], s.tags + [tag], pending[w.value], |s.log|)
               && pending[w.value].phase == InLog
    ensures AllRunsInv(c, s.(log := s.log + [cmd], tags := s.tags + [tag], pending := pending))
  {
    hide Follows, SnapOk, PendingPlaced, PlacedAt, Touches, LoggedOk;
    var t := s.(log := s.log + [cmd], tags := s.tags + [tag], pending := pending);
    forall n | n in t.replicas ensures Follows(t.log, t.replicas[n]) {
      FollowsSurvivesAppend(s.log, cmd, s.replicas[n]);
    }
    forall snap | snap in t.snaps ensures SnapOk(t.log, snap) {
      SnapSurvivesAppend(s.log, cmd, snap);
    }
    forall x | x in t.pending ensures OwnerPlaced(c, t, x) {
      assert OwnerPlaced(c, s, x);
      if w == Some(x) {
        InLogIsPlaced(t.log, t.tags, pending[x], s.replicas[c.owner[x]].applied, |s.log|);
      } else {
        PlacedSurvivesAppend(s.log, s.tags, s.pending[x], s.replicas[c.owner[x]].applied, cmd, tag);
      }
    }
  }

  lemma InLogIsPlaced(log: seq<Command>, tags: seq<nat>, p: Pending, applied: nat, k: nat)
    requires PlacedAt(log, tags, p, k) && p.phase == InLog
    ensures PendingPlaced(log, tags, p, applied)
  {
  }

  lemma SentIsNew(log: seq<Command>, tags: seq<nat>, p: Pending, applied: nat)
    requires PendingPlaced(log, tags, p, applied) && p.phase == Sent
    ensures p.tag !in tags
  {
  }

  lemma CommitAllRuns(c: Config, s: System, w: string)
    requires AllRunsInv(c, s) && Enabled(c, s, Commit(w))
    ensures AllRunsInv(c, Next(c, s, Commit(w)))
  {
    hide Follows, SnapOk, PendingPlaced;
    var p, t := s.pending[w], Next(c, s, Commit(w));
    assert OwnerPlaced(c, s, w);
    SentIsNew(s.log, s.tags, p, s.replicas[c.owner[w]].applied);
    AppendAllRuns(c, s, p.cmd, p.tag, t.pending, Some(w));
  }

  lemma CommitOtherAllRuns(c: Config, s: System, cmd: Command, tag: nat)
    requires AllRunsInv(c, s) && Enabled(c, s, CommitOther(cmd, tag))
    ensures AllRunsInv(c, Next(c, s, CommitOther(cmd, tag)))
  {
    hide Follows, SnapOk, OwnerPlaced;
    AppendAllRuns(c, s, cmd, tag, s.pending, None);
  }

  /** One replica moves forward, the log and the operations stay. */
  lemma ReplicaMoves(c: Config, s: System, node: nat, r: Replica, pending: map<string, Pending>)
    requires AllRunsInv(c, s) && node in s.replicas && Follows(s.log, r)
    requires pending.Keys <= s.pending.Keys
    requires forall w :: w in pending ==> pending[w].tag == s.pending[w].tag && pending[w].cmd == s.pending[w].cmd
    requires forall w :: w in pending && w in c.owner && c.owner[w] != node ==> pending[w] == s.pending[w]
    requires forall w :: w in pending && w in c.owner && c.owner[w] == node ==>
        PendingPlaced(s.log, s.tags, pending[w], r.applied)
    ensures AllRunsInv(c, SetReplica(s, node, r).(pending := pending))
  {
    hide Follows, SnapOk, PendingPlaced, Touches, LoggedOk;
    var t := SetReplica(s, node, r).(pending := pending);
    forall w | w in t.pending ensures OwnerPlaced(c, t, w) {
      assert OwnerPlaced(c, s, w);
    }
  }

  lemma ApplyAllRuns(c: Config, s: System, node: nat)
    requires AllRunsInv(c, s) && Enabled(c, s, ApplyNext(node))
    ensures AllRunsInv(c, Next(c, s, ApplyNext(node)))
  {
    hide Follows, SnapOk, PendingPlaced, Apply, LogOk;
    var r, t := s.replicas[node], Next(c, s, ApplyNext(node));
    ApplyFollows(s.log, r);
    TagsDiffer(c, s);
    forall w | w in t.pending && w in c.owner && c.owner[w] == node
      ensures PendingPlaced(s.log, s.tags, t.pending[w], r.applied + 1)
    {
      assert OwnerPlaced(c, s, w);
      PlacedSurvivesApply(s.log, s.tags, s.pending[w], r.applied, w);
    }
    ReplicaMoves(c, s, node, t.replicas[node], t.pending);
  }

  lemma TagsDiffer(c: Config, s: System)
    requires LogOk(c, s)
    ensures |s.tags| == |s.log| && forall i, j :: 0 <= i < j < |s.tags| ==> s.tags[i] != s.tags[j]
  {
  }

  /** A replica that changes what it queues or has handed out, not how far it has applied. */
  lemma ReaderMoves(c: Config, s: System, node: nat, r: Replica, pending: map<string, Pending>)
    requires AllRunsInv(c, s) && node in s.replicas && Follows(s.log, r) && r.applied == s.replicas[node].applied
    requires pending.Keys <= s.pending.Keys && forall w :: w in pending ==> pending[w] == s.pending[w]
    ensures AllRunsInv(c, SetReplica(s, node, r).(pending := pending))
  {
    hide Follows, SnapOk, PendingPlaced, LogOk;
    forall w | w in pending && w in c.owner && c.owner[w] == node
      ensures PendingPlaced(s.log, s.tags, pending[w], r.applied)
    {
      assert OwnerPlaced(c, s, w);
    }
    ReplicaMoves(c, s, node, r, pending);
  }

  lemma DequeueAllRuns(c: Config, s: System, node: nat, w: string, key: string)
    requires AllRunsInv(c, s) && Enabled(c, s, Dequeue(node, w, key))
    ensures AllRunsInv(c, Next(c, s, Dequeue(node, w, key)))
  {
    hide Follows, SnapOk, OwnerPlaced, LogOk, MakeQueueKey, Epoch, Record, Pop;
    var t := Next(c, s, Dequeue(node, w, key));
    PopFollows(s.log, s.replicas[node], MakeQueueKey(w, key));
    ReaderMoves(c, s, node, t.replicas[node], s.pending);
  }

  lemma ReturnAllRuns(c: Config, s: System, w: string)
    requires AllRunsInv(c, s) && Enabled(c, s, Return(w))
    ensures AllRunsInv(c, Next(c, s, Return(w)))
  {
    hide Follows, SnapOk, OwnerPlaced, LogOk, MakeQueueKey, Epoch, Record, Pop;
    var t, p, node := Next(c, s, Return(w)), s.pending[w], c.owner[w];
    if p.cmd.SetCheckpoint? {
      PopFollows(s.log, s.replicas[node], MakeQueueKey(w, p.cmd.key));
    }
    assert s.replicas[node := s.replicas[node]] == s.replicas;
    ReaderMoves(c, s, node, t.replicas[node], t.pending);
  }

  lemma AbandonAllRuns(c: Config, s: System, w: string)
    requires AllRunsInv(c, s) && Enabled(c, s, Abandon(w))
    ensures AllRunsInv(c, Next(c, s, Abandon(w)))
  {
    hide Follows, SnapOk, PendingPlaced, LogOk;
    var t := Next(c, s, Abandon(w));
    assert OwnerPlaced(c, s, w);
    if s.pending[w].phase == Sent {
      SentIsNew(s.log, s.tags, s.pending[w], s.replicas[c.owner[w]].applied);
    }
    AbandonLogOk(c, s, w);
    forall x | x in t.pending ensures OwnerPlaced(c, t, x) {
      assert OwnerPlaced(c, s, x);
    }
  }

  lemma CommitLateAllRuns(c: Config, s: System, tag: nat)
    requires AllRunsInv(c, s) && Enabled(c, s, CommitLate(tag))
    ensures AllRunsInv(c, Next(c, s, CommitLate(tag)))
  {
    hide Follows, SnapOk, PendingPlaced;
    var rest := s.(lost := s.lost - {tag});
    forall x | x in rest.pending ensures OwnerPlaced(c, rest, x) {
      assert OwnerPlaced(c, s, x);
    }
    AppendAllRuns(c, rest, s.lost[tag], tag, s.pending, None);
  }

  lemma EventReturnAllRuns(c: Config, s: System, node: nat, i: nat)
    requires AllRunsInv(c, s) && Enabled(c, s, EventReturn(node, i))
    ensures AllRunsInv(c, Next(c, s, EventReturn(node, i)))
  {
    hide SnapOk, OwnerPlaced, LogOk, Queued, Replay, MakeQueueKey, Epoch, Record;
    var t := Next(c, s, EventReturn(node, i));
    assert Follows(s.log, s.replicas[node]);
    ReaderMoves(c, s, node, t.replicas[node], s.pending);
  }

  lemma InstallAllRuns(c: Config, s: System, node: nat, snap: Snap)
    requires AllRunsInv(c, s) && Enabled(c, s, Install(node, snap))
    ensures AllRunsInv(c, Next(c, s, Install(node, snap)))
  {
    hide Follows, SnapOk, PendingPlaced, LogOk;
    var r, t := s.replicas[node], Next(c, s, Install(node, snap));
    InstallFollows(s.log, r, snap);
    forall w | w in s.pending && w in c.owner && c.owner[w] == node
      ensures PendingPlaced(s.log, s.tags, s.pending[w], snap.index)
    {
      assert OwnerPlaced(c, s, w);
      PlacedSurvivesAdvance(s.log, s.tags, s.pending[w], r.applied, snap.index);
    }
    ReplicaMoves(c, s, node, t.replicas[node], s.pending);
  }

  lemma TakeSnapAllRuns(c: Config, s: System, node: nat)
    requires AllRunsInv(c, s) && Enabled(c, s, TakeSnap(node))
    ensures AllRunsInv(c, Next(c, s, TakeSnap(node)))
  {
    hide OwnerPlaced, LogOk, Queued, Replay;
    assert Follows(s.log, s.replicas[node]);
    var t := Next(c, s, TakeSnap(node));
    forall w | w in t.pending ensures OwnerPlaced(c, t, w) {
      SameOwnerPlaced(c, s, t, w);
    }
    SameLogOk(c, s, t);
  }

  lemma SameOwnerPlaced(c: Config, s: System, t: System, w: string)
    requires w in s.pending && OwnerPlaced(c, s, w) && t == s.(snaps := t.snaps)
    ensures OwnerPlaced(c, t, w)
  {
  }

  lemma SameLogOk(c: Config, s: System, t: System)
    requires LogOk(c, s) && t == s.(snaps := t.snaps)
    ensures LogOk(c, t)
  {
  }

  lemma BeginAllRuns(c: Config, s: System, node: nat, cmd: Command, tag: nat)
    requires ValidConfig(c) && AllRunsInv(c, s) && Enabled(c, s, Begin(node, cmd, tag))
    ensures AllRunsInv(c, Next(c, s, Begin(node, cmd, tag)))
  {
    hide Follows, SnapOk, MakeQueueKey, IsWorkflowOwner;
    var t := Next(c, s, Begin(node, cmd, tag));
    forall w | w in t.pending ensures OwnerPlaced(c, t, w) {
      assert w != cmd.workflow ==> OwnerPlaced(c, s, w);
    }
  }

  lemma StepAllRuns(c: Config, s: System, step: Step)
    requires ValidConfig(c) && AllRunsInv(c, s) && Enabled(c, s, step)
    ensures AllRunsInv(c, Next(c, s, step))
  {
    hide AllRunsInv, Enabled, Next, ValidConfig;
    match step
    case Begin(node, cmd, tag) => BeginAllRuns(c, s, node, cmd, tag);
    case Commit(w) => CommitAllRuns(c, s, w);
    case CommitOther(cmd, tag) => CommitOtherAllRuns(c, s, cmd, tag);
    case ApplyNext(node) => ApplyAllRuns(c, s, node);
    case Dequeue(node, w, key) => DequeueAllRuns(c, s, node, w, key);
    case Return(w) => ReturnAllRuns(c, s, w);
    case Abandon(w) => AbandonAllRuns(c, s, w);
    case CommitLate(tag) => CommitLateAllRuns(c, s, tag);
    case EventReturn(node, i) => EventReturnAllRuns(c, s, node, i);
    case TakeSnap(node) => TakeSnapAllRuns(c, s, node);
    case Install(node, snap) => InstallAllRuns(c, s, node, snap);
  }

  lemma {:induction false} AllRunsKeep(c: Config, steps: seq<Step>, states: seq<System>, i: nat)
    requires ValidConfig(c) && IsRun(c, steps, states) && i < |states|
    ensures AllRunsInv(c, states[i])
  {
    hide AllRunsInv, ValidConfig, Enabled, Next;
    if i == 0 {
      StartAllRuns(c);
    } else {
      AllRunsKeep(c, steps, states, i - 1);
      StepAllRuns(c, states[i - 1], steps[i - 1]);
    }
  }
}
