/** Where the front of a queue stands in the committed sequence, followed over a run: what an install
    does to it, and which entry the owner's pop takes out when its operation returns. */
module QueueFronts {
  import opened CheckpointKeys
  import opened WorkflowState
  import opened CheckpointProtocol
  import opened CheckpointAgreement
  import opened CheckpointPositions
  import opened CheckpointCalls

  /** The position of the front of a queue among the current values; their number if the queue is empty. */
  ghost function FrontAt(s: System, node: nat, flat: string): int
    requires node in s.replicas && s.replicas[node].applied <= |s.log|
  {
    var r := s.replicas[node];
    |CurrentValues(s.log[..r.applied], flat)| - |Values(r.sm.queues, flat)|
  }

  ghost function EpochOf(s: System, node: nat, flat: string): nat
    requires node in s.replicas && s.replicas[node].applied <= |s.log|
  {
    Epoch(s.log[..s.replicas[node].applied], flat)
  }

  /** The step takes a value out of the node's queue for the key. */
  predicate PopsKey(c: Config, s: System, step: Step, node: nat, flat: string)
    requires Enabled(c, s, step)
  {
    match step
    case Dequeue(n, w, key) => n == node && MakeQueueKey(w, key) == flat
    case Return(w) =>
      c.owner[w] == node && s.pending[w].cmd.SetCheckpoint? && MakeQueueKey(w, s.pending[w].cmd.key) == flat
    case _ => false
  }

  lemma ReplicaIsThere(c: Config, s: System, node: nat)
    requires AllRunsInv(c, s) && node in c.nodes
    ensures node in s.replicas && Follows(s.log, s.replicas[node]) && s.replicas[node].applied <= |s.log|
  {
    hide LogOk, OwnerPlaced, SnapOk, Queued;
    assert Follows(s.log, s.replicas[node]);
  }

  // ----- One step -----

  lemma ApplyMovesFront(now: seq<Command>, cmd: Command, sm: State, flat: string)
    ensures |CurrentValues(now + [cmd], flat)| - |Values(Apply(sm, cmd).queues, flat)|
            == if IsSweep(cmd, flat) then 0 else |CurrentValues(now, flat)| - |Values(sm.queues, flat)|
    ensures Epoch(now + [cmd], flat) == Epoch(now, flat) + if IsSweep(cmd, flat) then 1 else 0
  {
    hide Committed, Epoch, Replay;
    ExtendLog(now, cmd, flat, Epoch(now + [cmd], flat));
    if IsSweep(cmd, flat) {
      FutureEpochsAreEmpty(now, flat, Epoch(now, flat) + 1);
    }
  }

  lemma ApplyFront(c: Config, s: System, n: nat, node: nat, flat: string)
    requires Enabled(c, s, ApplyNext(n)) && node in s.replicas && s.replicas[node].applied <= |s.log|
    ensures var t := Next(c, s, ApplyNext(n));
            && node in t.replicas && t.replicas[node].applied <= |t.log|
            && EpochOf(s, node, flat) <= EpochOf(t, node, flat)
            && FrontAt(t, node, flat)
                == if EpochOf(t, node, flat) == EpochOf(s, node, flat) then FrontAt(s, node, flat) else 0
  {
    hide Committed, Epoch, CurrentValues, Apply;
    if n == node {
      var r := s.replicas[node];
      assert s.log[..r.applied + 1] == s.log[..r.applied] + [s.log[r.applied]];
      ApplyMovesFront(s.log[..r.applied], s.log[r.applied], r.sm, flat);
    }
  }

  lemma InstallFront(c: Config, s: System, n: nat, snap: Snap, node: nat, flat: string)
    requires AllRunsInv(c, s) && Enabled(c, s, Install(n, snap)) && node in s.replicas
    requires s.replicas[node].applied <= |s.log|
    ensures var t := Next(c, s, Install(n, snap));
            && node in t.replicas && t.replicas[node].applied <= |t.log|
            && EpochOf(s, node, flat) <= EpochOf(t, node, flat)
            && FrontAt(t, node, flat) == (if n == node then 0 else FrontAt(s, node, flat))
            && (n != node ==> EpochOf(t, node, flat) == EpochOf(s, node, flat))
  {
    hide Committed, Epoch, CurrentValues, LogOk, OwnerPlaced, Follows, SnapOk;
    if n == node {
      InstallFollows(s.log, s.replicas[node], snap);
      var now := s.log[..snap.index];
      assert now[..s.replicas[node].applied] == s.log[..s.replicas[node].applied];
      CommittedGrows(now, s.replicas[node].applied, flat, 0);
    }
  }

  /** Popping another key, or anything that does not touch the replica's queues and position. */
  lemma OtherFront(c: Config, s: System, step: Step, node: nat, flat: string)
    requires Enabled(c, s, step) && !PopsKey(c, s, step, node, flat) && node in s.replicas
    requires s.replicas[node].applied <= |s.log|
    requires !step.ApplyNext? && !step.Install?
    ensures var t := Next(c, s, step);
            && node in t.replicas && t.replicas[node].applied <= |t.log|
            && EpochOf(t, node, flat) == EpochOf(s, node, flat) && FrontAt(t, node, flat) == FrontAt(s, node, flat)
  {
    hide Committed, Epoch, CurrentValues, MakeQueueKey, IsWorkflowOwner, Benign, IndexOf, Record;
    var t := Next(c, s, step);
    assert t.log[..s.replicas[node].applied] == s.log[..s.replicas[node].applied];
  }

  /** A step that does not pop the key leaves the front where it is, unless the epoch changes or the
      node installs a snapshot: then the front is at 0. */
  lemma FrontStep(c: Config, s: System, step: Step, node: nat, flat: string)
    requires AllRunsInv(c, s) && node in c.nodes && Enabled(c, s, step) && !PopsKey(c, s, step, node, flat)
    ensures node in s.replicas && s.replicas[node].applied <= |s.log|
    ensures var t := Next(c, s, step);
            && node in t.replicas && t.replicas[node].applied <= |t.log|
            && EpochOf(s, node, flat) <= EpochOf(t, node, flat)
            && FrontAt(t, node, flat)
               == if step.Install? && step.node == node then 0
                  else if EpochOf(t, node, flat) == EpochOf(s, node, flat) then FrontAt(s, node, flat) else 0
  {
    hide AllRunsInv, Enabled, Next, FrontAt, EpochOf, PopsKey;
    ReplicaIsThere(c, s, node);
    match step
    case ApplyNext(n) => ApplyFront(c, s, n, node, flat);
    case Install(n, snap) => InstallFront(c, s, n, snap, node, flat);
    case _ => OtherFront(c, s, step, node, flat);
  }

  // ----- Stretches of a run -----

  /** No step in [i, j) takes a value out of the node's queue for the key. */
  ghost predicate Undisturbed(c: Config, steps: seq<Step>, states: seq<System>, node: nat, flat: string, i: nat, j: nat)
    requires IsRun(c, steps, states) && j <= |steps|
  {
    forall x: nat :: i <= x < j ==> !PopsKey(c, states[x], steps[x], node, flat)
  }

  /** A front at 0 stays there. */
  lemma {:induction false} FrontStaysFirst(
    c: Config, steps: seq<Step>, states: seq<System>, node: nat, flat: string, i: nat, j: nat)
    requires ValidConfig(c) && IsRun(c, steps, states) && i <= j <= |steps| && node in c.nodes
    requires Undisturbed(c, steps, states, node, flat, i, j)
    requires node in states[i].replicas && states[i].replicas[node].applied <= |states[i].log|
    requires FrontAt(states[i], node, flat) == 0
    ensures node in states[j].replicas && states[j].replicas[node].applied <= |states[j].log|
    ensures FrontAt(states[j], node, flat) == 0
  {
    hide AllRunsInv, ValidConfig, Enabled, Next, FrontAt, PopsKey, EpochOf;
    if i < j {
      FrontStaysFirst(c, steps, states, node, flat, i, j - 1);
      AllRunsKeep(c, steps, states, j - 1);
      FrontStep(c, states[j - 1], steps[j - 1], node, flat);
    }
  }

  /** Without installs at the node the front stays where it was while the epoch lasts. */
  lemma {:induction false} FrontStays(
    c: Config, steps: seq<Step>, states: seq<System>, node: nat, flat: string, i: nat, j: nat)
    requires ValidConfig(c) && IsRun(c, steps, states) && i <= j <= |steps| && node in c.nodes
    requires Undisturbed(c, steps, states, node, flat, i, j)
    requires forall x :: i <= x < j ==> !(steps[x].Install? && steps[x].node == node)
    ensures node in states[i].replicas && states[i].replicas[node].applied <= |states[i].log|
    ensures node in states[j].replicas && states[j].replicas[node].applied <= |states[j].log|
    ensures EpochOf(states[i], node, flat) <= EpochOf(states[j], node, flat)
    ensures FrontAt(states[j], node, flat)
            == if EpochOf(states[j], node, flat) == EpochOf(states[i], node, flat)
               then FrontAt(states[i], node, flat) else 0
  {
    hide AllRunsInv, ValidConfig, Enabled, Next, FrontAt, PopsKey, EpochOf;
    if i < j {
      FrontStays(c, steps, states, node, flat, i, j - 1);
      AllRunsKeep(c, steps, states, j - 1);
      FrontStep(c, states[j - 1], steps[j - 1], node, flat);
    } else {
      AllRunsKeep(c, steps, states, i);
      ReplicaIsThere(c, states[i], node);
    }
  }

  // ----- After an install -----

  /** After an install at a node, the first pop of a key by a dequeue starts over, whatever steps that do
      not pop the key lie in between: it returns the first value of the epoch current at the dequeue. It
      is in place if and only if the node had not called for the key in that epoch. */
  lemma InstallStartsOver(
    c: Config, steps: seq<Step>, states: seq<System>, i: nat, j: nat, node: nat, w: string, key: string)
    requires ValidConfig(c) && IsRun(c, steps, states) && i < j < |steps| && node in c.nodes
    requires steps[i].Install? && steps[i].node == node && steps[j] == Dequeue(node, w, key)
    requires Undisturbed(c, steps, states, node, MakeQueueKey(w, key), i + 1, j)
    ensures node in states[j].replicas && states[j].replicas[node].applied <= |states[j].log|
    ensures var slot := Slot(MakeQueueKey(w, key), EpochOf(states[j], node, MakeQueueKey(w, key)));
            var x, r := CallOf(c, states[j], steps[j], node, slot), states[j].replicas[node];
            && x.Some? && x.value.position == 0
            && (x.value.position == CallsMade(r, slot) <==> At(r.taken, slot) == [] && At(r.seen, slot) == [])
  {
    var flat := MakeQueueKey(w, key);
    hide AllRunsInv, ValidConfig, Next, MakeQueueKey, PopsKey, Undisturbed;
    AllRunsKeep(c, steps, states, i);
    assert Enabled(c, states[i], steps[i]) && Enabled(c, states[j], steps[j]);
    InstallIsNoPop(c, states[i], steps[i], node, flat);
    FrontStep(c, states[i], steps[i], node, flat);
    FrontStaysFirst(c, steps, states, node, flat, i + 1, j);
    hide Committed, Epoch, CurrentValues, IsRun;
    DequeuePosition(c, states[j], node, w, key);
  }

  lemma InstallIsNoPop(c: Config, s: System, step: Step, node: nat, flat: string)
    requires Enabled(c, s, step) && step.Install?
    ensures !PopsKey(c, s, step, node, flat)
  {
  }

  lemma DequeuePosition(c: Config, s: System, node: nat, w: string, key: string)
    requires Enabled(c, s, Dequeue(node, w, key))
    ensures var flat := MakeQueueKey(w, key);
            var x := CallOf(c, s, Dequeue(node, w, key), node, Slot(flat, EpochOf(s, node, flat)));
            x.Some? && x.value.position == FrontAt(s, node, flat)
  {
  }

  // ----- The owner's pop -----

  /** The owner's operation with this id is outstanding from its begin at step i to its return at step j,
      and its node installs nothing in between. */
  ghost predicate Operation(c: Config, steps: seq<Step>, states: seq<System>, i: nat, j: nat)
    requires IsRun(c, steps, states)
  {
    && i < j < |steps|
    && steps[i].Begin? && steps[i].cmd.SetCheckpoint? && steps[j] == Return(steps[i].cmd.workflow)
    && (forall x :: i < x <= j ==>
          steps[i].cmd.workflow in states[x].pending && states[x].pending[steps[i].cmd.workflow].tag == steps[i].tag
          && states[x].pending[steps[i].cmd.workflow].cmd == steps[i].cmd)
    && forall x :: i <= x < j ==> !(steps[x].Install? && steps[x].node == steps[i].node)
  }

  lemma BeginsAtTheOwner(c: Config, s: System, node: nat, cmd: Command, tag: nat)
    requires ValidConfig(c) && AllRunsInv(c, s) && Enabled(c, s, Begin(node, cmd, tag))
    ensures cmd.workflow in c.owner && node == c.owner[cmd.workflow] && node in c.nodes
  {
    hide LogOk, OwnerPlaced, SnapOk, Follows, MakeQueueKey;
    OnlyTheOwnerIsRegistered(c, s, node, cmd.workflow);
  }

  /** While an operation of w is outstanding, no step but its return pops a key of w at the owner. */
  lemma OutstandingMeansNoPop(c: Config, s: System, step: Step, w: string, key: string)
    requires ValidConfig(c) && AllRunsInv(c, s) && Enabled(c, s, step) && w in c.owner && w in s.pending
    requires step != Return(w)
    ensures !PopsKey(c, s, step, c.owner[w], MakeQueueKey(w, key))
  {
    hide MakeQueueKey, AllRunsInv;
    match step
    case Dequeue(n, x, k) => FlatKeysAreFaithful(x, k, w, key);
    case Return(x) =>
      FlatKeysAreFaithful(x, if s.pending[x].cmd.SetCheckpoint? then s.pending[x].cmd.key else "", w, key);
    case _ =>
  }

  lemma BeginIsNoPop(c: Config, s: System, step: Step, node: nat, flat: string)
    requires Enabled(c, s, step) && step.Begin?
    ensures !PopsKey(c, s, step, node, flat)
  {
  }

  lemma OperationIsUndisturbed(c: Config, steps: seq<Step>, states: seq<System>, i: nat, j: nat)
    requires ValidConfig(c) && IsRun(c, steps, states) && Operation(c, steps, states, i, j)
    ensures var cmd := steps[i].cmd;
            && cmd.workflow in c.owner && c.owner[cmd.workflow] == steps[i].node && steps[i].node in c.nodes
            && Undisturbed(c, steps, states, steps[i].node, MakeQueueKey(cmd.workflow, cmd.key), i, j)
  {
    hide AllRunsInv, ValidConfig, Enabled, Next, MakeQueueKey, PopsKey;
    var cmd, node := steps[i].cmd, steps[i].node;
    AllRunsKeep(c, steps, states, i);
    BeginsAtTheOwner(c, states[i], node, cmd, steps[i].tag);
    forall x: nat | i <= x < j ensures !PopsKey(c, states[x], steps[x], node, MakeQueueKey(cmd.workflow, cmd.key)) {
      assert Enabled(c, states[x], steps[x]);
      if x == i {
        BeginIsNoPop(c, states[x], steps[x], node, MakeQueueKey(cmd.workflow, cmd.key));
      } else {
        AllRunsKeep(c, steps, states, x);
        assert cmd.workflow in states[x + 1].pending;
        NotReturned(c, states[x], steps[x], cmd.workflow);
        OutstandingMeansNoPop(c, states[x], steps[x], cmd.workflow, cmd.key);
      }
    }
  }

  lemma NotReturned(c: Config, s: System, step: Step, w: string)
    requires Enabled(c, s, step) && w in Next(c, s, step).pending
    ensures step != Return(w)
  {
    hide MakeQueueKey, Epoch, IndexOf, Record, Pop;
  }

  /** When the operation began, its queue was empty: the front stood behind everything applied then. */
  lemma FrontAtReturn(c: Config, steps: seq<Step>, states: seq<System>, i: nat, j: nat)
    requires ValidConfig(c) && IsRun(c, steps, states) && Operation(c, steps, states, i, j)
    ensures var cmd, node := steps[i].cmd, steps[i].node;
            var flat := MakeQueueKey(cmd.workflow, cmd.key);
            && node in states[i].replicas && states[i].replicas[node].applied <= |states[j].log|
            && node in states[j].replicas && states[j].replicas[node].applied <= |states[j].log|
            && FrontAt(states[j], node, flat)
               == Before(states[j].log, states[i].replicas[node].applied, Slot(flat, EpochOf(states[j], node, flat)))
  {
    var cmd, node := steps[i].cmd, steps[i].node;
    var flat := MakeQueueKey(cmd.workflow, cmd.key);
    OperationIsUndisturbed(c, steps, states, i, j);
    hide AllRunsInv, ValidConfig, Next, MakeQueueKey, PopsKey, Undisturbed, Committed, Epoch;
    FrontStays(c, steps, states, node, flat, i, j);
    LogOnlyGrows(c, steps, states, i, j);
    var a := states[i].replicas[node].applied;
    assert states[j].log[..a] == states[i].log[..a];
    assert Enabled(c, states[i], steps[i]);
    if EpochOf(states[j], node, flat) > EpochOf(states[i], node, flat) {
      FutureEpochsAreEmpty(states[i].log[..a], flat, EpochOf(states[j], node, flat));
    }
  }

  /** No value of the slot is set between two positions of the log. */
  ghost predicate NothingSet(log: seq<Command>, a: nat, b: nat, slot: Slot)
    requires b <= |log|
  {
    forall x: nat :: a <= x < b && IsSet(log[x], slot.flat) ==> Epoch(log[..x], slot.flat) != slot.epoch
  }

  lemma {:induction false} NothingSetExactly(log: seq<Command>, a: nat, b: nat, slot: Slot)
    requires a <= b <= |log|
    ensures Before(log, a, slot) <= Before(log, b, slot)
    ensures Before(log, a, slot) == Before(log, b, slot) <==> NothingSet(log, a, b, slot)
  {
    if a < b {
      hide Committed, Epoch, IsSet, Before;
      NothingSetExactly(log, a, b - 1, slot);
      OneEntryLater(log, b - 1, slot);
    }
  }

  lemma OneEntryLater(log: seq<Command>, i: nat, slot: Slot)
    requires i < |log|
    ensures Before(log, i + 1, slot)
            == Before(log, i, slot)
               + if IsSet(log[i], slot.flat) && Epoch(log[..i], slot.flat) == slot.epoch then 1 else 0
  {
    hide Committed, Epoch, IsSet;
    assert log[..i + 1] == log[..i] + [log[i]];
    ExtendLog(log[..i], log[i], slot.flat, slot.epoch);
  }

  /** The front of the owner's queue is the entry of its own operation. */
  ghost predicate OwnIsFront(c: Config, s: System, w: string)
    requires Enabled(c, s, Return(w)) && s.pending[w].cmd.SetCheckpoint?
  {
    var flat, k := MakeQueueKey(w, s.pending[w].cmd.key), IndexOf(s.tags, s.pending[w].tag);
    var e := Epoch(s.log[..k], flat);
    e == EpochOf(s, c.owner[w], flat) && FrontAt(s, c.owner[w], flat) == Before(s.log, k, Slot(flat, e))
  }

  /** In one state: if the front stands where it stood after `a` entries, it is the own entry exactly if
      nothing of the entry's epoch was set in between, and the epoch lasts. */
  lemma OwnIsFrontWhen(c: Config, s: System, w: string, a: nat, k: nat)
    requires Enabled(c, s, Return(w)) && s.pending[w].cmd.SetCheckpoint? && k == IndexOf(s.tags, s.pending[w].tag)
    requires a <= k <= |s.log|
    requires var flat := MakeQueueKey(w, s.pending[w].cmd.key);
             FrontAt(s, c.owner[w], flat) == Before(s.log, a, Slot(flat, EpochOf(s, c.owner[w], flat)))
    ensures var flat := MakeQueueKey(w, s.pending[w].cmd.key);
            var e := Epoch(s.log[..k], flat);
            OwnIsFront(c, s, w) <==> e == EpochOf(s, c.owner[w], flat) && NothingSet(s.log, a, k, Slot(flat, e))
  {
    hide MakeQueueKey, Committed, Epoch, FrontAt, EpochOf, IndexOf, Before, NothingSet;
    var flat := MakeQueueKey(w, s.pending[w].cmd.key);
    NothingSetExactly(s.log, a, k, Slot(flat, Epoch(s.log[..k], flat)));
  }

  /** What is known of an operation when it returns. */
  lemma OperationReturns(c: Config, steps: seq<Step>, states: seq<System>, i: nat, j: nat) returns (k: nat)
    requires ValidConfig(c) && IsRun(c, steps, states) && Operation(c, steps, states, i, j)
    ensures var s, w := states[j], steps[i].cmd.workflow;
            && Enabled(c, s, Return(w)) && w in c.owner && c.owner[w] == steps[i].node
            && s.pending[w].cmd == steps[i].cmd && s.pending[w].tag == steps[i].tag
            && k == IndexOf(s.tags, steps[i].tag) && k < |s.log| && s.log[k] == steps[i].cmd
            && steps[i].node in states[i].replicas && states[i].replicas[steps[i].node].applied <= k
  {
    hide IsRun, Operation, AllRunsInv, ValidConfig, Enabled, MakeQueueKey, Undisturbed, IndexOf;
    OperationIsUndisturbed(c, steps, states, i, j);
    OperationHolds(c, steps, states, i, j);
    AllRunsKeep(c, steps, states, j);
    ReturnIsDone(c, states[j], steps[i].cmd.workflow);
    k := DonePlace(c, states[j], steps[i].cmd.workflow);
    EntryComesAfterBegin(c, steps, states, i, j, k);
  }

  lemma ReturnIsDone(c: Config, s: System, w: string)
    requires Enabled(c, s, Return(w))
    ensures w in s.pending && s.pending[w].phase == Done && |s.tags| == |s.log|
  {
  }

  /** On all runs: the pop of a returning operation takes out the operation's own entry if and only if the
      key was not swept since that entry and no value of its epoch was committed between what the owner
      had applied when the operation began and the entry. */
  lemma ReturnPopsOwnExactly(c: Config, steps: seq<Step>, states: seq<System>, i: nat, j: nat)
    requires ValidConfig(c) && IsRun(c, steps, states) && Operation(c, steps, states, i, j)
    ensures var s, w, node := states[j], steps[i].cmd.workflow, steps[i].node;
            var flat, k := MakeQueueKey(w, steps[i].cmd.key), IndexOf(s.tags, steps[i].tag);
            && Enabled(c, s, Return(w)) && s.pending[w].cmd == steps[i].cmd && w in c.owner && c.owner[w] == node
            && k < |s.log| && s.log[k] == steps[i].cmd
            && node in states[i].replicas && node in s.replicas && s.replicas[node].applied <= |s.log|
            && var e, a := Epoch(s.log[..k], flat), states[i].replicas[node].applied;
               OwnIsFront(c, s, w) <==> e == EpochOf(s, node, flat) && NothingSet(s.log, a, k, Slot(flat, e))
  {
    hide ValidConfig, IsRun, Operation, MakeQueueKey, Committed, Epoch, FrontAt, EpochOf, IndexOf, Before, NothingSet;
    hide OwnIsFront;
    var k := OperationReturns(c, steps, states, i, j);
    FrontAtReturn(c, steps, states, i, j);
    OperationHolds(c, steps, states, i, j);
    OwnIsFrontWhen(c, states[j], steps[i].cmd.workflow, states[i].replicas[steps[i].node].applied, k);
  }

  lemma OperationHolds(c: Config, steps: seq<Step>, states: seq<System>, i: nat, j: nat)
    requires IsRun(c, steps, states) && Operation(c, steps, states, i, j)
    ensures i < j < |steps| == |states| - 1 && steps[i].Begin? && steps[i].cmd.SetCheckpoint?
    ensures var s, w := states[j], steps[i].cmd.workflow;
            && Enabled(c, s, Return(w)) && w in s.pending
            && s.pending[w].cmd == steps[i].cmd && s.pending[w].tag == steps[i].tag
  {
    hide Enabled, Next;
    assert Enabled(c, states[j], steps[j]);
  }

  lemma {:induction false} TagsOnlyGrow(c: Config, steps: seq<Step>, states: seq<System>, i: nat, j: nat)
    requires IsRun(c, steps, states) && i <= j < |states|
    ensures states[i].tags <= states[j].tags
  {
    hide Enabled, Next;
    if i < j {
      TagsOnlyGrow(c, steps, states, i, j - 1);
      StepExtendsTags(c, states[j - 1], steps[j - 1]);
    }
  }

  lemma StepExtendsTags(c: Config, s: System, step: Step)
    requires Enabled(c, s, step)
    ensures s.tags <= Next(c, s, step).tags
  {
    hide Enabled, MakeQueueKey, Epoch, Apply, Pop;
  }

  /** The entry of an operation stands behind everything applied when the operation began. */
  lemma EntryComesAfterBegin(c: Config, steps: seq<Step>, states: seq<System>, i: nat, j: nat, k: nat)
    requires ValidConfig(c) && IsRun(c, steps, states) && i <= j < |steps| && steps[i].Begin?
    requires k < |states[j].tags| && states[j].tags[k] == steps[i].tag
    ensures steps[i].node in states[i].replicas && states[i].replicas[steps[i].node].applied <= k
  {
    hide ValidConfig, Next, AllRunsInv, Enabled;
    AllRunsKeep(c, steps, states, i);
    TagsOnlyGrow(c, steps, states, i, j);
    NewTag(c, states[i], steps[i]);
    assert forall x :: 0 <= x < |states[i].tags| ==> states[i].tags[x] == states[j].tags[x];
  }

  lemma NewTag(c: Config, s: System, step: Step)
    requires AllRunsInv(c, s) && Enabled(c, s, step) && step.Begin?
    ensures step.tag !in s.tags && step.node in s.replicas && s.replicas[step.node].applied <= |s.tags|
  {
    hide OwnerPlaced, SnapOk, Queued, MakeQueueKey, IsWorkflowOwner;
    assert Follows(s.log, s.replicas[step.node]);
  }
}
