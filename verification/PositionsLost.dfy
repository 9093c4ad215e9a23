/** Where positional agreement is lost: the event path of a waiting follower leaves its value in the
    queue and may skip earlier ones, an install in the middle of an execution queues values again that
    were already read, and an operation that fails although its entry is or will be committed shifts
    its owner's queue. */
module PositionsLost {
  import opened Wrappers
  import opened CheckpointKeys
  import opened WorkflowState
  import opened CheckpointProtocol
  import opened CheckpointAgreement

  /** An owner whose two calls returned two values, a follower whose two calls returned the first one twice. */
  ghost predicate ReadTwice(s: System, owner: nat, follower: nat, slot: Slot, v1: Bytes, v2: Bytes) {
    && v1 != v2 && owner in s.replicas && follower in s.replicas
    && At(s.replicas[owner].taken, slot) == [v1, v2]
    && At(s.replicas[follower].seen, slot) == [v1]
    && At(s.replicas[follower].taken, slot) == [v1]
  }

  const W := "w"
  const K := "k"
  const V1: Bytes := [1]
  const V2: Bytes := [2]
  const C: Config := Config(map[W := 1], {1, 2})
  const STARTED: Command := WorkflowStart(W, "t", 1, [], 1)

  const F: string := MakeQueueKey(W, K)
  const S0: Slot := Slot(F, 0)

  ghost predicate Reachable(c: Config, s: System) {
    exists steps, states :: IsOrderlyRun(c, steps, states) && states[|steps|] == s
  }

  lemma Moves(c: Config, s: System, step: Step)
    requires Reachable(c, s) && Enabled(c, s, step) && Orderly(c, s, step)
    ensures Reachable(c, Next(c, s, step))
  {
    hide Enabled, Next, Orderly;
    var steps, states :| IsOrderlyRun(c, steps, states) && states[|steps|] == s;
    var steps1, states1 := steps + [step], states + [Next(c, s, step)];
    assert IsOrderlyRun(c, steps1, states1);
  }

  lemma {:induction false} NoEndNoEpoch(log: seq<Command>, flat: string)
    requires forall i :: 0 <= i < |log| ==> !log[i].WorkflowEnd?
    ensures Epoch(log, flat) == 0
  {
    if log != [] {
      NoEndNoEpoch(log[..|log| - 1], flat);
    }
  }

  /** The owner, replica 1, with nothing outstanding and everything applied and read. */
  ghost predicate OwnerIdle(s: System, read: seq<Bytes>) {
    && s.replicas.Keys == {1, 2} && s.replicas[2] == FRESH && s.pending == map[] && s.lost == map[]
    && |s.tags| == |s.log| && (forall i :: 0 <= i < |s.log| ==> !s.log[i].WorkflowEnd? && s.tags[i] == i)
    && var r := s.replicas[1];
       && r.applied == |s.log| && r.sm.ownership == map[W := 1]
       && Values(r.sm.queues, F) == [] && At(r.taken, S0) == read
  }

  lemma StartIsReachable()
    ensures Reachable(C, Start(C))
  {
    hide Enabled, Next, Orderly;
    assert IsOrderlyRun(C, [], [Start(C)]);
  }

  lemma StartIsLogged() returns (s: System)
    ensures Reachable(C, s) && s == Start(C).(log := [STARTED], tags := [0])
  {
    hide Reachable;
    StartIsReachable();
    Moves(C, Start(C), CommitOther(STARTED, 0));
    s := Next(C, Start(C), CommitOther(STARTED, 0));
    assert [] + [STARTED] == [STARTED];
  }

  lemma OwnerStarts() returns (s: System)
    ensures Reachable(C, s) && OwnerIdle(s, []) && s.log == [STARTED]
  {
    hide Epoch, MakeQueueKey, Committed, Reachable;
    s := StartIsLogged();
    Moves(C, s, ApplyNext(1));
    s := Next(C, s, ApplyNext(1));
  }

  /** The owner with a proposal in the log that it has not applied. */
  ghost predicate OwnerProposed(s: System, read: seq<Bytes>, v: Bytes) {
    && s.replicas.Keys == {1, 2} && s.replicas[2] == FRESH && s.lost == map[]
    && |s.tags| == |s.log| > 0 && (forall i :: 0 <= i < |s.log| ==> !s.log[i].WorkflowEnd? && s.tags[i] == i)
    && s.log[|s.log| - 1] == SetCheckpoint(W, K, v)
    && s.pending == map[W := Pending(|s.log| - 1, SetCheckpoint(W, K, v), InLog)]
    && var r := s.replicas[1];
       && r.applied == |s.log| - 1 && r.sm.ownership == map[W := 1]
       && Values(r.sm.queues, F) == [] && At(r.taken, S0) == read
  }

  lemma OwnerProposes(s: System, read: seq<Bytes>, v: Bytes) returns (t: System)
    requires Reachable(C, s) && OwnerIdle(s, read)
    ensures Reachable(C, t) && OwnerProposed(t, read, v) && t.log == s.log + [SetCheckpoint(W, K, v)]
  {
    hide Epoch, MakeQueueKey, Reachable;
    var cmd, n := SetCheckpoint(W, K, v), |s.log|;
    Moves(C, s, Begin(1, cmd, n));
    t := Next(C, s, Begin(1, cmd, n));
    Moves(C, t, Commit(W));
    t := Next(C, t, Commit(W));
    assert t.log == s.log + [cmd] && t.tags == s.tags + [n];
  }

  /** One complete call of the owner. */
  lemma OwnerCalls(s: System, read: seq<Bytes>, v: Bytes) returns (t: System)
    requires Reachable(C, s) && OwnerIdle(s, read)
    ensures Reachable(C, t) && OwnerIdle(t, read + [v]) && t.log == s.log + [SetCheckpoint(W, K, v)]
  {
    hide Epoch, MakeQueueKey, Reachable, OwnerIdle;
    t := OwnerProposes(s, read, v);
    t := OwnerReturns(t, read, v);
  }

  lemma OwnerReturns(s: System, read: seq<Bytes>, v: Bytes) returns (t: System)
    requires Reachable(C, s) && OwnerProposed(s, read, v)
    ensures Reachable(C, t) && OwnerIdle(t, read + [v]) && t.log == s.log
  {
    hide Epoch, MakeQueueKey, Reachable;
    var n := |s.log| - 1;
    Moves(C, s, ApplyNext(1));
    t := Next(C, s, ApplyNext(1));
    assert t.pending == map[W := Pending(n, SetCheckpoint(W, K, v), Done)];
    assert Values(t.replicas[1].sm.queues, F) == [v];
    NoEndNoEpoch(t.log[..n], F);
    assert IndexOf(t.tags, n) == n;
    Moves(C, t, Return(W));
    t := Next(C, t, Return(W));
  }

  /** Positional agreement is lost on the event path: there is a run in which the owner's two
      calls return two values and the follower's two calls both return the first one. */
  lemma EventPathReadsTwice()
    ensures exists s :: Reachable(C, s) && ReadTwice(s, 1, 2, S0, V1, V2)
  {
    hide Epoch, MakeQueueKey, Reachable;
    var s := OwnerStarts();
    s := OwnerCalls(s, [], V1);
    s := OwnerCalls(s, [V1], V2);
    FollowerReadsTwice(s);
  }

  lemma FollowerReadsTwice(s: System)
    requires Reachable(C, s) && OwnerIdle(s, [V1, V2])
    requires s.log == [STARTED, SetCheckpoint(W, K, V1), SetCheckpoint(W, K, V2)]
    ensures exists t :: Reachable(C, t) && ReadTwice(t, 1, 2, S0, V1, V2)
  {
    hide Epoch, MakeQueueKey, Reachable;
    NoEndNoEpoch(s.log[..1], F);
    NoEndNoEpoch(s.log[..2], F);
    Moves(C, s, ApplyNext(2));
    var t := Next(C, s, ApplyNext(2));
    Moves(C, t, ApplyNext(2));
    t := Next(C, t, ApplyNext(2));
    assert Values(t.replicas[2].sm.queues, F) == [V1];
    Moves(C, t, EventReturn(2, 1));
    t := Next(C, t, EventReturn(2, 1));
    Moves(C, t, Dequeue(2, W, K));
    t := Next(C, t, Dequeue(2, W, K));
    assert ReadTwice(t, 1, 2, S0, V1, V2);
  }

  /** An owner whose two calls returned two values, a follower whose first call returned the second one. */
  ghost predicate SkippedOne(s: System, owner: nat, follower: nat, slot: Slot, v1: Bytes, v2: Bytes) {
    && v1 != v2 && owner in s.replicas && follower in s.replicas
    && At(s.replicas[owner].taken, slot) == [v1, v2]
    && At(s.replicas[follower].seen, slot) == [v2]
    && At(s.replicas[follower].taken, slot) == []
  }

  /** An event can be out of place by itself: a follower that subscribed too late for the first event
      returns the second value from its first call. */
  lemma EventPathSkipsAValue()
    ensures exists s :: Reachable(C, s) && SkippedOne(s, 1, 2, S0, V1, V2)
  {
    hide Epoch, MakeQueueKey, Reachable;
    var s := OwnerStarts();
    s := OwnerCalls(s, [], V1);
    s := OwnerCalls(s, [V1], V2);
    FollowerSkips(s);
  }

  lemma FollowerSkips(s: System)
    requires Reachable(C, s) && OwnerIdle(s, [V1, V2])
    requires s.log == [STARTED, SetCheckpoint(W, K, V1), SetCheckpoint(W, K, V2)]
    ensures exists t :: Reachable(C, t) && SkippedOne(t, 1, 2, S0, V1, V2)
  {
    hide Epoch, MakeQueueKey, Reachable;
    NoEndNoEpoch(s.log[..2], F);
    Moves(C, s, ApplyNext(2));
    var t := Next(C, s, ApplyNext(2));
    Moves(C, t, ApplyNext(2));
    t := Next(C, t, ApplyNext(2));
    Moves(C, t, ApplyNext(2));
    t := Next(C, t, ApplyNext(2));
    Moves(C, t, EventReturn(2, 2));
    t := Next(C, t, EventReturn(2, 2));
    assert SkippedOne(t, 1, 2, S0, V1, V2);
  }

  // ----- Installing into an execution that has read -----

  ghost predicate ReachableAnyhow(c: Config, s: System) {
    exists steps, states :: IsRun(c, steps, states) && states[|steps|] == s
  }

  lemma AnyMove(c: Config, s: System, step: Step)
    requires ReachableAnyhow(c, s) && Enabled(c, s, step)
    ensures ReachableAnyhow(c, Next(c, s, step))
  {
    hide Enabled, Next;
    var steps, states :| IsRun(c, steps, states) && states[|steps|] == s;
    var steps1, states1 := steps + [step], states + [Next(c, s, step)];
    assert IsRun(c, steps1, states1);
  }

  /** An owner whose two calls returned two values, a follower whose two dequeues returned the first one twice. */
  ghost predicate DequeuedTwice(s: System, owner: nat, follower: nat, slot: Slot, v1: Bytes, v2: Bytes) {
    && v1 != v2 && owner in s.replicas && follower in s.replicas
    && At(s.replicas[owner].taken, slot) == [v1, v2]
    && At(s.replicas[follower].taken, slot) == [v1, v1]
  }

  /** A snapshot installed into an execution that has read makes it read again: the follower dequeues
      the first value, installs the owner's snapshot, and dequeues the first value once more. */
  lemma InstallRewindsAReader()
    ensures exists s :: ReachableAnyhow(C, s) && DequeuedTwice(s, 1, 2, S0, V1, V2)
  {
    hide Epoch, MakeQueueKey, Reachable, ReachableAnyhow;
    var s := OwnerStarts();
    s := OwnerCalls(s, [], V1);
    s := OwnerCalls(s, [V1], V2);
    var t := FollowerReadsOne(s);
    FollowerInstalls(t);
  }

  /** The follower has read the first value and is one entry behind. */
  ghost predicate FollowerBehind(s: System) {
    && s.replicas.Keys == {1, 2} && s.pending == map[] && s.lost == map[]
    && s.log == [STARTED, SetCheckpoint(W, K, V1), SetCheckpoint(W, K, V2)] && s.tags == [0, 1, 2]
    && s.replicas[1].applied == 3 && At(s.replicas[1].taken, S0) == [V1, V2]
    && s.replicas[2].applied == 2 && At(s.replicas[2].taken, S0) == [V1]
  }

  lemma FollowerReadsOne(s: System) returns (t: System)
    requires Reachable(C, s) && OwnerIdle(s, [V1, V2])
    requires s.log == [STARTED, SetCheckpoint(W, K, V1), SetCheckpoint(W, K, V2)]
    ensures Reachable(C, t) && FollowerBehind(t)
  {
    hide Epoch, MakeQueueKey, Reachable;
    NoEndNoEpoch(s.log[..2], F);
    Moves(C, s, ApplyNext(2));
    t := Next(C, s, ApplyNext(2));
    Moves(C, t, ApplyNext(2));
    t := Next(C, t, ApplyNext(2));
    assert Values(t.replicas[2].sm.queues, F) == [V1];
    Moves(C, t, Dequeue(2, W, K));
    t := Next(C, t, Dequeue(2, W, K));
  }

  lemma FollowerInstalls(s: System)
    requires Reachable(C, s) && FollowerBehind(s)
    ensures exists t :: ReachableAnyhow(C, t) && DequeuedTwice(t, 1, 2, S0, V1, V2)
  {
    hide Epoch, MakeQueueKey, Apply, Replay, Reachable, ReachableAnyhow;
    OrderlyRunsAreRuns(s);
    NoEndNoEpoch(s.log[..3], F);
    var snap := Snap(3, TakeSnapshot(s.replicas[1].sm));
    AnyMove(C, s, TakeSnap(1));
    var t := Next(C, s, TakeSnap(1));
    AnyMove(C, t, Install(2, snap));
    t := Next(C, t, Install(2, snap));
    assert Values(t.replicas[2].sm.queues, F) == [V1, V2];
    AnyMove(C, t, Dequeue(2, W, K));
    t := Next(C, t, Dequeue(2, W, K));
    assert DequeuedTwice(t, 1, 2, S0, V1, V2);
  }

  lemma OrderlyRunsAreRuns(s: System)
    requires Reachable(C, s) && FollowerBehind(s)
    ensures ReachableAnyhow(C, s) && Values(s.replicas[1].sm.history, F) == [V1, V2]
  {
    hide Inv, Next, Enabled, FollowerBehind;
    var steps, states :| IsOrderlyRun(C, steps, states) && states[|steps|] == s;
    RunInv(C, steps, states, |steps|);
    OwnerHistory(s);
  }

  lemma OwnerHistory(s: System)
    requires Inv(C, s) && FollowerBehind(s)
    ensures Values(s.replicas[1].sm.history, F) == [V1, V2]
  {
    hide Replay, OwnerOk, SnapOk, LogOk, SeenOk, Aligned, OnTrack, MakeQueueKey;
    assert ReplicaOk(s.log, s.replicas[1]);
    assert s.log[..3] == s.log;
    assert TakeSnapshot(s.replicas[1].sm).history == TakeSnapshot(Replay(s.log)).history;
    ReplayedHistory();
  }

  lemma ReplayedHistory()
    ensures Values(Replay([STARTED, SetCheckpoint(W, K, V1), SetCheckpoint(W, K, V2)]).history, F) == [V1, V2]
  {
    hide MakeQueueKey;
    var a, b := [STARTED], [STARTED, SetCheckpoint(W, K, V1)];
    assert a[..0] == [];
    assert Replay(a) == Apply(INITIAL, STARTED);
    assert b[..1] == a;
    assert Replay(b) == Apply(Replay(a), SetCheckpoint(W, K, V1));
    assert [STARTED, SetCheckpoint(W, K, V1), SetCheckpoint(W, K, V2)][..2] == b;
  }

  // ----- Giving up between commit and apply -----

  /** An owner that returned its second value twice, a follower that read both. */
  ghost predicate OwnerShifted(s: System, owner: nat, follower: nat, slot: Slot, v1: Bytes, v2: Bytes) {
    && v1 != v2 && owner in s.replicas && follower in s.replicas
    && At(s.replicas[owner].taken, slot) == [v2, v2]
    && At(s.replicas[follower].taken, slot) == [v1, v2]
  }

  /** When an operation fails although its entry is committed, the entry is still applied: the owner's
      next operation pops that entry's value instead of its own, and its next call dequeues its own
      value again, while a follower reads both values in order. */
  lemma AbandonedEntryShiftsTheOwner()
    ensures exists s :: ReachableAnyhow(C, s) && OwnerShifted(s, 1, 2, S0, V1, V2)
  {
    hide Epoch, MakeQueueKey, Reachable, ReachableAnyhow;
    var s := OwnerStarts();
    var t := OwnerGivesUp(s);
    var u := OwnerCallsAgain(t);
    FollowerReadsBoth(u);
  }

  /** One committed entry nobody waits for, not yet applied anywhere. */
  ghost predicate OneLost(s: System) {
    && s.replicas.Keys == {1, 2} && s.replicas[2] == FRESH && s.pending == map[] && s.lost == map[]
    && s.log == [STARTED, SetCheckpoint(W, K, V1)] && s.tags == [0, 1]
    && s.replicas[1].applied == 1 && s.replicas[1].sm.ownership == map[W := 1]
    && Values(s.replicas[1].sm.queues, F) == [] && At(s.replicas[1].taken, S0) == []
  }

  /** The same when the operation failed before its entry was committed, and the entry commits late. */
  lemma LateCommitShiftsTheOwner()
    ensures exists s :: ReachableAnyhow(C, s) && OwnerShifted(s, 1, 2, S0, V1, V2)
  {
    hide Epoch, MakeQueueKey, Reachable, ReachableAnyhow;
    var s := OwnerStarts();
    var t := OwnerGivesUpEarly(s);
    var u := OwnerCallsAgain(t);
    FollowerReadsBoth(u);
  }

  lemma OwnerGivesUpEarly(s: System) returns (t: System)
    requires Reachable(C, s) && OwnerIdle(s, []) && s.log == [STARTED]
    ensures ReachableAnyhow(C, t) && OneLost(t)
  {
    hide Epoch, MakeQueueKey, Reachable, ReachableAnyhow;
    ReachableIsReachableAnyhow(s);
    AnyMove(C, s, Begin(1, SetCheckpoint(W, K, V1), 1));
    t := Next(C, s, Begin(1, SetCheckpoint(W, K, V1), 1));
    AnyMove(C, t, Abandon(W));
    t := Next(C, t, Abandon(W));
    AnyMove(C, t, CommitLate(1));
    t := Next(C, t, CommitLate(1));
  }

  lemma OwnerGivesUp(s: System) returns (t: System)
    requires Reachable(C, s) && OwnerIdle(s, []) && s.log == [STARTED]
    ensures ReachableAnyhow(C, t) && OneLost(t)
  {
    hide Epoch, MakeQueueKey, Reachable, ReachableAnyhow;
    ReachableIsReachableAnyhow(s);
    var cmd := SetCheckpoint(W, K, V1);
    AnyMove(C, s, Begin(1, cmd, 1));
    t := Next(C, s, Begin(1, cmd, 1));
    AnyMove(C, t, Commit(W));
    t := Next(C, t, Commit(W));
    AnyMove(C, t, Abandon(W));
    t := Next(C, t, Abandon(W));
  }

  lemma ReachableIsReachableAnyhow(s: System)
    requires Reachable(C, s)
    ensures ReachableAnyhow(C, s)
  {
    hide Enabled, Next, Orderly;
  }

  /** Both entries applied by the owner, which returned the second value and is about to dequeue it. */
  ghost predicate OneLeft(s: System) {
    && s.replicas.Keys == {1, 2} && s.replicas[2] == FRESH && s.pending == map[] && s.lost == map[]
    && s.log == [STARTED, SetCheckpoint(W, K, V1), SetCheckpoint(W, K, V2)] && s.tags == [0, 1, 2]
    && s.replicas[1].applied == 3
    && Values(s.replicas[1].sm.queues, F) == [V2] && At(s.replicas[1].taken, S0) == [V2]
  }

  /** The second operation in the log, the lost entry applied. */
  ghost predicate LostOneApplied(s: System) {
    && s.replicas.Keys == {1, 2} && s.replicas[2] == FRESH
    && s.pending == map[W := Pending(2, SetCheckpoint(W, K, V2), InLog)] && s.lost == map[]
    && s.log == [STARTED, SetCheckpoint(W, K, V1), SetCheckpoint(W, K, V2)] && s.tags == [0, 1, 2]
    && s.replicas[1].applied == 2
    && Values(s.replicas[1].sm.queues, F) == [V1] && At(s.replicas[1].taken, S0) == []
  }

  lemma OwnerProposesAgain(s: System) returns (t: System)
    requires ReachableAnyhow(C, s) && OneLost(s)
    ensures ReachableAnyhow(C, t) && LostOneApplied(t)
  {
    hide Epoch, MakeQueueKey, ReachableAnyhow;
    var cmd := SetCheckpoint(W, K, V2);
    AnyMove(C, s, Begin(1, cmd, 2));
    t := Next(C, s, Begin(1, cmd, 2));
    AnyMove(C, t, Commit(W));
    t := Next(C, t, Commit(W));
    AnyMove(C, t, ApplyNext(1));
    t := Next(C, t, ApplyNext(1));
  }

  lemma OwnerCallsAgain(s: System) returns (t: System)
    requires ReachableAnyhow(C, s) && OneLost(s)
    ensures ReachableAnyhow(C, t) && OneLeft(t)
  {
    hide Epoch, MakeQueueKey, ReachableAnyhow, OneLost;
    t := OwnerProposesAgain(s);
    NoEndNoEpoch(t.log[..3], F);
    AnyMove(C, t, ApplyNext(1));
    t := Next(C, t, ApplyNext(1));
    assert Values(t.replicas[1].sm.queues, F) == [V1, V2];
    assert t.pending == map[W := Pending(2, SetCheckpoint(W, K, V2), Done)];
    NoEndNoEpoch(t.log[..2], F);
    assert IndexOf(t.tags, 2) == 2;
    AnyMove(C, t, Return(W));
    t := Next(C, t, Return(W));
  }

  /** The owner has returned the second value twice, the follower has applied everything and read nothing. */
  ghost predicate BothQueued(s: System) {
    && s.replicas.Keys == {1, 2} && s.log == [STARTED, SetCheckpoint(W, K, V1), SetCheckpoint(W, K, V2)]
    && At(s.replicas[1].taken, S0) == [V2, V2]
    && s.replicas[2].applied == 3 && At(s.replicas[2].taken, S0) == [] && Values(s.replicas[2].sm.queues, F) == [V1, V2]
  }

  lemma FollowerCatchesUp(s: System) returns (t: System)
    requires ReachableAnyhow(C, s) && OneLeft(s)
    ensures ReachableAnyhow(C, t) && BothQueued(t)
  {
    hide Epoch, MakeQueueKey, ReachableAnyhow;
    NoEndNoEpoch(s.log[..3], F);
    AnyMove(C, s, Dequeue(1, W, K));
    t := Next(C, s, Dequeue(1, W, K));
    AnyMove(C, t, ApplyNext(2));
    t := Next(C, t, ApplyNext(2));
    AnyMove(C, t, ApplyNext(2));
    t := Next(C, t, ApplyNext(2));
    AnyMove(C, t, ApplyNext(2));
    t := Next(C, t, ApplyNext(2));
  }

  lemma FollowerReadsBoth(s: System)
    requires ReachableAnyhow(C, s) && OneLeft(s)
    ensures exists t :: ReachableAnyhow(C, t) && OwnerShifted(t, 1, 2, S0, V1, V2)
  {
    hide Epoch, MakeQueueKey, ReachableAnyhow, OneLeft;
    var t := FollowerCatchesUp(s);
    NoEndNoEpoch(t.log[..3], F);
    AnyMove(C, t, Dequeue(2, W, K));
    t := Next(C, t, Dequeue(2, W, K));
    assert Values(t.replicas[2].sm.queues, F) == [V2];
    AnyMove(C, t, Dequeue(2, W, K));
    t := Next(C, t, Dequeue(2, W, K));
    assert OwnerShifted(t, 1, 2, S0, V1, V2);
  }
}
