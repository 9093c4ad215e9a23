/** The state machines the replica loop replicates, and the damage of a stale snapshot label. */
module Machines {
  import opened Wrappers
  import opened ProposalContext
  import opened CheckpointKeys
  import R = Replication
  import WS = WorkflowState
  import MS = ManagementState
  import KV = KvStateMachines

  /** Everything but the checkpoint queues is replicated. */
  ghost function Workflow(): R.Machine<WS.State, WS.Command, WS.SnapshotData, WS.SnapshotData> {
    R.Machine(WS.INITIAL, (s, c) => (WS.Apply(s, c), true), s => WS.TakeSnapshot(s), (s, d) => WS.Restored(d),
              s => WS.TakeSnapshot(s))
  }

  ghost function Management(): R.Machine<MS.State, MS.Command, MS.State, MS.State> {
    R.Machine(MS.INITIAL, (s, c) => (MS.Apply(s, c), MS.Emits(s, c).Some?), s => s, (s, d) => d, s => s)
  }

  ghost function Kv(): R.Machine<map<string, string>, KV.Command, map<string, string>, map<string, string>> {
    R.Machine(map[], (s, c) => (KV.Effect(s, c), true), s => s, (s, d) => d, s => s)
  }

  /** The three state machines of the repository meet the contract of the replica loop. */
  lemma MachinesAreFaithful()
    ensures R.Faithful(Workflow()) && R.Faithful(Management()) && R.Faithful(Kv())
  {
    var m := Workflow();
    forall s, t, c | m.view(s) == m.view(t) ensures m.view(m.apply(s, c).0) == m.view(m.apply(t, c).0) {
      WS.ApplyRespectsSnapshots(s, t, c);
    }
  }

  lemma {:induction false} FedWorkflow(cs: seq<WS.Command>)
    ensures R.Fed(Workflow(), cs) == WS.Replay(cs)
  {
    if cs != [] {
      FedWorkflow(cs[..|cs| - 1]);
    }
  }

  lemma {:induction false} FedManagement(cs: seq<MS.Command>)
    ensures R.Fed(Management(), cs) == MS.ApplyAll(MS.INITIAL, cs)
  {
    if cs != [] {
      FedManagement(cs[..|cs| - 1]);
    }
  }

  lemma {:induction false} FedKv(cs: seq<KV.Command>)
    ensures R.Fed(Kv(), cs) == KV.Run(cs)
  {
    if cs != [] {
      FedKv(cs[..|cs| - 1]);
    }
  }

  /** What the replica loop replays are the states all theorems about the three machines speak of. */
  lemma ReplaysAreTheMachines(
    w: seq<R.Entry<WS.Command>>, m: seq<R.Entry<MS.Command>>, k: seq<R.Entry<KV.Command>>)
    ensures R.Replay(Workflow(), w) == WS.Replay(R.Payloads(w))
    ensures R.Replay(Management(), m) == MS.ApplyAll(MS.INITIAL, R.Payloads(m))
    ensures R.Replay(Kv(), k) == KV.Run(R.Payloads(k))
  {
    hide WS.Apply, MS.Apply, R.Effect, R.Payloads;
    R.ReplayFeedsPayloads(Workflow(), w);
    R.ReplayFeedsPayloads(Management(), m);
    R.ReplayFeedsPayloads(Kv(), k);
    FedWorkflow(R.Payloads(w));
    FedManagement(R.Payloads(m));
    FedKv(R.Payloads(k));
  }

  const A: WS.Command := WS.SetCheckpoint("w", "k", [1])
  const B: WS.Command := WS.SetCheckpoint("w", "k", [2])
  const LOG: seq<R.Entry<WS.Command>> := [R.Normal(Some(A), SyncContext(1)), R.Normal(Some(B), SyncContext(2))]

  function Plain(
    snapshot: Option<R.Snap<WS.SnapshotData>>, committed: seq<R.Entry<WS.Command>>): R.Ready<WS.Command,
    WS.SnapshotData> {
    R.Ready(snapshot, committed, [], 1, false)
  }

  lemma OneEntry<S, C, D, V>(m: R.Machine<S, C, D, V>, n: R.Node<S, D>, e: R.Entry<C>)
    ensures R.ApplyAll(m, n, [e]) == R.ApplyEntry(m, n, e)
  {
    assert [e][..0] == [];
  }

  lemma TwoEntries<S, C, D, V>(m: R.Machine<S, C, D, V>, n: R.Node<S, D>, a: R.Entry<C>, b: R.Entry<C>)
    ensures R.ApplyAll(m, n, [a, b]) == R.ApplyEntry(m, R.ApplyEntry(m, n, a), b)
  {
    OneEntry(m, n, a);
    assert [a, b][..1] == [a];
  }

  function One(): WS.State {
    WS.Apply(WS.INITIAL, A)
  }

  function Two(): WS.State {
    WS.Apply(One(), B)
  }

  lemma ReplayOfLog()
    ensures R.Replay(Workflow(), LOG[..1]) == One() && R.Replay(Workflow(), LOG) == Two()
    ensures WS.Values(Two().history, MakeQueueKey("w", "k")) == [[1], [2]]
  {
    hide MakeQueueKey;
    assert LOG[..1][..0] == [];
    assert R.Replay(Workflow(), LOG[..1]) == One();
  }

  /** Applying A only. */
  lemma FirstRound(g: R.Settings)
    requires g.interval != 0
    ensures var n := R.OnReady(Workflow(), g, R.NewNode(Workflow()), Plain(None, LOG[..1]));
            n.Some? && n.value.sm == One() && n.value.applied == 1 && n.value.committed == 1 && n.value.lastSnap <= 1
  {
    hide WS.Apply;
    assert LOG[..1] == [LOG[0]];
    OneEntry(Workflow(), R.NewNode(Workflow()), LOG[0]);
  }

  /** Installing the snapshot of both entries on top, with nothing behind it. */
  lemma SecondRound(g: R.Settings, n: R.Node<WS.State, WS.SnapshotData>, both: R.Snap<WS.SnapshotData>)
    requires g.interval != 0 && !g.overflowChecks && n.committed == 1 && n.applied == 1
    requires both == R.Snap(2, 1, WS.TakeSnapshot(Two()))
    ensures var t := R.OnReady(Workflow(), g, n, Plain(Some(both), []));
            && t.Some? && t.value.stored == Some(R.Snap(1, 1, both.data)) && t.value.applied == 2
            && WS.Values(t.value.sm.history, MakeQueueKey("w", "k")) == [[1], [2]]
  {
    ReplayOfLog();
    hide WS.Apply, MakeQueueKey, Two;
  }

  lemma SecondEntryAgain(before: WS.State)
    requires WS.Values(before.history, MakeQueueKey("w", "k")) == [[1], [2]]
    ensures WS.Values(WS.Apply(before, B).history, MakeQueueKey("w", "k")) == [[1], [2], [2]]
  {
    hide MakeQueueKey;
    assert [[1], [2]] + [[2]] == [[1], [2], [2]];
  }

  /** A fresh node that receives the mislabelled snapshot and then B. */
  lemma ThirdRound(g: R.Settings, stale: R.Snap<WS.SnapshotData>)
    requires g.interval != 0 && !g.overflowChecks && stale == R.Snap(1, 1, WS.TakeSnapshot(Two()))
    ensures var t := R.OnReady(Workflow(), g, R.NewNode(Workflow()), Plain(Some(stale), LOG[1..]));
            && t.Some? && t.value.applied == 2
            && WS.Values(t.value.sm.history, MakeQueueKey("w", "k")) == [[1], [2], [2]]
  {
    ReplayOfLog();
    hide MakeQueueKey, Two, WS.Apply;
    var n := R.Install(Workflow(), R.NewNode(Workflow()), Some(stale));
    assert LOG[1..] == [LOG[1]];
    OneEntry(Workflow(), n, LOG[1]);
    SecondEntryAgain(n.sm);
  }

  /** The snapshot of both entries is what a node that applied them stores when the interval is 1 or 2. */
  lemma BothAreStored(g: R.Settings)
    requires 0 < g.interval <= 2
    ensures var t := R.OnReady(Workflow(), g, R.NewNode(Workflow()), Plain(None, LOG));
            t.Some? && t.value.stored == Some(R.Snap(2, 1, WS.TakeSnapshot(Two())))
  {
    hide WS.Apply;
    TwoEntries(Workflow(), R.NewNode(Workflow()), LOG[0], LOG[1]);
  }

  /** The log [A, B]. One node applies A and then installs the snapshot of both entries, with nothing
      behind it. Where the subtraction wraps around it now stores a snapshot labelled 1 that holds both.
      A fresh node that receives that snapshot and the rest of the log, B, arrives at the same index as
      the first with a different view. */
  lemma StaleLabelDiverges(g: R.Settings)
    requires g.interval != 0 && !g.overflowChecks
    ensures var m := Workflow();
            var both := R.Snap(2, 1, m.snap(R.Replay(m, LOG)));
            var r1, r2 := Plain(None, LOG[..1]), Plain(Some(both), []);
            var first := R.OnReady(m, g, R.NewNode(m), r1);
            && (g.interval <= 2 ==>
                  var full := R.OnReady(m, g, R.NewNode(m), Plain(None, LOG));
                  full.Some? && full.value.stored == Some(both))
            && R.SnapOk(m, LOG, both) && R.Delivers(LOG, R.NewNode(m), r1)
            && first.Some? && R.Delivers(LOG, first.value, r2)
            && var second := R.OnReady(m, g, first.value, r2);
               && second.Some? && second.value.stored == Some(R.Snap(1, 1, both.data))
               && var r3 := Plain(second.value.stored, LOG[1..]);
                  && R.Delivers(LOG, R.NewNode(m), r3)
                  && var third := R.OnReady(m, g, R.NewNode(m), r3);
                     && third.Some? && third.value.applied == second.value.applied == 2
                     && m.view(third.value.sm) != m.view(second.value.sm)
  {
    hide WS.Apply, One, Two, R.OnReady, R.Replay;
    var m := Workflow();
    var both := R.Snap(2, 1, m.snap(R.Replay(m, LOG)));
    ReplayOfLog();
    FirstRound(g);
    SecondRound(g, R.OnReady(m, g, R.NewNode(m), Plain(None, LOG[..1])).value, both);
    ThirdRound(g, R.Snap(1, 1, both.data));
    if g.interval <= 2 {
      BothAreStored(g);
    }
    assert LOG[..2] == LOG;
  }
}
