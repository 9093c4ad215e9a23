/** The checkpoint protocol keeps its invariant on every run, hence every two nodes agree
    at every position of a checkpoint they have both read. */
module CheckpointAgreement {
  import opened Wrappers
  import opened CheckpointKeys
  import opened WorkflowState
  import opened CheckpointProtocol

  // ----- Flat keys refine pairs -----

  /** How often the log ended the workflow. */
  function EndsOf(log: seq<Command>, w: string): nat {
    if log == [] then 0
    else EndsOf(log[..|log| - 1], w)
         + if log[|log| - 1].WorkflowEnd? && log[|log| - 1].workflow == w then 1 else 0
  }

  /** The values the log sets for the pair (w, key) after exactly e ends of w. */
  function CommittedFor(log: seq<Command>, w: string, key: string, e: nat): seq<Bytes> {
    if log == [] then []
    else
      var before, last := log[..|log| - 1], log[|log| - 1];
      CommittedFor(before, w, key, e)
      + if last.SetCheckpoint? && last.workflow == w && last.key == key && EndsOf(before, w) == e
        then [last.value] else []
  }

  /** With pairwise compatible workflow ids the map keyed by "workflow:key" behaves as
      the map keyed by (workflow, key), whatever the checkpoint keys contain. */
  lemma {:induction false} FlatKeysRefinePairs(log: seq<Command>, ids: set<string>, w: string, key: string, e: nat)
    requires Compatible(ids) && w in ids
    requires forall i :: 0 <= i < |log| ==> log[i].workflow in ids
    ensures Epoch(log, MakeQueueKey(w, key)) == EndsOf(log, w)
    ensures Committed(log, MakeQueueKey(w, key), e) == CommittedFor(log, w, key, e)
  {
    if log != [] {
      var last := log[|log| - 1];
      FlatKeysRefinePairs(log[..|log| - 1], ids, w, key, e);
      assert last.workflow in ids;
      FlatKeysAreFaithful(last.workflow, if last.SetCheckpoint? then last.key else "", w, key);
    }
  }

  // ----- Growing the log -----

  lemma ReplicaSurvivesAppend(log: seq<Command>, cmd: Command, r: Replica)
    requires ReplicaOk(log, r)
    ensures ReplicaOk(log + [cmd], r)
  {
    hide InStep;
    assert (log + [cmd])[..r.applied] == log[..r.applied];
    forall slot, v | v in At(r.seen, slot) ensures v in Committed(log + [cmd], slot.flat, slot.epoch) {
      ExtendLog(log, cmd, slot.flat, slot.epoch);
    }
  }

  lemma SnapSurvivesAppend(log: seq<Command>, cmd: Command, snap: Snap)
    requires SnapOk(log, snap)
    ensures SnapOk(log + [cmd], snap)
  {
    hide Replay;
    assert (log + [cmd])[..snap.index] == log[..snap.index];
  }

  // ----- Commands that do not touch a workflow -----

  lemma UntouchedKey(c: Config, cmd: Command, w: string, key: string)
    requires ValidConfig(c) && w in c.owner && LoggedOk(c, cmd) && !Touches(cmd, w)
    ensures !IsSet(cmd, MakeQueueKey(w, key)) && !IsSweep(cmd, MakeQueueKey(w, key))
    ensures forall s: State ::
              Values(Apply(s, cmd).queues, MakeQueueKey(w, key)) == Values(s.queues, MakeQueueKey(w, key))
  {
    assert cmd.workflow in c.owner;
    FlatKeysAreFaithful(cmd.workflow, if cmd.SetCheckpoint? then cmd.key else "", w, key);
  }

  lemma {:induction false} QuietKeyIsConstant(c: Config, log: seq<Command>, a: nat, b: nat, w: string, key: string)
    requires ValidConfig(c) && w in c.owner && a <= b <= |log|
    requires forall i :: 0 <= i < |log| ==> LoggedOk(c, log[i])
    requires forall i :: a <= i < b ==> !Touches(log[i], w)
    ensures Epoch(log[..b], MakeQueueKey(w, key)) == Epoch(log[..a], MakeQueueKey(w, key))
    ensures CurrentValues(log[..b], MakeQueueKey(w, key)) == CurrentValues(log[..a], MakeQueueKey(w, key))
  {
    hide ValidConfig, LoggedOk, MakeQueueKey, Epoch;
    if a < b {
      var flat := MakeQueueKey(w, key);
      QuietKeyIsConstant(c, log, a, b - 1, w, key);
      UntouchedKey(c, log[b - 1], w, key);
      assert log[..b] == log[..b - 1] + [log[b - 1]];
      ExtendLog(log[..b - 1], log[b - 1], flat, Epoch(log[..b - 1], flat));
    }
  }

  /** Only the fixed owner is ever registered. */
  lemma {:induction false} OwnershipIsFixed(c: Config, log: seq<Command>, w: string)
    requires forall i :: 0 <= i < |log| ==> LoggedOk(c, log[i])
    ensures w in Replay(log).ownership ==> w in c.owner && Replay(log).ownership[w] == c.owner[w]
  {
    if log != [] {
      OwnershipIsFixed(c, log[..|log| - 1], w);
      assert LoggedOk(c, log[|log| - 1]);
    }
  }

  // ----- What a replica holds, step by step -----

  lemma ApplyAligned(now: seq<Command>, cmd: Command, sm: State, taken: Ledger, flat: string)
    requires Aligned(now, sm.queues, taken, flat) && OnTrack(now, taken, flat, Epoch(now, flat) + 1)
    ensures Aligned(now + [cmd], Apply(sm, cmd).queues, taken, flat)
  {
    hide Committed, Epoch, Replay;
    ExtendLog(now, cmd, flat, Epoch(now + [cmd], flat));
    if IsSweep(cmd, flat) {
      FutureEpochsAreEmpty(now, flat, Epoch(now, flat) + 1);
    }
  }

  lemma ApplyInStep(now: seq<Command>, cmd: Command, sm: State, taken: Ledger)
    requires InStep(now, sm, taken)
    ensures InStep(now + [cmd], Apply(sm, cmd), taken)
  {
    hide Committed, Epoch, Replay, Apply;
    ApplyRespectsSnapshots(sm, Replay(now), cmd);
    ExtendLog(now, cmd, "", 0);
    forall flat ensures Aligned(now + [cmd], Apply(sm, cmd).queues, taken, flat) {
      assert Aligned(now, sm.queues, taken, flat) && OnTrack(now, taken, flat, Epoch(now, flat) + 1);
      ApplyAligned(now, cmd, sm, taken, flat);
    }
    forall flat, e ensures OnTrack(now + [cmd], taken, flat, e) {
      assert OnTrack(now, taken, flat, e);
      ExtendLog(now, cmd, flat, e);
    }
  }

  lemma ApplyReplica(log: seq<Command>, r: Replica)
    requires ReplicaOk(log, r) && r.applied < |log|
    ensures ReplicaOk(log, r.(applied := r.applied + 1, sm := Apply(r.sm, log[r.applied])))
  {
    hide InStep, SeenOk, Apply;
    assert log[..r.applied + 1] == log[..r.applied] + [log[r.applied]];
    ApplyInStep(log[..r.applied], log[r.applied], r.sm, r.taken);
  }

  /** Handing out the front of a queue keeps the reader on the committed sequence. */
  lemma ReadInStep(now: seq<Command>, sm: State, taken: Ledger, flat: string, v: Bytes)
    requires InStep(now, sm, taken) && Values(sm.queues, flat) != [] && Values(sm.queues, flat)[0] == v
    ensures InStep(now, Pop(sm, flat), Record(taken, Slot(flat, Epoch(now, flat)), v))
  {
    hide Committed, Epoch, Replay;
    var slot := Slot(flat, Epoch(now, flat));
    var sm1, taken1 := Pop(sm, flat), Record(taken, slot, v);
    forall f ensures Aligned(now, sm1.queues, taken1, f) {
      assert Aligned(now, sm.queues, taken, f);
      if f == flat {
        var q := Values(sm.queues, flat);
        assert At(taken1, slot) + Values(sm1.queues, flat) == At(taken, slot) + ([v] + q[1..]);
      }
    }
    forall f, e ensures OnTrack(now, taken1, f, e) {
      assert OnTrack(now, taken, f, e);
      if Slot(f, e) == slot {
        assert Aligned(now, sm1.queues, taken1, f);
      }
    }
  }

  lemma ReadReplica(log: seq<Command>, r: Replica, flat: string, v: Bytes)
    requires ReplicaOk(log, r) && Values(r.sm.queues, flat) != [] && Values(r.sm.queues, flat)[0] == v
    ensures ReplicaOk(log, r.(sm := Pop(r.sm, flat),
                              taken := Record(r.taken, Slot(flat, Epoch(log[..r.applied], flat)), v)))
  {
    hide InStep, SeenOk, Pop, Record, Epoch;
    ReadInStep(log[..r.applied], r.sm, r.taken, flat, v);
  }

  lemma SeeReplica(log: seq<Command>, r: Replica, i: nat)
    requires ReplicaOk(log, r) && i < |log| && log[i].SetCheckpoint?
    ensures var flat := MakeQueueKey(log[i].workflow, log[i].key);
            ReplicaOk(log, r.(seen := Record(r.seen, Slot(flat, Epoch(log[..i], flat)), log[i].value)))
  {
    hide InStep, Replay, Epoch, Committed;
    var cmd, flat := log[i], MakeQueueKey(log[i].workflow, log[i].key);
    var e := Epoch(log[..i], flat);
    assert log[..i + 1] == log[..i] + [cmd];
    ExtendLog(log[..i], cmd, flat, e);
    CommittedGrows(log, i + 1, flat, e);
    var part := Committed(log[..i + 1], flat, e);
    assert Committed(log, flat, e)[|part| - 1] == cmd.value;
  }

  lemma RestoredAligned(now: seq<Command>, queues: Queues, taken: Ledger, flat: string)
    requires queues == Replay(now).history
    ensures Aligned(now, queues, taken, flat) <==> At(taken, Slot(flat, Epoch(now, flat))) == []
  {
    hide Committed, Epoch, Replay;
    HistoryIsCurrentValues(now, flat);
  }

  lemma RestoredAllAligned(now: seq<Command>, queues: Queues, taken: Ledger)
    requires queues == Replay(now).history
    ensures (forall flat :: Aligned(now, queues, taken, flat)) <==> NothingRead(now, taken)
  {
    hide Committed, Epoch, Replay, Aligned;
    forall flat
      ensures Aligned(now, queues, taken, flat) <==> At(taken, Slot(flat, Epoch(now, flat))) == []
    {
      RestoredAligned(now, queues, taken, flat);
    }
  }

  lemma InstallInStep(now: seq<Command>, n: nat, sm: State, taken: Ledger)
    requires n <= |now| && InStep(now[..n], sm, taken)
    ensures InStep(now, Restored(TakeSnapshot(Replay(now))), taken) <==> NothingRead(now, taken)
  {
    hide Committed, Epoch, Replay, Aligned, NothingRead;
    RestoredAllAligned(now, Replay(now).history, taken);
    forall flat, e ensures OnTrack(now, taken, flat, e) {
      assert OnTrack(now[..n], taken, flat, e);
      CommittedGrows(now, n, flat, e);
    }
  }

  /** Installing a snapshot keeps a replica's readers aligned exactly when its execution
      has read nothing yet from the epochs being restored. */
  lemma InstallAlignedExactlyWhenFresh(log: seq<Command>, r: Replica, snap: Snap)
    requires ReplicaOk(log, r) && SnapOk(log, snap) && r.applied < snap.index
    ensures ReplicaOk(log, r.(applied := snap.index, sm := Restored(snap.data))) <==> FreshFor(log, r, snap)
  {
    hide InStep, SeenOk, Replay, NothingRead;
    var now := log[..snap.index];
    assert now[..r.applied] == log[..r.applied];
    InstallInStep(now, r.applied, r.sm, r.taken);
  }

  // ----- The owner's operation, step by step -----

  lemma OwnEntrySurvivesAppend(
    log: seq<Command>, tags: seq<nat>, tag: nat, cmd: Command, w: string, other: Command, id: nat)
    requires |tags| == |log| && OwnEntry(log, tags, tag, cmd, w) && !Touches(other, w) && id != tag
    ensures OwnEntry(log + [other], tags + [id], tag, cmd, w)
  {
  }

  lemma OwnEntryAppended(log: seq<Command>, tags: seq<nat>, tag: nat, cmd: Command, w: string)
    requires |tags| == |log| && tag !in tags
    ensures OwnEntry(log + [cmd], tags + [tag], tag, cmd, w)
  {
    assert (tags + [tag])[|tags|] == tag;
    assert forall i :: 0 <= i < |tags| ==> tags[i] in tags;
  }

  /** An entry that concerns another workflow leaves the operation alone. */
  lemma PendingSurvivesAppend(
    log: seq<Command>, tags: seq<nat>, pending: Option<Pending>, applied: nat, queues: Queues, w: string,
                              cmd: Command, tag: nat)
    requires PendingOk(log, tags, pending, applied, queues, w) && applied <= |log|
    requires !Touches(cmd, w) && (pending.Some? ==> pending.value.tag != tag)
    ensures PendingOk(log + [cmd], tags + [tag], pending, applied, queues, w)
  {
    hide OwnQueue, OwnEntry;
    assert (tags + [tag])[..applied] == tags[..applied];
    if pending.Some? && pending.value.phase != Sent {
      OwnEntrySurvivesAppend(log, tags, pending.value.tag, pending.value.cmd, w, cmd, tag);
    }
  }

  lemma PendingCommits(log: seq<Command>, tags: seq<nat>, p: Pending, applied: nat, queues: Queues, w: string)
    requires PendingOk(log, tags, Some(p), applied, queues, w) && applied <= |log| && p.phase == Sent
    ensures PendingOk(log + [p.cmd], tags + [p.tag], Some(p.(phase := InLog)), applied, queues, w)
  {
    hide OwnQueue, OwnEntry;
    OwnEntryAppended(log, tags, p.tag, p.cmd, w);
    assert (tags + [p.tag])[|tags|] == p.tag;
  }

  lemma PendingApplies(
    c: Config, log: seq<Command>, tags: seq<nat>, pending: Option<Pending>, applied: nat, sm: State, w: string)
    requires ValidConfig(c) && w in c.owner && applied < |log| && LoggedOk(c, log[applied])
    requires forall i, j :: 0 <= i < j < |tags| ==> tags[i] != tags[j]
    requires PendingOk(log, tags, pending, applied, sm.queues, w)
    ensures PendingOk(log, tags, MarkDone(pending, w, log[applied].workflow, tags[applied]),
                      applied + 1, Apply(sm, log[applied]).queues, w)
  {
    if pending.Some? && pending.value.phase == InLog && tags[applied] == pending.value.tag {
      OwnEntryApplies(log, tags, pending.value, applied, sm, w);
    } else {
      OtherEntryApplies(c, log, tags, pending, applied, sm, w);
    }
  }

  lemma OwnEntryApplies(log: seq<Command>, tags: seq<nat>, p: Pending, applied: nat, sm: State, w: string)
    requires applied < |log| && p.phase == InLog
    requires forall i, j :: 0 <= i < j < |tags| ==> tags[i] != tags[j]
    requires PendingOk(log, tags, Some(p), applied, sm.queues, w) && tags[applied] == p.tag
    ensures log[applied].workflow == w
    ensures PendingOk(log, tags, Some(p.(phase := Done)), applied + 1, Apply(sm, log[applied]).queues, w)
  {
    hide MakeQueueKey, Sweep;
    assert log[applied] == p.cmd && Quiet(log, applied + 1, w);
    assert tags[..applied + 1][applied] == p.tag;
  }

  lemma OtherEntryApplies(
    c: Config, log: seq<Command>, tags: seq<nat>, pending: Option<Pending>, applied: nat, sm: State, w: string)
    requires ValidConfig(c) && w in c.owner && applied < |log| && LoggedOk(c, log[applied])
    requires PendingOk(log, tags, pending, applied, sm.queues, w)
    requires pending.Some? && pending.value.phase == InLog ==> tags[applied] != pending.value.tag
    ensures PendingOk(log, tags, pending, applied + 1, Apply(sm, log[applied]).queues, w)
  {
    assert !Touches(log[applied], w);
    if pending.Some? {
      var cmd := pending.value.cmd;
      UntouchedKey(c, log[applied], w, if cmd.SetCheckpoint? then cmd.key else "");
      hide Apply, MakeQueueKey;
      assert OwnQueue(Apply(sm, log[applied]).queues, w, cmd) == OwnQueue(sm.queues, w, cmd);
      hide OwnQueue, OwnEntry;
      assert tags[..applied + 1] == tags[..applied] + [tags[applied]];
    }
  }

  /** Popping another workflow's queue. */
  lemma PendingSurvivesPop(
    c: Config, log: seq<Command>, tags: seq<nat>, pending: Option<Pending>, applied: nat, sm: State, x: string,
                           w: string, key: string)
    requires ValidConfig(c) && w in c.owner && x in c.owner && x != w
    requires PendingOk(log, tags, pending, applied, sm.queues, x)
    ensures PendingOk(log, tags, pending, applied, Pop(sm, MakeQueueKey(w, key)).queues, x)
  {
    if pending.Some? {
      var cmd := pending.value.cmd;
      FlatKeysAreFaithful(w, key, x, if cmd.SetCheckpoint? then cmd.key else "");
      hide MakeQueueKey, OwnEntry;
      assert OwnQueue(Pop(sm, MakeQueueKey(w, key)).queues, x, cmd) == OwnQueue(sm.queues, x, cmd);
    }
  }

  lemma PendingSurvivesInstall(
    c: Config, log: seq<Command>, tags: seq<nat>, pending: Option<Pending>, r: Replica, w: string, snap: Snap)
    requires ValidConfig(c) && w in c.owner && ReplicaOk(log, r) && SnapOk(log, snap) && r.applied < snap.index
    requires forall i :: 0 <= i < |log| ==> LoggedOk(c, log[i])
    requires PendingOk(log, tags, pending, r.applied, r.sm.queues, w) && FreshFor(log, r, snap)
    ensures PendingOk(log, tags, pending, snap.index, Restored(snap.data).queues, w)
  {
    hide Epoch, Committed, Replay, MakeQueueKey, OwnEntry;
    if pending.Some? && pending.value.cmd.SetCheckpoint? {
      var cmd, q1 := pending.value.cmd, Restored(snap.data).queues;
      if forall i :: r.applied <= i < snap.index ==> !Touches(log[i], w) {
        QuietQueueSurvivesInstall(c, log, r, w, cmd.key, snap);
        assert OwnQueue(q1, w, cmd) == OwnQueue(r.sm.queues, w, cmd);
      } else {
        var i :| r.applied <= i < snap.index && Touches(log[i], w);
        assert pending.value.phase == InLog && tags[i] == pending.value.tag;
        assert tags[i] in tags[..snap.index];
      }
    }
    assert r.applied <= |tags| && snap.index <= |tags|;
    if pending.Some? && pending.value.tag in tags[..r.applied] {
      var i :| 0 <= i < r.applied && tags[..r.applied][i] == pending.value.tag;
      assert tags[..snap.index][i] == pending.value.tag;
    }
  }

  lemma QuietQueueSurvivesInstall(c: Config, log: seq<Command>, r: Replica, w: string, key: string, snap: Snap)
    requires ValidConfig(c) && w in c.owner && ReplicaOk(log, r) && SnapOk(log, snap) && r.applied < snap.index
    requires forall i :: 0 <= i < |log| ==> LoggedOk(c, log[i])
    requires forall i :: r.applied <= i < snap.index ==> !Touches(log[i], w)
    requires FreshFor(log, r, snap)
    ensures Values(Restored(snap.data).queues, MakeQueueKey(w, key)) == Values(r.sm.queues, MakeQueueKey(w, key))
  {
    hide Epoch, Committed, Replay, MakeQueueKey;
    var flat := MakeQueueKey(w, key);
    HistoryIsCurrentValues(log[..snap.index], flat);
    QuietKeyIsConstant(c, log, r.applied, snap.index, w, key);
    assert Aligned(log[..r.applied], r.sm.queues, r.taken, flat);
    assert At(r.taken, Slot(flat, Epoch(log[..snap.index], flat))) == [];
  }

  // ----- One lemma per step -----

  lemma StartInv(c: Config)
    requires ValidConfig(c)
    ensures Inv(c, Start(c))
  {
    var s := Start(c);
    forall n | n in s.replicas ensures ReplicaOk(s.log, s.replicas[n]) {
      assert s.replicas[n] == FRESH;
      assert s.log[..0] == [];
    }
  }

  lemma EveryEntryIsLogged(c: Config, s: System)
    requires LogOk(c, s)
    ensures forall i :: 0 <= i < |s.log| ==> LoggedOk(c, s.log[i])
  {
    hide LoggedOk;
  }

  lemma BeginsOnlyAtTheOwner(c: Config, s: System, node: nat, cmd: Command, tag: nat)
    requires ValidConfig(c) && Inv(c, s) && Enabled(c, s, Begin(node, cmd, tag))
    ensures node == c.owner[cmd.workflow]
  {
    hide Replay, SeenOk, Aligned, OnTrack, LogOk, OwnerOk, SnapOk, MakeQueueKey, ValidConfig;
    var r := s.replicas[node];
    assert ReplicaOk(s.log, r);
    EveryEntryIsLogged(c, s);
    OwnershipIsFixed(c, s.log[..r.applied], cmd.workflow);
    assert TakeSnapshot(r.sm).ownership == Replay(s.log[..r.applied]).ownership;
  }

  lemma BeginKeepsOwner(c: Config, s: System, node: nat, cmd: Command, tag: nat, w: string)
    requires ValidConfig(c) && LogOk(c, s) && Enabled(c, s, Begin(node, cmd, tag))
    requires node == c.owner[cmd.workflow] && w in c.owner && OwnerOk(c, s, w)
    ensures OwnerOk(c, Next(c, s, Begin(node, cmd, tag)), w)
  {
    hide MakeQueueKey, ValidConfig;
  }

  lemma BeginInv(c: Config, s: System, node: nat, cmd: Command, tag: nat)
    requires ValidConfig(c) && Inv(c, s) && Enabled(c, s, Begin(node, cmd, tag))
    ensures Inv(c, Next(c, s, Begin(node, cmd, tag)))
  {
    hide ReplicaOk, SnapOk, OwnerOk, MakeQueueKey;
    BeginsOnlyAtTheOwner(c, s, node, cmd, tag);
    var t := Next(c, s, Begin(node, cmd, tag));
    forall w | w in c.owner ensures OwnerOk(c, t, w) {
      BeginKeepsOwner(c, s, node, cmd, tag, w);
    }
  }

  lemma CommitOtherInv(c: Config, s: System, cmd: Command, tag: nat)
    requires ValidConfig(c) && Inv(c, s) && Enabled(c, s, CommitOther(cmd, tag))
    ensures Inv(c, Next(c, s, CommitOther(cmd, tag)))
  {
    hide ReplicaOk, SnapOk, PendingOk;
    var t := Next(c, s, CommitOther(cmd, tag));
    AppendInv(c, s, cmd, tag, t.pending, None);
  }

  lemma CommitInv(c: Config, s: System, w: string)
    requires ValidConfig(c) && Inv(c, s) && Enabled(c, s, Commit(w))
    ensures Inv(c, Next(c, s, Commit(w)))
  {
    hide ReplicaOk, SnapOk, PendingOk;
    var t, p := Next(c, s, Commit(w)), s.pending[w];
    assert w in c.owner && OwnerOk(c, s, w);
    var r := s.replicas[c.owner[w]];
    AppliedInLog(s.log, r);
    PendingCommits(s.log, s.tags, p, r.applied, r.sm.queues, w);
    SentTagIsNew(s.log, s.tags, p, r.applied, r.sm.queues, w);
    AppendInv(c, s, p.cmd, p.tag, t.pending, Some(w));
  }

  lemma AppliedInLog(log: seq<Command>, r: Replica)
    requires ReplicaOk(log, r)
    ensures r.applied <= |log|
  {
    hide InStep, SeenOk;
  }

  lemma SentTagIsNew(log: seq<Command>, tags: seq<nat>, p: Pending, applied: nat, queues: Queues, w: string)
    requires PendingOk(log, tags, Some(p), applied, queues, w) && p.phase == Sent
    ensures p.tag !in tags
  {
  }

  /** Appending one entry, which concerns at most the workflow w whose operation it is. */
  lemma AppendInv(c: Config, s: System, cmd: Command, tag: nat, pending: map<string, Pending>, w: Option<string>)
    requires ValidConfig(c) && Inv(c, s) && LoggedOk(c, cmd) && tag !in s.tags && tag !in s.lost
    requires pending.Keys == s.pending.Keys
    requires forall x :: x in pending && w != Some(x) ==> pending[x] == s.pending[x] && pending[x].tag != tag
    requires forall x :: x in pending ==> pending[x].tag == s.pending[x].tag && pending[x].cmd == s.pending[x].cmd
    requires forall x :: x in c.owner && w != Some(x) ==> !Touches(cmd, x)
    requires w.Some? && w.value in c.owner ==>
               && c.owner[w.value] in s.replicas
               && var r := s.replicas[c.owner[w.value]];
                  PendingOk(s.log + [cmd], s.tags + [tag], Lookup(pending, w.value), r.applied, r.sm.queues, w.value)
    ensures Inv(c, s.(log := s.log + [cmd], tags := s.tags + [tag], pending := pending))
  {
    hide ReplicaOk, SnapOk, OwnerOk, LogOk, LoggedOk, ValidConfig, Touches, PendingOk;
    var t := s.(log := s.log + [cmd], tags := s.tags + [tag], pending := pending);
    forall n | n in t.replicas ensures ReplicaOk(t.log, t.replicas[n]) {
      ReplicaSurvivesAppend(s.log, cmd, s.replicas[n]);
    }
    forall snap | snap in t.snaps ensures SnapOk(t.log, snap) {
      SnapSurvivesAppend(s.log, cmd, snap);
    }
    AppendLogOk(c, s, cmd, tag, pending);
    forall x | x in c.owner ensures OwnerOk(c, t, x) {
      if w != Some(x) {
        OwnerSurvivesAppend(c, s, cmd, tag, pending, x);
      } else {
        OwnEntryOwner(c, t, x);
      }
    }
  }

  lemma AppendLogOk(c: Config, s: System, cmd: Command, tag: nat, pending: map<string, Pending>)
    requires LogOk(c, s) && LoggedOk(c, cmd) && tag !in s.tags && tag !in s.lost && pending.Keys == s.pending.Keys
    requires forall x :: x in pending ==> pending[x].tag == s.pending[x].tag && pending[x].cmd == s.pending[x].cmd
    ensures LogOk(c, s.(log := s.log + [cmd], tags := s.tags + [tag], pending := pending))
  {
    hide LoggedOk, Touches;
  }

  lemma OwnerSurvivesAppend(c: Config, s: System, cmd: Command, tag: nat, pending: map<string, Pending>, x: string)
    requires x in c.owner && OwnerOk(c, s, x) && !Touches(cmd, x) && pending.Keys == s.pending.Keys
    requires forall n :: n in s.replicas ==> ReplicaOk(s.log, s.replicas[n])
    requires x in pending ==> pending[x] == s.pending[x] && pending[x].tag != tag
    ensures OwnerOk(c, s.(log := s.log + [cmd], tags := s.tags + [tag], pending := pending), x)
  {
    hide ReplicaOk, PendingOk, Touches;
    var r := s.replicas[c.owner[x]];
    AppliedInLog(s.log, r);
    PendingSurvivesAppend(s.log, s.tags, Lookup(s.pending, x), r.applied, r.sm.queues, x, cmd, tag);
  }

  lemma OwnEntryOwner(c: Config, t: System, x: string)
    requires x in c.owner && c.owner[x] in t.replicas
    requires var r := t.replicas[c.owner[x]];
             PendingOk(t.log, t.tags, Lookup(t.pending, x), r.applied, r.sm.queues, x)
    ensures OwnerOk(c, t, x)
  {
    hide PendingOk;
  }

  /** What the log part of the invariant depends on. */
  lemma LogOkFrame(c: Config, s: System, t: System)
    requires LogOk(c, s) && t.log == s.log && t.tags == s.tags && t.pending == s.pending && t.lost == s.lost
    ensures LogOk(c, t)
  {
    hide LoggedOk, Touches;
  }

  lemma ApplyKeepsOwner(c: Config, s: System, node: nat, w: string)
    requires ValidConfig(c) && LogOk(c, s) && Enabled(c, s, ApplyNext(node))
    requires w in c.owner && OwnerOk(c, s, w)
    ensures OwnerOk(c, Next(c, s, ApplyNext(node)), w)
  {
    hide PendingOk, Apply, ValidConfig;
    var r := s.replicas[node];
    if c.owner[w] == node {
      PendingApplies(c, s.log, s.tags, Lookup(s.pending, w), r.applied, r.sm, w);
    }
  }

  lemma ApplyInv(c: Config, s: System, node: nat)
    requires ValidConfig(c) && Inv(c, s) && Enabled(c, s, ApplyNext(node))
    ensures Inv(c, Next(c, s, ApplyNext(node)))
  {
    hide ReplicaOk, SnapOk, OwnerOk, Apply, ValidConfig;
    var t, r := Next(c, s, ApplyNext(node)), s.replicas[node];
    ApplyReplica(s.log, r);
    forall w | w in c.owner ensures OwnerOk(c, t, w) {
      ApplyKeepsOwner(c, s, node, w);
    }
  }

  lemma DequeueKeepsOwner(c: Config, s: System, node: nat, w: string, key: string, x: string)
    requires ValidConfig(c) && Enabled(c, s, Dequeue(node, w, key)) && x in c.owner && OwnerOk(c, s, x)
    ensures OwnerOk(c, Next(c, s, Dequeue(node, w, key)), x)
  {
    hide MakeQueueKey, Epoch, Record, Pop, ValidConfig, OwnEntry, OwnQueue;
    if c.owner[x] == node && x != w {
      var r := s.replicas[node];
      PendingSurvivesPop(c, s.log, s.tags, Lookup(s.pending, x), r.applied, r.sm, x, w, key);
    }
  }

  lemma DequeueInv(c: Config, s: System, node: nat, w: string, key: string)
    requires ValidConfig(c) && Inv(c, s) && Enabled(c, s, Dequeue(node, w, key))
    ensures Inv(c, Next(c, s, Dequeue(node, w, key)))
  {
    var flat := MakeQueueKey(w, key);
    hide ReplicaOk, SnapOk, OwnerOk, MakeQueueKey, Epoch, Record, Pop, ValidConfig;
    var t, r := Next(c, s, Dequeue(node, w, key)), s.replicas[node];
    ReadReplica(s.log, r, flat, r.sm.queues[flat][0]);
    forall x | x in c.owner ensures OwnerOk(c, t, x) {
      DequeueKeepsOwner(c, s, node, w, key, x);
    }
  }

  /** The value the owner pops on return is the one it proposed, and the only one queued. */
  lemma OwnerPopsItsOwnValue(c: Config, s: System, w: string)
    requires ValidConfig(c) && Inv(c, s) && Enabled(c, s, Return(w)) && s.pending[w].cmd.SetCheckpoint?
    ensures Values(s.replicas[c.owner[w]].sm.queues, MakeQueueKey(w, s.pending[w].cmd.key)) == [s.pending[w].cmd.value]
  {
    hide ReplicaOk, SnapOk;
    assert OwnerOk(c, s, w);
  }

  /** A finished operation leaves nothing of its workflow to apply. */
  lemma FinishedIsQuiet(log: seq<Command>, tags: seq<nat>, p: Pending, applied: nat, queues: Queues, w: string)
    requires PendingOk(log, tags, Some(p), applied, queues, w) && p.phase == Done
    ensures forall q :: PendingOk(log, tags, None, applied, q, w)
  {
  }

  lemma {:induction false} IndexOfPlaced(tags: seq<nat>, k: nat)
    requires k < |tags| && forall i, j :: 0 <= i < j < |tags| ==> tags[i] != tags[j]
    ensures IndexOf(tags, tags[k]) == k
  {
    if k < |tags| - 1 {
      assert tags[|tags| - 1] != tags[k];
      IndexOfPlaced(tags[..|tags| - 1], k);
    }
  }

  lemma DoneEntry(
    log: seq<Command>, tags: seq<nat>, p: Pending, applied: nat, queues: Queues, w: string) returns (k: nat)
    requires PendingOk(log, tags, Some(p), applied, queues, w) && p.phase == Done && applied <= |log|
    requires forall i, j :: 0 <= i < j < |tags| ==> tags[i] != tags[j]
    ensures k < applied && tags[k] == p.tag && log[k] == p.cmd && IndexOf(tags, p.tag) == k && Quiet(log, k + 1, w)
  {
    k :| 0 <= k < applied && tags[..applied][k] == p.tag;
    IndexOfPlaced(tags, k);
  }

  /** The owner returns in the epoch its entry was committed in. */
  lemma OwnerReturnsInItsEpoch(c: Config, log: seq<Command>, w: string, k: nat, applied: nat)
    requires ValidConfig(c) && w in c.owner && k < applied <= |log| && Quiet(log, k + 1, w)
    requires log[k].SetCheckpoint? && log[k].workflow == w
    requires forall i :: 0 <= i < |log| ==> LoggedOk(c, log[i])
    ensures var flat := MakeQueueKey(w, log[k].key);
            && IsSet(log[k], flat) && Epoch(log[..applied], flat) == Epoch(log[..k], flat)
            && CurrentValues(log[..applied], flat) == CurrentValues(log[..k + 1], flat)
  {
    hide MakeQueueKey, CurrentValues, Epoch, ValidConfig, LoggedOk;
    QuietKeyIsConstant(c, log, k + 1, applied, w, log[k].key);
    assert log[..k + 1] == log[..k] + [log[k]];
    ExtendLog(log[..k], log[k], MakeQueueKey(w, log[k].key), 0);
  }

  /** On orderly runs the epoch of the entry is the epoch the owner has reached. */
  lemma ReturnEpoch(c: Config, s: System, w: string)
    requires ValidConfig(c) && Inv(c, s) && Enabled(c, s, Return(w)) && s.pending[w].cmd.SetCheckpoint?
    ensures var p, r := s.pending[w], s.replicas[c.owner[w]];
            var flat, k := MakeQueueKey(w, p.cmd.key), IndexOf(s.tags, p.tag);
            && k < r.applied && s.log[k] == p.cmd && p.cmd.workflow == w && Quiet(s.log, k + 1, w)
            && Epoch(s.log[..k], flat) == Epoch(s.log[..r.applied], flat)
            && CurrentValues(s.log[..r.applied], flat) == CurrentValues(s.log[..k + 1], flat)
  {
    hide ReplicaOk, SnapOk, MakeQueueKey, Epoch, ValidConfig, PendingOk, CurrentValues, LoggedOk;
    assert OwnerOk(c, s, w);
    var p, r := s.pending[w], s.replicas[c.owner[w]];
    var k := DoneEntry(s.log, s.tags, p, r.applied, r.sm.queues, w);
    OwnerReturnsInItsEpoch(c, s.log, w, k, r.applied);
  }

  lemma ReturnKeepsOwner(c: Config, s: System, w: string, x: string)
    requires ValidConfig(c) && LogOk(c, s) && Enabled(c, s, Return(w)) && w in c.owner && x in c.owner
    requires OwnerOk(c, s, w) && OwnerOk(c, s, x)
    ensures OwnerOk(c, Next(c, s, Return(w)), x)
  {
    hide PendingOk, MakeQueueKey, Epoch, Record, Pop, ValidConfig, IndexOf;
    var p, node := s.pending[w], c.owner[w];
    var r := s.replicas[node];
    if x == w {
      FinishedIsQuiet(s.log, s.tags, p, r.applied, r.sm.queues, w);
    } else if c.owner[x] == node && p.cmd.SetCheckpoint? {
      PendingSurvivesPop(c, s.log, s.tags, Lookup(s.pending, x), r.applied, r.sm, x, w, p.cmd.key);
    }
  }

  lemma ReturnInv(c: Config, s: System, w: string)
    requires ValidConfig(c) && Inv(c, s) && Enabled(c, s, Return(w))
    ensures Inv(c, Next(c, s, Return(w)))
  {
    hide ReplicaOk, SnapOk, OwnerOk, MakeQueueKey, Epoch, Record, Pop, ValidConfig, IndexOf;
    var p, t := s.pending[w], Next(c, s, Return(w));
    if p.cmd.SetCheckpoint? {
      ReturnEpoch(c, s, w);
      OwnerPopsItsOwnValue(c, s, w);
      var r := s.replicas[c.owner[w]];
      ReadReplica(s.log, r, MakeQueueKey(w, p.cmd.key), p.cmd.value);
    }
    forall x | x in c.owner ensures OwnerOk(c, t, x) {
      ReturnKeepsOwner(c, s, w, x);
    }
  }

  /** A replica whose ledgers change, and nothing else. */
  lemma LedgerInv(c: Config, s: System, node: nat, r: Replica)
    requires Inv(c, s) && node in s.replicas && ReplicaOk(s.log, r)
    requires r.applied == s.replicas[node].applied && r.sm == s.replicas[node].sm
    ensures Inv(c, SetReplica(s, node, r))
  {
    hide ReplicaOk, SnapOk, PendingOk, LoggedOk;
    var t := SetReplica(s, node, r);
    forall x | x in c.owner ensures OwnerOk(c, t, x) {
      assert OwnerOk(c, s, x);
    }
  }

  lemma EventReturnInv(c: Config, s: System, node: nat, i: nat)
    requires ValidConfig(c) && Inv(c, s) && Enabled(c, s, EventReturn(node, i))
    ensures Inv(c, Next(c, s, EventReturn(node, i)))
  {
    hide ReplicaOk, SnapOk, OwnerOk, LogOk, MakeQueueKey, Epoch, Record, IsWorkflowOwner, ValidConfig;
    SeeReplica(s.log, s.replicas[node], i);
    LedgerInv(c, s, node, Next(c, s, EventReturn(node, i)).replicas[node]);
  }

  lemma TakeSnapInv(c: Config, s: System, node: nat)
    requires ValidConfig(c) && Inv(c, s) && Enabled(c, s, TakeSnap(node))
    ensures Inv(c, Next(c, s, TakeSnap(node)))
  {
    hide ReplicaOk, SnapOk, PendingOk, LogOk;
    SnapshotIsReplay(s.log, s.replicas[node]);
    var t := Next(c, s, TakeSnap(node));
    LogOkFrame(c, s, t);
    forall x | x in c.owner ensures OwnerOk(c, t, x) {
      assert OwnerOk(c, s, x);
    }
  }

  lemma SnapshotIsReplay(log: seq<Command>, r: Replica)
    requires ReplicaOk(log, r)
    ensures SnapOk(log, Snap(r.applied, TakeSnapshot(r.sm)))
  {
    hide Replay, SeenOk, Aligned, OnTrack;
  }

  lemma InstallInv(c: Config, s: System, node: nat, snap: Snap)
    requires ValidConfig(c) && Inv(c, s) && Enabled(c, s, Install(node, snap))
    requires FreshFor(s.log, s.replicas[node], snap)
    ensures Inv(c, Next(c, s, Install(node, snap)))
  {
    hide ReplicaOk, SnapOk, OwnerOk, FreshFor, LogOk, ValidConfig;
    var t, r := Next(c, s, Install(node, snap)), s.replicas[node];
    InstallAlignedExactlyWhenFresh(s.log, r, snap);
    LogOkFrame(c, s, t);
    EveryEntryIsLogged(c, s);
    forall x | x in c.owner ensures OwnerOk(c, t, x) {
      InstallKeepsOwner(c, s, node, snap, x);
    }
  }

  lemma InstallKeepsOwner(c: Config, s: System, node: nat, snap: Snap, x: string)
    requires ValidConfig(c) && Enabled(c, s, Install(node, snap)) && x in c.owner && OwnerOk(c, s, x)
    requires ReplicaOk(s.log, s.replicas[node]) && SnapOk(s.log, snap) && FreshFor(s.log, s.replicas[node], snap)
    requires forall i :: 0 <= i < |s.log| ==> LoggedOk(c, s.log[i])
    ensures OwnerOk(c, Next(c, s, Install(node, snap)), x)
  {
    hide ReplicaOk, SnapOk, PendingOk, FreshFor, LoggedOk, ValidConfig;
    if c.owner[x] == node {
      var r := s.replicas[node];
      PendingSurvivesInstall(c, s.log, s.tags, Lookup(s.pending, x), r, x, snap);
    }
  }

  lemma NoOperationIsQuiet(
    log: seq<Command>, tags: seq<nat>, pending: Option<Pending>, applied: nat, queues: Queues, w: string)
    requires PendingOk(log, tags, pending, applied, queues, w)
    ensures PendingOk(log, tags, None, applied, queues, w) <==> Quiet(log, applied, w)
  {
  }

  lemma AbandonLogOk(c: Config, s: System, w: string)
    requires LogOk(c, s) && Enabled(c, s, Abandon(w)) && (s.pending[w].phase == Sent ==> s.pending[w].tag !in s.tags)
    ensures LogOk(c, Next(c, s, Abandon(w)))
  {
    hide LoggedOk;
  }

  lemma AbandonOwner(c: Config, s: System, w: string)
    requires Enabled(c, s, Abandon(w)) && w in c.owner && OwnerOk(c, s, w)
    ensures s.pending[w].phase == Sent ==> s.pending[w].tag !in s.tags
    ensures OwnerOk(c, Next(c, s, Abandon(w)), w) <==> Quiet(s.log, s.replicas[c.owner[w]].applied, w)
    ensures forall x :: x in c.owner && x != w && OwnerOk(c, s, x) ==> OwnerOk(c, Next(c, s, Abandon(w)), x)
  {
    hide PendingOk, Quiet;
    var r := s.replicas[c.owner[w]];
    NoOperationIsQuiet(s.log, s.tags, Some(s.pending[w]), r.applied, r.sm.queues, w);
    if s.pending[w].phase == Sent {
      SentTagIsNew(s.log, s.tags, s.pending[w], r.applied, r.sm.queues, w);
    }
  }

  /** An operation can be given up with the alignment kept if and only if its owner has applied every
      entry that concerns the workflow. */
  lemma AbandonExactly(c: Config, s: System, w: string)
    requires ValidConfig(c) && Inv(c, s) && Enabled(c, s, Abandon(w))
    ensures w in c.owner && c.owner[w] in s.replicas
    ensures Inv(c, Next(c, s, Abandon(w))) <==> Quiet(s.log, s.replicas[c.owner[w]].applied, w)
  {
    hide Inv, OwnerOk, Quiet, LogOk, ValidConfig;
    PendingIsOwned(c, s, w);
    AbandonOwner(c, s, w);
    AbandonLogOk(c, s, w);
    OwnersDecide(c, s, Next(c, s, Abandon(w)));
    forall x | x in c.owner ensures OwnerOk(c, s, x) {
      OwnerIsOk(c, s, x);
    }
  }

  /** When replicas, log and snapshots stay as they are, the owners alone decide the invariant. */
  lemma OwnersDecide(c: Config, s: System, t: System)
    requires Inv(c, s) && t.replicas == s.replicas && t.log == s.log && t.snaps == s.snaps && LogOk(c, t)
    ensures Inv(c, t) <==> forall w :: w in c.owner ==> OwnerOk(c, t, w)
  {
    hide ReplicaOk, SnapOk, OwnerOk, LogOk;
  }

  lemma OwnerIsOk(c: Config, s: System, w: string)
    requires Inv(c, s) && w in c.owner
    ensures OwnerOk(c, s, w)
  {
    hide ReplicaOk, SnapOk, PendingOk, LogOk;
  }

  lemma PendingIsOwned(c: Config, s: System, w: string)
    requires Inv(c, s) && w in s.pending
    ensures w in c.owner && c.owner[w] in s.replicas && OwnerOk(c, s, w) && LogOk(c, s)
  {
    hide ReplicaOk, SnapOk, PendingOk, LoggedOk;
    assert w in c.owner && OwnerOk(c, s, w);
  }

  /** Before its entry is committed and after it was applied, giving up is always of that kind. */
  lemma QuietUnlessInLog(c: Config, s: System, w: string)
    requires Inv(c, s) && w in s.pending && s.pending[w].phase != InLog
    ensures w in c.owner && c.owner[w] in s.replicas && Quiet(s.log, s.replicas[c.owner[w]].applied, w)
  {
    hide ReplicaOk, SnapOk;
    assert w in c.owner && OwnerOk(c, s, w);
  }

  /** An entry that commits although its operation has failed always breaks the alignment: no operation
      of its owner accounts for it. */
  lemma LateCommitNeverAligned(c: Config, s: System, tag: nat)
    requires ValidConfig(c) && Inv(c, s) && Enabled(c, s, CommitLate(tag))
    ensures !Inv(c, Next(c, s, CommitLate(tag)))
  {
    hide ReplicaOk, SnapOk, PendingOk;
    var t, cmd := Next(c, s, CommitLate(tag)), s.lost[tag];
    var w := cmd.workflow;
    assert w in c.owner && OwnerOk(c, s, w);
    var r := s.replicas[c.owner[w]];
    AppliedInLog(s.log, r);
    ForeignEntry(s.log, s.tags, Lookup(s.pending, w), r.applied, r.sm.queues, w, cmd, tag);
    assert !OwnerOk(c, t, w);
  }

  /** An entry of the workflow that is not its outstanding operation's. */
  lemma ForeignEntry(
    log: seq<Command>, tags: seq<nat>, pending: Option<Pending>, applied: nat, queues: Queues, w: string,
                     cmd: Command, tag: nat)
    requires |tags| == |log| && applied <= |log| && Touches(cmd, w) && (pending.Some? ==> pending.value.tag != tag)
    ensures !PendingOk(log + [cmd], tags + [tag], pending, applied, queues, w)
  {
    hide OwnQueue, OwnEntry;
    assert (log + [cmd])[|log|] == cmd && (tags + [tag])[|log|] == tag;
  }

  /** What the prefix theorems ask of a step: snapshots are installed only where nothing was read yet,
      operations are given up only when their owner has applied every entry of the workflow, and what
      was given up does not commit later. */
  ghost predicate Orderly(c: Config, s: System, step: Step)
    requires Enabled(c, s, step)
  {
    match step
    case Install(node, snap) => FreshFor(s.log, s.replicas[node], snap)
    case Abandon(w) => w in c.owner && c.owner[w] in s.replicas && Quiet(s.log, s.replicas[c.owner[w]].applied, w)
    case CommitLate(_) => false
    case _ => true
  }

  lemma StepInv(c: Config, s: System, step: Step)
    requires ValidConfig(c) && Inv(c, s) && Enabled(c, s, step) && Orderly(c, s, step)
    ensures Inv(c, Next(c, s, step))
  {
    match step
    case Begin(node, cmd, tag) => BeginInv(c, s, node, cmd, tag);
    case Commit(w) => CommitInv(c, s, w);
    case CommitOther(cmd, tag) => CommitOtherInv(c, s, cmd, tag);
    case ApplyNext(node) => ApplyInv(c, s, node);
    case Dequeue(node, w, key) => DequeueInv(c, s, node, w, key);
    case Return(w) => ReturnInv(c, s, w);
    case Abandon(w) => AbandonExactly(c, s, w);
    case CommitLate(tag) =>
    case EventReturn(node, i) => EventReturnInv(c, s, node, i);
    case TakeSnap(node) => TakeSnapInv(c, s, node);
    case Install(node, snap) => InstallInv(c, s, node, snap);
  }

  // ----- Whole runs -----

  /** A run: every step enabled. */
  ghost predicate IsRun(c: Config, steps: seq<Step>, states: seq<System>) {
    && |states| == |steps| + 1
    && states[0] == Start(c)
    && forall i :: 0 <= i < |steps| ==> Enabled(c, states[i], steps[i]) && states[i + 1] == Next(c, states[i], steps[i])
  }

  ghost predicate IsOrderlyRun(c: Config, steps: seq<Step>, states: seq<System>) {
    IsRun(c, steps, states) && forall i :: 0 <= i < |steps| ==> Orderly(c, states[i], steps[i])
  }

  lemma {:induction false} RunInv(c: Config, steps: seq<Step>, states: seq<System>, i: nat)
    requires ValidConfig(c) && IsOrderlyRun(c, steps, states) && i < |states|
    ensures Inv(c, states[i])
  {
    if i == 0 {
      StartInv(c);
    } else {
      hide Orderly;
      RunInv(c, steps, states, i - 1);
      assert Enabled(c, states[i - 1], steps[i - 1]);
      StepInv(c, states[i - 1], steps[i - 1]);
    }
  }

  lemma {:induction false} LogOnlyGrows(c: Config, steps: seq<Step>, states: seq<System>, i: nat, j: nat)
    requires IsRun(c, steps, states) && i <= j < |states|
    ensures states[i].log <= states[j].log
  {
    hide Enabled, Next;
    if i < j {
      LogOnlyGrows(c, steps, states, i, j - 1);
      StepExtendsLog(c, states[j - 1], steps[j - 1]);
    }
  }

  lemma StepExtendsLog(c: Config, s: System, step: Step)
    requires Enabled(c, s, step)
    ensures s.log <= Next(c, s, step).log
  {
    hide Enabled, MakeQueueKey, Epoch, Apply, Pop;
  }

  lemma TakenIsPrefix(c: Config, s: System, log: seq<Command>, r: Replica, w: string, key: string, e: nat)
    requires ValidConfig(c) && w in c.owner && ReplicaOk(s.log, r) && s.log <= log
    requires forall k :: 0 <= k < |log| ==> LoggedOk(c, log[k])
    ensures At(r.taken, Slot(MakeQueueKey(w, key), e)) <= CommittedFor(log, w, key, e)
  {
    hide Committed, Epoch, Replay, Aligned, MakeQueueKey, CommittedFor, EndsOf, SeenOk;
    var flat := MakeQueueKey(w, key);
    assert s.log[..r.applied] == log[..r.applied];
    assert OnTrack(log[..r.applied], r.taken, flat, e);
    CommittedGrows(log, r.applied, flat, e);
    FlatKeysRefinePairs(log, c.owner.Keys, w, key, e);
  }

  /** What any node has read of a checkpoint at any time of a run is a prefix of the one
      committed sequence of that (workflow, key) in that epoch, as it stands at any later time. */
  lemma ReadsArePrefixesOfCommitted(c: Config, steps: seq<Step>, states: seq<System>, i: nat, j: nat,
                                    node: nat, w: string, key: string, e: nat)
    requires ValidConfig(c) && IsOrderlyRun(c, steps, states) && i <= j < |states|
    requires node in c.nodes && w in c.owner
    ensures node in states[i].replicas
    ensures At(states[i].replicas[node].taken, Slot(MakeQueueKey(w, key), e)) <= CommittedFor(states[j].log, w, key, e)
  {
    hide ReplicaOk, OwnerOk, SnapOk, MakeQueueKey, CommittedFor, Enabled, Next, Orderly;
    RunInv(c, steps, states, i);
    RunInv(c, steps, states, j);
    LogOnlyGrows(c, steps, states, i, j);
    TakenIsPrefix(c, states[i], states[j].log, states[i].replicas[node], w, key, e);
  }

  /** Two nodes, at any two times of a run, agree at every position of a checkpoint both have read. */
  lemma CheckpointsAgree(c: Config, steps: seq<Step>, states: seq<System>, i: nat, j: nat,
                         a: nat, b: nat, w: string, key: string, e: nat)
    requires ValidConfig(c) && IsOrderlyRun(c, steps, states) && i < |states| && j < |states|
    requires a in c.nodes && b in c.nodes && w in c.owner
    ensures a in states[i].replicas && b in states[j].replicas
    ensures var slot := Slot(MakeQueueKey(w, key), e);
            var x, y := At(states[i].replicas[a].taken, slot), At(states[j].replicas[b].taken, slot);
            forall p :: 0 <= p < |x| && p < |y| ==> x[p] == y[p]
  {
    var last := |states| - 1;
    ReadsArePrefixesOfCommitted(c, steps, states, i, last, a, w, key, e);
    ReadsArePrefixesOfCommitted(c, steps, states, j, last, b, w, key, e);
  }
}
