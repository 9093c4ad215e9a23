/** Checkpoint replication: N replicas apply one committed log; the owner of a workflow
    proposes its checkpoints and pops its own value after applying it, every replica dequeues
    at its own pace, and a replica may install another replica's snapshot. */
module CheckpointProtocol {
  import opened Wrappers
  import opened CheckpointKeys
  import opened WorkflowState

  /** Sent: not yet committed. InLog: committed. Done: applied on the owner, the waiter may return. */
  datatype Phase = Sent | InLog | Done

  /** The one outstanding owner operation of a workflow, with the id its log entry carries. */
  datatype Pending = Pending(tag: nat, cmd: Command, phase: Phase)

  /** One flat key in one epoch. */
  datatype Slot = Slot(flat: string, epoch: nat)

  /** What was handed out, slot by slot. */
  type Ledger = map<Slot, seq<Bytes>>

  /** `taken` are the values handed to the execution by the owner and dequeue paths,
      `seen` those handed over by an event, without a pop. */
  datatype Replica = Replica(
    applied: nat,
    sm: State,
    taken: Ledger,
    seen: Ledger)

  datatype Snap = Snap(index: nat, data: SnapshotData)

  /** tags[i] is the id carried by log[i]. `lost` are operations that ended with an error while their
      proposals were still on the way to the log. */
  datatype System = System(
    log: seq<Command>,
    tags: seq<nat>,
    replicas: map<nat, Replica>,
    pending: map<string, Pending>,
    snaps: set<Snap>,
    lost: map<nat, Command>)

  /** Every workflow has one fixed owner among the nodes. */
  datatype Config = Config(owner: map<string, nat>, nodes: set<nat>)

  ghost predicate Compatible(ids: set<string>) {
    forall w1, w2 :: w1 in ids && w2 in ids && w1 != w2 ==> !Conflict(w1, w2)
  }

  ghost predicate ValidConfig(c: Config) {
    && (forall w :: w in c.owner ==> c.owner[w] in c.nodes)
    && Compatible(c.owner.Keys)
  }

  function At(m: Ledger, slot: Slot): seq<Bytes> {
    if slot in m then m[slot] else []
  }

  const FRESH: Replica := Replica(0, INITIAL, map[], map[])

  function Start(c: Config): System {
    System([], [], map n | n in c.nodes :: FRESH, map[], {}, map[])
  }

  /** The ownership test of the runtime: an unregistered workflow counts as owned. */
  predicate IsWorkflowOwner(s: State, node: nat, w: string) {
    w in s.ownership ==> s.ownership[w] == node
  }

  /** The epoch of a key as the replica has applied it. */
  function EpochAt(s: System, r: Replica, flat: string): nat
    requires r.applied <= |s.log|
  {
    Epoch(s.log[..r.applied], flat)
  }

  predicate Touches(c: Command, w: string) {
    (c.SetCheckpoint? || c.WorkflowEnd?) && c.workflow == w
  }

  /** Commands of other clients: they start workflows or restate ownership, never set checkpoints. */
  predicate Benign(c: Config, cmd: Command) {
    && cmd.workflow in c.owner
    && match cmd
       case WorkflowStart(w, _, _, _, owner) => owner == c.owner[w]
       case OwnerChange(w, _, owner, _) => owner == c.owner[w]
       case _ => false
  }

  /** What the event of an applied checkpoint entry hands to a node that waits for this checkpoint. */
  function Heard(c: Command): Option<Bytes>
    requires c.SetCheckpoint?
  {
    Announced(EventsOf(c), c.workflow, c.key)
  }

  predicate Unused(s: System, tag: nat) {
    tag !in s.tags && tag !in s.lost && forall w :: w in s.pending ==> s.pending[w].tag != tag
  }

  datatype Step =
    | Begin(node: nat, cmd: Command, tag: nat)      // an execution starts an owner operation
    | Commit(workflow: string)                      // its entry enters the log
    | CommitOther(cmd: Command, tag: nat)           // another client's entry enters the log
    | ApplyNext(node: nat)                          // a replica applies its next entry
    | Dequeue(node: nat, workflow: string, key: string)
    | Return(workflow: string)                      // the owner operation completes
    | Abandon(workflow: string)                     // the owner operation ends with an error, its waiter is lost
    | CommitLate(tag: nat)                          // the entry of a failed operation enters the log after all
    | EventReturn(node: nat, index: nat)            // a waiting follower takes the value of an event
    | TakeSnap(node: nat)
    | Install(node: nat, snap: Snap)

  predicate Enabled(c: Config, s: System, step: Step) {
    match step
    case Begin(node, cmd, tag) =>
      && node in s.replicas && Unused(s, tag)
      && (cmd.SetCheckpoint? || cmd.WorkflowEnd?)
      && cmd.workflow in c.owner && cmd.workflow !in s.pending
      && (var sm := s.replicas[node].sm;
          && cmd.workflow in sm.ownership            // executions begin when the start was applied
          && IsWorkflowOwner(sm, node, cmd.workflow)
          && (cmd.SetCheckpoint? ==> Values(sm.queues, MakeQueueKey(cmd.workflow, cmd.key)) == []))
    case Commit(w) =>
      w in s.pending && s.pending[w].phase == Sent
    case CommitOther(cmd, tag) =>
      Benign(c, cmd) && Unused(s, tag)
    case ApplyNext(node) =>
      node in s.replicas && s.replicas[node].applied < |s.log| && |s.tags| == |s.log|
    case Dequeue(node, w, key) =>
      && node in s.replicas && w in c.owner
      && s.replicas[node].applied <= |s.log|
      && Values(s.replicas[node].sm.queues, MakeQueueKey(w, key)) != []
      && (node == c.owner[w] ==> w !in s.pending)    // one execution, one call at a time
    case CommitLate(tag) =>
      tag in s.lost
    case Return(w) =>
      && |s.tags| == |s.log|
      && w in s.pending && s.pending[w].phase == Done && w in c.owner && c.owner[w] in s.replicas
      && s.replicas[c.owner[w]].applied <= |s.log|
    case Abandon(w) =>
      w in s.pending
    case EventReturn(node, i) =>
      && node in s.replicas && i < s.replicas[node].applied <= |s.log|
      && s.log[i].SetCheckpoint? && Heard(s.log[i]).Some?
      && !IsWorkflowOwner(s.replicas[node].sm, node, s.log[i].workflow)
    case TakeSnap(node) =>
      node in s.replicas
    case Install(node, snap) =>
      && node in s.replicas && snap in s.snaps
      && s.replicas[node].applied < snap.index <= |s.log|
  }

  /** Nothing was handed out in the epochs that are current after `now`. */
  ghost predicate NothingRead(now: seq<Command>, taken: Ledger) {
    forall flat :: At(taken, Slot(flat, Epoch(now, flat))) == []
  }

  /** The replica's execution has read nothing yet from the epochs the snapshot restores. */
  ghost predicate FreshFor(log: seq<Command>, r: Replica, snap: Snap)
    requires snap.index <= |log|
  {
    NothingRead(log[..snap.index], r.taken)
  }

  function SetReplica(s: System, node: nat, r: Replica): System {
    s.(replicas := s.replicas[node := r])
  }

  function Record(m: Ledger, slot: Slot, v: Bytes): Ledger {
    m[slot := At(m, slot) + [v]]
  }

  /** The owner's waiter is completed when the entry with its id is applied on its node. */
  function MarkDone(p: Option<Pending>, w: string, entryOf: string, tag: nat): Option<Pending> {
    if p.Some? && entryOf == w && p.value.tag == tag && p.value.phase == InLog
    then Some(p.value.(phase := Done)) else p
  }

  /** Where the entry with the id stands in the log. */
  function IndexOf(tags: seq<nat>, tag: nat): (k: nat)
    ensures k <= |tags|
  {
    if tags == [] then 0
    else if tags[|tags| - 1] == tag then |tags| - 1
    else IndexOf(tags[..|tags| - 1], tag)
  }

  function Complete(c: Config, pending: map<string, Pending>, node: nat, w: string, tag: nat): map<string, Pending> {
    if w in pending && w in c.owner && c.owner[w] == node
    then pending[w := MarkDone(Some(pending[w]), w, w, tag).value]
    else pending
  }

  function Next(c: Config, s: System, step: Step): System
    requires Enabled(c, s, step)
  {
    match step
    case Begin(_, cmd, tag) =>
      s.(pending := s.pending[cmd.workflow := Pending(tag, cmd, Sent)])
    case Commit(w) =>
      var p := s.pending[w];
      s.(log := s.log + [p.cmd], tags := s.tags + [p.tag], pending := s.pending[w := p.(phase := InLog)])
    case CommitOther(cmd, tag) =>
      s.(log := s.log + [cmd], tags := s.tags + [tag])
    case ApplyNext(node) =>
      var r := s.replicas[node];
      var cmd := s.log[r.applied];
      SetReplica(s, node, r.(applied := r.applied + 1, sm := Apply(r.sm, cmd)))
      .(pending := Complete(c, s.pending, node, cmd.workflow, s.tags[r.applied]))
    case Dequeue(node, w, key) =>
      var r, flat := s.replicas[node], MakeQueueKey(w, key);
      SetReplica(s, node, r.(sm := Pop(r.sm, flat),
                             taken := Record(r.taken, Slot(flat, EpochAt(s, r, flat)), r.sm.queues[flat][0])))
    case Return(w) =>
      var p, node := s.pending[w], c.owner[w];
      var r := s.replicas[node];
      var t := s.(pending := s.pending - {w});
      if p.cmd.SetCheckpoint? then
        var flat := MakeQueueKey(w, p.cmd.key);
        // pops the queue, whatever is in front, and returns the proposed value
        SetReplica(t, node, r.(sm := Pop(r.sm, flat),
                               taken := Record(r.taken, Slot(flat, Epoch(s.log[..IndexOf(s.tags, p.tag)], flat)),
                                   p.cmd.value)))
      else t
    case Abandon(w) =>
      var p := s.pending[w];
      s.(pending := s.pending - {w}, lost := if p.phase == Sent then s.lost[p.tag := p.cmd] else s.lost)
    case CommitLate(tag) =>
      s.(log := s.log + [s.lost[tag]], tags := s.tags + [tag], lost := s.lost - {tag})
    case EventReturn(node, i) =>
      var r := s.replicas[node];
      var flat := MakeQueueKey(s.log[i].workflow, s.log[i].key);
      SetReplica(s, node, r.(seen := Record(r.seen, Slot(flat, Epoch(s.log[..i], flat)), Heard(s.log[i]).value)))
    case TakeSnap(node) =>
      var r := s.replicas[node];
      s.(snaps := s.snaps + {Snap(r.applied, TakeSnapshot(r.sm))})
    case Install(node, snap) =>
      var r := s.replicas[node];
      SetReplica(s, node, r.(applied := snap.index, sm := Restored(snap.data)))
  }

  // ----- The invariant -----

  /** What was handed out in the current epoch and what is still queued are the current values. */
  ghost predicate Aligned(now: seq<Command>, queues: Queues, taken: Ledger, flat: string) {
    At(taken, Slot(flat, Epoch(now, flat))) + Values(queues, flat) == CurrentValues(now, flat)
  }

  /** What was handed out in an epoch is a prefix of what was committed in it. */
  ghost predicate OnTrack(now: seq<Command>, taken: Ledger, flat: string, e: nat) {
    At(taken, Slot(flat, e)) <= Committed(now, flat, e)
  }

  /** What a replica holds after applying exactly `now`. */
  ghost predicate InStep(now: seq<Command>, sm: State, taken: Ledger) {
    && TakeSnapshot(sm) == TakeSnapshot(Replay(now))
    && (forall flat :: Aligned(now, sm.queues, taken, flat))
    && (forall flat, e :: OnTrack(now, taken, flat, e))
  }

  /** Every event value was committed for exactly that key in that epoch. */
  ghost predicate SeenOk(log: seq<Command>, seen: Ledger) {
    forall slot, v :: v in At(seen, slot) ==> v in Committed(log, slot.flat, slot.epoch)
  }

  ghost predicate ReplicaOk(log: seq<Command>, r: Replica) {
    && r.applied <= |log|
    && InStep(log[..r.applied], r.sm, r.taken)
    && SeenOk(log, r.seen)
  }

  /** No entry from position `from` on concerns the workflow. */
  ghost predicate Quiet(log: seq<Command>, from: nat, w: string) {
    forall i :: from <= i < |log| ==> !Touches(log[i], w)
  }

  /** The queue the operation depends on, [] for an operation that depends on none. */
  function OwnQueue(queues: Queues, w: string, cmd: Command): seq<Bytes> {
    if cmd.SetCheckpoint? then Values(queues, MakeQueueKey(w, cmd.key)) else []
  }

  /** The operation's entry is in the log, and nothing behind it concerns the workflow. */
  ghost predicate OwnEntry(log: seq<Command>, tags: seq<nat>, tag: nat, cmd: Command, w: string)
    requires |tags| == |log|
  {
    && tag in tags
    && forall i: nat :: i < |log| && tags[i] == tag ==> log[i] == cmd && Quiet(log, i + 1, w)
  }

  /** How an outstanding owner operation of w relates to the log and to its owner's replica. */
  ghost predicate PendingOk(
    log: seq<Command>, tags: seq<nat>, pending: Option<Pending>, applied: nat, queues: Queues, w: string) {
    && |tags| == |log|
    && match pending
       case None => Quiet(log, applied, w)
       case Some(Pending(tag, cmd, phase)) =>
         && Touches(cmd, w)
         && match phase
            case Sent => tag !in tags && Quiet(log, applied, w) && OwnQueue(queues, w, cmd) == []
            case InLog =>
              && OwnEntry(log, tags, tag, cmd, w)
              && (forall i :: applied <= i < |log| && Touches(log[i], w) ==> tags[i] == tag)
              && (tag !in tags[..if applied <= |tags| then applied else 0] ==> OwnQueue(queues, w, cmd) == [])
            case Done =>
              && Quiet(log, applied, w)
              && OwnEntry(log, tags, tag, cmd, w)
              && tag in tags[..if applied <= |tags| then applied else 0]
              && (cmd.SetCheckpoint? ==> OwnQueue(queues, w, cmd) == [cmd.value])
  }

  function Lookup(pending: map<string, Pending>, w: string): Option<Pending> {
    if w in pending then Some(pending[w]) else None
  }

  predicate LoggedOk(c: Config, cmd: Command) {
    cmd.workflow in c.owner && (cmd.WorkflowStart? || cmd.OwnerChange? ==> Benign(c, cmd))
  }

  ghost predicate LogOk(c: Config, s: System) {
    && |s.tags| == |s.log|
    && (forall i, j :: 0 <= i < j < |s.tags| ==> s.tags[i] != s.tags[j])
    && (forall i :: 0 <= i < |s.log| ==> LoggedOk(c, s.log[i]))
    && s.pending.Keys <= c.owner.Keys
    && (forall w :: w in s.pending ==> Touches(s.pending[w].cmd, w))
    && (forall t :: t in s.lost ==>
        t !in s.tags && s.lost[t].workflow in c.owner && Touches(s.lost[t], s.lost[t].workflow))
    && (forall t, w :: t in s.lost && w in s.pending ==> s.pending[w].tag != t)
    && (forall w1, w2 :: w1 in s.pending && w2 in s.pending && w1 != w2 ==> s.pending[w1].tag != s.pending[w2].tag)
  }

  ghost predicate SnapOk(log: seq<Command>, snap: Snap) {
    snap.index <= |log| && snap.data == TakeSnapshot(Replay(log[..snap.index]))
  }

  /** The owner's replica agrees with the workflow's outstanding operation. */
  ghost predicate OwnerOk(c: Config, s: System, w: string)
    requires w in c.owner
  {
    && c.owner[w] in s.replicas
    && var r := s.replicas[c.owner[w]];
       PendingOk(s.log, s.tags, Lookup(s.pending, w), r.applied, r.sm.queues, w)
  }

  ghost predicate Inv(c: Config, s: System) {
    && s.replicas.Keys == c.nodes
    && LogOk(c, s)
    && (forall n :: n in s.replicas ==> ReplicaOk(s.log, s.replicas[n]))
    && (forall w :: w in c.owner ==> OwnerOk(c, s, w))
    && (forall snap :: snap in s.snaps ==> SnapOk(s.log, snap))
  }
}
