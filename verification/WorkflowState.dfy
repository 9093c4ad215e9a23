/** The replicated workflow state as a value: commands, their effect, snapshots,
    and the meaning of the checkpoint queues and histories in terms of the log. */
module WorkflowState {
  import opened Wrappers
  import opened CheckpointKeys

  datatype Status = Running | Completed | Failed

  datatype OwnerChangeReason = NodeFailure | LoadBalancing

  datatype Command =
    | WorkflowStart(workflow: string, workflowType: string, version: nat, input: Bytes, owner: nat)
    | WorkflowEnd(workflow: string, result: Bytes)
    | SetCheckpoint(workflow: string, key: string, value: Bytes)
    | OwnerChange(workflow: string, oldOwner: nat, newOwner: nat, reason: OwnerChangeReason)

  datatype Event =
    | WorkflowStarted(workflow: string, workflowType: string, version: nat, owner: nat)
    | WorkflowCompleted(workflow: string, result: Bytes)
    | WorkflowFailed(workflow: string, error: Bytes)
    | CheckpointSet(workflow: string, key: string, value: Bytes)
    | OwnershipChanged(workflow: string, oldOwner: nat, newOwner: nat)

  type Queues = map<string, seq<Bytes>>

  datatype State = State(
    workflows: map<string, Status>,
    inputs: map<string, Bytes>,
    results: map<string, Bytes>,
    queues: Queues,
    history: Queues,
    ownership: map<string, nat>)

  /** What a snapshot carries: everything but the transient queues. */
  datatype SnapshotData = SnapshotData(
    workflows: map<string, Status>,
    inputs: map<string, Bytes>,
    results: map<string, Bytes>,
    history: Queues,
    ownership: map<string, nat>)

  const INITIAL: State := State(map[], map[], map[], map[], map[], map[])

  function Values(m: Queues, flat: string): seq<Bytes> {
    if flat in m then m[flat] else []
  }

  function Push(m: Queues, flat: string, v: Bytes): Queues {
    m[flat := Values(m, flat) + [v]]
  }

  function Sweep(m: Queues, workflow: string): Queues {
    map k | k in m && !Sweeps(workflow, k) :: m[k]
  }

  function Apply(s: State, c: Command): State {
    match c
    case WorkflowStart(w, _, _, input, owner) =>
      s.(workflows := s.workflows[w := Running], inputs := s.inputs[w := input], ownership := s.ownership[w := owner])
    case WorkflowEnd(w, result) =>
      s.(workflows := s.workflows[w := Completed], results := s.results[w := result], inputs := s.inputs - {w},
         queues := Sweep(s.queues, w), history := Sweep(s.history, w))
    case SetCheckpoint(w, key, v) =>
      s.(queues := Push(s.queues, MakeQueueKey(w, key), v), history := Push(s.history, MakeQueueKey(w, key), v))
    case OwnerChange(w, _, owner, _) =>
      s.(ownership := s.ownership[w := owner])
  }

  function EventsOf(c: Command): seq<Event> {
    match c
    case WorkflowStart(w, t, version, _, owner) => [WorkflowStarted(w, t, version, owner)]
    case WorkflowEnd(w, result) => [WorkflowCompleted(w, result)]
    case SetCheckpoint(w, key, v) => [CheckpointSet(w, key, v)]
    case OwnerChange(w, o, n, _) => [OwnershipChanged(w, o, n)]
  }

  /** What an event says about one checkpoint: the value, if it announces exactly that one. */
  function CheckpointIn(e: Event, workflow: string, key: string): Option<Bytes> {
    if e.CheckpointSet? && e.workflow == workflow && e.key == key then Some(e.value) else None
  }

  /** The first value the events announce for the checkpoint. */
  function Announced(events: seq<Event>, workflow: string, key: string): Option<Bytes> {
    if events == [] then None
    else if CheckpointIn(events[0], workflow, key).Some? then CheckpointIn(events[0], workflow, key)
    else Announced(events[1..], workflow, key)
  }

  /** Pop the front of one queue; an emptied queue keeps its key. */
  function Pop(s: State, flat: string): State {
    if Values(s.queues, flat) == [] then s else s.(queues := s.queues[flat := s.queues[flat][1..]])
  }

  /** The registered owner of a workflow. */
  function OwnerOf(s: State, w: string): Option<nat> {
    if w in s.ownership then Some(s.ownership[w]) else None
  }

  function TakeSnapshot(s: State): SnapshotData {
    SnapshotData(s.workflows, s.inputs, s.results, s.history, s.ownership)
  }

  /** Queues are rebuilt from the full history. */
  function Restored(d: SnapshotData): State {
    State(d.workflows, d.inputs, d.results, d.history, d.history, d.ownership)
  }

  /** Apply a whole log to the empty state. */
  function Replay(log: seq<Command>): State {
    if log == [] then INITIAL else Apply(Replay(log[..|log| - 1]), log[|log| - 1])
  }

  // ----- What the log says about one flat key -----

  predicate IsSweep(c: Command, flat: string) {
    c.WorkflowEnd? && Sweeps(c.workflow, flat)
  }

  predicate IsSet(c: Command, flat: string) {
    c.SetCheckpoint? && MakeQueueKey(c.workflow, c.key) == flat
  }

  /** How often the log swept the key. */
  function Epoch(log: seq<Command>, flat: string): nat {
    if log == [] then 0
    else Epoch(log[..|log| - 1], flat) + if IsSweep(log[|log| - 1], flat) then 1 else 0
  }

  /** The values the log sets for the key after exactly e sweeps. */
  function Committed(log: seq<Command>, flat: string, e: nat): seq<Bytes> {
    if log == [] then []
    else
      var before, last := log[..|log| - 1], log[|log| - 1];
      Committed(before, flat, e) + if IsSet(last, flat) && Epoch(before, flat) == e then [last.value] else []
  }

  /** The values set since the last sweep of the key. */
  function CurrentValues(log: seq<Command>, flat: string): seq<Bytes> {
    Committed(log, flat, Epoch(log, flat))
  }

  lemma ExtendLog(log: seq<Command>, c: Command, flat: string, e: nat)
    ensures Replay(log + [c]) == Apply(Replay(log), c)
    ensures Epoch(log + [c], flat) == Epoch(log, flat) + if IsSweep(c, flat) then 1 else 0
    ensures Committed(log + [c], flat, e)
            == Committed(log, flat, e) + if IsSet(c, flat) && Epoch(log, flat) == e then [c.value] else []
  {
    assert (log + [c])[..|log|] == log;
  }

  /** Nothing is committed to an epoch that has not begun. */
  lemma {:induction false} FutureEpochsAreEmpty(log: seq<Command>, flat: string, e: nat)
    requires e > Epoch(log, flat)
    ensures Committed(log, flat, e) == []
  {
    if log != [] {
      FutureEpochsAreEmpty(log[..|log| - 1], flat, e);
    }
  }

  /** A longer log only appends to what was committed, epoch by epoch. */
  lemma {:induction false} CommittedGrows(log: seq<Command>, n: nat, flat: string, e: nat)
    requires n <= |log|
    ensures Committed(log[..n], flat, e) <= Committed(log, flat, e)
    ensures Epoch(log[..n], flat) <= Epoch(log, flat)
  {
    if n < |log| {
      var before := log[..|log| - 1];
      assert before[..n] == log[..n];
      CommittedGrows(before, n, flat, e);
    } else {
      assert log[..n] == log;
    }
  }

  /** An epoch that is over never changes again. */
  lemma {:induction false} PastEpochsAreFinal(log: seq<Command>, n: nat, flat: string, e: nat)
    requires n <= |log| && e < Epoch(log[..n], flat)
    ensures Committed(log, flat, e) == Committed(log[..n], flat, e)
  {
    if n < |log| {
      var before := log[..|log| - 1];
      assert before[..n] == log[..n];
      PastEpochsAreFinal(before, n, flat, e);
      CommittedGrows(before, n, flat, e);
    } else {
      assert log[..n] == log;
    }
  }

  /** The history of a key is exactly what the log set since the last sweep covering it. */
  lemma {:induction false} HistoryIsCurrentValues(log: seq<Command>, flat: string)
    ensures flat in Replay(log).history <==> CurrentValues(log, flat) != []
    ensures Values(Replay(log).history, flat) == CurrentValues(log, flat)
  {
    if log != [] {
      var before, c := log[..|log| - 1], log[|log| - 1];
      HistoryIsCurrentValues(before, flat);
      if IsSweep(c, flat) {
        FutureEpochsAreEmpty(before, flat, Epoch(log, flat));
      }
    }
  }

  // ----- What a node learns from the events of a command -----

  /** A waiter for a checkpoint learns the value of the command that sets exactly this checkpoint, and
      nothing from any other command. */
  lemma AnnouncedExactly(c: Command, workflow: string, key: string)
    ensures Announced(EventsOf(c), workflow, key)
            == if c.SetCheckpoint? && c.workflow == workflow && c.key == key then Some(c.value) else None
  {
  }

  /** A command emits one event, for its own workflow, and the event tells what applying the command
      does: the owner after a start or an ownership change, the result after an end, and the value
      behind everything set before. */
  lemma EventsTellTheState(s: State, c: Command)
    ensures |EventsOf(c)| == 1 && EventsOf(c)[0].workflow == c.workflow
    ensures var t, w := Apply(s, c), c.workflow;
            match EventsOf(c)[0]
            case WorkflowStarted(_, kind, version, owner) =>
              && c.WorkflowStart? && kind == c.workflowType && version == c.version
              && t.ownership == s.ownership[w := owner] && t.workflows == s.workflows[w := Running]
            case WorkflowCompleted(_, result) =>
              && c.WorkflowEnd?
              && t.results == s.results[w := result] && t.workflows == s.workflows[w := Completed]
            case CheckpointSet(_, key, value) =>
              && c.SetCheckpoint? && key == c.key
              && Values(t.history, MakeQueueKey(w, key)) == Values(s.history, MakeQueueKey(w, key)) + [value]
              && Values(t.queues, MakeQueueKey(w, key)) == Values(s.queues, MakeQueueKey(w, key)) + [value]
            case OwnershipChanged(_, before, after) =>
              && c.OwnerChange? && before == c.oldOwner && t.ownership == s.ownership[w := after]
            case WorkflowFailed(_, _) => false
  {
  }

  // ----- What the log says about a workflow -----

  predicate StartsOrEnds(c: Command, w: string) {
    c.workflow == w && (c.WorkflowStart? || c.WorkflowEnd?)
  }

  predicate NamesOwner(c: Command, w: string) {
    c.workflow == w && (c.WorkflowStart? || c.OwnerChange?)
  }

  /** No start or end of the workflow from position `from` on. */
  ghost predicate NoStartOrEnd(log: seq<Command>, from: nat, w: string) {
    forall i: nat :: from <= i < |log| ==> !StartsOrEnds(log[i], w)
  }

  /** A workflow is Running with its input after its last start, and Completed without it after its
      last end. */
  lemma {:induction false} StatusIsLastStartOrEnd(log: seq<Command>, w: string, k: nat)
    requires k < |log| && StartsOrEnds(log[k], w) && NoStartOrEnd(log, k + 1, w)
    ensures var s := Replay(log);
            if log[k].WorkflowStart?
            then w in s.workflows && s.workflows[w] == Running && w in s.inputs && s.inputs[w] == log[k].input
            else w in s.workflows && s.workflows[w] == Completed && w !in s.inputs
  {
    if k < |log| - 1 {
      var before := log[..|log| - 1];
      assert before[k] == log[k];
      assert !StartsOrEnds(log[|log| - 1], w);
      StatusIsLastStartOrEnd(before, w, k);
    }
  }

  /** The recorded result is that of the last end, whether or not the workflow was started again. */
  lemma {:induction false} ResultIsLastEnd(log: seq<Command>, w: string, k: nat)
    requires k < |log| && log[k].WorkflowEnd? && log[k].workflow == w
    requires forall i :: k < i < |log| ==> !(log[i].WorkflowEnd? && log[i].workflow == w)
    ensures w in Replay(log).results && Replay(log).results[w] == log[k].result
  {
    if k < |log| - 1 {
      var before := log[..|log| - 1];
      assert before[k] == log[k];
      assert !(log[|log| - 1].WorkflowEnd? && log[|log| - 1].workflow == w);
      ResultIsLastEnd(before, w, k);
    }
  }

  /** A workflow never started nor ended is unknown, and so is the result of one that never ended. */
  lemma {:induction false} UnknownWithoutCommands(log: seq<Command>, w: string)
    ensures NoStartOrEnd(log, 0, w) ==> w !in Replay(log).workflows && w !in Replay(log).inputs
    ensures (forall i :: 0 <= i < |log| ==> !(log[i].WorkflowEnd? && log[i].workflow == w)) ==>
              w !in Replay(log).results
  {
    if log != [] {
      var before := log[..|log| - 1];
      assert forall i :: 0 <= i < |before| ==> before[i] == log[i];
      UnknownWithoutCommands(before, w);
    }
  }

  /** The registered owner is the one named by the last start or ownership change. */
  lemma {:induction false} OwnerIsLastNamed(log: seq<Command>, w: string, k: nat)
    requires k < |log| && NamesOwner(log[k], w) && forall i :: k < i < |log| ==> !NamesOwner(log[i], w)
    ensures OwnerOf(Replay(log), w) == Some(if log[k].WorkflowStart? then log[k].owner else log[k].newOwner)
  {
    if k < |log| - 1 {
      var before := log[..|log| - 1];
      assert before[k] == log[k];
      assert !NamesOwner(log[|log| - 1], w);
      OwnerIsLastNamed(before, w, k);
    }
  }

  /** Without such a command nobody is registered. */
  lemma {:induction false} NobodyIsNamed(log: seq<Command>, w: string)
    requires forall i :: 0 <= i < |log| ==> !NamesOwner(log[i], w)
    ensures OwnerOf(Replay(log), w) == None
  {
    if log != [] {
      assert !NamesOwner(log[|log| - 1], w);
      NobodyIsNamed(log[..|log| - 1], w);
    }
  }

  /** A restored replica has all replicated fields of the replica that took the snapshot, and its queues
      hold every value of the histories again. */
  lemma RestoredFromSnapshot(s: State)
    ensures var t := Restored(TakeSnapshot(s));
            && t.workflows == s.workflows && t.inputs == s.inputs && t.results == s.results
            && t.ownership == s.ownership && t.history == s.history && t.queues == s.history
  {
  }

  // ----- One replica over every run of applies, pops and restores -----

  /** A restore installs the snapshot of a replica that applied `log`. */
  datatype Op = DoApply(c: Command) | DoPop(workflow: string, key: string) | DoRestore(log: seq<Command>)

  /** The state, and the log it stands for. */
  datatype Run = Run(s: State, log: seq<Command>)

  function Step(r: Run, op: Op): Run {
    match op
    case DoApply(c) => Run(Apply(r.s, c), r.log + [c])
    case DoPop(w, key) => Run(Pop(r.s, MakeQueueKey(w, key)), r.log)
    case DoRestore(log) => Run(Restored(TakeSnapshot(Replay(log))), log)
  }

  function Execute(ops: seq<Op>): Run {
    if ops == [] then Run(INITIAL, []) else Step(Execute(ops[..|ops| - 1]), ops[|ops| - 1])
  }

  predicate IsSuffix(a: seq<Bytes>, b: seq<Bytes>) {
    |a| <= |b| && a == b[|b| - |a|..]
  }

  ghost predicate QueuesMatchHistory(s: State) {
    && s.queues.Keys == s.history.Keys
    && forall k :: k in s.queues ==> IsSuffix(s.queues[k], s.history[k])
  }

  lemma ApplyKeepsQueuesMatching(s: State, c: Command)
    requires QueuesMatchHistory(s)
    ensures QueuesMatchHistory(Apply(s, c))
  {
    if c.SetCheckpoint? {
      var flat := MakeQueueKey(c.workflow, c.key);
      var t := Apply(s, c);
      forall k | k in t.queues ensures IsSuffix(t.queues[k], t.history[k]) {
        if k == flat {
          var q, h := Values(s.queues, flat), Values(s.history, flat);
          assert IsSuffix(q, h);
          assert (h + [c.value])[|h| - |q|..] == h[|h| - |q|..] + [c.value];
        } else {
          assert IsSuffix(s.queues[k], s.history[k]);
        }
      }
    }
  }

  lemma PopKeepsQueuesMatching(s: State, flat: string)
    requires QueuesMatchHistory(s)
    ensures QueuesMatchHistory(Pop(s, flat))
  {
    if Values(s.queues, flat) != [] {
      var q, h := s.queues[flat], s.history[flat];
      assert IsSuffix(q, h);
      assert q[1..] == h[|h| - |q| + 1..];
    }
  }

  /** Two states that differ in nothing a snapshot carries stay so under every command. */
  lemma ApplyRespectsSnapshots(s: State, t: State, c: Command)
    requires TakeSnapshot(s) == TakeSnapshot(t)
    ensures TakeSnapshot(Apply(s, c)) == TakeSnapshot(Apply(t, c))
  {
  }

  /** On every run the queues and histories have the same keys, each queue is a suffix of its
      history, and all replicated fields are those of replaying the log. */
  lemma {:induction false} QueueHistoryInvariant(ops: seq<Op>)
    ensures var r := Execute(ops);
            && QueuesMatchHistory(r.s)
            && TakeSnapshot(r.s) == TakeSnapshot(Replay(r.log))
            && forall flat :: Values(r.s.history, flat) == CurrentValues(r.log, flat)
                              && (flat in r.s.history <==> CurrentValues(r.log, flat) != [])
  {
    var r := Execute(ops);
    if ops != [] {
      var before := Execute(ops[..|ops| - 1]);
      QueueHistoryInvariant(ops[..|ops| - 1]);
      match ops[|ops| - 1]
      case DoApply(c) =>
        ApplyKeepsQueuesMatching(before.s, c);
        ApplyRespectsSnapshots(before.s, Replay(before.log), c);
        ExtendLog(before.log, c, "", 0);
      case DoPop(w, key) =>
        PopKeepsQueuesMatching(before.s, MakeQueueKey(w, key));
      case DoRestore(log) =>
    }
    forall flat
      ensures Values(r.s.history, flat) == CurrentValues(r.log, flat)
      ensures flat in r.s.history <==> CurrentValues(r.log, flat) != []
    {
      HistoryIsCurrentValues(r.log, flat);
      assert r.s.history == Replay(r.log).history;
    }
  }
}
