/** The calls of one node for one checkpoint over a run, and the exact position in the committed
    sequence of every value they return. */
module CheckpointCalls {
  import opened Wrappers
  import opened CheckpointKeys
  import opened WorkflowState
  import opened CheckpointProtocol
  import opened CheckpointAgreement
  import opened CheckpointPositions

  /** One call: whether an event served it, the position of its value, and the value it returned. */
  datatype Call = Call(announced: bool, position: int, value: Bytes)

  /** How many values the log committed to the slot before its i-th entry. */
  ghost function Before(log: seq<Command>, i: nat, slot: Slot): nat
    requires i <= |log|
  {
    |Committed(log[..i], slot.flat, slot.epoch)|
  }

  /** The call of `node` that the step completes, if it is one for the slot. A dequeue hands out the
      front of the queue, which stands as far from the end as the queue is long; the owner and the
      event path return the value of one log entry. */
  ghost function CallOf(c: Config, s: System, step: Step, node: nat, slot: Slot): Option<Call>
    requires Enabled(c, s, step)
  {
    match step
    case Dequeue(n, w, key) =>
      var r, flat := s.replicas[n], MakeQueueKey(w, key);
      if n == node && slot == Slot(flat, EpochAt(s, r, flat))
      then Some(Call(false, |CurrentValues(s.log[..r.applied], flat)| - |r.sm.queues[flat]|, r.sm.queues[flat][0]))
      else None
    case Return(w) =>
      var p, k := s.pending[w], IndexOf(s.tags, s.pending[w].tag);
      if c.owner[w] == node && p.cmd.SetCheckpoint?
         && slot == Slot(MakeQueueKey(w, p.cmd.key), Epoch(s.log[..k], MakeQueueKey(w, p.cmd.key)))
      then Some(Call(false, Before(s.log, k, slot), p.cmd.value))
      else None
    case EventReturn(n, i) =>
      var flat := MakeQueueKey(s.log[i].workflow, s.log[i].key);
      if n == node && slot == Slot(flat, Epoch(s.log[..i], flat))
      then Some(Call(true, Before(s.log, i, slot), Heard(s.log[i]).value))
      else None
    case _ => None
  }

  /** The node's calls for the slot in the first n steps. */
  ghost function Calls(c: Config, steps: seq<Step>, states: seq<System>, node: nat, slot: Slot, n: nat): seq<Call>
    requires IsRun(c, steps, states) && n <= |steps|
  {
    if n == 0 then []
    else
      Calls(c, steps, states, node, slot, n - 1)
      + match CallOf(c, states[n - 1], steps[n - 1], node, slot)
        case Some(call) => [call]
        case None => []
  }

  // ----- Every call returns the committed value at its position -----

  /** The value of an entry stands right behind what was committed before it. */
  lemma EntryStandsAt(log: seq<Command>, i: nat, slot: Slot)
    requires i < |log| && IsSet(log[i], slot.flat) && slot.epoch == Epoch(log[..i], slot.flat)
    ensures var all := Committed(log, slot.flat, slot.epoch);
            && Before(log, i, slot) < |all| && all[Before(log, i, slot)] == log[i].value
            && Before(log, i + 1, slot) == Before(log, i, slot) + 1
  {
    hide Committed, Epoch, MakeQueueKey;
    assert log[..i + 1] == log[..i] + [log[i]];
    ExtendLog(log[..i], log[i], slot.flat, slot.epoch);
    CommittedGrows(log, i + 1, slot.flat, slot.epoch);
  }

  /** The front of a queue that is a suffix of the current values. */
  lemma FrontStandsAt(log: seq<Command>, r: Replica, flat: string)
    requires Follows(log, r) && Values(r.sm.queues, flat) != []
    ensures var e := Epoch(log[..r.applied], flat);
            var p := |CurrentValues(log[..r.applied], flat)| - |Values(r.sm.queues, flat)|;
            0 <= p < |Committed(log, flat, e)| && Committed(log, flat, e)[p] == Values(r.sm.queues, flat)[0]
  {
    hide Committed, Epoch, Replay;
    assert IsSuffix(Values(r.sm.queues, flat), CurrentValues(log[..r.applied], flat));
    CommittedGrows(log, r.applied, flat, Epoch(log[..r.applied], flat));
  }

  lemma DonePlace(c: Config, s: System, w: string) returns (k: nat)
    requires AllRunsInv(c, s) && w in s.pending && s.pending[w].phase == Done
    ensures w in c.owner && c.owner[w] in s.replicas && k < s.replicas[c.owner[w]].applied <= |s.log|
    ensures PlacedAt(s.log, s.tags, s.pending[w], k) && IndexOf(s.tags, s.pending[w].tag) == k
    ensures Touches(s.pending[w].cmd, w)
  {
    hide LoggedOk, SnapOk, Touches, Queued, Replay;
    assert OwnerPlaced(c, s, w);
    assert Follows(s.log, s.replicas[c.owner[w]]);
    k :| PlacedAt(s.log, s.tags, s.pending[w], k) && k < s.replicas[c.owner[w]].applied;
    IndexOfPlaced(s.tags, k);
  }

  lemma DequeueReturnsItsPosition(c: Config, s: System, n: nat, w: string, key: string, node: nat, slot: Slot)
    requires AllRunsInv(c, s) && Enabled(c, s, Dequeue(n, w, key)) && CallOf(c, s, Dequeue(n, w, key), node, slot).Some?
    ensures var x, all := CallOf(c, s, Dequeue(n, w, key), node, slot).value, Committed(s.log, slot.flat, slot.epoch);
            0 <= x.position < |all| && all[x.position] == x.value
  {
    hide MakeQueueKey, Committed, Epoch, CurrentValues, LogOk, OwnerPlaced, SnapOk, Follows;
    FrontStandsAt(s.log, s.replicas[node], slot.flat);
  }

  lemma ReturnReturnsItsPosition(c: Config, s: System, w: string, node: nat, slot: Slot)
    requires ValidConfig(c) && AllRunsInv(c, s) && Enabled(c, s, Return(w)) && CallOf(c, s, Return(w), node, slot).Some?
    ensures var x, all := CallOf(c, s, Return(w), node, slot).value, Committed(s.log, slot.flat, slot.epoch);
            0 <= x.position < |all| && all[x.position] == x.value
  {
    hide MakeQueueKey, Committed, Epoch, AllRunsInv, ValidConfig, IndexOf;
    var k := DonePlace(c, s, w);
    EntryStandsAt(s.log, k, slot);
  }

  lemma EventReturnReturnsItsPosition(c: Config, s: System, n: nat, i: nat, node: nat, slot: Slot)
    requires Enabled(c, s, EventReturn(n, i)) && CallOf(c, s, EventReturn(n, i), node, slot).Some?
    ensures var x, all := CallOf(c, s, EventReturn(n, i), node, slot).value, Committed(s.log, slot.flat, slot.epoch);
            0 <= x.position < |all| && all[x.position] == x.value
  {
    hide Committed, Epoch, IsWorkflowOwner;
    EntryStandsAt(s.log, i, slot);
  }

  lemma CallReturnsItsPosition(c: Config, s: System, step: Step, node: nat, slot: Slot)
    requires ValidConfig(c) && AllRunsInv(c, s) && Enabled(c, s, step) && CallOf(c, s, step, node, slot).Some?
    ensures var x, all := CallOf(c, s, step, node, slot).value, Committed(s.log, slot.flat, slot.epoch);
            0 <= x.position < |all| && all[x.position] == x.value
  {
    hide AllRunsInv, ValidConfig, Enabled, Committed, Epoch, CurrentValues;
    match step
    case Dequeue(n, w, key) => DequeueReturnsItsPosition(c, s, n, w, key, node, slot);
    case Return(w) => ReturnReturnsItsPosition(c, s, w, node, slot);
    case EventReturn(n, i) => EventReturnReturnsItsPosition(c, s, n, i, node, slot);
    case _ =>
  }

  lemma {:induction false} CallsStandInLog(
    c: Config, steps: seq<Step>, states: seq<System>, node: nat, slot: Slot, n: nat, k: nat)
    requires ValidConfig(c) && IsRun(c, steps, states) && n <= |steps| && k < |Calls(c, steps, states, node, slot, n)|
    ensures var x, all := Calls(c, steps, states, node, slot, n)[k], Committed(states[n].log, slot.flat, slot.epoch);
            0 <= x.position < |all| && all[x.position] == x.value
  {
    hide AllRunsInv, ValidConfig, Enabled, Next, Committed, CallOf;
    var s, s1 := states[n - 1], states[n];
    StepExtendsLog(c, s, steps[n - 1]);
    assert s.log == s1.log[..|s.log|];
    CommittedGrows(s1.log, |s.log|, slot.flat, slot.epoch);
    if k < |Calls(c, steps, states, node, slot, n - 1)| {
      CallsStandInLog(c, steps, states, node, slot, n - 1, k);
    } else {
      AllRunsKeep(c, steps, states, n - 1);
      CallReturnsItsPosition(c, s, steps[n - 1], node, slot);
    }
  }

  /** On every run, each value a call returned, by whatever path, is the value at the call's position in
      the one sequence committed for that (workflow, key) in that epoch, as it stands at any later time. */
  lemma CallsReturnCommittedValues(
    c: Config, steps: seq<Step>, states: seq<System>, node: nat, w: string, key: string, e: nat,
                                   n: nat, j: nat, k: nat)
    requires ValidConfig(c) && IsRun(c, steps, states) && n <= |steps| && n <= j < |states| && w in c.owner
    requires k < |Calls(c, steps, states, node, Slot(MakeQueueKey(w, key), e), n)|
    ensures var x, all := Calls(c, steps, states, node, Slot(MakeQueueKey(w, key), e), n)[k],
        CommittedFor(states[j].log, w, key, e);
            0 <= x.position < |all| && all[x.position] == x.value
  {
    hide AllRunsInv, Enabled, Next, Committed, Epoch, Calls, MakeQueueKey, CommittedFor;
    CallsStandInLog(c, steps, states, node, Slot(MakeQueueKey(w, key), e), n, k);
    LogOnlyGrows(c, steps, states, n, j);
    assert states[n].log == states[j].log[..|states[n].log|];
    CommittedGrows(states[j].log, |states[n].log|, MakeQueueKey(w, key), e);
    AllRunsKeep(c, steps, states, j);
    LogIsLogged(c, states[j]);
    FlatKeysRefinePairs(states[j].log, c.owner.Keys, w, key, e);
  }

  lemma LogIsLogged(c: Config, s: System)
    requires AllRunsInv(c, s)
    ensures forall i :: 0 <= i < |s.log| ==> s.log[i].workflow in c.owner
  {
    hide Follows, OwnerPlaced, SnapOk;
    forall i | 0 <= i < |s.log| ensures s.log[i].workflow in c.owner {
      assert LoggedOk(c, s.log[i]);
    }
  }

  /** Agreement on all runs and all paths: two calls of any two nodes for the same checkpoint that stand
      at the same position returned the same value. */
  lemma CallsAgreeByPosition(
    c: Config, steps: seq<Step>, states: seq<System>, a: nat, b: nat, w: string, key: string, e: nat,
                             k1: nat, k2: nat)
    requires ValidConfig(c) && IsRun(c, steps, states) && w in c.owner
    requires var slot := Slot(MakeQueueKey(w, key), e);
             var xs, ys := Calls(c, steps, states, a, slot, |steps|), Calls(c, steps, states, b, slot, |steps|);
             k1 < |xs| && k2 < |ys| && xs[k1].position == ys[k2].position
    ensures var slot := Slot(MakeQueueKey(w, key), e);
            Calls(c, steps, states, a, slot, |steps|)[k1].value == Calls(c, steps, states, b, slot, |steps|)[k2].value
  {
    hide Enabled, Next, Calls, MakeQueueKey, CommittedFor;
    CallsReturnCommittedValues(c, steps, states, a, w, key, e, |steps|, |steps|, k1);
    CallsReturnCommittedValues(c, steps, states, b, w, key, e, |steps|, |steps|, k2);
  }

  /** The calls of the epoch so far, as the ledgers count them. */
  function CallsMade(r: Replica, slot: Slot): nat {
    |At(r.taken, slot)| + |At(r.seen, slot)|
  }

  // ----- Counting calls -----

  /** How many of the calls were not served by an event. */
  function Popped(calls: seq<Call>): nat {
    if calls == [] then 0 else Popped(calls[..|calls| - 1]) + if calls[|calls| - 1].announced then 0 else 1
  }

  /** The values of the calls served by events, or of the others, in order. */
  function ValuesOf(calls: seq<Call>, announced: bool): seq<Bytes> {
    if calls == [] then []
    else
      var last := calls[|calls| - 1];
      ValuesOf(calls[..|calls| - 1], announced) + if last.announced == announced then [last.value] else []
  }

  lemma {:induction false} ValuesCount(calls: seq<Call>)
    ensures |ValuesOf(calls, false)| == Popped(calls)
    ensures |ValuesOf(calls, false)| + |ValuesOf(calls, true)| == |calls|
  {
    if calls != [] {
      ValuesCount(calls[..|calls| - 1]);
    }
  }

  lemma ValuesStep(calls: seq<Call>, x: Call, announced: bool)
    ensures ValuesOf(calls + [x], announced) == ValuesOf(calls, announced)
        + if x.announced == announced then [x.value] else []
  {
    assert (calls + [x])[..|calls|] == calls;
  }

  lemma {:induction false} ValuesComeFromCalls(calls: seq<Call>, announced: bool, v: Bytes)
    requires v in ValuesOf(calls, announced)
    ensures exists k :: 0 <= k < |calls| && calls[k].value == v && calls[k].announced == announced
  {
    var front, last := calls[..|calls| - 1], calls[|calls| - 1];
    if v in ValuesOf(front, announced) {
      ValuesComeFromCalls(front, announced, v);
      var k :| 0 <= k < |front| && front[k].value == v && front[k].announced == announced;
      assert calls[k] == front[k];
    }
  }

  /** The ledgers after a step, given the call it completes. */
  ghost predicate LedgerFollows(c: Config, s: System, step: Step, node: nat, slot: Slot)
    requires Enabled(c, s, step) && node in s.replicas
  {
    var t, x := Next(c, s, step), CallOf(c, s, step, node, slot);
    && node in t.replicas
    && At(t.replicas[node].taken, slot)
       == At(s.replicas[node].taken, slot) + (if x.Some? && !x.value.announced then [x.value.value] else [])
    && At(t.replicas[node].seen, slot)
       == At(s.replicas[node].seen, slot) + (if x.Some? && x.value.announced then [x.value.value] else [])
  }

  lemma DequeueLedger(c: Config, s: System, n: nat, w: string, key: string, node: nat, slot: Slot)
    requires Enabled(c, s, Dequeue(n, w, key)) && node in s.replicas
    ensures LedgerFollows(c, s, Dequeue(n, w, key), node, slot)
  {
    hide MakeQueueKey, Committed, Epoch, CurrentValues, Pop;
  }

  lemma ReturnLedger(c: Config, s: System, w: string, node: nat, slot: Slot)
    requires Enabled(c, s, Return(w)) && node in s.replicas
    ensures LedgerFollows(c, s, Return(w), node, slot)
  {
    hide MakeQueueKey, Committed, Epoch, CurrentValues, Pop, IndexOf;
  }

  lemma EventLedger(c: Config, s: System, n: nat, i: nat, node: nat, slot: Slot)
    requires Enabled(c, s, EventReturn(n, i)) && node in s.replicas
    ensures LedgerFollows(c, s, EventReturn(n, i), node, slot)
  {
    hide MakeQueueKey, Committed, Epoch, CurrentValues, IsWorkflowOwner;
  }

  lemma OtherLedger(c: Config, s: System, step: Step, node: nat, slot: Slot)
    requires Enabled(c, s, step) && node in s.replicas && !step.Dequeue? && !step.Return? && !step.EventReturn?
    ensures LedgerFollows(c, s, step, node, slot)
  {
    hide MakeQueueKey, Committed, Epoch, CurrentValues, Apply, Pop, Benign, IsWorkflowOwner;
  }

  lemma StepLedger(c: Config, s: System, step: Step, node: nat, slot: Slot)
    requires Enabled(c, s, step) && node in s.replicas
    ensures LedgerFollows(c, s, step, node, slot)
  {
    hide LedgerFollows, Enabled;
    match step
    case Dequeue(n, w, key) => DequeueLedger(c, s, n, w, key, node, slot);
    case Return(w) => ReturnLedger(c, s, w, node, slot);
    case EventReturn(n, i) => EventLedger(c, s, n, i, node, slot);
    case _ => OtherLedger(c, s, step, node, slot);
  }

  /** On every run the ledgers of a replica hold exactly the values of its calls, pops and event by event. */
  lemma {:induction false} LedgersAreCalls(
    c: Config, steps: seq<Step>, states: seq<System>, node: nat, slot: Slot, n: nat)
    requires ValidConfig(c) && IsRun(c, steps, states) && n <= |steps| && node in c.nodes
    ensures node in states[n].replicas
    ensures var calls, r := Calls(c, steps, states, node, slot, n), states[n].replicas[node];
            At(r.taken, slot) == ValuesOf(calls, false) && At(r.seen, slot) == ValuesOf(calls, true)
  {
    hide AllRunsInv, ValidConfig, Enabled, Next, CallOf;
    if n == 0 {
      assert states[0].replicas[node] == FRESH;
    } else {
      LedgersAreCalls(c, steps, states, node, slot, n - 1);
      StepLedger(c, states[n - 1], steps[n - 1], node, slot);
      var before := Calls(c, steps, states, node, slot, n - 1);
      match CallOf(c, states[n - 1], steps[n - 1], node, slot)
      case Some(x) =>
        ValuesStep(before, x, false);
        ValuesStep(before, x, true);
      case None => assert before + [] == before;
    }
  }

  /** The ledgers of a replica count its calls. */
  lemma LedgersCountCalls(c: Config, steps: seq<Step>, states: seq<System>, node: nat, slot: Slot, n: nat)
    requires ValidConfig(c) && IsRun(c, steps, states) && n <= |steps| && node in c.nodes
    ensures node in states[n].replicas
    ensures var calls, r := Calls(c, steps, states, node, slot, n), states[n].replicas[node];
            |At(r.taken, slot)| == Popped(calls) && CallsMade(r, slot) == |calls|
  {
    hide IsRun, Calls;
    LedgersAreCalls(c, steps, states, node, slot, n);
    ValuesCount(Calls(c, steps, states, node, slot, n));
  }

  /** On every run a value taken from an event was committed for exactly that workflow and key. */
  lemma EventValuesAreCommitted(c: Config, steps: seq<Step>, states: seq<System>, i: nat,
                                node: nat, w: string, key: string, e: nat, v: Bytes)
    requires ValidConfig(c) && IsRun(c, steps, states) && i < |states|
    requires node in c.nodes && w in c.owner
    requires node in states[i].replicas && v in At(states[i].replicas[node].seen, Slot(MakeQueueKey(w, key), e))
    ensures v in CommittedFor(states[i].log, w, key, e)
  {
    hide Enabled, Next, Calls, MakeQueueKey, CommittedFor;
    var slot := Slot(MakeQueueKey(w, key), e);
    LedgersAreCalls(c, steps, states, node, slot, i);
    var calls := Calls(c, steps, states, node, slot, i);
    ValuesComeFromCalls(calls, true, v);
    var k :| 0 <= k < |calls| && calls[k].value == v;
    CallsReturnCommittedValues(c, steps, states, node, w, key, e, i, i, k);
  }

  // ----- In place -----

  /** The k-th call returned the k-th committed value. */
  predicate InPlace(calls: seq<Call>) {
    forall k :: 0 <= k < |calls| ==> calls[k].position == k
  }

  lemma InPlaceStep(calls: seq<Call>, x: Call)
    ensures InPlace(calls + [x]) <==> InPlace(calls) && x.position == |calls|
  {
    var all := calls + [x];
    assert all[|calls|] == x && forall k :: 0 <= k < |calls| ==> all[k] == calls[k];
  }

  lemma DequeueInOrder(c: Config, s: System, n: nat, w: string, key: string, node: nat, slot: Slot)
    requires Inv(c, s) && Enabled(c, s, Dequeue(n, w, key)) && CallOf(c, s, Dequeue(n, w, key), node, slot).Some?
    ensures node in s.replicas
    ensures CallOf(c, s, Dequeue(n, w, key), node, slot).value.position == |At(s.replicas[node].taken, slot)|
  {
    hide MakeQueueKey, Committed, Epoch, LogOk, OwnerOk, SnapOk, SeenOk, Replay;
    assert ReplicaOk(s.log, s.replicas[node]);
    assert Aligned(s.log[..s.replicas[node].applied], s.replicas[node].sm.queues, s.replicas[node].taken, slot.flat);
  }

  lemma ReturnInOrder(c: Config, s: System, w: string, node: nat, slot: Slot)
    requires ValidConfig(c) && Inv(c, s) && Enabled(c, s, Return(w)) && CallOf(c, s, Return(w), node, slot).Some?
    ensures node in s.replicas
    ensures CallOf(c, s, Return(w), node, slot).value.position == |At(s.replicas[node].taken, slot)|
  {
    hide MakeQueueKey, Committed, Epoch, LogOk, OwnerOk, SnapOk, SeenOk, Replay, ValidConfig, IndexOf;
    var k, r := IndexOf(s.tags, s.pending[w].tag), s.replicas[node];
    ReturnEpoch(c, s, w);
    OwnerPopsItsOwnValue(c, s, w);
    EntryStandsAt(s.log, k, slot);
    assert s.log[..k + 1] == s.log[..k] + [s.log[k]];
    ExtendLog(s.log[..k], s.log[k], slot.flat, slot.epoch);
    assert ReplicaOk(s.log, r);
    assert Aligned(s.log[..r.applied], r.sm.queues, r.taken, slot.flat);
  }

  /** How many values of the slot the replica has applied from entry i on, counting entry i. */
  ghost function AppliedFrom(s: System, r: Replica, i: nat, slot: Slot): int
    requires i <= r.applied <= |s.log|
  {
    Before(s.log, r.applied, slot) - Before(s.log, i, slot)
  }

  /** What to look at before a call: a pop needs that no event was taken in the epoch; an event, while
      its epoch lasts, needs a queue that is longer than what was applied from its entry on by exactly
      the number of events taken. */
  ghost predicate Guard(c: Config, s: System, step: Step, node: nat, slot: Slot)
    requires Enabled(c, s, step) && node in s.replicas && s.replicas[node].applied <= |s.log|
    requires step.EventReturn? ==> step.node == node
  {
    var r := s.replicas[node];
    if !step.EventReturn? then At(r.seen, slot) == []
    else if slot.epoch == Epoch(s.log[..r.applied], slot.flat)
    then |Values(r.sm.queues, slot.flat)| == |At(r.seen, slot)| + AppliedFrom(s, r, step.index, slot)
    else Before(s.log, step.index, slot) == CallsMade(r, slot)
  }

  /** The event of the entry applied last is in place if and only if the queue is longer by one than the
      number of events taken. */
  lemma LatestEventInPlaceExactly(c: Config, s: System, node: nat, i: nat, slot: Slot)
    requires Inv(c, s) && Enabled(c, s, EventReturn(node, i)) && CallOf(c, s, EventReturn(node, i), node, slot).Some?
    requires i + 1 == s.replicas[node].applied
    ensures var r := s.replicas[node];
            CallOf(c, s, EventReturn(node, i), node, slot).value.position == CallsMade(r, slot)
            <==> |Values(r.sm.queues, slot.flat)| == |At(r.seen, slot)| + 1
  {
    hide MakeQueueKey, Committed, Epoch, IsWorkflowOwner, Inv;
    EntryStandsAt(s.log, i, slot);
    assert s.log[..i + 1] == s.log[..i] + [s.log[i]];
    ExtendLog(s.log[..i], s.log[i], slot.flat, slot.epoch);
    EventInPlaceExactly(c, s, node, i, slot);
  }

  lemma EventInPlaceExactly(c: Config, s: System, node: nat, i: nat, slot: Slot)
    requires Inv(c, s) && Enabled(c, s, EventReturn(node, i)) && CallOf(c, s, EventReturn(node, i), node, slot).Some?
    ensures CallOf(c, s, EventReturn(node, i), node, slot).value.position == CallsMade(s.replicas[node], slot)
            <==> Guard(c, s, EventReturn(node, i), node, slot)
  {
    hide MakeQueueKey, Committed, Epoch, LogOk, OwnerOk, SnapOk, SeenOk, Replay, IsWorkflowOwner;
    var r := s.replicas[node];
    assert ReplicaOk(s.log, r);
    assert Aligned(s.log[..r.applied], r.sm.queues, r.taken, slot.flat);
  }

  /** A call is in place if and only if its guard holds. */
  lemma CallInPlaceExactly(c: Config, s: System, step: Step, node: nat, slot: Slot)
    requires ValidConfig(c) && Inv(c, s) && Enabled(c, s, step) && CallOf(c, s, step, node, slot).Some?
    ensures node in s.replicas && s.replicas[node].applied <= |s.log| && (step.EventReturn? ==> step.node == node)
    ensures CallOf(c, s, step, node, slot).value.position == CallsMade(s.replicas[node], slot)
            <==> Guard(c, s, step, node, slot)
  {
    hide ValidConfig, Inv, Committed, Epoch, CurrentValues, MakeQueueKey, IsWorkflowOwner;
    match step
    case Dequeue(n, w, key) => DequeueInOrder(c, s, n, w, key, node, slot);
    case Return(w) => ReturnInOrder(c, s, w, node, slot);
    case EventReturn(n, i) => EventInPlaceExactly(c, s, node, i, slot);
    case _ =>
  }

  ghost predicate Guarded(c: Config, s: System, step: Step, node: nat, slot: Slot)
    requires Enabled(c, s, step)
  {
    CallOf(c, s, step, node, slot).Some? ==>
      && node in s.replicas && s.replicas[node].applied <= |s.log| && (step.EventReturn? ==> step.node == node)
      && Guard(c, s, step, node, slot)
  }

  /** Positions on orderly runs: all calls of a node for a checkpoint return the committed values one
      after the other if and only if the guard of every call holds in the state before it. */
  lemma {:induction false} CallsInPlaceExactly(
    c: Config, steps: seq<Step>, states: seq<System>, node: nat, slot: Slot, n: nat)
    requires ValidConfig(c) && IsOrderlyRun(c, steps, states) && n <= |steps| && node in c.nodes
    ensures InPlace(Calls(c, steps, states, node, slot, n))
            <==> forall m: nat :: m < n ==> Guarded(c, states[m], steps[m], node, slot)
  {
    hide ValidConfig, Enabled, Next, CallOf, Inv, Orderly, Guard, InPlace;
    if n == 0 {
      NoCalls();
    } else {
      CallsInPlaceExactly(c, steps, states, node, slot, n - 1);
      LedgersCountCalls(c, steps, states, node, slot, n - 1);
      RunInv(c, steps, states, n - 1);
      var before, s, step := Calls(c, steps, states, node, slot, n - 1), states[n - 1], steps[n - 1];
      assert Enabled(c, s, step);
      var x := CallOf(c, s, step, node, slot);
      if x.Some? {
        CallInPlaceExactly(c, s, step, node, slot);
        InPlaceStep(before, x.value);
      } else {
        assert before + [] == before;
      }
      assert Guarded(c, s, step, node, slot) <==> (x.Some? ==> x.value.position == |before|);
    }
  }

  lemma NoCalls()
    ensures InPlace([])
  {
  }

  lemma OwnerNeverWaits(c: Config, s: System, i: nat, w: string, key: string)
    requires ValidConfig(c) && AllRunsInv(c, s) && w in c.owner
    requires c.owner[w] in s.replicas && i < |s.log| && s.log[i].SetCheckpoint?
    requires MakeQueueKey(s.log[i].workflow, s.log[i].key) == MakeQueueKey(w, key)
    ensures !Enabled(c, s, EventReturn(c.owner[w], i))
  {
    hide MakeQueueKey, AllRunsInv;
    LogIsLogged(c, s);
    FlatKeysAreFaithful(s.log[i].workflow, s.log[i].key, w, key);
    OnlyTheOwnerIsRegistered(c, s, c.owner[w], w);
  }

  lemma OnlyTheOwnerIsRegistered(c: Config, s: System, node: nat, w: string)
    requires AllRunsInv(c, s) && node in s.replicas && w in c.owner
    ensures w in s.replicas[node].sm.ownership ==> s.replicas[node].sm.ownership[w] == c.owner[w]
  {
    hide LogOk, OwnerPlaced, SnapOk, Queued, Replay;
    var r := s.replicas[node];
    assert Follows(s.log, r);
    LogIsLoggedOk(c, s);
    OwnershipIsFixed(c, s.log[..r.applied], w);
    assert TakeSnapshot(r.sm).ownership == TakeSnapshot(Replay(s.log[..r.applied])).ownership;
  }

  lemma LogIsLoggedOk(c: Config, s: System)
    requires AllRunsInv(c, s)
    ensures forall i :: 0 <= i < |s.log| ==> LoggedOk(c, s.log[i])
  {
    hide Follows, OwnerPlaced, SnapOk, LoggedOk;
  }

  lemma {:induction false} OwnerCallsAreNotAnnounced(
    c: Config, steps: seq<Step>, states: seq<System>, w: string, key: string, e: nat, n: nat)
    requires ValidConfig(c) && IsRun(c, steps, states) && n <= |steps| && w in c.owner
    ensures forall k :: 0 <= k < |Calls(c, steps, states, c.owner[w], Slot(MakeQueueKey(w, key), e), n)| ==>
              !Calls(c, steps, states, c.owner[w], Slot(MakeQueueKey(w, key), e), n)[k].announced
  {
    hide AllRunsInv, ValidConfig, MakeQueueKey, Next, Committed, Epoch;
    if n > 0 {
      OwnerCallsAreNotAnnounced(c, steps, states, w, key, e, n - 1);
      AllRunsKeep(c, steps, states, n - 1);
      var s, step := states[n - 1], steps[n - 1];
      assert Enabled(c, s, step);
      if step.EventReturn? && step.node == c.owner[w]
         && MakeQueueKey(s.log[step.index].workflow, s.log[step.index].key) == MakeQueueKey(w, key) {
        OwnerNeverWaits(c, s, step.index, w, key);
      }
    }
  }

  lemma {:induction false} NothingAnnounced(calls: seq<Call>)
    requires forall k :: 0 <= k < |calls| ==> !calls[k].announced
    ensures Popped(calls) == |calls|
  {
    if calls != [] {
      NothingAnnounced(calls[..|calls| - 1]);
    }
  }

  /** On orderly runs the owner's own calls are always in place. */
  lemma {:induction false} OwnerIsInPlace(
    c: Config, steps: seq<Step>, states: seq<System>, w: string, key: string, e: nat, n: nat)
    requires ValidConfig(c) && IsOrderlyRun(c, steps, states) && n <= |steps| && w in c.owner
    ensures InPlace(Calls(c, steps, states, c.owner[w], Slot(MakeQueueKey(w, key), e), n))
  {
    hide Enabled, Next, InPlace, MakeQueueKey, CallOf, Inv, Orderly;
    var node, slot := c.owner[w], Slot(MakeQueueKey(w, key), e);
    if n == 0 {
      NoCalls();
    } else {
      OwnerIsInPlace(c, steps, states, w, key, e, n - 1);
      OwnerCallsAreNotAnnounced(c, steps, states, w, key, e, n);
      OwnerCallsAreNotAnnounced(c, steps, states, w, key, e, n - 1);
      LedgersCountCalls(c, steps, states, node, slot, n - 1);
      RunInv(c, steps, states, n - 1);
      var before := Calls(c, steps, states, node, slot, n - 1);
      NothingAnnounced(before);
      match CallOf(c, states[n - 1], steps[n - 1], node, slot)
      case Some(x) =>
        assert Calls(c, steps, states, node, slot, n)[|before|] == x;
        PopInOrder(c, states[n - 1], steps[n - 1], node, slot);
        InPlaceStep(before, x);
      case None => assert before + [] == before;
    }
  }

  lemma PopInOrder(c: Config, s: System, step: Step, node: nat, slot: Slot)
    requires ValidConfig(c) && Inv(c, s) && Enabled(c, s, step)
    requires CallOf(c, s, step, node, slot).Some? && !CallOf(c, s, step, node, slot).value.announced
    ensures node in s.replicas && CallOf(c, s, step, node, slot).value.position == |At(s.replicas[node].taken, slot)|
  {
    hide ValidConfig, Inv, Enabled, Committed, Epoch, CurrentValues;
    match step
    case Dequeue(n, w, key) => DequeueInOrder(c, s, n, w, key, node, slot);
    case Return(w) => ReturnInOrder(c, s, w, node, slot);
    case _ =>
  }
}
