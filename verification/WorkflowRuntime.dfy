/** Setting a checkpoint, as an execution calls it: dequeue first, otherwise act as the owner or wait
    for the owner's value. */
module WorkflowRuntimes {
  import opened Wrappers
  import opened CheckpointKeys
  import opened OwnerOrWait
  import CP = CheckpointProtocol
  import WS = WorkflowState
  import opened WorkflowStateMachines

  /** The values of checkpoint events for exactly this workflow and key. */
  function Extractor(w: string, key: string): WS.Event -> Option<Bytes> {
    (e: WS.Event) => WS.CheckpointIn(e, w, key)
  }

  function ApplyFrom(s: WS.State, cs: seq<WS.Command>): WS.State {
    if cs == [] then s else WS.Apply(ApplyFrom(s, cs[..|cs| - 1]), cs[|cs| - 1])
  }

  /** The call as execute_owner_or_wait sees it; the operation ends with the value proposed. */
  ghost predicate IsCall(c: Call<Bytes>, w: string, key: string, value: Bytes) {
    && c.Valid() && c.workflow == w && c.extract == Extractor(w, key)
    && forall a :: 0 <= a < |c.script| && c.script[a].operation.Ok? ==> c.script[a].operation.value == value
  }

  /** No command of the list sets or sweeps the key. */
  ghost predicate LeavesAlone(cs: seq<WS.Command>, flat: string) {
    forall i :: 0 <= i < |cs| ==> !WS.IsSet(cs[i], flat) && !WS.IsSweep(cs[i], flat)
  }

  /** The proposal is in the list, and nothing else in it concerns the key. */
  ghost predicate OnlyOwnEntry(cs: seq<WS.Command>, w: string, key: string, value: Bytes) {
    exists i :: 0 <= i < |cs| && cs[i] == WS.SetCheckpoint(w, key, value)
                && LeavesAlone(cs[..i], MakeQueueKey(w, key)) && LeavesAlone(cs[i + 1..], MakeQueueKey(w, key))
  }

  /** The operation was run and its proposal was applied here. */
  predicate RanOk(end: Ended<Bytes>) {
    end.runs == 1 && end.outcome.Done? && end.outcome.result.Ok?
  }

  /** An attempt that finds no other node registered is reached, and its operation succeeds. */
  ghost predicate RunsWell(c: Call<Bytes>) {
    exists a: nat :: RunsAt(c, a) && c.script[a].operation.Ok?
  }

  lemma RunsWellExactly(c: Call<Bytes>)
    requires c.Valid()
    ensures RunsWell(c) <==> RanOk(From(c, 0))
  {
    hide From, Fruitless;
    if RunsWell(c) {
      var a: nat :| RunsAt(c, a) && c.script[a].operation.Ok?;
      OwnerRunsItsOperation(c, a);
    }
    if RanOk(From(c, 0)) {
      RunIsAt(c);
      var a: nat := From(c, 0).attempts - 1;
      assert RunsAt(c, a) && c.script[a].operation.Ok?;
    }
  }

  class WorkflowRuntime {
    const sm: WorkflowStateMachine

    constructor (sm: WorkflowStateMachine)
      ensures this.sm == sm
    {
      this.sm := sm;
    }

    /** The ownership test, on what the local state machine has applied. */
    method IsWorkflowOwner(me: nat, w: string) returns (r: bool)
      ensures r <==> CP.IsWorkflowOwner(sm.Contents(), me, w)
    {
      var owner := sm.GetOwner(w);
      r := IsOwner(me, owner);
    }

    /** What the replica loop applies while the call is under way. */
    method ApplyMeanwhile(cs: seq<WS.Command>)
      modifies sm
      ensures sm.Contents() == ApplyFrom(old(sm.Contents()), cs)
    {
      hide WS.Apply, WS.EventsOf;
      for i := 0 to |cs|
        invariant sm.Contents() == ApplyFrom(old(sm.Contents()), cs[..i])
      {
        assert cs[..i + 1][..i] == cs[..i];
        var _ := sm.Apply(cs[i]);
      }
      assert cs[..|cs|] == cs;
    }

    /** `meanwhile` are the entries the replica applies between the failed dequeue and the end of the
        wait or of propose_and_wait; a successful propose_and_wait has applied the proposal. When
        nothing else concerned the key, the pop takes out exactly the value proposed. */
    method SetCheckpoint(w: string, key: string, value: Bytes, c: Call<Bytes>, meanwhile: seq<WS.Command>)
      returns (outcome: Outcome<Bytes>)
      requires IsCall(c, w, key, value)
      requires RanOk(From(c, 0)) ==> WS.SetCheckpoint(w, key, value) in meanwhile
      modifies sm
      ensures var s, flat := old(sm.Contents()), MakeQueueKey(w, key);
              if WS.Values(s.queues, flat) != []
              then outcome == Done(Ok(WS.Values(s.queues, flat)[0])) && sm.Contents() == WS.Pop(s, flat)
              else
                && outcome == From(c, 0).outcome
                && sm.Contents() == if RanOk(From(c, 0)) then WS.Pop(ApplyFrom(s, meanwhile), flat)
                                    else ApplyFrom(s, meanwhile)
      ensures var s, t, flat := old(sm.Contents()), sm.Contents(), MakeQueueKey(w, key);
              WS.Values(s.queues, flat) == [] && RunsWell(c) && OnlyOwnEntry(meanwhile, w, key, value) ==>
                && outcome == Done(Ok(value)) && WS.Values(t.queues, flat) == []
                && WS.Values(t.history, flat) == WS.Values(s.history, flat) + [value]
    {
      hide WS.Apply, MakeQueueKey, From, LeavesAlone;
      ghost var before := sm.Contents();
      var queued := sm.PopQueuedCheckpoint(w, key);
      if queued.Some? {
        return Done(Ok(queued.value));
      }
      var runs, attempts;
      outcome, runs, attempts := ExecuteOwnerOrWait(c);
      ApplyMeanwhile(meanwhile);
      RunsWellExactly(c);
      if runs == 1 && outcome.Done? && outcome.result.Ok? {
        var _ := sm.PopQueuedCheckpoint(w, key);
        if OnlyOwnEntry(meanwhile, w, key, value) {
          OwnerPopsWhatItProposed(before, w, key, value, meanwhile, c);
        }
      }
    }
  }

  lemma {:induction false} UntouchedValuesStay(s: WS.State, cs: seq<WS.Command>, flat: string)
    requires LeavesAlone(cs, flat)
    ensures WS.Values(ApplyFrom(s, cs).queues, flat) == WS.Values(s.queues, flat)
    ensures WS.Values(ApplyFrom(s, cs).history, flat) == WS.Values(s.history, flat)
  {
    if cs != [] {
      UntouchedValuesStay(s, cs[..|cs| - 1], flat);
    }
  }

  lemma {:induction false} ApplyFromConcat(s: WS.State, a: seq<WS.Command>, b: seq<WS.Command>)
    ensures ApplyFrom(s, a + b) == ApplyFrom(ApplyFrom(s, a), b)
  {
    hide WS.Apply;
    if b == [] {
      assert a + b == a;
    } else {
      assert (a + b)[..|a + b| - 1] == a + b[..|b| - 1];
      ApplyFromConcat(s, a, b[..|b| - 1]);
    }
  }

  /** The owner's own call: when its proposal is the only entry for the key that is applied meanwhile,
      the pop removes exactly the value proposed. The queue is as empty as before, the history has
      gained that one value, and the call returns it. */
  lemma OwnerPopsWhatItProposed(
    s: WS.State, w: string, key: string, value: Bytes, meanwhile: seq<WS.Command>, c: Call<Bytes>)
    requires IsCall(c, w, key, value) && RanOk(From(c, 0)) && OnlyOwnEntry(meanwhile, w, key, value)
    requires WS.Values(s.queues, MakeQueueKey(w, key)) == []
    ensures var flat := MakeQueueKey(w, key);
            var t := ApplyFrom(s, meanwhile);
            && WS.Values(t.queues, flat) == [value]
            && WS.Values(WS.Pop(t, flat).queues, flat) == []
            && WS.Values(WS.Pop(t, flat).history, flat) == WS.Values(s.history, flat) + [value]
            && From(c, 0).outcome == Done(Ok(value))
  {
    hide MakeQueueKey, From, LeavesAlone, ApplyFrom, WS.Apply;
    var flat := MakeQueueKey(w, key);
    var i :| 0 <= i < |meanwhile| && meanwhile[i] == WS.SetCheckpoint(w, key, value)
             && LeavesAlone(meanwhile[..i], flat) && LeavesAlone(meanwhile[i + 1..], flat);
    OwnEntryAmongOthers(s, w, key, value, meanwhile[..i], meanwhile[i + 1..]);
    assert meanwhile == meanwhile[..i] + [meanwhile[i]] + meanwhile[i + 1..];
    OperationOnceOrFirstEvent(c);
  }

  lemma OwnEntryAmongOthers(
    s: WS.State, w: string, key: string, value: Bytes, before: seq<WS.Command>, after: seq<WS.Command>)
    requires LeavesAlone(before, MakeQueueKey(w, key)) && LeavesAlone(after, MakeQueueKey(w, key))
    ensures var flat := MakeQueueKey(w, key);
            var t := ApplyFrom(s, before + [WS.SetCheckpoint(w, key, value)] + after);
            && WS.Values(t.queues, flat) == WS.Values(s.queues, flat) + [value]
            && WS.Values(t.history, flat) == WS.Values(s.history, flat) + [value]
  {
    hide MakeQueueKey, LeavesAlone;
    var flat, own := MakeQueueKey(w, key), WS.SetCheckpoint(w, key, value);
    var s2 := WS.Apply(ApplyFrom(s, before), own);
    UntouchedValuesStay(s, before, flat);
    UntouchedValuesStay(s2, after, flat);
    assert (before + [own])[..|before|] == before;
    ApplyFromConcat(s, before + [own], after);
  }

  /** The other direction: a follower whose feed announces the checkpoint returns the announced value. The
      announcement is the event of an applied command, and before it nothing announces this checkpoint,
      changes the workflow's owner or closes the channel. */
  lemma FollowerReturnsTheAnnouncedValue(
    w: string, key: string, own: Bytes, c: Call<Bytes>, a: nat, i: nat, cmd: WS.Command)
    requires IsCall(c, w, key, own) && a < MAX_RETRIES && forall x: nat :: x < a ==> Fruitless(c, x)
    requires c.script[a].owner.Some? && c.script[a].owner.value != c.me
    requires cmd.SetCheckpoint? && cmd.workflow == w && cmd.key == key
    requires i < |c.script[a].feed| && c.script[a].feed[i].Got? && c.script[a].feed[i].event in WS.EventsOf(cmd)
    requires forall j: nat :: j < i ==>
               var r := c.script[a].feed[j];
               !r.Closed? && (r.Got? && r.event.workflow == w ==> !r.event.OwnershipChanged?
                                                                  && !(r.event.CheckpointSet? && r.event.key == key))
    ensures From(c, 0) == Ended(Done(Ok(cmd.value)), 0, a + 1)
  {
    hide From, Fruitless;
    WS.AnnouncedExactly(cmd, w, key);
    FollowerAnswersWithTheEvent(c, a, i);
  }

  /** The ownership test of a call, given what the local state machine answers, is the one the protocol is
      stated with: the registered owner alone passes, and every node while nobody is registered. */
  lemma OwnershipTestIsTheProtocols(s: WS.State, me: nat, w: string)
    ensures IsOwner(me, WS.OwnerOf(s, w)) <==> CP.IsWorkflowOwner(s, me, w)
    ensures IsOwner(me, WS.OwnerOf(s, w)) <==> w !in s.ownership || s.ownership[w] == me
  {
  }

  /** A value a waiting follower returns was announced for exactly this workflow and key: it is the
      first such announcement of the last subscription, with no ownership change before it. */
  lemma WaitingReturnsAnAnnouncedValue(w: string, key: string, value: Bytes, c: Call<Bytes>)
    requires IsCall(c, w, key, value)
    requires From(c, 0).runs == 0 && From(c, 0).outcome.Done? && From(c, 0).outcome.result.Ok?
    ensures 1 <= From(c, 0).attempts <= MAX_RETRIES
    ensures var feed := c.script[From(c, 0).attempts - 1].feed;
            exists i :: 0 <= i < |feed|
                        && feed[i] == Got(WS.CheckpointSet(w, key, From(c, 0).outcome.result.value))
                        && forall j, v :: 0 <= j < i ==> feed[j] != Got(WS.CheckpointSet(w, key, v))
                                                         && !(feed[j].Got? && feed[j].event.OwnershipChanged?
                                                             && feed[j].event.workflow == w)
  {
    hide From;
    OperationOnceOrFirstEvent(c);
    var end := From(c, 0);
    var feed := c.script[end.attempts - 1].feed;
    var i :| 0 <= i < |feed| && Accepted(c, feed[i], end.outcome.result.value)
             && forall j :: 0 <= j < i ==> Skipped(c, feed[j]);
    assert feed[i] == Got(WS.CheckpointSet(w, key, end.outcome.result.value));
    forall j, v | 0 <= j < i
      ensures feed[j] != Got(WS.CheckpointSet(w, key, v))
              && !(feed[j].Got? && feed[j].event.OwnershipChanged? && feed[j].event.workflow == w)
    {
      assert Skipped(c, feed[j]);
    }
  }
}
