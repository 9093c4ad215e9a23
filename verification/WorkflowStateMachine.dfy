/** The workflow state machine as the object the replica loop and the runtime share:
    six collections updated in place. */
module WorkflowStateMachines {
  import opened Wrappers
  import opened CheckpointKeys
  import WS = WorkflowState

  class WorkflowStateMachine {
    var workflows: map<string, WS.Status>
    var inputs: map<string, Bytes>
    var results: map<string, Bytes>
    var checkpointQueues: WS.Queues
    var checkpointHistory: WS.Queues
    var ownership: map<string, nat>

    ghost function Contents(): WS.State
      reads this
    {
      WS.State(workflows, inputs, results, checkpointQueues, checkpointHistory, ownership)
    }

    constructor ()
      ensures Contents() == WS.INITIAL
    {
      workflows, inputs, results := map[], map[], map[];
      checkpointQueues, checkpointHistory, ownership := map[], map[], map[];
    }

    method Apply(c: WS.Command) returns (events: seq<WS.Event>)
      modifies this
      ensures Contents() == WS.Apply(old(Contents()), c)
      ensures events == WS.EventsOf(c)
    {
      match c
      case WorkflowStart(w, t, version, input, owner) =>
        workflows := workflows[w := WS.Running];
        inputs := inputs[w := input];
        ownership := ownership[w := owner];
        events := [WS.WorkflowStarted(w, t, version, owner)];
      case WorkflowEnd(w, result) =>
        workflows := workflows[w := WS.Completed];
        results := results[w := result];
        inputs := inputs - {w};
        checkpointQueues := map k | k in checkpointQueues && !Sweeps(w, k) :: checkpointQueues[k];
        checkpointHistory := map k | k in checkpointHistory && !Sweeps(w, k) :: checkpointHistory[k];
        events := [WS.WorkflowCompleted(w, result)];
      case SetCheckpoint(w, key, v) =>
        var flat := MakeQueueKey(w, key);
        var queue := if flat in checkpointQueues then checkpointQueues[flat] else [];
        checkpointQueues := checkpointQueues[flat := queue + [v]];
        var values := if flat in checkpointHistory then checkpointHistory[flat] else [];
        checkpointHistory := checkpointHistory[flat := values + [v]];
        events := [WS.CheckpointSet(w, key, v)];
      case OwnerChange(w, oldOwner, newOwner, _) =>
        ownership := ownership[w := newOwner];
        events := [WS.OwnershipChanged(w, oldOwner, newOwner)];
    }

    /** The ownership query of the runtime. */
    method GetOwner(workflow: string) returns (owner: Option<nat>)
      ensures owner == WS.OwnerOf(Contents(), workflow)
    {
      owner := None;
      if workflow in ownership {
        owner := Some(ownership[workflow]);
      }
    }

    /** The value handed out is the oldest one not yet popped; nothing else changes. */
    method PopQueuedCheckpoint(workflow: string, key: string) returns (v: Option<Bytes>)
      modifies this`checkpointQueues
      ensures Contents() == WS.Pop(old(Contents()), MakeQueueKey(workflow, key))
      ensures var q := WS.Values(old(checkpointQueues), MakeQueueKey(workflow, key));
              v == if q == [] then None else Some(q[0])
    {
      var flat := MakeQueueKey(workflow, key);
      v := None;
      if flat in checkpointQueues {
        var queue := checkpointQueues[flat];
        if |queue| > 0 {
          v := Some(queue[0]);
          checkpointQueues := checkpointQueues[flat := queue[1..]];
        }
      }
    }

    method HasQueuedCheckpoint(workflow: string, key: string) returns (r: bool)
      ensures r <==> WS.Values(checkpointQueues, MakeQueueKey(workflow, key)) != []
    {
      var flat := MakeQueueKey(workflow, key);
      r := flat in checkpointQueues && |checkpointQueues[flat]| > 0;
    }

    method Snapshot() returns (d: WS.SnapshotData)
      ensures d == WS.TakeSnapshot(Contents())
    {
      d := WS.SnapshotData(workflows, inputs, results, checkpointHistory, ownership);
    }

    method Restore(d: WS.SnapshotData)
      modifies this
      ensures Contents() == WS.Restored(d)
    {
      workflows := d.workflows;
      inputs := d.inputs;
      results := d.results;
      checkpointHistory := d.history;
      ownership := d.ownership;
      checkpointQueues := RebuildQueues(d.history);
    }
  }

  /** One queue per history, whatever the iteration order. */
  method RebuildQueues(history: WS.Queues) returns (queues: WS.Queues)
    ensures queues == history
  {
    queues := map[];
    var todo := history.Keys;
    while todo != {}
      invariant todo <= history.Keys
      invariant queues.Keys == history.Keys - todo
      invariant forall k :: k in queues ==> queues[k] == history[k]
    {
      var k :| k in todo;
      var queue := Requeue(history[k]);
      queues := queues[k := queue];
      todo := todo - {k};
    }
  }

  /** A queue holding a history's values, oldest in front. */
  method Requeue(values: seq<Bytes>) returns (queue: seq<Bytes>)
    ensures queue == values
  {
    queue := [];
    for i := 0 to |values|
      invariant queue == values[..i]
    {
      queue := queue + [values[i]];
    }
  }
}
