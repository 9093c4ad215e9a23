# Raftoral: replicated workflows, logs and topology

A Dafny model of the logic Raftoral puts on top of raft-rs, with proofs of what its replicas,
queues, logs and clusters keep over whole runs. Check it with `dafny verify dfyconfig.toml`.

## What is modelled

- **Checkpoint replication** (`CheckpointKeys`, `WorkflowState`, `WorkflowStateMachine`,
  `CheckpointProtocol`, `CheckpointAgreement`, `CheckpointPositions`, `CheckpointCalls`, `QueueFronts`,
  `PositionsLost`, `OwnerOrWait`, `WorkflowRuntime`).
  N replicas apply one committed log. The owner of a workflow proposes its checkpoints and pops its
  own value, everybody dequeues at their own pace, replicas install snapshots. An *epoch* of a flat
  key is the stretch of the log between two workflow ends that sweep it; a *slot* is a flat key in
  one epoch. A run is *orderly* if snapshots are installed only where nothing was popped yet from the
  epochs restored, operations are given up only when their owner has applied every entry of the
  workflow, and what was given up does not commit later; theorems that need this say so, the others
  hold on all runs.
- **The replica loop** (`ProposalContext`, `Replication`, `ReplicaConvergence`, `RaftNode`,
  `WaiterProgress`, `Machines`, `KvStateMachine`, `FailureDetector`). Applying entries, installing and taking
  snapshots, completing waiters by id, detecting stalled followers; over any state machine whose
  snapshots preserve its replicated view.
- **Log storage** (`LogStorage`, `CrashRuns`, `RocksStorage`). A key-value store and two cached
  indices as a log with an offset, with crashes between durable writes. Conflicting suffixes follow
  section 5.3 of Ongaro and Ousterhout, "In Search of an Understandable Consensus Algorithm" (extended
  version); where snapshots differ from its section 7 is stated and proved.
- **Topology** (`ManagementState`, `ManagementStateMachine`, `ManagementRuntime`, `ClusterManager`,
  `Splits`, `SplitFixpoint`, `Placement`, `Consolidation`, `MapSums`). Split, placement and
  consolidation decisions turned into commands that are applied one by one. `order` is always the
  iteration order of the hash map of sub-clusters, and theorems hold for every order.
- **The event observer** (`Observer`). The set of runtimes a node keeps, maintained from a FIFO,
  loss-free event stream while the state machine runs ahead.

Objects that the program updates in place are classes whose methods are proved against functions on
values; the theorems are about those functions. The clock, the network and the environment's answers
are parameters (`Check`, `Attempt`, `Ready`).

## Where the code falls short of its description

- Flat keys are unambiguous only for workflow ids that do not extend each other past a colon
  (`CheckpointKeys.CollisionExactlyOnConflict`, `SweepExactlyOnConflict`, `ColonIdsCollide`).
- `set_checkpoint` on a waiting follower returns an event's value without popping the queued copy, so
  a later call reads it again (`PositionsLost.EventPathReadsTwice`), and it takes the event that arrives,
  which need not be the next one (`EventPathSkipsAValue`). `CheckpointCalls.CallsInPlaceExactly` says
  exactly when a node's calls return the committed values one after the other.
- A snapshot installed into a replica whose execution has already read checkpoints refills its queues
  with values it has consumed (`PositionsLost.InstallRewindsAReader`, `QueueFronts.InstallStartsOver`).
- An owner operation that fails although its entry is committed, or commits later, shifts the owner's
  queue (`PositionsLost.AbandonedEntryShiftsTheOwner`, `LateCommitShiftsTheOwner`).
  `CheckpointAgreement.AbandonExactly` says when giving up is harmless, and
  `QueueFronts.ReturnPopsOwnExactly` when the owner's pop takes out its own entry.
- `apply_snapshot` keeps the log entries behind a snapshot even when the snapshot's last entry conflicts
  with the log (`LogStorage.SnapshotMeetsSectionSevenExactly`, `ConflictingSuffixStays`).
- A round that installs a snapshot and applies no command after it subtracts a larger index from a
  smaller one: a panic with overflow checks, a wrongly labelled snapshot without them
  (`ReplicaConvergence.UnderflowExactly`, `PanicsExactly`, `TakenSnapshotExactly`,
  `Machines.StaleLabelDiverges`). Storing such a snapshot (src/raft/generic/node.rs:1006) also breaks
  the storage's call contract: it moves the start of the log back
  (`LogStorage.SnapshotBelowStartExactly`).
- Own snapshots are labelled with the hard-state term instead of the entry's term
  (`LogStorage.SnapshotTermKeptExactly`, `HardStateTermMislabels`).
- The description of `apply_snapshot` mentions the hard state; the code writes the snapshot, the
  configuration and the first index only, and the model follows the code.
- Ownership gained during the tenth attempt of the owner-or-wait loop is not acted on
  (`OwnerOrWait.OwnerInTheLastAttemptGivesUp`). No code in the repository proposes an owner change yet,
  so the event in that lemma is not received today.
- After a snapshot beyond the last entry last_index lies below first_index - 1
  (`LogStorage.LastIndexAfterExactly`).
- The description of the failure detector says a follower is failed when it makes no progress for the
  timeout; after a break in leadership the time is counted from before the break
  (`FailureDetector.StaleRecordIsReported`), and a follower whose match fell below the record is failed
  while it catches up (`GrowthBelowTheRecordIsAnnounced`). `AnnouncedExactly` says who is announced.
- Splits settle only for 1 <= split size < maximum; the configuration does not enforce it
  (`SplitFixpoint.SplitsReachFixpoint`, `OtherSizesNeverSettle`).

## Model

| member | source | states |
|---|---|---|
| `CheckpointCalls.CallsAgreeByPosition` | src/workflow/runtime.rs:559-670 | Agreement on all runs and all paths (dequeue, owner, event; any installs, failed operations, late commits): two calls of any two nodes for the same checkpoint that stand at the same position returned the same value |
| `CheckpointCalls.CallsReturnCommittedValues` | src/workflow/runtime.rs:559-670 | On all runs, the value a call returned by whatever path is the value at the call's position in the one sequence committed for that (workflow, key) in that epoch, as it stands at any later time |
| `CheckpointCalls.CallsInPlaceExactly` | src/workflow/runtime.rs:587-670 | On orderly runs, a node's calls for a checkpoint return the committed values one after the other if and only if before each pop no event had been taken in the epoch, and before each event the queue was longer than what was applied from its entry on by exactly the number of events taken (while its epoch lasts) |
| `CheckpointCalls.LatestEventInPlaceExactly` | src/workflow/runtime.rs:652-667 | The event of the entry applied last is in place if and only if the node's queue is longer by one than the number of events it has taken in the epoch |
| `CheckpointCalls.OwnerIsInPlace` | src/workflow/runtime.rs:608-650 | On orderly runs the owner's calls always return the committed values one after the other |
| `CheckpointCalls.EntryStandsAt` | src/workflow/state_machine.rs:216-240 | The value of a SetCheckpoint entry stands right behind everything committed for its key before it: the position of an event-served or owner's call |
| `CheckpointCalls.FrontStandsAt` | src/workflow/state_machine.rs:131-136 | The front of a queue stands as far from the end of the committed values as the queue is long: the position of a dequeue |
| `CheckpointCalls.LedgersAreCalls` | src/workflow/runtime.rs:559-670 | What a replica has handed out, popped or announced, is exactly the values of its calls in order, on all runs |
| `QueueFronts.InstallStartsOver` | src/workflow/state_machine.rs:283-313 | After an install at a node, with any steps in between that do not pop the key there, a dequeue returns the first value of the epoch current at the dequeue; it is in place if and only if the node had not called for the key in that epoch |
| `QueueFronts.ReturnPopsOwnExactly` | src/workflow/runtime.rs:617-650 | On all runs, when an owner operation returns (its node having installed nothing since it began), the front of the queue it pops is its own entry if and only if the key was not swept since the entry and no value of its epoch was committed between what the owner had applied at the start and the entry |
| `QueueFronts.FrontAtReturn` | src/workflow/runtime.rs:600-648 | The queue was empty when the operation began, so at its return the front stands behind exactly what the owner had applied then |
| `QueueFronts.FrontStep` | src/workflow/state_machine.rs:131-240 | No step but a pop of the key moves the front of a node's queue, unless the epoch changes or the node installs a snapshot: then it is back at the first value |
| `CheckpointPositions.AllRunsKeep` | src/workflow/runtime.rs:559-670 | Every state of every run, with any installs, failed operations and late commits: replicas show the replay of their prefix, each queue is a suffix of the current values, and the entry of an outstanding operation is where its id says, applied by its owner once the operation may return |
| `CheckpointAgreement.CheckpointsAgree` | src/workflow/runtime.rs:559-650 | On orderly runs, whatever the interleaving of proposals, commits, applies, dequeues, returns, event returns, snapshots and installs: at any two times any two nodes agree at every position of a checkpoint both have read through the owner or dequeue path |
| `CheckpointAgreement.ReadsArePrefixesOfCommitted` | src/workflow/runtime.rs:559-650 | On orderly runs, what a node has popped for a (workflow, key) in an epoch is, at every earlier or equal time, a prefix of the one sequence committed for that pair in that epoch |
| `CheckpointCalls.EventValuesAreCommitted` | src/workflow/runtime.rs:652-667 | On all runs, a value taken from an event was committed for exactly that workflow and key, in that epoch |
| `CheckpointAgreement.RunInv` | src/workflow/runtime.rs:587-670 | Every state of every orderly run satisfies the protocol invariant: replicas in step with their log prefix, reads aligned, the owner's queue consistent with its one outstanding operation, snapshots equal to replays |
| `CheckpointAgreement.AbandonExactly` | src/workflow/runtime.rs:633-636 | Giving up an operation keeps the protocol invariant if and only if its owner has applied every entry that concerns the workflow |
| `CheckpointAgreement.QuietUnlessInLog` | src/workflow/runtime.rs:633-636 | Before the entry of an operation is committed, and after it was applied, that is the case |
| `CheckpointAgreement.LateCommitNeverAligned` | src/raft/generic/proposal_router.rs:213-262 | An entry that commits although its operation was reported as failed always breaks the protocol invariant |
| `CheckpointAgreement.OwnerPopsItsOwnValue` | src/workflow/runtime.rs:638-648 | On orderly runs, when the owner's operation returns, its local queue for the key holds exactly the value it proposed, so the pop discards that value and no other |
| `CheckpointAgreement.BeginsOnlyAtTheOwner` | src/workflow/runtime.rs:387-403 | In every state of an orderly run a node that has applied the start of a workflow and passes the ownership check is the one fixed owner |
| `CheckpointAgreement.OwnershipIsFixed` | src/workflow/state_machine.rs:157-186 | When all starts and owner changes name the fixed owner, replay never registers another |
| `CheckpointAgreement.InstallAlignedExactlyWhenFresh` | src/workflow/state_machine.rs:283-313 | Installing a snapshot keeps the alignment of what was popped and what is queued if and only if the execution has popped nothing yet from the epochs being restored |
| `CheckpointAgreement.FlatKeysRefinePairs` | src/workflow/state_machine.rs:187-240 | With compatible workflow ids, counting epochs and committed values under "workflow:key" is counting them under the pair (workflow, key), for arbitrary checkpoint keys |
| `CheckpointAgreement.LogOnlyGrows` | src/workflow/runtime.rs:587-670 | Along a run the shared log of an earlier state is a prefix of the log of a later one |
| `PositionsLost.EventPathSkipsAValue` | src/workflow/runtime.rs:652-667 | An event can be out of place by itself: a reachable state in which the owner's two calls returned two values and a follower's first call returned the second one |
| `PositionsLost.InstallRewindsAReader` | src/workflow/state_machine.rs:300-310 | A reachable state in which a follower dequeued the first value, installed a snapshot, and dequeued the first value again |
| `PositionsLost.AbandonedEntryShiftsTheOwner` | src/workflow/runtime.rs:633-648 | A reachable state after an operation failed although its entry was committed: the owner's next operation popped the wrong entry and its own value was read twice, while a follower read both values |
| `PositionsLost.LateCommitShiftsTheOwner` | src/raft/generic/proposal_router.rs:213-262 | The same when the operation failed before its entry was committed, as when forwarding reports an error after the leader got the message, and the entry commits late |
| `PositionsLost.EventPathReadsTwice` | src/workflow/runtime.rs:652-667 | Positional agreement fails on the event path: a reachable state in which the owner's two calls returned two values and a follower's two calls both returned the first |
| `CheckpointKeys.KeyDeterminesCheckpoint` | src/workflow/state_machine.rs:13-15 | For one workflow the flat key is injective in the checkpoint key, colons included |
| `CheckpointKeys.CollisionExactlyOnConflict` | src/workflow/state_machine.rs:13-15 | Two workflow ids can share a flat key if and only if they are equal or one followed by a colon is a prefix of the other |
| `CheckpointKeys.SweepExactlyOnConflict` | src/workflow/state_machine.rs:201-206 | Ending one workflow can remove an entry of another if and only if the same condition holds |
| `CheckpointKeys.ColonFreeIdsNeverConflict` | src/workflow/state_machine.rs:13-15 | Colon-free ids conflict only when equal |
| `CheckpointKeys.FlatKeysAreFaithful` | src/workflow/state_machine.rs:201-206 | For compatible ids flat keys are equal exactly when workflow and key are, and the sweep of a workflow covers exactly its own entries |
| `CheckpointKeys.ColonIdsCollide` | src/workflow/state_machine.rs:13-15 | Ids with colons do break it: "a" and "a:b" share a key, and ending "a" sweeps an entry of "a:b" |
| `WorkflowState.QueueHistoryInvariant` | src/workflow/state_machine.rs:131-136 | On every run of applies, pops and restores, queues and histories have the same keys, each queue is a suffix of its history, and each history is exactly what the log set for the key since the last sweep covering it |
| `WorkflowState.HistoryIsCurrentValues` | src/workflow/state_machine.rs:187-240 | After replaying a log, the history of a flat key holds the values set in its current epoch, and the key is present exactly if there are any |
| `WorkflowState.PastEpochsAreFinal` | src/workflow/state_machine.rs:187-213 | Values committed in an epoch that a sweep has closed never change again |
| `WorkflowState.CommittedGrows` | src/workflow/state_machine.rs:216-240 | A longer log only extends, epoch by epoch, what was committed |
| `WorkflowState.ApplyRespectsSnapshots` | src/workflow/state_machine.rs:157-281 | The fields a snapshot carries alone decide the replicated effect of a command: transient queues never leak into them |
| `WorkflowStateMachines.WorkflowStateMachine.Apply` | src/workflow/state_machine.rs:157-259 | The in-place update of the six collections yields the state of the specification, and the events whose content `AnnouncedExactly` and `EventsTellTheState` fix |
| `WorkflowState.AnnouncedExactly` | src/workflow/state_machine.rs:235-239 | What a node waiting for a checkpoint learns from the events of a command: the value, if the command sets exactly this checkpoint; nothing from another workflow, another key or another command. The event steps of the protocol hand out this value |
| `WorkflowState.EventsTellTheState` | src/workflow/state_machine.rs:157-259 | Each command emits one event, for its own workflow, which tells what applying it does: owner and type after a start, result after an end, new owner after a change, and the value appended to queue and history |
| `WorkflowState.StatusIsLastStartOrEnd` | src/workflow/state_machine.rs:162-214 | After replaying a log a workflow is Running with its input if its last start or end is that start, and Completed without an input if it is an end |
| `WorkflowState.ResultIsLastEnd` | src/workflow/state_machine.rs:187-213 | The recorded result is that of the last end, also when the workflow was started again |
| `WorkflowState.OwnerIsLastNamed` | src/workflow/state_machine.rs:162-258 | The registered owner is the one named by the last start or ownership change |
| `WorkflowState.NobodyIsNamed` | src/workflow/state_machine.rs:117-119 | Without such a command nobody is registered |
| `WorkflowState.UnknownWithoutCommands` | src/workflow/state_machine.rs:102-114 | Without a start or end a workflow has no status and no input, without an end no result |
| `WorkflowState.RestoredFromSnapshot` | src/workflow/state_machine.rs:261-313 | Restoring a snapshot gives back all five replicated fields and queues that hold the full histories |
| `WorkflowStateMachines.WorkflowStateMachine.GetOwner` | src/workflow/state_machine.rs:117-119 | Answers with the registered owner, None without one |
| `WorkflowStateMachines.WorkflowStateMachine.PopQueuedCheckpoint` | src/workflow/state_machine.rs:131-136 | Hands out the oldest value not yet popped, None on an empty queue; only that queue changes |
| `WorkflowStateMachines.WorkflowStateMachine.HasQueuedCheckpoint` | src/workflow/state_machine.rs:139-144 | True exactly if a pop would return a value |
| `WorkflowStateMachines.WorkflowStateMachine.Snapshot` | src/workflow/state_machine.rs:261-281 | Carries everything but the queues |
| `WorkflowStateMachines.WorkflowStateMachine.Restore` | src/workflow/state_machine.rs:283-313 | The state becomes that of the snapshot with queues rebuilt from the full histories, whatever the iteration order |
| `WorkflowStateMachines.RebuildQueues` | src/workflow/state_machine.rs:303-310 | The rebuilt queues equal the histories key by key and value by value |
| `WorkflowRuntimes.WorkflowRuntime.SetCheckpoint` | src/workflow/runtime.rs:587-670 | A queued value is returned and popped; otherwise the outcome is that of the owner-or-wait loop, and the queue is popped only after a successful owner operation. If an attempt found no other node registered and its operation succeeded, and nothing else concerned the key, that pop takes out the value proposed, the history gains it, and it is returned |
| `WorkflowRuntimes.OwnerPopsWhatItProposed` | src/workflow/runtime.rs:617-650 | If the owner's proposal is the only entry for the key applied meanwhile, the pop removes exactly that value: the queue is empty again, the history has gained it, and the call returns it |
| `WorkflowRuntimes.WaitingReturnsAnAnnouncedValue` | src/workflow/runtime.rs:652-667 | A value returned without running the operation is the first announcement for exactly this workflow and key in the last subscription, with no ownership change of the workflow before it |
| `WorkflowRuntimes.FollowerReturnsTheAnnouncedValue` | src/workflow/runtime.rs:652-667 | A follower whose feed holds the event of an applied checkpoint command, before any other announcement of this checkpoint, ownership change or closing, returns exactly that command's value |
| `WorkflowRuntimes.OwnershipTestIsTheProtocols` | src/workflow/runtime.rs:387-403 | The ownership test of the loop, on what the local state machine answers, is the one the protocol theorems are stated with: only the registered owner passes, or everybody when nobody is registered |
| `WorkflowRuntimes.WorkflowRuntime.IsWorkflowOwner` | src/workflow/runtime.rs:387-403 | The test on the node is the protocol's: it asks the local state machine, and passes for the registered owner or when nobody is registered |
| `WorkflowRuntimes.RunsWellExactly` | src/workflow/runtime.rs:471-479 | The queue is popped after exactly those calls in which an attempt found no other node registered and its operation succeeded |
| `OwnerOrWait.WaitForEvent` | src/workflow/runtime.rs:33-68 | The receive loop returns what the specification of a wait says for every feed of events, lag notices and a closing channel |
| `OwnerOrWait.WaitEndsAtTheFirst` | src/workflow/runtime.rs:33-68 | A wait is decided by the first element that is accepted or closes the channel; if there is none it times out, or blocks when untimed |
| `OwnerOrWait.ExecuteOwnerOrWait` | src/workflow/runtime.rs:454-516 | The retry loop, with its number of operation runs and attempts, follows the specification on every script of ownership answers, feeds and results |
| `OwnerOrWait.FirstConclusionDecides` | src/workflow/runtime.rs:454-516 | The call is decided by its first conclusive attempt of at most ten; without one it times out with no run of the operation |
| `OwnerOrWait.OperationOnceOrFirstEvent` | src/workflow/runtime.rs:408-516 | At most ten attempts; the operation runs at most once, exactly when the last attempt saw ownership, which no earlier one did; any other Ok value is the first event of the workflow the extractor accepts, with no ownership change before it in that subscription |
| `OwnerOrWait.GivesUpExactly` | src/workflow/runtime.rs:493-513 | Without a run of the operation the call times out if and only if all ten attempts start without ownership and end by timeout or ownership change; the ownership check after a timeout makes no difference |
| `OwnerOrWait.OwnerInTheLastAttemptGivesUp` | src/workflow/runtime.rs:501-515 | A node that becomes the owner during the last attempt gets a timeout and never runs the operation, whether the caller set a timeout or not |
| `OwnerOrWait.OwnerRunsItsOperation` | src/workflow/runtime.rs:396-403 | If every attempt before one finds another node registered and hears nothing, and this one finds the caller registered or nobody, the operation is run once and the call ends with its result |
| `OwnerOrWait.RunIsAt` | src/workflow/runtime.rs:471-479 | The other direction: a call that ran its operation did so at such an attempt |
| `OwnerOrWait.NonOwnerNeverRuns` | src/workflow/runtime.rs:387-403 | While every attempt finds another node registered, the operation is never run |
| `OwnerOrWait.FollowerAnswersWithTheEvent` | src/workflow/runtime.rs:408-446 | A waiting node whose feed first skips lag notices, other workflows and refused events, and then has an event the extractor takes, ends with that value; a closing channel ends it with an error, an ownership change sends it to the next attempt |
| `OwnerOrWait.FruitlessCallsGiveUp` | src/workflow/runtime.rs:482-515 | Ten attempts that find another node registered and hear nothing end in a timeout; if the last one is idle and has no timeout, the call never ends |
| `OwnerOrWait.EveryCallIsOneOfThese` | src/workflow/runtime.rs:454-516 | The cases above cover every call: some attempt runs the operation, some attempt hears an element it cannot skip, or at least nine are fruitless |
| `ProposalContext.DecodesToEncoded` | src/raft/generic/node.rs:413-414 | Little-endian encoding of any width decodes to the number encoded |
| `ProposalContext.EncodesToDecoded` | src/raft/generic/node.rs:734-747 | Decoding any byte string and encoding the result at the same width gives the bytes back |
| `ProposalContext.ContextRoundTrip` | src/raft/generic/node.rs:1022-1037 | Ids written into normal and configuration entries are the ids found in them, the metadata behind an id is returned unchanged, and a forwarded id is found exactly if it is not zero |
| `ProposalContext.ContextsAreIds` | src/raft/generic/node.rs:734-747 | Every eight-byte context is the encoding of exactly the id decoded from it |
| `ReplicaConvergence.ReplicasConverge` | src/raft/generic/node.rs:686-800 | On all runs, any two replicas at the same applied index hold the same replicated view, whatever mix of entries (failing ones included) and snapshots led there, and it is the view of replaying the log up to that index; only where the index subtraction wraps around are nodes excepted that installed a mislabelled snapshot |
| `ReplicaConvergence.RestoreThenSuffixIsReplay` | src/raft/generic/node.rs:686-720 | Restoring a snapshot and applying the rest of the log gives the view of replaying the whole log |
| `ReplicaConvergence.RunOk` | src/raft/generic/node.rs:678-960 | Every state of every run keeps: replicas that never installed a mislabelled snapshot show the replay of their prefix with waiters in order; in builds that do not wrap around nobody ever did, and every stored or pooled snapshot holds the log up to its label |
| `ReplicaConvergence.OnReadyOk` | src/raft/generic/node.rs:678-960 | Every round that does not panic keeps the node invariant and advances the applied index by what was delivered, the early return of a pre-candidate included |
| `ReplicaConvergence.UnderflowExactly` | src/raft/generic/node.rs:706-973 | For every node and round: the subtraction of snapshot index from committed index underflows if and only if no normal entry is applied and the round installs a snapshot or already began that way |
| `ReplicaConvergence.PanicsExactly` | src/raft/generic/node.rs:964-975 | The loop panics if and only if snapshots are on, overflow is checked, the round reaches the subtraction, and it is such a round |
| `ReplicaConvergence.TakenSnapshotExactly` | src/raft/generic/node.rs:963-1016 | A snapshot that is taken holds the log up to its label if and only if the entries between label and applied position make no difference to the view; with ordered indices, and in builds that do not wrap around, it always does |
| `ReplicaConvergence.WaitersLearnTheirOwnResult` | src/raft/generic/node.rs:727-790 | On every run a waiter completes at most once, only while an entry carrying its id is applied on its node, and with the result of that very entry |
| `ReplicaConvergence.OkMeansOwnCommandApplied` | src/raft/generic/proposal_router.rs:271-277 | If the proposal is the only entry with its id, an Ok answer means the command was applied successfully and the local state already reflects a log prefix containing it |
| `Replication.ApplyAllOk` | src/raft/generic/node.rs:722-800 | A batch keeps the node invariant, advances the applied index by its length, and moves committed_index if and only if it holds a normal entry |
| `Replication.InertKeepsState` | src/raft/generic/node.rs:724-728 | Stretches of empty and configuration entries do not change the state machine |
| `Machines.MachinesAreFaithful` | src/raft/generic/state_machine.rs:20-40 | The workflow, management and key-value state machines all meet the contract the convergence theorems need |
| `Replication.ReplayFeedsPayloads` | src/raft/generic/node.rs:751-780 | Replaying a log is applying its decodable commands one after the other, those that fail included; nothing else in it touches the state |
| `Machines.ReplaysAreTheMachines` | src/raft/generic/state_machine.rs:20-40 | For each of the three machines the state the loop replays is the one its own theorems speak of: the commands of the log applied in order to the initial state |
| `Machines.StaleLabelDiverges` | src/raft/generic/node.rs:706-1010 | Where subtraction wraps, for every interval: a node that installs a snapshot of two entries on top of one stores it labelled 1; a fresh node that receives it and the second entry reaches the same index with a different view |
| `RaftNodes.RaftNode.Propose` | src/raft/generic/node.rs:398-430 | The waiter is registered before raft is asked and taken back if raft refuses: it is pending afterwards exactly if the proposal was accepted; the context carries its id |
| `RaftNodes.RaftNode.RegisterForwardedProposal` | src/raft/generic/node.rs:435-438 | A forwarded proposal's waiter is registered on the forwarding node |
| `RaftNodes.RaftNode.CompleteWaiter` | src/raft/generic/node.rs:783-788 | Completes and removes the waiter with the id, if there is one; that waiters are completed, when and with what, is the matter of the `WaiterProgress` rows |
| `WaiterProgress.WaitersAreAnswered` | src/raft/generic/node.rs:678-960 | On every run, a waiter that is not taken back, on a node that installs no snapshot meanwhile, is pending exactly as long as no entry applied since carries its id; once one does there is one completion for it, at the first such entry, with the result due for that entry applied to the replay of the log before it |
| `WaiterProgress.PendingUntilDelivered` | src/raft/generic/node.rs:678-960 | The same for pending alone on all runs, installs and wrapping builds included: a waiter not taken back is pending exactly as long as no entry delivered to its node carries its id, so one whose entry an install skips is not answered by it |
| `WaiterProgress.RunKeepsRegistered` | src/raft/generic/node.rs:398-438 | On every run whoever waits at a node was registered there |
| `WaiterProgress.RoundAnswers` | src/raft/generic/node.rs:678-960 | One round, with or without a snapshot in front, answers exactly the waiters whose ids its entries carry, each once, by the first such entry, with the result due in the state that entry met |
| `WaiterProgress.StillPending` | src/raft/generic/node.rs:678-960 | After a round exactly those waiters are still pending whose ids none of its entries carries |
| `WaiterProgress.FirstCarrierAnswers` | src/raft/generic/node.rs:727-790 | In a batch the first entry that carries a waiter's id answers it: the state machine's result for a command, an error for data that does not decode, and for a configuration change an error exactly if it adds a node with metadata that does not decode |
| `WaiterProgress.WaitsUntilCarried` | src/raft/generic/node.rs:783-788 | A waiter stays pending through a batch if and only if no entry carries its id, and nobody is answered in its name |
| `WaiterProgress.EntryAnswers` | src/raft/generic/node.rs:1022-1085 | One entry, normal or configuration change, answers exactly the waiter whose id is in its context |
| `RaftNodes.RaftNode.ApplyCommitted` | src/raft/generic/node.rs:722-800 | The loop over committed entries changes state, indices and waiters as the batch specification says; a waiter is pending afterwards exactly if it was and no entry carries its id |
| `RaftNodes.RaftNode.MaybeCreateSnapshot` | src/raft/generic/node.rs:963-1016 | Panics exactly when checked subtraction underflows; otherwise takes the snapshot the specification says, or none |
| `RaftNodes.RaftNode.OnReady` | src/raft/generic/node.rs:678-960 | One round on the object: snapshot, committed entries, early return of a pre-candidate, light entries, periodic snapshot, with raft indices matching the applied position; a waiter is pending afterwards exactly if it was and no entry of the round carries its id |
| `Replication.AppliedAdvances` | src/raft/generic/node.rs:722-800 | A batch advances the applied position by its length |
| `Replication.CommittedIsLastNormal` | src/raft/generic/node.rs:722-800 | After a batch committed_index is the index of its last normal entry |
| `ReplicaConvergence.StoredAfterRound` | src/raft/generic/node.rs:963-1016 | After a round the stored snapshot is one of the state it ends in, labelled with committed_index and the hard-state term, exactly if at least the interval was committed since the last one; otherwise the snapshot it installed or what was stored before |
| `KvStateMachines.KvStateMachine.Apply` | src/raft/generic/state_machine.rs:105-119 | The store after a command and the event naming the key changed |
| `KvStateMachines.ValueIsLastWritten` | src/raft/generic/state_machine.rs:105-119 | Over every sequence of commands a key holds the value of the last command about it, and nothing after a delete |
| `KvStateMachines.UnwrittenKeysAreAbsent` | src/raft/generic/state_machine.rs:105-119 | A key no command is about is absent |
| `FailureDetector.ProgressTracker.ScanPeers` | src/raft/generic/node.rs:1134-1177 | The loop over peers leaves the records of the specification and collects the stalled peers, in order; who they are over a run is said by `AnnouncedExactly` |
| `FailureDetector.ProgressTracker.CheckFollowerProgress` | src/raft/generic/node.rs:1116-1199 | One check: refreshed peers get the new match and time, reported ones are forgotten, all others keep their record, and nobody is announced twice by one check; runs of such checks are the matter of the next rows |
| `FailureDetector.AnnouncedExactly` | src/raft/generic/node.rs:1116-1199 | Over runs, in terms of what the checks saw: a peer is announced if and only if the check looks at it, it is behind the commit index, and since it was last announced or caught up some match that none has exceeded is older than the timeout |
| `FailureDetector.WindowExists` | src/raft/generic/node.rs:1116-1199 | Every check has such a stretch leading up to it, so the condition decides every announcement |
| `FailureDetector.CaughtUpIsNotAnnounced` | src/raft/generic/node.rs:1144-1147 | A follower found at or above the commit index is announced neither by that check nor by a later one within the timeout |
| `FailureDetector.NewPeakIsNotAnnounced` | src/raft/generic/node.rs:1148-1171 | Nor is one whose match is above all that earlier checks saw, a follower seen for the first time included |
| `FailureDetector.StalledIsAnnounced` | src/raft/generic/node.rs:1155-1166 | A follower that stays behind the commit index and at or below the match a check saw, for longer than the timeout, is announced by one of the checks up to then |
| `FailureDetector.OnlyFollowersAreAnnounced` | src/raft/generic/node.rs:1116-1143 | Only a leader with a timeout announces anybody, never itself or a node it does not replicate to |
| `FailureDetector.GrowthBelowTheRecordIsAnnounced` | src/raft/generic/node.rs:1148-1166 | Growing since the previous check is not enough: a follower whose match fell below its record is announced while it catches up |
| `FailureDetector.RecordIsLastRefresh` | src/raft/generic/node.rs:1144-1172 | A peer has a record if and only if some check refreshed it and none reported it since; the record is what the last refresh saw |
| `FailureDetector.ReportedExactly` | src/raft/generic/node.rs:1144-1172 | A check reports a peer if and only if it looks at it, does not refresh it, and the last refresh is more than the timeout earlier |
| `FailureDetector.RefreshedFollowersAreNotReported` | src/raft/generic/node.rs:1116-1199 | A follower refreshed by some check within the timeout before a check is not reported by it |
| `FailureDetector.ReportsAreTimeoutApart` | src/raft/generic/node.rs:1179-1196 | Two reports of one peer are more than the timeout apart |
| `FailureDetector.StaleRecordIsReported` | src/raft/generic/node.rs:1122-1134 | Records survive a loss of leadership: a follower can be reported by the first check after the node leads again |
| `LogStorage.RunsRefine` | src/raft/generic/rocksdb_storage.rs:431-536 | Under Raft's call contract every run of append, compact and apply_snapshot shows exactly an abstract log with an offset; entries left in the store above last_index are never visible, and the stored snapshot ends below the log |
| `CrashRuns.RunsWithCrashesRefine` | src/raft/generic/rocksdb_storage.rs:431-536 | The same for runs in which any write may be cut short by a crash: the log is exactly the abstract one from a cut on, with nothing stored between the start and the cut |
| `CrashRuns.StepIsSound` | src/raft/generic/rocksdb_storage.rs:443-536 | Any number of the durable writes of an operation leaves such a log: a whole append or none of it, a drop up to the new cut |
| `CrashRuns.ReadsAreSound` | src/raft/generic/rocksdb_storage.rs:618-669 | In such a state a read succeeds exactly inside the sound log, with its longest fitting prefix; a read that starts in the hole is an error |
| `CrashRuns.RedoClosesTheHole` | src/raft/generic/rocksdb_storage.rs:481-505 | Repeating the compaction, or any later one, restores an intact log |
| `LogStorage.SnapshotMeetsSectionSevenExactly` | src/raft/generic/rocksdb_storage.rs:511-536 | The log after a snapshot is the one section 7 of the Raft paper asks for if and only if nothing lies behind the snapshot or the visible entry at its index has its term |
| `LogStorage.ConflictingSuffixStays` | src/raft/generic/rocksdb_storage.rs:511-536 | After a snapshot up to index 2 with term 2 on a log of three entries of term 1, entry 3 of term 1 stays visible |
| `LogStorage.SnapshotBelowStartExactly` | src/raft/generic/node.rs:1005-1006 | A snapshot labelled below the start of the log leaves it intact if and only if every entry from the label on is still stored |
| `LogStorage.SnapshotBelowStartAfterRun` | src/raft/generic/node.rs:1005-1006 | After any run under the call contract such a snapshot leaves the log intact if its label is not below what compactions and snapshots beyond the end have removed, and breaks it if the label is below a deleted entry |
| `LogStorage.LastIndexMeetsLogExactly` | src/raft/generic/rocksdb_storage.rs:702-710 | last_index reports the end of the visible log if and only if first_index is at most one behind it |
| `LogStorage.LastIndexAfterExactly` | src/raft/generic/rocksdb_storage.rs:511-536 | After an operation that is so if and only if it was a real append, or dropped no further than the last entry: a snapshot beyond the last entry leaves last_index behind |
| `RocksStorage.RocksDBStorage.FirstIndex` | src/raft/generic/rocksdb_storage.rs:702-705 | Answers with the stored first index |
| `RocksStorage.RocksDBStorage.LastIndex` | src/raft/generic/rocksdb_storage.rs:707-710 | Answers with the stored last index |
| `RocksStorage.RocksDBStorage.GetSnapshot` | src/raft/generic/rocksdb_storage.rs:539-554 | Answers with the stored snapshot, data included |
| `RocksStorage.RocksDBStorage.SnapshotToSend` | src/raft/generic/rocksdb_storage.rs:712-723 | Answers with the stored snapshot if it reaches the requested index, and is temporarily unavailable otherwise |
| `RocksStorage.RocksDBStorage.InitialConf` | src/raft/generic/rocksdb_storage.rs:608-616 | Answers with the stored configuration |
| `LogStorage.LastSnapshotIsReadBack` | src/raft/generic/rocksdb_storage.rs:511-554 | After any run of writes the snapshot read back is, data included, the one applied last, for exactly the requests it reaches, and the stored configuration is the one it carries |
| `LogStorage.NoSnapshotYet` | src/raft/generic/rocksdb_storage.rs:712-723 | Before the first snapshot every request is temporarily unavailable and the configuration is the initial one |
| `LogStorage.SnapshotCrashReads` | src/raft/generic/rocksdb_storage.rs:511-536 | A crash inside a snapshot leaves the whole new one readable from its first write on, and the new start only with the new configuration |
| `LogStorage.AppendRefines` | src/raft/generic/rocksdb_storage.rs:431-475 | An append truncates the visible log at the first new index and extends it |
| `LogStorage.FirstAppendSetsStart` | src/raft/generic/rocksdb_storage.rs:431-475 | The first append to a store without entries may begin at any index: the log starts there and shows exactly what was appended |
| `LogStorage.CompactRefines` | src/raft/generic/rocksdb_storage.rs:481-505 | A compaction drops exactly the visible entries up to the given index |
| `LogStorage.SnapshotRefines` | src/raft/generic/rocksdb_storage.rs:511-536 | A snapshot drops exactly the visible entries up to its index and keeps those behind it whatever their terms, last_index being left alone |
| `LogStorage.ReadIsLongestPrefix` | src/raft/generic/rocksdb_storage.rs:618-669 | A read in range returns the longest prefix of the visible slice whose sizes sum to at most the limit, never fewer than one entry; a read below the log is Compacted, one above it Unavailable |
| `LogStorage.TermRefines` | src/raft/generic/rocksdb_storage.rs:671-700 | Term answers depend on the visible log and the snapshot boundary alone |
| `LogStorage.SnapshotTermKeptExactly` | src/raft/generic/node.rs:1000-1003 | A snapshot taken at a visible index keeps the term answer for it if and only if it is labelled with that entry's term |
| `LogStorage.HardStateTermMislabels` | src/raft/generic/node.rs:1000-1003 | Labelling with the hard-state term changes the answer: an entry of term 1 snapshotted in term 2 is reported with term 2 |
| `LogStorage.AppendAndSnapshotCrashesAreAtomic` | src/raft/generic/rocksdb_storage.rs:431-536 | A crash at any point of an append or a snapshot reopens to the visible log from before or after it |
| `LogStorage.SnapshotCrashTerms` | src/raft/generic/rocksdb_storage.rs:511-536 | A crash inside a snapshot answers every term as before it or as after it |
| `LogStorage.CompactCrashShape` | src/raft/generic/rocksdb_storage.rs:481-505 | What a crash inside a compaction leaves: all entries from a cut on, none between the old first index and the cut |
| `LogStorage.CompactCrashNeverLies` | src/raft/generic/rocksdb_storage.rs:481-505 | After such a crash, reads and terms above the compaction point are unchanged, and any other read or term answers as before or with an error, never with a wrong entry |
| `RocksStorage.RocksDBStorage.Create` | src/raft/generic/rocksdb_storage.rs:221-236 | A new store: first index 1, last index 0, caches in agreement |
| `RocksStorage.RocksDBStorage.Reopen` | src/raft/generic/rocksdb_storage.rs:242-250 | Reopening any stored state reloads the caches from the stored indices |
| `RocksStorage.RocksDBStorage.Append` | src/raft/generic/rocksdb_storage.rs:431-475 | Caches and store end up as the database specification says, through a single atomic write |
| `RocksStorage.RocksDBStorage.Compact` | src/raft/generic/rocksdb_storage.rs:481-505 | The deletion loop ends in the specified state; every intermediate durable state is recorded for the crash theorems |
| `RocksStorage.RocksDBStorage.ApplySnapshot` | src/raft/generic/rocksdb_storage.rs:511-536 | Snapshot, configuration and first index are written one after the other; caches agree afterwards |
| `RocksStorage.RocksDBStorage.Entries` | src/raft/generic/rocksdb_storage.rs:618-669 | The reading loop over the caches answers as the specification over the stored state |
| `RocksStorage.RocksDBStorage.Term` | src/raft/generic/rocksdb_storage.rs:671-700 | The term lookup over the caches answers as the specification over the stored state |
| `ManagementStateMachines.ManagementStateMachine.Apply` | src/management/state_machine.rs:129-214 | The in-place update yields the specified state, and the specified events or an error |
| `ManagementStateMachines.ManagementStateMachine.Snapshot` | src/management/state_machine.rs:216-232 | A snapshot carries the whole state, the id counter included |
| `ManagementStateMachines.ManagementStateMachine.Restore` | src/management/state_machine.rs:234-248 | The whole state becomes that of the snapshot |
| `ManagementStateMachines.Retain` | src/management/state_machine.rs:168-173 | Keeps every entry but the given node, in order |
| `ManagementState.ApplyKeepsIds` | src/management/state_machine.rs:131-146 | Every assigned id stays below the counter and above 0, so ids are never reused after a delete |
| `ManagementState.ErrorsExactly` | src/management/state_machine.rs:129-214 | A command is an error exactly if it names an unknown cluster in an addition, a removal or a metadata change, and then the state is unchanged |
| `ManagementState.MetadataEventsTellTheState` | src/management/state_machine.rs:182-206 | The metadata event of a command tells what is found under its key afterwards; no other value and no node list changes |
| `ManagementState.DrainingFollowsCommands` | src/management/cluster_manager.rs:280-286 | A cluster drains from the command that sets the mark until one that sets it to something else, removes it or deletes the cluster |
| `ManagementState.AddressIsLastRegistered` | src/management/state_machine.rs:208-212 | The address of a node is the one registered last, over every sequence of commands |
| `ManagementState.ApplyKeepsDistinct` | src/management/state_machine.rs:131-180 | No command puts a node into a list twice |
| `ManagementState.WithoutConcat` | src/management/state_machine.rs:170-172 | Removing a node from a list keeps all other entries in order |
| `ClusterManager.DecideSplits` | src/management/cluster_manager.rs:130-164 | The decision loop emits, for each non-draining cluster at the maximum, one create and one removal of its lowest ids |
| `ClusterManager.LowestAreLowest` | src/management/cluster_manager.rs:146-152 | The moved nodes are min(n, size) members, no remaining member has a smaller id, and no duplicates appear |
| `ClusterManager.SmallestNonDraining` | src/management/cluster_manager.rs:99-107 | Finds the first of the smallest clusters that are not draining, and how many there are |
| `ClusterManager.FirstSmallestIsSmallest` | src/management/cluster_manager.rs:106-107 | The chosen cluster is a member of the list and no larger than any other |
| `ClusterManager.DecideNodePlacement` | src/management/cluster_manager.rs:84-121 | Adds to that smallest cluster if it is below the target, otherwise creates a cluster |
| `ClusterManager.DecideConsolidation` | src/management/cluster_manager.rs:225-277 | The decision is the specified one: empty drained clusters destroyed, at most one more drained, with its four guards |
| `ClusterManager.CountNodes` | src/management/cluster_manager.rs:240-246 | The node total over any iteration order is the order-free sum of cluster sizes |
| `Splits.SplitPrefix` | src/management/runtime.rs:787-812 | The exact state after the create and any number of the single-node removals of a split |
| `Splits.MidSplitKeepsPlaced` | src/management/runtime.rs:787-812 | At every point inside a split the same nodes are placed |
| `Splits.SplitKeepsPartition` | src/management/runtime.rs:787-812 | A completed split keeps memberships disjoint and free of duplicates |
| `Splits.SplitsAreSafe` | src/management/cluster_manager.rs:130-164 | Split safety at every log prefix of a whole round: the set of placed nodes never changes, and from duplicate-free disjoint memberships the round ends with every node in exactly one cluster |
| `SplitFixpoint.StableExactlyWithoutActions` | src/management/cluster_manager.rs:134-161 | A round decides nothing if and only if every non-draining cluster is below the maximum |
| `SplitFixpoint.SplitLowersExcess` | src/management/cluster_manager.rs:146-160 | One split strictly lowers the total excess over the maximum, for 1 <= split size < maximum |
| `SplitFixpoint.RoundsUseUpExcess` | src/management/cluster_manager.rs:134-161 | Each round either finds a settled state or uses up at least one unit of excess |
| `SplitFixpoint.SplitsReachFixpoint` | src/management/cluster_manager.rs:134-161 | As many decide-and-execute rounds as there is excess always end with every non-draining cluster below the maximum, in any iteration orders |
| `SplitFixpoint.OtherSizesNeverSettle` | src/management/cluster_manager.rs:134-161 | For every other choice of sizes, no number of rounds settles a state that is not settled already |
| `SplitFixpoint.RoundMemberships` | src/management/cluster_manager.rs:134-161 | The multiset of node lists after a round is that before it, with every split list replaced by its two parts |
| `SplitFixpoint.RoundSplitsUp` | src/management/cluster_manager.rs:134-161 | A round splits exactly the active clusters of maximum size or more: the split-size lowest ids move, in ascending order, to a new cluster, every id that stays is above them, and all other clusters are as before |
| `SplitFixpoint.RoundIgnoresOrder` | src/management/cluster_manager.rs:134-161 | The multiset of resulting memberships does not depend on the hash map's iteration order |
| `Placement.PlacementRunsAreTight` | src/management/cluster_manager.rs:84-121 | n distinct nodes placed one at a time from the empty topology, with any tie-breaking, give exactly ceil(n / target) clusters, none above target, at most one below, and every node in exactly one |
| `Placement.PlaceAddsOneNode` | src/management/runtime.rs:777-797 | Placing a fresh node adds exactly that node to the placed ones and keeps memberships disjoint |
| `Placement.PlacesWell` | src/management/cluster_manager.rs:84-121 | Executing the decision puts the node into an active cluster of minimal size if one is below the target, else into a new cluster of its own, and changes nothing else |
| `ClusterManager.PlacementExactly` | src/management/cluster_manager.rs:84-121 | On every state and order the decision is to add to a smallest active cluster if some active cluster is below the target, and to create one otherwise |
| `Consolidation.ConsolidateEffect` | src/management/runtime.rs:814-834 | A round removes exactly the empty drained clusters and marks at most one active cluster as draining; nothing else changes |
| `Consolidation.ConsolidateConsolidates` | src/management/cluster_manager.rs:225-277 | Every round leaves what consolidation is for, stated on the two states alone: gone exactly the empty draining clusters, one smallest active cluster newly draining exactly under the four guards, all else unchanged |
| `Consolidation.NoEmptyDrainedIsLeft` | src/management/cluster_manager.rs:229-236 | The only empty draining cluster there can be after a round is the one that has just been marked |
| `Consolidation.UnvisitedRemain` | src/management/runtime.rs:980-1000 | While a failed node is being removed, the clusters still to be visited are still there |
| `Consolidation.ConsolidationKeepsNodes` | src/management/cluster_manager.rs:225-277 | A round moves and drops no node: surviving clusters keep their lists, deleted ones were empty |
| `Consolidation.ConsolidationIsBoundedAndEnds` | src/management/cluster_manager.rs:225-277 | A round never takes the non-draining clusters below the minimum, and strictly lowers (clusters + non-draining clusters) unless it decides nothing, in which case nothing changes |
| `Consolidation.SettledExactlyWithoutActions` | src/management/cluster_manager.rs:225-277 | A round decides nothing if and only if no empty drained cluster is left and the guards for draining fail, a condition on the state alone, whatever the iteration order |
| `Consolidation.RoundsUseUpWeight` | src/management/cluster_manager.rs:225-277 | Over any number of rounds no node loses its place and the non-draining clusters never fall below the minimum; each round finds a settled state or uses up weight |
| `Consolidation.ConsolidationSettles` | src/management/cluster_manager.rs:225-277 | As many rounds as there are clusters plus non-draining clusters always end in a settled state, in any iteration orders |
| `Consolidation.DrainedClusterIsSmall` | src/management/cluster_manager.rs:248-275 | When nothing was draining, the cluster chosen has size below the inverse of the drain threshold, by summing all sizes |
| `Consolidation.FailedNodeIsRemoved` | src/management/runtime.rs:957-1003 | Removing a failed node, with a consolidation after each removal, ends with it in no cluster; the others keep their places and order; clusters deleted on the way held nobody else |
| `ManagementRuntimes.ManagementRuntime.ExecuteAction` | src/management/runtime.rs:776-836 | An action is carried out as its command, or as one command per node for removals, in order |
| `ManagementRuntimes.ManagementRuntime.ExecuteActions` | src/management/runtime.rs:768-837 | A list of actions is carried out as the concatenation of their commands |
| `ManagementRuntimes.ManagementRuntime.PlaceNode` | src/management/runtime.rs:872-897 | From any state the node joins an active cluster of minimal size if one is below the target, and gets a cluster of its own otherwise |
| `ManagementRuntimes.ManagementRuntime.AddNodeToCluster` | src/management/runtime.rs:458-495 | Adds the node and runs a split round: exactly the active clusters of maximum size or more are split, their lowest ids into new clusters; with disjoint memberships and a fresh node, memberships stay disjoint and exactly the one node is added to the placed ones |
| `ManagementRuntimes.ManagementRuntime.RemoveNodeFromCluster` | src/management/runtime.rs:506-543 | Removes the node and consolidates what that leaves: the clusters that are then draining and empty are gone and no others, and exactly one active cluster of minimal size starts to drain if the four guards hold on that state, none otherwise; for an unknown cluster nothing changes |
| `ManagementRuntimes.AffectedClusters` | src/management/runtime.rs:969-979 | Lists, without repetition, exactly the clusters that contain the node |
| `ManagementRuntimes.ManagementRuntime.HandleFailedNode` | src/management/runtime.rs:957-1003 | The removal loop visits each affected cluster once, each removal followed by a consolidation of what it left, and ends with the failed node placed nowhere, every other node still placed, surviving lists unchanged but for it, and deleted clusters without any other node |
| `Observer.DrainedObserverAgrees` | src/management/runtime.rs:1035-1300 | On every interleaving of state machine and observer, once the event queue is drained the node keeps runtimes for exactly the clusters that list it, also when a cluster was deleted before its events were handled |
| `Observer.ObserverLagsConsistently` | src/management/runtime.rs:1035-1300 | At any time, of the clusters that exist now the node runs exactly those it belonged to when the last handled event was emitted |
| `Observer.ObserverInvariant` | src/management/runtime.rs:1035-1300 | The lag invariant holds after every sequence of commands and handled events |
| `Observer.PublishedMembership` | src/management/state_machine.rs:129-180 | The memberships told by the emitted events are those of the state they were emitted from, after every command |
| `Observer.HandleStartsOnly` | src/management/runtime.rs:1053-1290 | An addition never starts a runtime for a cluster deleted since, no event starts one for the management cluster, and no event touches runtimes it is not about |
| `Observer.EventObserver.HandleEvent` | src/management/runtime.rs:1053-1290 | Handling one event updates the set of runtimes as the specification says, reading the state machine as it is now |

## Left out

- raft-rs (elections, quorums, message handling) and `src/raft/generic/storage.rs`: one committed, index-ordered log is assumed; what raft delivers in a round is the `Ready` parameter.
- gRPC, HTTP, the sidecar, transports, bootstrap and the command line: they only move data.
- JSON and prost encodings: assumed to round-trip, except the hand-written 8-byte context and the flat key. Failures to serialise, to deserialise a queued checkpoint, to take a snapshot or to restore one are not modelled.
- I/O errors of RocksDB: writes are atomic and succeed; crashes fall between them. Crashes inside first-time initialisation are not modelled.
- Integer widths: log indices, u64 node ids, the u32 cluster id counter and entry sizes are unbounded, so exhaustion of ids and overflow of size sums are outside the model. The one subtraction that can go wrong in practice is modelled with its width.
- CheckpointAgreement.CheckpointsAgree: speaks of the owner and dequeue paths of orderly runs; the three paths of all runs are the matter of CheckpointCalls.CallsAgreeByPosition. The owner of a workflow is fixed, since no code in the repository proposes an owner change, and it has one checkpoint call under way at a time.
- CheckpointAgreement.RunInv: orderly runs only; all runs keep the weaker invariant of CheckpointPositions.AllRunsKeep.
- ReplicaConvergence.ReplicasConverge: in builds where the subtraction wraps around it says nothing about a node that once installed a mislabelled snapshot, even after a later sound one; Machines.StaleLabelDiverges shows what installing one does.
- CheckpointCalls.CallsInPlaceExactly: for an event whose epoch is over, the guard compares positions directly, since the queue no longer tells them.
- QueueFronts.ReturnPopsOwnExactly: an install at the owner while its operation is outstanding is treated by QueueFronts.InstallStartsOver and FrontStep only.
- RaftNodes.RaftNode.OnReady: a configuration entry that does not decode ends the loop in the code; raft commits encoded ones only, and such entries are not modelled. What raft delivers after a round that ended early is assumed to continue the log.
- ReplicaConvergence.OkMeansOwnCommandApplied: needs the id to occur once in the log; ids are random 64-bit numbers, and collisions are not excluded by the code.
- WaiterProgress.WaitersAreAnswered: about waiters of nodes that install no snapshot meanwhile, since a waiter whose entry reaches the node inside a snapshot is not completed by the code (WaiterProgress.PendingUntilDelivered).
- ManagementRuntimes.ManagementRuntime.HandleFailedNode: every proposal is applied before the next decision. The code waits for the removal only; the consolidation commands it proposes may still be on their way, and its final step, removal from the management cluster with a rebalancing task, is not part of this model.
- ManagementRuntimes.ManagementRuntime.PlaceNode: runs on the current state; the 100 ms delay and concurrent tasks on stale states are not modelled.
- decide_rebalancing: it adds a node to a second cluster without removing it from the first, so no disjointness can be claimed.
- The drain threshold is an exact ratio instead of a floating-point number.
- Observer.DrainedObserverAgrees: broadcast lag, channel capacity and failing runtime constructors are assumed away, and snapshot restores, which emit no events, are not steps. The follow-up calls that change a sub-cluster's own raft configuration are not modelled.
- Leader lookup with backoff in the proposal router, the cluster router, the workflow registry and the polling loops: no state worth a theorem.
- LogStorage.SnapshotTermKeptExactly: about a snapshot at an index that is still visible and not yet the boundary, which is when the loop takes one.
