# A verified model of the durable graph engine

The repository runs agent workflows as state graphs on a store of checkpoints. This
project models its durable core in Dafny and proves what the layers promise together.

- **Checkpoint store** (`ThreadSpec`, `ThreadInvariant`, `Paging`, `GarbageCollection`,
  `DurableMemory`, `LegacyPut`). A thread is an append-only chain with compare-and-set on
  the parent, idempotent retry by id, reference tables copied on every commit, pruning
  with collection of sessions, and newest-first paging. The class mutates its records in
  place; a ghost log that pruning never shortens says what the tables mean.
- **Lease and fence** (`LeaseSpec`, `MemoryLease`, `Heartbeat`). An owner, an epoch and an
  expiry that clocks, renewals, releases and takeovers drive.
- **Engine** (`EngineSpec`, `RunFacts`, `EngineRun`, `Invocation`). One function says what
  a run does under a schedule of disturbances: cancelled contexts, lost leases, failing
  nodes, refused commits. The loop on a real store is proved equal to it. `History`
  defines which sequences of records can arise at all; crash/resume equivalence,
  `Transparency` of interrupts and `HistoryFacts` are about every such sequence.
- **Many runners** (`Takeover`, `TakeoverProofs`, `TakeoverRuns`). A transition system in
  which any number of runs acquire, load, execute, commit through the fence, stall, stop
  and are taken over while the clock jumps and history is pruned.
- **Presets** (`Bounded`, `Supervisor`, `Approval`, `SupervisorRun`, `CodingLoop`). Exact
  step counters, tight bounds, and approval integrity of the human in the loop.
- **Agents and effects** (`AgentSessions`, `SessionContinuity`, `ToolExecution`).
  Conversations that continue across visits and crashes, and retry-stable effect keys.

How to read the main definitions:

- A node is a function of the state, the resume value and the sessions stored at its
  parent checkpoint. A committed history of nodes that also depend on other things is
  covered as long as no two commits had the same such input and different results; a
  failure that the input does not explain is a disturbance of the schedule (`faulty`).
- `Rec` is a snapshot without its ids. `Lawful` says that each record follows from the
  ones before under the command in force; `Driven` shows that calls leave nothing else.
- Ids, session ids, the clock and the schedule are parameters. Ids are assumed fresh where
  a lemma needs it (`FreshDraw`, `FreshEnv`, `DistinctIds`), and said so in its contract.
- Values of a nil interface are `Nil`; a resume value of nil is no resume value, as in the
  source. Integers are unbounded: step counters and revisions do not come near 64 bits.

What the proofs say beyond the promises, or against them:

- The heartbeat interval is described as below half the lifetime
  (docs/design/p15-execution-lease.md:225). The code gives that if and only if the
  lifetime is at least 4 ns (`Heartbeat.IntervalBelowHalfIff`).
- The checkpoint id is described as the idempotency key
  (docs/adr/0006-checkpoint-history.md:27). A commit honours that; a `Put` does not.
  It succeeds if and only if the id is not retained, or its first retained checkpoint has
  the tip for its parent, and then it does nothing (`LegacyPut.PutSucceedsIff`). The second
  case takes an id that was put again after it was pruned
  (`LegacyPut.PutSucceedsIffUnseen`, `LegacyPut.RepeatedPutCanBeSilent`).
- Interrupts are transparent except for what a pausing node saves: its session artifact
  is committed with the pause, and the re-entered node sees it
  (`Transparency.LoudPauseIsNotTransparent`). A graph whose nodes pause without saving is
  transparent altogether (`Transparency.QuietGraphsAreTransparent`), and so are approvals.
- A command that resumes is said to re-enter the interrupted node
  (docs/adr/0002-langgraph-parity.md:33). It does if and only if it names no other node
  (`Transparency.ReentersThePausedNodeIff`); else the other one is handed the value
  (`Transparency.GotoDivertsTheValue`), at its gate too (`Approval.RedirectedApprovedIff`).
- A yes at a gate lets the body run that was shown if and only if the pause shows its
  approval payload (`Approval.ApprovedIffShown`). It does unless an approved body asks a
  question of its own (`Approval.PauseShowsItsApprovalIff`), and such a worker is possible
  (`Approval.AskingWorkerBreaksApproval`). Without any condition, every gated body that
  runs was shown and approved at least once (`Approval.EveryGateWasShown`).
- "An expired grant stays dead" needs a clock that never goes back: a dead grant can return
  if and only if it is still the recorded owner (`LeaseSpec.DeadGrantRevivesIff`). Released
  and superseded grants stay dead under any clock.
- An execution key identifies its effect if and only if none of its fields contains a NUL
  (`ToolExecution.PayloadIdentifiesIff`); names and operation ids are not checked for one.
- The step cap is tested after the commit with `>=`, so that a run which has just reached
  its end can still fail with it (`RunFacts.CapCutsAtAllowance`).

## Model

| member | source | states |
|---|---|---|
| Values.Apply | graph/state.go:59-72 | Merging an update gives the pointwise reducer result for every key, whatever order the map is ranged over in. |
| Values.AppendSliceConcatenates | graph/state.go:38-56 | The appending reducer concatenates the lists its two arguments denote, wrapping scalars and dropping nil. |
| Values.MergeGrowsAppendedList | graph/state.go:38-72 | Under the appending reducer a merge only ever extends the list under its key. |
| Artifacts.ArtifactCollector.Register | graph/artifacts.go:33-51 | A registration is refused for an empty kind or key or a duplicate slot, and otherwise appended; the refused one changes nothing. |
| Artifacts.ArtifactCollector.RegisterAll | graph/artifacts.go:33-62 | Any sequence of registrations leaves exactly the accepted ones, in order. |
| Artifacts.CollectedSlotsDistinct | graph/artifacts.go:44-49 | No two collected artifacts share kind and key. |
| Artifacts.CollectedSessionsDistinct | graph/artifacts.go:33-62 | Whatever a node registers, one step never commits two sessions for one agent. |
| ThreadInvariant.SaveSessionsExact | checkpoint/durable_memory.go:93-111 | The copied and overlaid reference table names, for each agent, its last artifact of the step, or else what the parent named. |
| ThreadInvariant.AppendKeepsInv | checkpoint/durable_memory.go:69-118 | A commit keeps the chain, the retained suffix, and tables that answer for the whole unpruned log. |
| ThreadInvariant.SessionAtIsNearest | checkpoint/durable_memory.go:93-116 | The recursive reading of the log is the payload of the nearest ancestor that saved the agent, and none if no ancestor did. |
| ThreadInvariant.SessionIsNearestAncestors | checkpoint/durable_memory.go:246-268 | GetAgentSession at a retained checkpoint returns the payload of the nearest ancestor, itself included, in the full log that saved the agent, however much was pruned; nothing exactly when none did. |
| ThreadInvariant.LatestIsTip | checkpoint/durable_memory.go:121-135 | GetLatest is the last commit ever accepted, and there is none exactly when nothing was committed. |
| ThreadInvariant.HistoryAscends | checkpoint/durable_memory.go:86-116 | Retained revisions ascend strictly, and the last one is the number of commits. |
| ThreadInvariant.PruneKeepsInv | checkpoint/durable_memory.go:195-243 | Pruning leaves the log, tip and revision alone, keeps the newest checkpoints with all their answers, and leaves exactly the referenced sessions. |
| ThreadInvariant.CommitOrphansIff | checkpoint/durable_memory.go:102-116 | An accepted commit leaves no orphaned session if and only if it saves no agent twice. |
| GarbageCollection.CollectionIsExact | checkpoint/durable_memory.go:195-243 | After any mix of commits with collected artifacts and prunes, stored sessions are exactly the referenced ones, metadata has the same domain, and the tables still answer for the whole log. |
| GarbageCollection.PruneKeepsReads | checkpoint/durable_memory.go:236-242 | Pruning changes neither the latest snapshot nor any session read at a kept checkpoint. |
| Paging.RetainedIsConsecutive | checkpoint/durable_memory.go:86-87 | Retained revisions are consecutive and at least 1, so that no bound a pager sends is the 0 that means none. |
| Paging.OlderIgnoresNewer | checkpoint/durable_memory.go:163-182 | Rows below a bound do not depend on anything committed later. |
| Paging.PagingIsExact | checkpoint/durable_memory.go:155-183 | n pages hold exactly the newest n * limit rows of the history at the first call, newest first, without gap or repetition, although commits interleave. |
| DurableMemory.DurableMemory.constructor | checkpoint/durable_memory.go:36-38 | A new store is valid and empty. |
| DurableMemory.DurableMemory.ThreadLocked | checkpoint/durable_memory.go:40-51 | A record is created on first use; every thread reads as before. |
| DurableMemory.DurableMemory.CommitStep | checkpoint/durable_memory.go:54-66 | Missing ids are refused with nothing changed; otherwise the error, the tables and the log are those of the compare-and-set specification. |
| DurableMemory.DurableMemory.CommitStepLocked | checkpoint/durable_memory.go:69-118 | The log grows by the stored snapshot exactly when the commit is accepted, and the store invariant holds again. |
| DurableMemory.CommitRecord | checkpoint/durable_memory.go:72-117 | The in-place loops over history and artifacts compute the specified record: repeated commits succeed unchanged, conflicts are refused unchanged. |
| DurableMemory.RejectedCommitUnread | checkpoint/durable_memory.go:69-84 | A refused commit changes no read of any thread, although it may have created an empty record. |
| DurableMemory.DurableMemory.GetLatest | checkpoint/durable_memory.go:121-135 | Finds the newest snapshot carrying the tip id. |
| DurableMemory.DurableMemory.GetByID | checkpoint/durable_memory.go:138-152 | Finds the first snapshot with this id, or nothing exactly if none is retained. |
| DurableMemory.DurableMemory.List | checkpoint/durable_memory.go:155-183 | The backwards loop with its early stop returns the specified page. |
| DurableMemory.DurableMemory.DeleteThread | checkpoint/durable_memory.go:186-192 | Forgets one thread and leaves all others. |
| DurableMemory.DurableMemory.Prune | checkpoint/durable_memory.go:195-243 | A negative count is an error, zero deletes, more keeps the newest checkpoints; the log never changes and other threads are untouched. |
| DurableMemory.PruneRecord | checkpoint/durable_memory.go:209-242 | Sort, drop, mark and sweep in place compute the specified pruned record. |
| DurableMemory.LiveSessions | checkpoint/durable_memory.go:223-229 | The mark loops collect exactly the session ids some reference names. |
| DurableMemory.Sweep | checkpoint/durable_memory.go:230-235 | The sweep removes exactly the unmarked sessions and their metadata. |
| DurableMemory.DurableMemory.GetAgentSession | checkpoint/durable_memory.go:246-268 | Follows the reference of one checkpoint; any missing link gives nothing. |
| LegacyPut.LinkToTip | checkpoint/durable_memory.go:271-281 | The first half of Put links the snapshot to the tip it reads and changes no read. |
| LegacyPut.PutConflictsIffTipMoved | checkpoint/durable_memory.go:278-283 | A Put of a fresh id fails exactly when the tip moved between its two critical sections. |
| LegacyPut.PutIsNotIdempotent | checkpoint/durable_memory.go:271-283 | Putting a snapshot with its own id again at once always conflicts, because it is linked to itself. |
| LegacyPut.PutSucceedsIff | checkpoint/durable_memory.go:271-283 | An undisturbed Put of an id of its own succeeds if and only if the id is not retained, and then it appends, or its first retained checkpoint already has the tip for its parent, and then nothing changes. |
| LegacyPut.PutSucceedsIffUnseen | checkpoint/durable_memory.go:271-283 | While no id was ever committed twice, a Put succeeds if and only if its id is not retained, whatever was committed or pruned before. |
| LegacyPut.RepeatedPutCanBeSilent | checkpoint/durable_memory.go:271-283 | Puts and one prune alone reach the other case: a Put of a retained id that reports success and does nothing. |
| MemoryLease.MemoryLease.Acquire | checkpoint/lease_memory.go:50-84 | Grants a free or expired lease under the next epoch, extends the same run in place, refuses others; only this thread changes. |
| MemoryLease.MemoryLease.Renew | checkpoint/lease_memory.go:87-104 | Extends exactly a grant that is still valid, and changes nothing otherwise. |
| MemoryLease.MemoryLease.Release | checkpoint/lease_memory.go:107-123 | Clears owner and expiry exactly for the matching grant and keeps the epoch. |
| MemoryLease.MemoryLease.ValidateActiveLocked | checkpoint/lease_memory.go:126-133 | Succeeds exactly for the current owner and epoch before expiry. |
| MemoryLease.Fenced.CommitStepFenced | checkpoint/lease_memory.go:186-208 | A commit under an invalid grant or for another thread changes no read; a valid one does what CommitStep does. |
| LeaseSpec.DeadGrantsStayDead | checkpoint/lease_memory.go:50-133 | Under a clock that never goes back, a grant that fails validation never validates again, whatever is acquired, renewed or released. |
| LeaseSpec.GoneGrantsStayDead | checkpoint/lease_memory.go:70-133 | A superseded or released grant never validates again, under any clock. |
| LeaseSpec.DeadGrantRevivesIff | checkpoint/lease_memory.go:35-47 | Some operations make a dead grant valid again if and only if it is still the recorded owner and merely expired, which takes a clock that jumps back. |
| LeaseSpec.EpochsNeverDecrease | checkpoint/lease_memory.go:70-123 | Whatever the clock does epochs never decrease, and renewing or releasing a superseded grant changes nothing. |
| LeaseSpec.EpochNamesOneRun | checkpoint/lease_memory.go:70-83 | Over any history the issued epochs ascend, and one epoch is only ever issued to one run. |
| Heartbeat.IntervalBelowHalfIff | graph/builder.go:468-480 | The heartbeat interval is always positive, and below half the lifetime if and only if the lifetime is at least 4 ns. |
| Heartbeat.RenewalsSucceedIff | graph/builder.go:433-466 | Whatever the instants of the renewals, all of them succeed if and only if no gap between two reaches the lifetime; then the epoch stays. |
| Heartbeat.HeldWhileGapsAreShort | checkpoint/lease_memory.go:50-84 | With such gaps every other run is refused at every instant from the acquisition to a lifetime after the last renewal. |
| Heartbeat.HeartbeatKeepsLease | graph/builder.go:433-466 | On the phase-keeping ticker, if every renewal lands less than a lifetime minus an interval after its tick, all succeed under the same epoch and every other run is refused throughout. |
| Heartbeat.AcquireThenHeartbeat | graph/builder.go:375-408 | The same from the moment the run acquires a free lease. |
| EngineSpec.AttemptPossible | graph/builder.go:582-660 | A super-step moves the step counter by one, a pause keeps node, state and step, and a failure is the node's or the route's. |
| EngineRun.RunNode | graph/builder.go:578-630 | Running, merging and routing give the specified outcome of one node. |
| EngineRun.Persist | graph/builder.go:517-548 | A lost lease or a moved tip is refused without a readable change; otherwise exactly one snapshot is committed. |
| EngineRun.PersistFenced | graph/builder.go:517-532 | Behind a real lease and fence the same holds, where the schedule's signal of a lost lease means: the heartbeat reported it or the grant does not hold at commit time. |
| EngineRun.SuperStep | graph/builder.go:556-660 | One loop iteration on a real store: same events, same outcome as the specification, and at most one commit. |
| EngineRun.FreshAfterCommit | graph/builder.go:588-598 | Fresh ids stay fresh for the rest of the schedule. |
| EngineRun.TipIsSeen | graph/builder.go:568-573 | A run at the tip sees exactly the sessions of the whole log. |
| EngineRun.Run | graph/builder.go:554-660 | The whole run loop on a real store returns what the run function says, appends exactly its records under its ids to this thread's log, and touches no other thread. |
| RunFacts.CapCutsAtAllowance | graph/builder.go:655-657 | A step cap changes nothing below its allowance and cuts off exactly there, so that a run needing exactly n steps fails under cap n and a resume past the cap still runs one node. |
| RunFacts.OnlyFirstNodeIsResumed | graph/builder.go:618-620 | Only the first node of a run can see the resume value. |
| RunFacts.RunsEndAtTheirTip | graph/builder.go:599-660 | An interrupt error names the last committed pause; success means the last record is at the end and carries the returned state. |
| RunFacts.MisfitsFail | graph/builder.go:645-651 | A run whose parent is not the tip commits nothing and cannot succeed. |
| RunFacts.EventsMirrorStorage | graph/builder.go:576-653 | Checkpoint events carry exactly the committed ids in order, inside blocks of start, end, route, checkpoint that each name the checkpoint before. |
| Invocation.Invoke | graph/builder.go:258-271 | Invoke on a real store does what its function of the durable records says, including the conflict on a thread with history, and leaves the durable records that function says. |
| Invocation.LoadTip | graph/builder.go:283-315 | The entry of Resume: no checkpoint, mismatch, already finished, missing resume value, or the cursor and value to start with. |
| Invocation.Resume | graph/builder.go:275-329 | Resume on a real store does what its function of the durable records says, and the log grows by exactly its records. |
| Invocation.CallMirrorsStorage | graph/builder.go:264-270 | Each call that reaches the loop emits one start event, blocks mirroring its commits, and one end event. |
| Invocation.DrivenIsLawful | graph/builder.go:275-329 | Any sequence of resumes after an Invoke leaves a lawful history under no commands but theirs. |
| Invocation.DriveThread | graph/builder.go:258-329 | A real store after one Invoke and any Resumes holds exactly the durable records that the sequence of calls describes, and they are lawful under these commands. |
| Invocation.DrivenEquivalence | graph/builder.go:275-329 | However often a thread is stopped and plainly resumed, its records are a prefix of the one undisturbed run, and all of them at the end. |
| Invocation.ResumeCompletes | graph/builder.go:283-328 | From whatever point a run was cut off, one undisturbed resume commits exactly the rest and completes. |
| Invocation.CompiledRunsKnowTheirNodes | graph/builder.go:118-138 | A run of a graph that passes the topology checks never meets an unknown node unless a command sends it there. |
| History.RunsAreLawful | graph/builder.go:554-660 | Whatever the environment does to a run, what it appends to a lawful history makes a lawful history. |
| History.StraightFrom | graph/builder.go:554-660 | An undisturbed run from any prefix of a straight history commits the rest of it. |
| History.CrashResumeEquivalence | graph/builder.go:554-660 | Over crashes, cancellations, failing nodes, lost leases and step caps, durable records are a prefix of the uninterrupted run, and equal once the end is reached. |
| History.CommandsDecide | graph/builder.go:283-328 | Two histories of one input whose first commands agree have the same first records, pauses included. |
| History.AnswersDecide | graph/builder.go:283-328 | Crashes and plain resumes between pauses change nothing: two threads of one input whose pauses were answered alike have the same records as far as both got. |
| Transparency.HistoriesAreInStep | graph/builder.go:582-620 | A paused history and the run that never paused agree on records, tip and sessions up to what is pending. |
| Transparency.InterruptTransparency | graph/builder.go:582-620 | Erasing the interrupt snapshots leaves exactly the history of the run in which each super-step got its commands and its resume value directly. |
| Transparency.ValueReachesTheNextStep | graph/builder.go:315-320 | A super-step receives a resume value exactly when the record before it is an interrupt, and then the value of the command that resumed it. |
| Transparency.ReentersThePausedNodeIff | graph/builder.go:304-320 | The node entered with the value after a pause is the paused one if and only if the command names no other. |
| Transparency.GotoDivertsTheValue | graph/builder.go:304-320 | A concrete history in which the value given for one node's pause is delivered to another that a command names. |
| Transparency.QuietPausesKeepSessions | graph/builder.go:599-604 | Pauses that save nothing leave every agent's memory as in the erased history. |
| Transparency.MemoryErasesIff | graph/builder.go:599-604 | Erasing the pauses leaves every agent's memory alone at every point of a history if and only if no pause saved anything new. |
| Transparency.QuietTransparency | graph/builder.go:582-620 | If no pause saves a session, commands and values alone reproduce the erased history. |
| Transparency.QuietGraphsAreTransparent | graph/builder.go:582-620 | In a graph whose nodes register no session when they pause, a condition on the nodes alone, commands and values delivered directly reproduce every history erased of its pauses, with the same memory. |
| Transparency.LoudPauseIsNotTransparent | graph/builder.go:599-604 | A pause that saves a session is visible to the re-entered node: a concrete graph whose paused history differs from the direct one. |
| HistoryFacts.StepsPlusInterrupts | graph/builder.go:588-644 | The length of a history is its last step plus its interrupts. |
| HistoryFacts.StepsNeverFall | graph/builder.go:588-644 | The step counter never falls along a history. |
| HistoryFacts.RevisionCountsStepsAndInterrupts | checkpoint/durable_memory.go:86-87 | In an engine-driven thread every revision is the step counter plus the interrupts up to and including it. |
| HistoryFacts.AppendedListsOnlyGrow | graph/state.go:38-56 | A list under the appending reducer is a prefix of itself in every later snapshot, across resumes and command updates. |
| HistoryFacts.SessionsFollowLog | checkpoint/durable_memory.go:93-111 | The sessions folded over engine records are what the store's log answers. |
| HistoryFacts.TipSessions | checkpoint/durable_memory.go:246-268 | At the tip the store's answers for all agents are the sessions of the whole history. |
| TakeoverProofs.AcquireKeepsInv | checkpoint/lease_memory.go:50-84 | A new grant keeps the system invariant: the history is lawful, grants and epochs are consistent, and the new holder fits the store it will load. |
| TakeoverProofs.CommitKeepsInv | checkpoint/lease_memory.go:186-208 | A fenced commit by anyone keeps one lawful history with ascending epochs. |
| TakeoverProofs.EveryExecutionKeepsInv | checkpoint/lease_memory.go:50-208 | Every interleaving of clock jumps, acquisitions, renewals, releases, loads, executions, commits, halts and prunes keeps the system invariant. |
| TakeoverProofs.ValidCommitsNeverConflict | checkpoint/lease_memory.go:186-208 | A run whose grant is still valid at commit time works from the tip: it never gets a conflict, except a fresh Invoke on a thread that already had a history. |
| TakeoverProofs.TakeoversKeepOneHistory | graph/builder.go:359-431 | Under any takeovers, the records of plain runs are a prefix of one undisturbed run. |
| TakeoverProofs.TakeoversFollowTheAnswers | graph/builder.go:359-431 | Under any takeovers, threads of one input whose pauses were answered alike have the same records as far as both got. |
| TakeoverProofs.TakeoversAreTransparent | graph/builder.go:359-431 | Interrupt transparency holds for whatever many runners leave. |
| TakeoverProofs.SegmentsHaveOneOwner | checkpoint/lease_memory.go:70-83 | Commit epochs ascend, each commit was made by the run granted its epoch, two commits come from one run exactly when under one epoch, and then so does every commit between them. |
| TakeoverProofs.StaleEpochsAreInert | checkpoint/lease_memory.go:87-133 | Once a newer epoch exists the older one is stale after any further actions, its renewal and release change nothing, and its commit is refused and changes neither lease, store nor log. |
| TakeoverRuns.HoldsIffRenewedInTime | checkpoint/lease_memory.go:87-133 | Among any actions of others, while the clock does not go back, a run holds its lease if and only if it has not released it and neither two renewals nor the last one and now are a lifetime apart. |
| TakeoverRuns.CommitsIffRenewedInTime | checkpoint/lease_memory.go:186-208 | So its computed step gets the lease error exactly when it did not renew in time, and otherwise is accepted, but for a fresh Invoke of a thread that had a history. |
| TakeoverRuns.RenewedInTimeIffGapsBelow | graph/builder.go:433-466 | The short gaps of the heartbeat are the renewals in time of the many-runner system. |
| TakeoverRuns.HeartbeatCarriesCommits | graph/builder.go:433-466 | A run whose renewals land like the ticker's, each less than a lifetime minus an interval late, is never fenced off within a lifetime of the last one, whoever tries to take over. |
| TakeoverRuns.FirstCommitFollowsTheExpected | graph/builder.go:291-294 | In every execution the first commit of a run that expects a checkpoint comes directly after that very checkpoint, with nothing committed in between. |
| Bounded.HistoriesAreGuided | graph/builder.go:554-660 | A cursor invariant kept by every super-step holds at the tip of every history under bare resumes. |
| Bounded.SuperStepsAreBounded | graph/builder.go:554-660 | Then the committed super-steps are the step counter, and within the bound. |
| Bounded.GuidedRunsStop | graph/builder.go:655-657 | Such a run never trips a cap above the bound, and left alone stops by itself in the steps that remain. |
| Bounded.RunsReachTheBound | graph/builder.go:554-660 | If nothing but the bound ends a run, an undisturbed one completes after exactly that many super-steps. |
| Supervisor.SupervisorKeepsCount | orchestrator/supervisor.go:138-184 | A supervisor hop keeps the exact relation between the hop counter in the state and the engine's step counter. |
| Supervisor.WorkerKeepsCount | orchestrator/supervisor.go:192-263 | A worker step keeps it too, and returns to the supervisor. |
| Supervisor.SupervisorHistoriesAreCounted | orchestrator/supervisor.go:281-320 | In every history the engine step is 2 * hops at the supervisor and 2 * hops - 1 at a worker, and never above 2 * MaxSteps + 1. |
| Supervisor.SupervisorRunsStop | orchestrator/supervisor.go:281-320 | No supervisor run, fresh or resumed, trips its cap or meets an unknown node or route; left alone it finishes, pauses or has a failed node. |
| Supervisor.BusyRunsReachTheBound | orchestrator/supervisor.go:138-184 | The bound is tight: a supervisor that always delegates uses exactly 2 * MaxSteps + 1 super-steps. |
| Supervisor.ApprovalsAreTransparent | orchestrator/supervisor.go:198-215 | A supervised history erased of its approval pauses is the one in which every gate had its answer at once, with the same memory of every agent, if bodies register no session when they ask. |
| Approval.GatePauses | graph/interrupt.go:38-43 | A pause of a gated worker shows its approval payload, unless it had just been approved and the body itself asked. |
| Approval.PauseShowsItsApprovalIff | orchestrator/supervisor.go:198-211 | In every history a pause at a gated worker shows the worker, task, reason and goal of its own state if and only if the node was handed no value or its body, run on what it was handed, asks for the very same. |
| Approval.QuietGatesAlwaysShow | orchestrator/supervisor.go:198-211 | So if gated bodies never ask, every pause at a gated worker shows its approval payload. |
| Approval.EveryGateWasShown | orchestrator/supervisor.go:198-215 | Without any condition: wherever a gated worker stands paused, its payload for that very state was shown, and a yes was given before every further question. |
| Approval.ResumedBodiesAreAnswered | orchestrator/supervisor.go:192-215 | A resumed call executes at most one gated body, as its first node, and only by an approving answer to the pause of that worker in that state. |
| Approval.ResumedBodiesAreApproved | orchestrator/supervisor.go:192-215 | If the pause at the tip shows its approval payload, the one gated body a resumed call may execute is exactly the one that payload was about. |
| Approval.ApprovedIffShown | orchestrator/supervisor.go:192-222 | At a gated pause an approving resume keeps approval integrity if and only if the pause shows its approval payload, which can be checked before the call. |
| Approval.RedirectedApprovedIff | graph/builder.go:298-320 | An approving command that redirects the run or edits its state into a gated worker keeps approval integrity if and only if it enters the paused worker, leaves the state as it was, and the pause shows its payload. |
| Approval.InvokedBodiesAreUngated | orchestrator/supervisor.go:316-320 | A fresh invocation executes no gated body. |
| Approval.DecisionReachesWorkerAndHuman | orchestrator/supervisor.go:151-184 | A hop leads to the decided worker in a state whose task is the decided one, or the goal, and whose approval payload shows that task and the decided reason. |
| Approval.BodyQuestionIsTakenForApproval | orchestrator/supervisor.go:206-222 | If an approved body asks a question of its own, approving that question lets it run again although its approval payload was not what the pause showed. |
| Approval.AskingWorkerBreaksApproval | orchestrator/supervisor.go:206-222 | The failing case is reachable: a concrete legal configuration and history whose next approving resume breaks approval integrity. |
| SupervisorRun.CheckWorkers | orchestrator/supervisor.go:117-126 | The loop with its set accepts exactly non-empty lists of distinct legal ids. |
| SupervisorRun.NextPauseIsLater | orchestrator/supervisor.go:333-359 | An approved run of workers without questions of their own that pauses again does so in a later hop. |
| SupervisorRun.NextPauseIsShownOrOwn | orchestrator/supervisor.go:333-359 | The pause a run ends with shows its approval payload, or the run made nothing but this pause after an approval of that worker in that state, and the body asked when it ran on the answer and the memory of that point. |
| SupervisorRun.AskOnce | orchestrator/supervisor.go:333-359 | One round of the approval loop: who is asked, what each reply leads to, and the run it releases. |
| SupervisorRun.Rounds | orchestrator/supervisor.go:333-359 | The approval loop keeps the question and answer bookkeeping until the graph stops otherwise or an answer stops the driver. |
| SupervisorRun.Drive | orchestrator/supervisor.go:333-367 | The driver ends with the run that did not pause, or with the question that was left open, refused or failed. |
| SupervisorRun.RunSupervisor | orchestrator/supervisor.go:94-368 | Every gated body that ran had its own question about that worker and state, answered yes; each question showed its approval payload, except what the body itself asked when it ran on such a yes; at most MaxSteps questions if no worker asks; no step-cap error; success means the thread stands at the end with the returned state. |
| CodingLoop.LoopHistoriesAreCounted | orchestrator/coding_loop.go:215-236 | In every history the iteration counter gives the step counter exactly, at most 3 * MaxIter - 1 super-steps, and a finished loop succeeded or used up all iterations. |
| CodingLoop.LoopRunsStop | orchestrator/coding_loop.go:259-281 | No coding loop trips its cap, across resumes; left alone it stops by itself. |
| CodingLoop.HopelessLoopsReachTheBound | orchestrator/coding_loop.go:211-236 | The bound is tight: a loop that never passes uses exactly 3 * MaxIter - 1 super-steps. |
| AgentSessions.Instance.EnsureSession | agentspec/spec.go:152-179 | Messages already present are kept, else loaded from the parent checkpoint, else opened with the system prompt. |
| AgentSessions.Instance.RegisterSession | agentspec/spec.go:181-199 | A persistent agent registers its messages under its id; duplicates are refused. |
| AgentSessions.Instance.RunOnce | agentspec/spec.go:128-140 | Load, loop, register: a failed loop registers nothing and keeps what it appended. |
| AgentSessions.CompletionIsTheLastWord | agentspec/spec.go:223-235 | The completion is the text of the last assistant or tool message that has any, and empty exactly if none has. |
| AgentSessions.Visit | orchestrator/supervisor.go:240-255 | A visit with a fresh instance does what the worker body function says of the sessions stored at the parent. |
| SessionContinuity.SessionIsLastVisits | checkpoint/durable_memory.go:93-111 | What an agent remembers at any point of a history is what its last committed visit saved. |
| SessionContinuity.NodesSeeTheirHistory | graph/builder.go:568-573 | Every node a run starts, committed or not, sees the state and sessions of exactly what was committed before it. |
| SessionContinuity.ConversationContinues | agentspec/spec.go:152-199 | Each committed visit of a persistent worker ran its loop on exactly the messages of the committed visit before it. |
| SessionContinuity.VisitsStartFromTheLastCommitted | agentspec/spec.go:152-179 | Every visit, committed or cut off, starts from the last committed one, however often the process crashed in between. |
| Text.TrimSpaceTrims | graph/tool_execution.go:32-33 | Trimming removes all blanks at both ends and nothing else. |
| ToolExecution.JoinIsInjective | graph/tool_execution.go:58-65 | Joining NUL-free parts with NULs loses nothing. |
| ToolExecution.PayloadsIdentifyEffects | graph/tool_execution.go:57-68 | For NUL-free fields two digested payloads agree if and only if thread, parent, node, tool and operation do; run and epoch do not matter. |
| ToolExecution.CleanPayloadsAreClean | graph/tool_execution.go:58-65 | Whatever shares a payload with NUL-free fields has NUL-free fields itself. |
| ToolExecution.PayloadIdentifiesIff | graph/tool_execution.go:57-68 | A payload identifies its effect among all executions if and only if none of its fields contains a NUL. |
| ToolExecution.NulsCanCollide | graph/tool_execution.go:31-65 | In any call context two different tools with suitable operation ids share a payload, if callers put NULs into them. |
| ToolExecution.CommitsNeverShareKeys | checkpoint/durable_memory.go:82-84 | Two different commits of a thread were executed under different parents, so that no effect of one shares a payload with any of the other. |
| ToolExecution.RetriesRepeatTheExecution | graph/builder.go:568-578 | A node cut off before its commit, in an Invoke or a Resume, is executed again by the call that retries it with the same input under the same parent. |
| ToolExecution.RetriesReuseKeys | graph/tool_execution.go:31-68 | Hence its effects get the same payloads, whether the first call was an Invoke or a Resume and whatever the run and epoch of the retry. |

## Left out

- The MySQL and SQLite stores and the MySQL lease: SQL and driver behaviour are not part of this model. The MySQL store checks an idempotent retry before the lease and keys checkpoint ids globally, so it is no exact twin of the store modelled here.
- The latest-only in-memory checkpointer, runs without a store, and runs on a legacy checkpointer: engine runs are modelled on the durable store.
- JSON encoding: payloads are message lists, states are maps of values; creation times are not stored.
- Mutexes, goroutines and tickers: a critical section is one step; the heartbeat is a series of renewal instants in `Heartbeat`, a lost lease is a signal in the engine's schedule, and renewals are interleaved actions in `Takeover`.
- EngineRun.Persist: the lease's verdict is a signal of the schedule here and in the loop above it; `EngineRun.PersistFenced` shows that the real fence gives exactly that signal.
- Deletion of a thread in the many-runner system: `Takeover` prunes but never deletes, since a deleted thread starts its history anew.
- The lease wrapper around Invoke and Resume as imperative code: its acquire, heartbeat, fence and release are the actions of `Takeover`; lease events and event delivery to handlers are not modelled.
- Builder setters and their panics; the checks of Compile appear as the predicate `Compiles`.
- The error text and status metadata of events.
- The supervisor's model call, prompts and tool schema: `decide` is a function of the state that may fail. A hook that cancels the context between question and resume counts as a failing hook.
- `ParseDecision`, `changedFiles`, `pathFromToolArgs`, `completionResult`: text and JSON glue; the coding agents' replies are functions of their input.
- Session recovery of the coding loop's implementer: the updater appends to its conversation outside any artifact, so continuity is claimed for supervisor workers only.
- The correlation fields and the event emitter of an agent instance, and an instance whose spec has no store.
- The agent loop over messages: an uninterpreted function in `AgentSpec`.
- SHA-256: claims are about the payload that is digested.
- `Text.ToLower`: letters beyond ASCII are not folded, and lengths count characters rather than bytes.
- The fan-out pipeline preset, event handler plumbing and Docker setup: easy members only.
- `Takeover.Step` executes one action of one run at a time: a node execution and its commit are separate steps, while everything inside a critical section of the store or lease is one.
