# MoHuddle coordination model

MoHuddle lets several AI command-line agents and a ChatGPT participant share a
room under a local human host.  The host keeps order with a handful of
in-process protocols, each a critical section under a mutex beside a durable
record.  This project models those protocols and proves what they promise over
whole runs: every interleaving, every crash, every lost or misreported write.

`dafny verify dfyconfig.toml` checks the project.

Each protocol comes in two forms.  A module of values gives every critical
section as a function from state to state, composes the sections into runs, and
proves the promises as lemmas about runs.  Beside it, a class (`Shared...`) or a
module of methods has the code's own fields, maps and loops, and each method is
proved to compute the function of the same step, so that the theorems are about
what the loops do.

- **Provider lanes** (`Lanes`, `SharedLanes`).  A ticket queue for each provider
  limits calls across rooms and alternates between rooms.  Cancellation races
  the dispatcher.
- **Workspace write lease** (`WriterLease`, `WriterTurns`, `WriterRules`,
  `WriterSafety`, `WriterExclusion`, `WriterRecords`, `WriterTheorems`,
  `WriterRuns`, `WriterExact`, `WriterJournalExact`, `WriterCounterexamples`,
  `SharedWriters`).  One workflow at a time writes to a checkout.  A run is an
  interleaving of any number of turns, each passing through registration, wait,
  check and finish, with elections, endings, confirmations, failed saves and
  crashes.  Exclusion holds under rules about elections and lost saves, crash
  safety under further rules about records, and both sets of rules are proved
  exact, step by step.
- **Registered reviews** (`Continuations`, `ContinuationRuns`,
  `ContinuationSafety`, `ContinuationTheorems`, `SharedReviews`).  A durable
  message identity is the dispatch key of one read-only review.  An append may
  be durable and acknowledged, durable but reported as failed, or lost; the last
  save of the room may be lost in a crash.
- **Notification allowance** (`FollowUps`, `FollowUpRuns`, `SharedFollowUps`).
  All panels of a room share one allowance of automatic notifications.
- **Coordination ledger** (`Handoffs`, `HandoffReports`, `HandoffShape`,
  `HandoffCharges`, `ReconcileEvents`, `ReconcileFixpoint`, `ReconcileTwice`,
  `ReconcileTheorems`, `ReconcileHistory`, `ReconcileComplete`,
  `ReconcileMarks`, `ReconcileRounds`, `ReconcileCounterexamples`,
  `SharedLedger`).  Handoffs, reviews and a bounded history are derived from
  messages, replies and workflows.
- **Correction ledger** (`Corrections`, `CorrectionOrder`,
  `CorrectionTheorems`, `CorrectionReplay`, `CorrectionCounts`) and the names of
  participants (`Participants`).
- **Private markers** (`Markers`, `MarkerLines`, `MarkerCuts`,
  `MarkerRoundTrip`, `MarkerLoops`).  Control and access markers at the end of a
  response, outside Markdown fences.
- **Tool-loop monitor** (`ToolLoop`, `ToolLoopTrace`, `ToolLoopCycles`,
  `ToolLoopSilence`, `ToolLoopTriple`, `SharedToolLoop`).
- **Cooldowns, routing, responders** (`RateLimits`; `Router`, `RouterTheorems`,
  `SharedRouter`; `Responders`, `ResponderTheorems`, `SharedResponders`).

`Options`, `Rooms` and `Text` hold what the modules share.

Promises of the code or its comments that turned out to need a condition:

- *Writer exclusion* needs the lease rules, `WriterRules.KeepsLease`: no workflow
  is elected again while its lease is closing or while a turn of it that was
  granted the lease before is in flight without it, and no save of a grant fails
  while another turn uses the lease.  The latter concerns the branch at
  internal/room/shared.go:158-162: a failed save clears the owner even when the
  owner is the same workflow with a turn already running.  `ExclusionExact` shows
  that no step can break these rules harmlessly.
- *A running writer is in the journal*, on which crash safety rests, needs the
  record rules, `WriterRules.KeepsRecord`, besides: a workflow is not elected again
  with turns in flight that lost their record or with a lease that is not in the
  journal, and a wait that ends does not drop the record of an elected workflow
  beside a turn that has registered and not joined yet.  `JournalExact` is exact for
  both sets of rules together.
- *Reconciling twice changes nothing* holds for handoffs and reviews of a run that
  is pending or blocked on entry, and for a complete one exactly under the
  condition of `CompleteSettlesIff`.  High-water times never fall
  (`MarksNeverFall`), as the comment at internal/chat/coordination.go:89-90 has it,
  but an evicted event can be recorded again and move one forward
  (`FullHistoryUnsettled`).  `MarksSettleIff` says exactly when the second
  reconciliation moves none, with no bound on the history or the events, and
  `SameIffRetained` when nothing changes at all.
- *A reported loop stays silent* fails for cycles of four with three equal
  attempts in a row, which contain a cycle of one; `SilentIff` is exact.
- *Received acceptances are counted right* if and only if nobody accepts a
  correction proposed by the same participant, which the ledger rules out.

## Model

| member | source | states |
|---|---|---|
| `Lanes.PickRule` | internal/room/shared.go:50-56 | the dispatcher's choice is the first ticket of a room other than the one served last, and the head exactly when every queued ticket is of that room |
| `Lanes.DispatchMoves` | internal/room/shared.go:48-63 | a dispatch moves tickets from the queue to the granted ones and loses, adds and repeats none; `active` grows by their number, no grant is made at or above the limit, and afterwards the queue is empty or the lane is full |
| `Lanes.AccountingForever` | internal/room/shared.go:48-119 | over every run `active` is the number of tickets granted and neither released nor abandoned, and the queue is empty or `active >= limit`; a cancellation racing a grant neither leaks a slot nor frees one twice |
| `Lanes.GrantedIsLogged` | internal/room/shared.go:48-63 | the grants of a run are what the run appends to the grant log |
| `Lanes.BoundedBypass` | internal/room/shared.go:48-119 | a ticket with `k` tickets ahead that is not cancelled is among the next `2(k+1)` grants, whatever arrives, is cancelled, or changes the limit in the meantime |
| `Lanes.BypassBoundIsTight` | internal/room/shared.go:48-119 | for every `k` a run from an empty lane in which that ticket is the last of exactly `2(k+1)` grants, so the bound cannot be lowered |
| `Lanes.RoomOrder` | internal/room/shared.go:48-63 | of two waiting tickets of one room, neither of which is cancelled, the one enqueued first is granted first |
| `SharedLanes.SharedLane.Choose` | internal/room/shared.go:50-56 | the scan over the queue computes the choice `PickRule` is about |
| `SharedLanes.SharedLane.Dispatch` | internal/room/shared.go:48-63 | the loop over the changing queue ends in the lane after dispatch, and closes the channels of exactly the granted tickets, each once |
| `SharedLanes.SharedLane.SetProviderLimit` | internal/room/shared.go:64-74 | the limit becomes at least one, and the lane is dispatched |
| `SharedLanes.SharedLane.Enqueue` | internal/room/shared.go:79-94 | the ticket goes to the back, the lane is dispatched, and the call waits exactly when its ticket was not granted at once |
| `SharedLanes.SharedLane.Abandon` | internal/room/shared.go:99-114 | an ended wait takes its ticket from the queue, or gives back the slot that was granted in the meantime, and dispatches |
| `SharedLanes.SharedLane.Release` | internal/room/shared.go:117-118 | a finished call gives back its slot and dispatches |
| `WriterExclusion.WriterExclusion` | internal/room/shared.go:120-217 | from any journal and over every run that keeps the lease rules (`WriterRules.KeepsLease`), two writer turns that run in one workspace at once belong to one workflow, which owns the lease |
| `WriterExclusion.StepSafe` | internal/room/shared.go:120-311 | under the lease rules alone, each critical section, election, ending, confirmation and crash keeps: the keys of running turns, and of granted turns of elected workflows, own their workspace, a lease has an elected workflow or a turn in flight as its reason, and a closing one has a running turn |
| `WriterExclusion.StepKeySafe` | internal/room/shared.go:120-311 | whoever breaks a rule, every key that the step does not concern stays safe |
| `WriterExact.ExclusionExact` | internal/room/shared.go:154-168 | the lease rules are exact: a step from a safe state keeps them if and only if no run behind it that keeps them lets two workflows write in one workspace at once |
| `WriterRecords.StepRecorded` | internal/room/workspace.go:23-53 | under the record rules besides, every step keeps the record of each turn in flight that needs one, and an entry of the journal for every workspace in use |
| `WriterJournalExact.JournalExact` | internal/room/workspace_journal.go:33-50 | lease and record rules together are exact: a step from a safe state with its records keeps them if and only if no run behind it that keeps them has a writer turn running while the saved journal names no owner of its workspace |
| `WriterTheorems.LeaseOutlivesTurns` | internal/room/shared.go:182-217 | a step from a safe state that keeps the lease rules takes a lease from no key whose turn is still running |
| `WriterTheorems.LeasePassesToHead` | internal/room/shared.go:147-168 | any step that gives a workspace to a key finds it unowned and the key at the head of the queue |
| `WriterTheorems.FirstWaitFirst` | internal/room/shared.go:126-145 | as long as a workflow waits, no workflow behind it in the queue, or that joins or comes back later, is given the lease |
| `WriterSafety.StepBooks` | internal/room/shared.go:126-145 | the waiter and turn counters are the numbers of waiting and running turns of each key, a key is queued once exactly while it has waiters; every step keeps this, whatever rule it breaks |
| `WriterSafety.StepJournaled` | internal/room/workspace_journal.go:33-50 | an owner whose acquisition was recorded is named by the saved journal; every step keeps this, whatever rule it breaks |
| `WriterTheorems.RunningIsJournaled` | internal/room/shared.go:155-167 | in every run that keeps the lease and record rules, while a writer turn runs the saved journal names an owner of its workspace |
| `WriterTheorems.CrashSafety` | internal/room/workspace_journal.go:11-32 | after a crash while a writer turn runs, no run that does not confirm that workspace lets a turn hold or use its lease, through any number of further crashes and restarts |
| `WriterCounterexamples.ReelectionBreaksExclusion` | internal/room/shared.go:286-293 | electing a workflow again while one of its turns is still in flight leads to two workflows writing at once |
| `WriterCounterexamples.FailedSaveBreaksExclusion` | internal/room/shared.go:158-162 | a second waiter of the owning workflow whose save fails takes the lease from a running turn, and after a confirmation another workflow writes beside it |
| `WriterCounterexamples.CancelledWaitBreaksCrashSafety` | internal/room/shared.go:130-145 | a cancelled wait that drops the record of a turn which has registered but not joined yet lets that turn run with no owner in the journal, and a crash leaves no hold |
| `SharedWriters.SharedCapacity.ConfigureWorkspaceJournal` | internal/room/workspace_journal.go:14-32 | the loop over the saved document gives every unfinished owner a recovery hold, and restores last writers and revisions |
| `SharedWriters.SharedCapacity.PersistWorkspace` | internal/room/workspace_journal.go:33-50 | both loops together save one entry for every workspace with a revision or a hold; a failed save leaves the old document and sets the error |
| `SharedWriters.SharedCapacity.RegisterWriter` | internal/room/workspace.go:23-33 | a key without a record gets one; an existing record stays |
| `SharedWriters.SharedCapacity.WriterAcquired` | internal/room/workspace.go:35-41 | the first acquisition of a record is noted once, with a new revision |
| `SharedWriters.SharedCapacity.WriterReleased` | internal/room/workspace.go:42-53 | the record becomes the last writer of its workspace, with a new revision |
| `SharedWriters.SharedCapacity.Join` | internal/room/shared.go:126-129 | the first waiter of a key takes a place at the end of the queue, a further one only counts |
| `SharedWriters.SharedCapacity.Remove` | internal/room/shared.go:130-145 | the last waiter of a key leaves the queue and drops the record of a key that does not own the workspace |
| `SharedWriters.SharedCapacity.TryAcquire` | internal/room/shared.go:154-168 | a round grants the lease exactly when there is no hold, no journal error, and the key owns the workspace or heads its unowned queue; a failed save undoes the grant |
| `SharedWriters.SharedCapacity.ReleaseWriter` | internal/room/shared.go:182-196 | an owner without running turns is released and saved; one with running turns is marked to close |
| `SharedWriters.SharedCapacity.RetainWriterTurn` | internal/room/shared.go:198-202 | one more running turn of the key |
| `SharedWriters.SharedCapacity.FinishWriterTurn` | internal/room/shared.go:203-217 | the last running turn of a closing owner releases the lease and saves |
| `SharedWriters.SharedCapacity.ConfirmWorkspaceStopped` | internal/room/workspace_journal.go:54-84 | refused while a writer is active; otherwise the hold becomes the last writer, and a failed save puts the hold back |
| `FollowUpRuns.AllowanceForever` | internal/room/followups.go:52-181 | over every run from a room that agrees with its log: `Attempts`, the desired setting and the time of the last claim are those of the log, and the retained claims are its last 256 with distinct identities |
| `FollowUpRuns.AttemptsAreCharges` | internal/room/followups.go:166-168 | over every run from a fresh allowance `Attempts` is the number of automatic claims accepted since the last renewal |
| `FollowUpRuns.WithinLimit` | internal/chat/followups.go:131-132 | no run in which the limit in force never exceeds a number accepts more automatic claims than that number between two renewals, however many panels claim and whatever the pause reasons |
| `FollowUpRuns.ClaimsAreSpaced` | internal/room/followups.go:148-150 | over every run any two new claims, automatic or not, are at least 20 seconds apart |
| `FollowUpRuns.PausedMeansPaused` | internal/room/followups.go:57-75 | over every run no automatic claim is accepted between a pause and the next resume or renewal |
| `FollowUpRuns.RetryIsFree` | internal/room/followups.go:104-122 | after any run, an exact retry of any retained claim is accepted and changes nothing |
| `SharedFollowUps.Room.EnsureFollowUps` | internal/room/followups.go:29-50 | the nested import loops give a first allowance the earliest time and the number of automatic attempts |
| `SharedFollowUps.Room.ApplyControl` | internal/room/followups.go:57-75 | pause, resume and renewal on the fields, with the refusals for a reused identity and a stale revision |
| `SharedFollowUps.Room.ApplyPanel` | internal/room/followups.go:76-100 | a panel's availability replaces its entry, or joins the last eight, and never changes the desired setting |
| `SharedFollowUps.Room.ReasonNow` | internal/chat/followups.go:105-154 | the switch and its loop over the panels compute the reason that decides an automatic claim |
| `SharedFollowUps.Room.ApplyClaim` | internal/room/followups.go:101-180 | claims, exact retries and outcomes on the fields, in the order of the code's refusals |
| `SharedFollowUps.Room.Apply` | internal/room/followups.go:52-181 | one observation applied in place is the value-level observation, or the same refusal |
| `SharedFollowUps.Room.Observe` | internal/room/followups.go:12-27 | a refused or unsaved observation leaves the room exactly as it was |
| `ContinuationSafety.AtMostOnce` | internal/room/continuation.go:26-187 | over every interleaving of requests, acceptance, controls, scheduling, failed saves, appends reported as failed, crashes and restarts, the transcript never holds two messages that dispatch one registered review |
| `ContinuationTheorems.LeftForGood` | internal/room/continuation.go:34-55 | within one process, a review that left `queued` without a message is never dispatched |
| `ContinuationTheorems.RunningIsDurable` | internal/room/continuation.go:130-141 | a review that is running or completed names an assignment message that the transcript holds |
| `Continuations.IdInjective` | internal/room/coordination.go:104-107 | two workflows have two dispatch identities |
| `Continuations.Account` | internal/room/continuation.go:146-167 | accounting succeeds exactly when a message with the review's identity exists; it then names the first such message and leaves nothing queued |
| `Continuations.CancelOne` | internal/room/continuation.go:169-187 | withdrawing leaves nothing queued |
| `SharedReviews.Process.ReconcileDispatch` | internal/room/continuation.go:146-167 | the search over messages and replies computes `Account` |
| `SharedReviews.Process.CancelContinuations` | internal/room/continuation.go:169-187 | the loop withdraws or accounts for every queued review, in place |
| `SharedReviews.Process.AdvanceContinuation` | internal/room/continuation.go:26-123 | the first critical section: the review marked, left, or chosen with its post and dispatch |
| `SharedReviews.Process.PublishCoordinated` | internal/room/chatgpt.go:163-266 | deduplicate by message identity against the whole content, refuse or compose, and append under each way an append can end |
| `SharedReviews.Process.RecordOutcome` | internal/room/continuation.go:133-142 | the third critical section: running with its assignment, or blocked |
| `HandoffShape.LedgerShape` | internal/room/coordination.go:187-211 | over every run of controls, status polls and reports from an empty room, handoff identities are pairwise distinct, and along a family each later handoff was ready strictly later and every earlier one is closed |
| `HandoffShape.OneOpenPerFamily` | internal/room/coordination.go:203-210 | a ledger of that shape has at most one open handoff in each family |
| `HandoffShape.IdsDistinct` | internal/room/coordination.go:207-209 | a ledger of that shape has no two handoffs of one identity |
| `HandoffShape.StoppedOnlyWhileStopped` | internal/room/coordination.go:44-49 | unless the run is stopped, no handoff carries a resolution that only stopping gives |
| `ReconcileTheorems.ReconcileIsSettled` | internal/room/coordination.go:70-271 | a second reconciliation of a pending or blocked run on the same room, at any later time and in any order of the workflow map, changes no handoff and no registered review |
| `ReconcileTheorems.QuietIffRetained` | internal/room/coordination.go:164-233 | the second event loop is quiet at every event if and only if each event it collects is behind the completed time or still in the bounded history; then the whole run is left as it is |
| `ReconcileHistory.SameIffRetained` | internal/room/coordination.go:70-271 | while no more events are collected than the history holds, the second reconciliation leaves the whole run equal if and only if each of those events is behind the completed time or still in the history |
| `ReconcileRounds.LongRoundReturns` | internal/chat/coordination.go:91-102 | that bound is the largest: a run from an empty room with one event more, 201 replies that end at one time, where the second reconciliation records events that the history has lost and still leaves the whole run equal |
| `ReconcileHistory.HistoryKept` | internal/chat/coordination.go:91-102 | over every run from an empty room the history never holds an entry twice, never holds more than 200, and the success time is never later than the result time |
| `ReconcileEvents.MarksNeverFall` | internal/chat/coordination.go:89-90 | reconciliation never lowers the assignment time, the result time or the success time, whatever the history has lost |
| `ReconcileMarks.MarksStayIff` | internal/room/coordination.go:164-233 | in any state but stopped, one reconciliation leaves every high-water time alone if and only if it passes over each event that would move one, at that event's turn |
| `ReconcileMarks.MarksSettleIff` | internal/room/coordination.go:164-233 | the second reconciliation of a pending or blocked run moves no high-water time, however full the history, if and only if each event collected again that would move one is retained once the earlier events at the result time have been replayed |
| `ReconcileMarks.LateMarksSettleIff` | internal/room/coordination.go:164-233 | without the turns: where messages have their own sequences and nothing collected at the result time itself moves a mark, if and only if every later result is retained once all events at the result time have been replayed |
| `ReconcileMarks.MarksSettle` | internal/chat/coordination.go:89-90 | if no event collected again moves a high-water time, they all stay, whatever the history has lost |
| `ReconcileMarks.NoAssignmentAgain` | internal/room/coordination.go:110-113 | the second reconciliation collects no assignment, if messages have their own sequences and the history names no assignment later than the assignment time |
| `ReconcileMarks.ReconcileTwiceIsOnce` | internal/room/coordination.go:70-271 | reconciling a pending or blocked run twice is reconciling it once: always for handoffs and reviews, for the high-water times exactly under the condition of `MarksSettleIff`, and for the history as well while it has room for the events collected |
| `ReconcileComplete.CompleteSettlesIff` | internal/room/coordination.go:169-227 | the handoffs of a run that is complete on entry change in the second reconciliation exactly when a new assignment is collected behind a missed result: one earlier than every collected assignment, later than the completion, at or after the final result time, and not already its family's latest handoff; its reviews never change |
| `ReconcileCounterexamples.CompleteRunUnsettled` | internal/room/coordination.go:169-227 | a run of controls, polls and reports from an empty room that is complete and does not settle: the answer of a retried reply is passed over, the assignment behind it makes the run pending, and the second reconciliation hands the answer over |
| `ReconcileCounterexamples.FullHistoryUnsettled` | internal/chat/coordination.go:91-102 | a run of 199 reports from an empty room that fills the history: the first reconciliation evicts the entry of a result, and the second one records that result again and moves the result time forward |
| `ReconcileEvents.ByTimeSorts` | internal/room/coordination.go:164-164 | the sort orders the events by time and keeps every one of them |
| `ReconcileEvents.InsertStable` | internal/room/coordination.go:164-164 | the sort is stable: an event goes before all events that are not earlier |
| `ReconcileEvents.CollectIs` | internal/room/coordination.go:110-162 | the events collected are the assignments and results that the room's messages, replies and workflows imply, with no two results for one job |
| `ReconcileEvents.CollectFewer` | internal/room/coordination.go:110-162 | raising the high-water marks, or visiting the workflows in another order, collects no event that was not collected before |
| `HandoffCharges.AttemptsAreCharged` | internal/room/coordination.go:465-505 | in every reachable room a report charges the shared allowance for exactly the automatic attempts it enters on handoffs |
| `HandoffCharges.ReportFair` | internal/room/coordination.go:294-414 | one report keeps claims and handoff attempts matched, and changes `Attempts` by the number of automatic attempts it adds |
| `SharedLedger.CoordinationRun.ReadMessages` | internal/room/coordination.go:79-113 | the first loop accepts dispatches, registers reviews and collects assignments in one pass |
| `SharedLedger.CoordinationRun.ReadJobs` | internal/room/coordination.go:115-129 | the loop over replies collects exactly the terminal ones at or after the result mark |
| `SharedLedger.CoordinationRun.ReadWorkflows` | internal/room/coordination.go:130-163 | the loop over workflows sets waits on open handoffs of active work and collects the ended ones |
| `SharedLedger.CoordinationRun.Answerer` | internal/room/coordination.go:170-186 | the participant and answer of a result: of the last matching reply, then of the last matching work message |
| `SharedLedger.CoordinationRun.LatestOf` | internal/room/coordination.go:190-196 | the latest handoff of a family by the time its result was ready |
| `SharedLedger.CoordinationRun.HandOver` | internal/room/coordination.go:197-213 | a result opens a handoff, supersedes the latest of its family, or is the one already handed over |
| `SharedLedger.CoordinationRun.Record` | internal/chat/coordination.go:91-102 | a known event is refused, a new one is appended and the oldest beyond 200 dropped |
| `SharedLedger.CoordinationRun.ProcessEvent` | internal/room/coordination.go:165-232 | one round of the event loop: handoff, identity, history, marks and state |
| `SharedLedger.CoordinationRun.FinishWaits` | internal/room/coordination.go:235-256 | every wait whose target is no longer active ends now |
| `SharedLedger.CoordinationRun.Reconcile` | internal/room/coordination.go:70-256 | the whole reconciliation in place, loop by loop, computes the value-level one the theorems are about |
| `CorrectionOrder.LedgerOrderFree` | internal/chat/types.go:405-503 | the ledger is the same for every permutation of the messages, corrupt ones included |
| `CorrectionTheorems.LedgerPlus` | internal/chat/types.go:425-501 | appending a message with a larger sequence replays one more message on the ledger so far |
| `CorrectionTheorems.OneStep` | internal/chat/types.go:425-501 | that message advances at most one correction, adds at most one, and moves no final one |
| `CorrectionTheorems.FinalForever` | internal/chat/types.go:455-478 | an accepted or retracted correction is never changed by any messages that follow |
| `CorrectionTheorems.LedgerAttributed` | internal/chat/types.go:457-500 | every correction was offered by its proposer about a message of its target, who is somebody else, and its status was set by the one of the two who may set it |
| `CorrectionCounts.RoomConserves` | internal/chat/types.go:513-534 | for every ledger, offered is its length and the sum of accepted, retracted and pending, and acceptances received are the acceptances |
| `CorrectionCounts.StatisticsRight` | internal/chat/types.go:507-535 | for every transcript and participant each counter is the number of corrections it stands for |
| `CorrectionCounts.ReceivedRightIff` | internal/chat/types.go:514-532 | the read-modify-write of two map entries counts received acceptances right for everybody if and only if no accepted correction has its proposer as its target |
| `CorrectionCounts.AgentsSumToRoom` | internal/chat/types.go:507-535 | over participants listed once, the sums of offered, accepted and received are the room's totals |
| `CorrectionReplay.ScanEvents` | internal/chat/types.go:429-443 | the scan counts offers and resolutions and keeps the one that counts when there is one |
| `CorrectionReplay.CountSequences` | internal/chat/types.go:410-415 | the map of sequence counts |
| `CorrectionReplay.IndexSequences` | internal/chat/types.go:417-422 | the map from a sequence to the only message that has it |
| `CorrectionReplay.ReplayOne` | internal/chat/types.go:425-501 | one message replayed on the ledger and its index of sequences |
| `CorrectionReplay.CorrectionLedger` | internal/chat/types.go:408-503 | the loops over maps and indices compute the ledger the theorems are about |
| `CorrectionCounts.CorrectionStatistics` | internal/chat/types.go:507-535 | the counting loop computes the room's counts and each participant's |
| `Participants.AuxiliaryRoundTrip` | internal/chat/types.go:39-80 | an auxiliary's name gives back its provider and its index, for every index an int holds, and is not a primary's name |
| `Participants.AuxiliaryInjective` | internal/chat/types.go:75-80 | two providers or two indices give two names |
| `Participants.DecimalNumber` | internal/chat/types.go:39-57 | reading back a number written in decimal gives the number |
| `MarkerLines.SourceLinesTile` | internal/agent/agent.go:434-463 | the line table tiles the response without gap or overlap, and each text is its line without its ending |
| `MarkerLines.SuffixUnfenced` | internal/agent/agent.go:397-417 | no terminal marker line touches a fenced line |
| `MarkerCuts.InlineUnfenced` | internal/agent/agent.go:419-430 | a complete marker behind the final sentence, found outside a fence, covers no byte of a fenced line, even when it spans lines |
| `MarkerCuts.TerminalSpans` | internal/agent/agent.go:385-432 | accepted spans are disjoint, ascending, within the response and outside every fence |
| `MarkerCuts.CutBackKeeps` | internal/agent/agent.go:582-587 | cutting the obeyed spans from right to left, each at its original offsets, leaves exactly the bytes in none of them, in order |
| `MarkerCuts.PublicIsKept` | internal/agent/agent.go:540-602 | the public text is the trimmed response with exactly the obeyed spans removed |
| `MarkerCuts.FencedKept` | internal/agent/agent.go:434-463 | no byte of a fenced line is ever cut |
| `MarkerRoundTrip.RoundTrip` | internal/agent/agent.go:554-602 | a control marker on a line of its own behind a body with closed fences and no marker line is read back: the trimmed body and the normalised decoded payload |
| `MarkerRoundTrip.AmbiguousStays` | internal/agent/agent.go:562-565 | if the payload holds a marker start, the same response stays as it is and claims nothing; so the condition on the payload is exact |
| `MarkerLoops.MarkdownFenceDelimiter` | internal/agent/agent.go:465-478 | the loop over the run of fence characters |
| `MarkerLoops.ResponseSourceLines` | internal/agent/agent.go:434-463 | the loop over lines and fence state computes the line table |
| `MarkerLoops.CountControlStarts` | internal/agent/agent.go:388-395 | the count of marker starts on unfenced lines that begin with one |
| `MarkerLoops.TerminalSuffix` | internal/agent/agent.go:397-417 | the backward scan and the reversal give the maximal run of marker lines at the end, in order |
| `MarkerLoops.ScanResponseMarkers` | internal/agent/agent.go:385-432 | the whole scan |
| `MarkerLoops.ParseResponse` | internal/agent/agent.go:540-603 | the loops over spans compute the response the theorems are about |
| `ToolLoopTrace.InFlightIsUndone` | internal/room/tool_loop.go:71-99 | over every trace `inFlight` is the number of tracked executions that have not ended |
| `ToolLoopCycles.RecoverIsSound` | internal/room/tool_loop.go:84-147 | after any trace, a decision to recover names a period of at most four, and what was tracked ends in three rounds of it: consecutive, non-overlapping, failed, non-transient executions with that period |
| `ToolLoopCycles.WindowDecides` | internal/room/tool_loop.go:105-149 | the last twelve attempts decide as the uncapped run of attempts would |
| `ToolLoopCycles.WarningIsCanonical` | internal/room/tool_loop.go:128-135 | the warning key is the same for every rotation of a cycle |
| `ToolLoopSilence.ReportIsReported` | internal/room/tool_loop.go:108-147 | a report's cycle has at most four attempts, is primitive, and is the cycle reported last |
| `ToolLoopSilence.NextAttempt` | internal/room/tool_loop.go:136-149 | the attempt that continues a reported cycle: silence, except at the point where three equal attempts meet in a cycle of four |
| `ToolLoopSilence.StaysSilent` | internal/room/tool_loop.go:136-139 | a reported cycle without three equal attempts in a row stays silent as long as it goes on, which covers every cycle of at most three |
| `ToolLoopSilence.SilentIff` | internal/room/tool_loop.go:108-139 | where warning keys differ, a reported cycle stays silent for ever if and only if it has no three equal attempts in a row |
| `ToolLoopTriple.TripleReportedAgain` | internal/room/tool_loop.go:108-149 | a trace from the start for any two operations whose failures have two fingerprints: after three rounds of A A A B the cycle of four has been reported, and the third A that follows is reported again, as a cycle of one |
| `SharedToolLoop.WorkflowLoopMonitor.Detect` | internal/room/tool_loop.go:108-149 | the loops over sizes, attempts and rotations compute the decision and the key kept |
| `SharedToolLoop.WorkflowLoopMonitor.Observe` | internal/room/tool_loop.go:39-150 | one observation on the monitor's fields is the value-level one |
| `RateLimits.RetryAfterIs` | internal/research/rate_limit.go:116-135 | no 63-bit overflow: the retry time is the later of the minimum and the time asked for, and an unrepresentable delta is the end of the year 9999 |
| `RateLimits.DelayCovers` | internal/research/rate_limit.go:100-111 | the delay of the k-th 429 in a row is at least 30 s, 60 s, then five minutes, and below 305 s |
| `RateLimits.CooldownsHold` | internal/research/rate_limit.go:76-114 | over every sequence of requests, none is sent to a host before the time its last 429 asked for: the backoff for the streak since its last success, and no earlier than a representable Retry-After (section 10.2.3 of RFC 9110) |
| `RateLimits.Transport.RoundTrip` | internal/research/rate_limit.go:76-114 | a request is sent exactly when the host's cooldown is over, and updates that host's entry only |
| `RouterTheorems.AttachmentsUnique` | internal/roommanager/router.go:421-429 | over every run no two attachments share a room or a client |
| `RouterTheorems.OneRoomPerOperation` | internal/roommanager/router.go:321-344 | over every run of crashes, retries and lost writes, one creation operation saves rooms of one identity only |
| `RouterTheorems.NeverRecreated` | internal/roommanager/router.go:335-348 | once the receipt of an operation is durable, no later run saves its room again, even after the room was deleted |
| `RouterTheorems.PanelOnce` | internal/roommanager/router.go:274-289 | once a panel request was saved, no later run opens another for that client and room unless a replacement is asked for |
| `SharedRouter.Manager.CreateRoom` | internal/roommanager/router.go:321-349 | reserve, save and receipt in place, with the rollback of a reservation that could not be saved |
| `SharedRouter.Manager.JoinRoom` | internal/roommanager/router.go:391-429 | bind, save or roll back, and end every other attachment of the room or client |
| `SharedRouter.Manager.OpenPanel` | internal/roommanager/router.go:274-289 | record the panel request before it is rendered, or roll it back |
| `SharedRouter.Manager.SetRoomEnabled` | internal/roommanager/router.go:147-165 | disabling ends the room's attachments; a failed save restores the entry and ends none |
| `ResponderTheorems.WindowProvidersDiffer` | internal/room/conversations.go:338-418 | over every run two attempts in one window of a conversation have two providers |
| `ResponderTheorems.WindowIsBounded` | internal/room/conversations.go:256-305 | so a window has at most four attempts |
| `ResponderTheorems.OneTemporaryEach` | internal/room/conversations.go:393-427 | over every run a provider has at most one temporary responder |
| `ResponderTheorems.NextIsLeast` | internal/room/conversations.go:429-436 | the search ends at the least free index, at most one past the number of agents |
| `ResponderTheorems.NextTemporaryIsFree` | internal/room/conversations.go:429-436 | the identity found is not in use and belongs to the provider |
| `SharedResponders.Desk.NextTemporaryParticipant` | internal/room/conversations.go:429-436 | the unbounded loop terminates with that identity |
| `SharedResponders.Desk.SelectConversationResponder` | internal/room/conversations.go:338-418 | the passes over requested, auxiliary, other and temporary responders, in order |
| `SharedResponders.Desk.ScheduleOne` | internal/room/conversations.go:257-305 | one job of the scheduler's loop: left waiting, or given an attempt and perhaps a new temporary responder |
| `SharedResponders.Desk.RetireTemporary` | internal/room/conversations.go:231-254 | a retired responder leaves the roster and its conversation |

## Left out

- WriterExclusion.WriterExclusion: proved for runs that keep the lease rules of `WriterRules`, which `ExclusionExact` shows to be exact; whether every caller in the repository keeps them is not part of the model.
- WriterTheorems.CrashSafety: proved for runs that keep the lease and record rules up to the crash; after the crash the run is arbitrary.
- FollowUpRuns.WithinLimit: the bound is a number that the limit in force never exceeds during the run.
- HandoffCharges.AttemptsAreCharged: claims that name a result reach the allowance through reports only, and a new run has a fresh identity; the direct call refuses such claims (internal/api/followups.go:34-36).
- ReconcileTheorems.ReconcileIsSettled: as in all theorems about the second reconciliation, reply jobs and workflows do not share identities, and accepted dispatches name handoffs that exist.
- ReconcileComplete.CompleteSettlesIff: besides, messages have distinct sequences, and the history names no assignment later than the assignment time.
- ReconcileHistory.SameIffRetained: at most as many events are collected as the history holds (200); `LongRoundReturns` shows that the equivalence is false for 201.
- ReconcileMarks.LateMarksSettleIff: assumes numbered messages, and that no success collected at the result time is later than the success time; `MarksSettleIff` assumes neither.
- SharedReviews.Process.AdvanceContinuation: the state of the parent, its handoff, its result message and the composed review text are given, where the code looks them up (internal/room/continuation.go:61-105).
- SharedReviews.Process.PublishCoordinated: the checks on recipients, effort, reply target and dispatch are one given condition (`admissible`).
- ToolLoopSilence.SilentIff: assumes that the fingerprint of one attempt never equals the key of the cycle; `NextAttempt` says what happens when it does.
- RateLimits.CooldownsHold: clocks before the year 9999, and one request at a time for each host, which is what the host's gate enforces.
- ResponderTheorems.WindowProvidersDiffer: fewer than 2^63 agents.
- ContinuationSafety.AtMostOnce: one scheduler goroutine per process, message identities of clients differ from `continuation_...`, workflow and run identities are fresh, and an append interrupted in the middle of a record counts as not durable.
- Identities: joined strings such as `room:workflow`, `work:W@t` and `client:operation` are structured values, so that identifiers containing the separator do not collide here.
- Lanes of different providers share a mutex and nothing else, so one lane is modelled at a time.
- Room names, participants, files and timestamps of writer records, and the waiting list of a snapshot: display.
- The workspace journal is taken as configured; its JSON is a map, and a revision does not wrap around at 64 bits.
- Coordination reports, controls and the merge of reports into handoffs are modelled on values, not in place; reconciliation is the part that has the class.
- The objective text of a run, `CoordinationRun.View` and its metrics, and the recovery status line: display.
- Ledgers of version 1 and their migration (internal/room/handoff_migration.go).
- Length limits of the allowance's identifiers, beyond one flag (`oversize`).
- A room reset, which carries the allowance over (internal/store/reset.go:161-162).
- `NotificationKey`: the key of the latest public update is given.
- Control-state fields other than those that are normalised are passed through; JSON decoding, SHA-256 and HTTP dates are any functions; the four patterns are written out as functions; white space is ASCII.
- Host names are taken as already normalised; transport errors other than a status are one case.
- Router authentication, room directories, the workspace limit, and the room service behind a join, whose participation identity is given.
- Eligibility of a provider, the provider call and its deadline are given by a view or an outcome; a stale attempt may still finish its conversation after a follow-up, and the model allows it to.
- Provider adapters, process launching, the terminal interface, speech, the phone gateway, the MCP bridge, TLS, release packaging.
- API paging, route deduplication, pairing records and fixed-window rate counters: easy members.
