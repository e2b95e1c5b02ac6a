# Agenelf control planes, verified

A Dafny model of the parts of Agenelf that keep state and make promises about whole runs: the
operation queue with its owner approvals, runners and revocations; the hash-chained session ledger
and the event streams mirrored into it; the governed task engine; the two-stage upgrade; and the
skill registry. `dafny verify dfyconfig.toml` checks everything.

## How the files fit together

| file | what it models |
|---|---|
| `OwnerApproval.dfy` | the owner's decision rule, quorum, finality, requests that change between votes, and the check of one-shot authorizations |
| `Operations.dfy`, `OperationQueue.dfy` | the queue as a value (deduplication, derived status) and as the store object that searches, submits, approves and supersedes duplicates |
| `OpsProtocol.dfy` | runners, expiry, revocations, owner and clock as a step machine, one file operation per step, any interleaving |
| `OpsRunner.dfy` | the runner's and the revocation's own code run without interruption, proved to be runs of that machine, and what holds when calls come one at a time |
| `SessionLedger.dfy`, `LedgerTree.dfy`, `LedgerStore.dfy` | the hash chain and its verifier, the tree and its branches, the store object |
| `AgentEvents.dfy`, `EventStreams.dfy` | numbering, bounded buffer, polling consumers, the ledger mirror; the stream and hub objects |
| `Tasks.dfy`, `TaskEngine.dfy` | the task and step state machines over values; the engine object, its advice, and a driver that follows it |
| `UpgradeCandidate.dfy`, `UpgradeTransaction.dfy` | staging a candidate; backup, apply, hash check and rollback |
| `UpgradeProtocol.dfy`, `UpgradeSafety.dfy`, `UpgradeApplies.dfy`, `UpgradeLocks.dfy`, `UpgradeIsolation.dfy` | sessions, both authorizations and any number of upgrade runners as a step machine; what every interleaving keeps; which apply owns which work; request locks; one runner's apply phase as a transaction inside it |
| `Skills.dfy`, `SkillRegistry.dfy` | the registry as a value with its invariant; the registry object that updates and rolls back in place |
| `Common.dfy` | options, results, fingerprints, small sequence helpers |

Objects whose methods update fields are classes whose methods are proved against functions on
values; the lemmas are about those functions. Protocols are step machines: a state, a step type, a
`Next` function, and theorems about `Run` over every list of steps.

## Modelling assumptions

- A sha256 fingerprint or hash is an injective constructor. An uuid is a parameter; where
  freshness matters it is an explicit condition (`FreshIds`, `BranchDiscipline`, `Unused`).
- One read, one exclusive create, one replace and one unlink of a file is one atomic step.
- Time never runs backwards (`Tick` adds a natural number).
- Texts and paths are already sanitized and normalized; JSON is its value.
- Nothing reclaims a lock and no process dies inside a run. Unlinking a lock may fail.
- In the upgrade protocol each step of the Agent's own session code is taken whole, as are one
  `check_auth`, one backup and the verification of one record; everything else is one file operation.
  The tree has no files in the cache directories that the tree manifest skips.
- Task-engine calls and owner decisions are taken one at a time, as the code itself has no lock for them.
- A module's contracts resolve the same way each time it is asked.

## Where a promise and the code part

- `docs/OPERATION_REVOCATION.md` (lines 68-92) promises that no revocation reports success while
  the operation still runs. The runner looks for a result before it takes the lock and does not
  look again (`scripts/ops_runner.py:456-466`), so a revocation that starts and finishes in between
  is followed by an execution. `CancelledYetExecuted` is that run; `HonouredExactlyWhenTimely` says
  exactly when the promise holds, and `RevocationIsHonoured` proves it for every interleaving in
  which no runner creates its lock after a result has appeared.
- `update_step` with an evidence reference reads the task again (`app/core/task_engine.py:459-472`)
  and so drops the approval request id, the waiting status and the start time it has just set.
  `WaitingRecordsItsRequest` and `RunningRecordsItsStart` give the exact conditions,
  `EvidencePathForgets` the two inputs.
- `update_step` moves the task outside the transition table (`app/core/task_engine.py:449-479`):
  `UpdateLeavesTheTable` says exactly which calls do, in terms of the stored task and the call's own
  arguments; `PlannedToVerifying` is one such call.
- The owner's decision rule caps the quorum at ten approvers, the authorization check does not
  (`app/core/permissions.py:348-371`). `request_auth` itself never asks for more than two, so this
  takes a request file that came about otherwise; one that asks for more than ten can never be
  approved, which is one conjunct of `ApprovedExactly`. `QuorumOfElevenIsNeverMet` is the input.
- Collected approvals are carried over when the request file changes between two votes
  (`app/core/owner_approval.py:252-285`), so an approval may count for a content its author never
  saw: `ApprovalCarriedOver`. `CountedOnApprovedContent` gives the condition: a legal approval that
  goes to a collecting decision finds the content whose fingerprint that decision carries, which a
  caller can compare before the vote.
- A run id can be taken again once its stream has left the hub (`app/core/agent_events.py:389-408`);
  the new stream counts from one again, so the ledger can hold one number twice for one run:
  `NumberRecordedTwice`. `MirrorsExactlyUntaken` gives the condition: whenever the id was taken, the
  ledger held no entry of that run yet.
- A registration that does not load restores all tables, but a file it has already overwritten is
  deleted (`app/core/registry.py:592-610`). `FileSurvivesExactly` says exactly when a file of that
  name is left, `ReloadWorksExactly` when a later reload works, and `StrandedSkill` is a reachable
  registry with a loaded skill no reload can find.
- A reload of a built-in skill whose file has gone falls back to an app-space file of that name
  (`app/core/registry.py:264-279`): `BuiltinsYieldOnlyToReload` says exactly when,
  `BuiltinReplaced` is a run in which it happens.

## Model

| member | source | states |
|---|---|---|
| OwnerApproval.VotersBeforeDenyMeaning | app/core/owner_approval.py:238-296 | Independent meaning of the voter list: each actor once, present exactly when one of its approvals precedes every deny, in order of first approval. |
| OwnerApproval.TallyIsQuorum | app/core/owner_approval.py:194-315 | For every vote sequence on one request: approved exactly when enough distinct actors approved before any deny, stored approvals being the first of them in order; denied exactly when a deny came first; otherwise still collecting. |
| OwnerApproval.DecisionWindow | app/core/owner_approval.py:225-303 | A stored decision stems from one of the votes, of its own kind, and lapses a bounded time after that vote. |
| OwnerApproval.FinalDecisionsNeverChange | app/core/owner_approval.py:213-226 | An approved or denied decision survives any further votes unchanged. |
| OwnerApproval.CountedOnApprovedContent | app/core/owner_approval.py:252-285 | With the request file changing between votes: every counted approval was cast on the approved content if each approval that went to a collecting decision found the content of that decision, and only then as long as nobody votes twice or denies. |
| OwnerApproval.QuorumOverChangingFile | app/core/owner_approval.py:213-303 | With request file and required number changing between votes: the first ballot that denies, approves alone when nobody has joined, or brings the distinct approvers up to the number asked for at that moment decides for good, with its own content; until then the file collects exactly the distinct approvers. |
| OwnerApproval.ApprovalCarriedOver | app/core/owner_approval.py:252-285 | The failing case: two actors approve two contents and the second is approved by both. |
| OwnerApproval.SteadyRequestTally | app/core/owner_approval.py:194-315 | With an unchanged request file the tally over changing files is the plain one. |
| OwnerApproval.QuorumOfElevenIsNeverMet | app/core/permissions.py:348-371 | Eleven approvals for a request of eleven: decided as approved, never found approved by the check. |
| OwnerApproval.ApprovedExactly | app/core/permissions.py:326-378 | After any votes the authorization check says approved exactly when it is unused, the quorum was met before any deny, the quorum is at most ten, the window is open and the expected content is the bound content. |
| Operations.LaxestStrictEnough | app/core/operations.py:210-224 | An accepted submission is handled under the laxest risk that is as strict as declared and as the policy asks: the policy only tightens, and no further than it says. |
| Operations.StatusMovesForward | app/core/operations.py:395-449 | Over any interleaving of submissions, decisions, results and ticks, the status a client sees of a single-approver request only moves forward. |
| Operations.StatusStepForward | app/core/operations.py:395-449 | The same for one step from any well-formed queue. |
| Operations.WellFormedRun | app/core/operations.py:340-379 | Every queue built by submissions holds intact, single-approver requests, and no decision is still collecting. |
| Operations.LiveIsEarlyStatus | app/core/operations.py:258-301 | Reusable for its own payload and risk is the same as shown as queued, awaiting approval or approved. |
| Operations.NeverLiveAgain | app/core/operations.py:258-301 | A request that stops being reusable never becomes reusable again. |
| Operations.NewestReusableComplete | app/core/operations.py:258-301 | The newest-first search answers with a reusable request, or there is none. |
| Operations.NewRequestIsAlone | app/core/operations.py:340-379 | When a submission creates a request, no other live request has its payload and risk. |
| Operations.Deduplicated | app/core/operations.py:340-379 | After any run of submissions with deduplication on, at most one request per payload and risk is live. |
| OperationQueue.PendingItemsMeaning | app/core/owner_approval.py:318-358 | The pending list holds exactly the requests that wait for the owner, each once. |
| OperationQueue.PendingNewestFirst | app/core/owner_approval.py:329-358 | The pending list runs from the newest request to the oldest. |
| OperationQueue.DenyAllMeaning | app/core/owner_approval.py:531-554 | Denying the listed duplicates denies exactly those and touches no other decision. |
| OperationQueue.ApprovalSupersedesDuplicates | app/core/owner_approval.py:557-591 | After an approval: it stands, every other pending request of that payload is denied and reported, nothing else moved. |
| OperationQueue.OperationStore.FindReusableOperation | app/core/operations.py:258-301 | The backwards loop with early exit finds the newest reusable request. |
| OperationQueue.OperationStore.SubmitOperation | app/core/operations.py:304-379 | Whole new state and answer of a submission, with policy and deduplication; every rejection leaves the store alone. |
| OperationQueue.OperationStore.ApplyDecision | app/core/owner_approval.py:194-315 | Whole new state and answer of one owner decision. |
| OperationQueue.OperationStore.ListPending | app/core/owner_approval.py:329-358 | The loop lists the pending requests, newest first. |
| OperationQueue.OperationStore.DenyIdenticalPending | app/core/owner_approval.py:531-554 | The loop denies every pending duplicate, newest first, and returns their ids in that order. |
| OperationQueue.OperationStore.ProcessApproval | app/core/owner_approval.py:557-591 | An approval followed by the denial of its duplicates, or an error with no change. |
| OpsProtocol.LockInvariantHolds | scripts/ops_runner.py:461-506 | In every interleaving: holders of a lock hold different locks, and what each recorded about earlier results is still true. |
| OpsProtocol.MutualExclusion | scripts/ops_runner.py:461-466 | Two processes never hold the lock of the same request. |
| OpsProtocol.HonouredExactlyWhenTimely | scripts/ops_runner.py:456-506 | At most one execution, and none when the trusted result says nothing ran: exactly when every execution ran under a lock created while there was no result. |
| OpsProtocol.NoLateLockMeansTimely | scripts/ops_runner.py:456-466 | If no runner creates its lock after a result has appeared, every execution is timely. |
| OpsProtocol.RevocationIsHonoured | app/core/operation_revocation.py:192-284 | Then every request is executed at most once, exactly once when it succeeded, and never when it was blocked, expired or cancelled. |
| OpsProtocol.CancelledYetExecuted | scripts/ops_runner.py:456-466 | A concrete run in which a request ends cancelled and executed. |
| OpsProtocol.ResultsAreFinal | scripts/ops_runner_entry.py:82-87 | A trusted result never changes once written, over any continuation of any run. |
| OpsProtocol.DecisionRule | app/core/owner_approval.py:213-303 | A decision write either changes nothing or binds the content of the request file at that moment. |
| OpsProtocol.ApprovalInvariantHolds | scripts/ops_runner.py:287-303 | In every run each approving decision, executing process and executed change carries the approved payload. |
| OpsProtocol.ApprovalWasGiven | app/core/owner_approval.py:213-303 | Every recorded approval goes back to a step at which the owner approved exactly that payload. |
| OpsProtocol.ExecutedPayloadWasApproved | scripts/ops_runner.py:468-484 | Every executed non-read operation carries exactly the payload its request file held when an owner approved it, however the file was rewritten. |
| OpsPasses.PassIsARun | scripts/ops_runner_entry.py:89-117 | An undisturbed pass of the lifecycle runner is a run of the machine and ends with the stated files. |
| OpsPasses.RevocationIsARun | app/core/operation_revocation.py:192-284 | An undisturbed revocation is a run of the machine and ends with the stated files. |
| OpsPasses.OneCallAtATimeBalances | scripts/ops_runner.py:451-506 | With calls one at a time, a request was executed exactly once if its result says it ran and otherwise never, whatever else happens between the calls. |
| OpsPasses.SweepExecutesOnce | scripts/ops_runner.py:508-514 | A sweep executes each request at most once, even with several files of one id, and never one that has a result, whose result it keeps. |
| OpsPasses.OpsRunner.TryLock | scripts/ops_runner.py:461-466 | Exclusive creation of the lock file. |
| OpsPasses.OpsRunner.Unlock | scripts/ops_runner.py:502-506 | The lock goes away unless the unlink fails. |
| OpsPasses.OpsRunner.Publish | scripts/ops_runner.py:492-499 | Exclusive creation of the result file; an existing result stays. |
| OpsPasses.OpsRunner.Authorize | scripts/ops_runner.py:287-303 | The branch-by-branch check gives the authorization state of the machine. |
| OpsPasses.OpsRunner.ProcessLocked | scripts/ops_runner.py:468-499 | What the base runner does under its lock, and that every non-final status leaves results and executions alone. |
| OpsPasses.OpsRunner.ProcessRequest | scripts/ops_runner_entry.py:89-117 | Whole new state of one pass, and that its status names the published result or nothing changed. |
| OpsPasses.OpsRunner.RunOnce | scripts/ops_runner.py:508-514 | The sweep loop is the sequence of its passes. |
| OpsPasses.OpsRunner.RevokeOperation | app/core/operation_revocation.py:192-284 | Whole new state and answer of a revocation: it cancels exactly when the request is intact, unanswered, unexpired, not denied and unlocked, reports an earlier cancellation exactly when the request is intact and its result says cancelled, and otherwise is refused with nothing changed. |
| SessionLedger.NoComplaintsMeansIntact | app/core/session_ledger.py:406-464 | The verifier finds nothing to complain about exactly when every entry is in order on the whole file. |
| SessionLedger.SameLastHashSameLedger | app/core/session_ledger.py:84-85 | Two intact ledgers with the same last hash are equal entry for entry, whatever their lengths. |
| SessionLedger.BrokenStaysBroken | app/core/session_ledger.py:406-464 | Appending never makes a failing file verify. |
| SessionLedger.LookupMeaning | app/core/session_ledger.py:297-303 | Lookup by id finds an entry with that id exactly when there is one. |
| SessionLedger.AppendKeepsIntact | app/core/session_ledger.py:277-340 | An append keeps an intact file intact exactly when its id is legal and new. |
| SessionLedger.BuiltLedgersAreIntact | app/core/session_ledger.py:277-367 | Every ledger built by appends and branch creations verifies, whatever was rejected on the way. |
| SessionLedger.LedgerOnlyGrows | app/core/session_ledger.py:254-275 | Earlier entries stay an unchanged prefix. |
| LedgerTree.ParentExists | app/core/session_ledger.py:430-441 | In an intact file each parent link leads to exactly one entry, an earlier one. |
| LedgerTree.Ancestry | app/core/session_ledger.py:297-318 | Following parent links terminates, step by step at parents, at an entry without one. |
| LedgerTree.BuiltLedgersHaveOneRoot | app/core/session_ledger.py:297-318 | In a built ledger only the first entry has no parent. |
| LedgerTree.EveryPathEndsAtTheFirstEntry | app/core/session_ledger.py:297-318 | From any entry the parent links lead to the first one. |
| LedgerTree.BuiltLedgersBranchProperly | app/core/session_ledger.py:342-367 | When branch ids come only from branch creation, each entry stays on its parent's branch or opens a new one with a branch summary. |
| LedgerTree.BranchesAreConnected | app/core/session_ledger.py:342-367 | Then from any entry one climbs inside its branch to the branch's first entry, a branch summary or the root. |
| LedgerStore.SessionLedgerStore.Scan | app/core/session_ledger.py:411-455 | The verifier's loop computes the complaints, the last hash and the branches of the whole file. |
| LedgerStore.SessionLedgerStore.Verify | app/core/session_ledger.py:406-464 | The report is ok exactly on intact files, counts and names the tail, and quotes the first fifty complaints. |
| LedgerStore.SessionLedgerStore.IndexById | app/core/session_ledger.py:297-303 | The index loop agrees with lookup by id for every id. |
| LedgerStore.SessionLedgerStore.Append | app/core/session_ledger.py:277-340 | The exact entry written below the tail, or the error, with every other file and a rejected one untouched. |
| AgentEvents.EmitEffectFacts | app/core/agent_events.py:218-265 | One emission adds the same note to the ledger and to the durable history of its own run, no other run's notes change, and an intact ledger stays intact. |
| AgentEvents.LedgerAccountsForEveryRun | app/core/agent_events.py:208-265 | With any runs, other appends and branch creations interleaved in one session ledger, any failures and run ids taken again, each run's ledger entries are the durable histories of its streams, one after the other, by number, type and origin, every such entry carries the origin it wraps, and the ledger stays intact. |
| AgentEvents.MirrorsExactlyUntaken | app/core/agent_events.py:389-408 | A run's ledger entries match the durable history of its present stream exactly when, each time its id was taken, the ledger held no entry of that run yet. |
| AgentEvents.NumberRecordedTwice | app/core/agent_events.py:389-408 | The failing case: a run id taken again after an event was recorded, and the ledger holds number one twice. |
| AgentEvents.PollingIsGapFree | app/core/agent_events.py:267-296 | However emissions and polls interleave, a consumer has received exactly the stretch of history from its start to its cursor. |
| AgentEvents.PollAnswers | app/core/agent_events.py:267-296 | A poll expires exactly when an unseen event has left the buffer, and is empty exactly when everything has been seen. |
| EventStreams.BufferStep | app/core/agent_events.py:187-190 | The bounded buffer is always the tail of the full history. |
| EventStreams.RunEventStream.constructor | app/core/agent_events.py:169-193 | A new stream is empty, numbered from one, with a clamped capacity. |
| EventStreams.RunEventStream.Emit | app/core/agent_events.py:218-265 | Persist first, then publish; a rejected, oversized or unpersisted event changes neither numbers, buffer nor ledger, nothing follows a terminal event, and persistence fails exactly when the event needs it and the ledger refuses the line. |
| EventStreams.RunEventStream.Persist | app/core/agent_events.py:208-216 | A durable event adds exactly its entry to its session's file, and fails exactly when the ledger's limits or rules refuse it. |
| EventStreams.RunEventStream.Publish | app/core/agent_events.py:254-264 | The buffer, counter and terminal mark keep agreeing with the history. |
| EventStreams.RunEventStream.EventsAfter | app/core/agent_events.py:283-296 | Answers a poll from the bounded buffer exactly as if the whole history had been kept. |
| EventStreams.AgentEventHub.EvictTerminal | app/core/agent_events.py:373-387 | Makes room only by dropping the least recently used ended run, and fails only when every run is active. |
| EventStreams.AgentEventHub.Register | app/core/agent_events.py:389-408 | Accepts exactly when the run id is free and there is room or an ended run to drop; then at most that run is dropped and the new one is last. |
| EventStreams.AgentEventHub.Get | app/core/agent_events.py:410-417 | Finds the run with that id and moves it to the end, or reports that there is none. |
| Tasks.ReadDependenciesMeaning | app/core/task_engine.py:174-189 | A dependency list is accepted exactly when every entry is an earlier index, and then holds those indices once each. |
| Tasks.NormalizeAllMeaning | app/core/task_engine.py:158-208 | Accepted steps are pending, keep their declared dependencies, and depend strictly backwards. |
| Tasks.ReachableTasksAreConsistent | app/core/task_engine.py:307-313 | In every reachable task running and succeeded steps have their dependencies done, completed tasks have only done steps, cancelled ones no open step. |
| Tasks.TerminalIsAbsorbing | app/core/task_engine.py:364-424 | Completed and cancelled tasks keep their status and all step statuses under any calls. |
| Tasks.FinishedStepsStay | app/core/task_engine.py:61-80 | Succeeded, skipped and cancelled steps never change status, and a task with a cancelled step never completes. |
| Tasks.CompletionIsEarned | app/core/task_engine.py:364-411 | A task becomes completed only from verifying, with every step done and trusted evidence present. |
| Tasks.UpdateEffect | app/core/task_engine.py:413-483 | What any accepted update does on either path: one legal step move, everything else in place, one or two revisions. |
| Tasks.WaitingRecordsItsRequest | app/core/task_engine.py:459-472 | Exactly when a waiting step keeps its approval request id, and the task its waiting status. |
| Tasks.RunningRecordsItsStart | app/core/task_engine.py:450-472 | Exactly when a started step has a start time, and which. |
| Tasks.EvidencePathForgets | app/core/task_engine.py:459-472 | Inputs on which the request id, the waiting status and the start time are lost. |
| Tasks.AllDoneAfterUpdate | app/core/task_engine.py:473-479 | After an accepted update all steps are done exactly when it ended the last open one. |
| Tasks.UpdateLeavesTheTable | app/core/task_engine.py:449-479 | Which accepted updates move the task outside the transition table, from the stored task and the arguments alone: failing a step of an inactive task, ending the last open step of one neither running nor verifying, any other non-waiting update of a proposed or failed one, and waiting without evidence in one neither running nor waiting. |
| Tasks.FreshIsCreated | app/core/task_engine.py:210-276 | The task on which the failing inputs are shown is one that creation stores. |
| Tasks.PlannedToVerifying | app/core/task_engine.py:473-479 | One such move: skipping the only step of a planned task. |
| Tasks.RevisionRises | app/core/task_engine.py:135-148 | Every accepted call strictly raises the revision and matched the expected one. |
| Tasks.RevisionNeverFalls | app/core/task_engine.py:135-148 | The revision never falls along any sequence of calls. |
| Tasks.OneWinnerPerRevision | app/core/task_engine.py:140-148 | Of any calls that expect one revision at most one is accepted; the others change nothing. |
| GovernedTasks.WaitHasAReason | app/core/task_engine.py:485-523 | The engine advises to wait only when some step is running or was cancelled. |
| GovernedTasks.ExecuteAdviceIsAccepted | app/core/task_engine.py:485-523 | Starting the advised step is always accepted. |
| GovernedTasks.DriverCompletesTheTask | app/core/task_engine.py:413-523 | A driver that follows the advice completes any fresh task of n steps in exactly 2n+1 calls, all accepted. |
| GovernedTasks.TaskEngine.ListedDependencies | app/core/task_engine.py:174-189 | The inner loop reads a dependency list as specified, stopping at the same first error. |
| GovernedTasks.TaskEngine.NormalizeSteps | app/core/task_engine.py:158-208 | The nested loops accept and reject exactly as specified, with the same first error. |
| GovernedTasks.TaskEngine.Create | app/core/task_engine.py:210-276 | Stores the specified new task, or nothing for an illegal definition or an unknown priority. |
| GovernedTasks.TaskEngine.AddEvidence | app/core/task_engine.py:327-362 | Whole new store and answer; a rejected call stores nothing. |
| GovernedTasks.TaskEngine.Transition | app/core/task_engine.py:364-411 | Whole new store and answer; a rejected call stores nothing. |
| GovernedTasks.TaskEngine.CancelSteps | app/core/task_engine.py:400-406 | The in-place loop cancels exactly the steps that have not ended. |
| GovernedTasks.TaskEngine.UpdateStep | app/core/task_engine.py:413-483 | Whole new store and answer, including the path that writes the task twice. |
| GovernedTasks.TaskEngine.NextAction | app/core/task_engine.py:485-523 | The scans with early exits give the specified advice. |
| UpgradeCandidate.RecordsDescribeOverlay | app/core/authorized_upgrade.py:548-575 | The records the owner approves describe the tree that is written: the last record of each path carries the hash of its content. |
| UpgradeCandidate.ProtectedFilesSurvive | app/core/authorized_upgrade.py:536-544 | No stageable proposal changes an existing test or a file outside the approved scope. |
| UpgradeCandidate.CandidateWorkspace.PrepareChanges | app/core/authorized_upgrade.py:519-575 | Accepts exactly the stageable proposals, returns their records and the overlaid tree, names the first bad change, and writes nothing before every check has passed. |
| UpgradeCandidate.CandidateWorkspace.WriteChanges | app/core/authorized_upgrade.py:570-574 | The write loop produces the overlay of all changes. |
| UpgradeTransaction.BackupMeaning | scripts/self_upgrade_runner.py:245-260 | The manifest lists every record with whether its file existed, and the backup holds exactly those files. |
| UpgradeTransaction.RollbackRestores | scripts/self_upgrade_runner.py:284-296 | From any tree that differs only at record paths, rollback restores the original exactly, new files and repeated paths included. |
| UpgradeTransaction.PartialApplyIsUndone | scripts/self_upgrade_runner.py:303-315 | Wherever the copy loop stops, before or after replacing a file, rollback gives back the original tree. |
| UpgradeTransaction.UpgradeTarget.CopyOne | scripts/self_upgrade_runner.py:263-281 | One copy and its hash check: what the target holds afterwards and whether it was accepted. |
| UpgradeTransaction.UpgradeTarget.CopyRecords | scripts/self_upgrade_runner.py:304-312 | The loop copies record by record and stops at the first copy that is not accepted. |
| UpgradeTransaction.SuccessIsExact | scripts/self_upgrade_runner.py:299-315 | After a successful apply every record has its approved content exactly when no two records demand different contents of one path. |
| UpgradeTransaction.OtherPathsUntouched | scripts/self_upgrade_runner.py:299-315 | A successful apply changes no path outside the records. |
| UpgradeTransaction.UpgradeTarget.BackupTargets | scripts/self_upgrade_runner.py:245-260 | The loop builds the backup, and an existing backup of the request is refused. |
| UpgradeTransaction.UpgradeTarget.Rollback | scripts/self_upgrade_runner.py:284-296 | The backwards loop restores every manifest entry. |
| UpgradeTransaction.UpgradeTarget.ApplyFiles | scripts/self_upgrade_runner.py:299-315 | All or nothing: succeeds exactly when every copy is accepted; otherwise the target is what it was and the error names the first rejected record. |
| UpgradeSafety.EveryRunIsSafe | scripts/self_upgrade_runner.py:337-401 | The content invariant behind the rows of this protocol holds in every interleaving. |
| UpgradeSafety.WritesAreTwiceAuthorized | scripts/self_upgrade_runner.py:354-368 | No target file is written, removed or rolled back unless the owner approved both the intent and this exact candidate, both were consumed, and the path is a record inside the approved scope. |
| UpgradeSafety.ConfirmedContentWasApproved | scripts/self_upgrade_runner.py:305-311 | What the target held when a hash check passed is what the approved candidate tree held there, even if the tree changed after verification. |
| UpgradeSafety.VerifiedTogetherAreConsistent | scripts/self_upgrade_runner.py:187-206 | A verification whose file checks all saw the verified tree leaves no two records that demand different contents of one path. |
| UpgradeSafety.MarkersAndResultsAreFinal | app/core/permissions.py:390-402 | Consumed markers and results never change. |
| UpgradeSafety.FinishedSessionIsGood | app/core/authorized_upgrade.py:736-769 | The binding put before the owner names the consumed intent and describes the staged tree. |
| UpgradeSafety.ApprovedAuthIsBacked | app/core/permissions.py:326-378 | An authorization found approved is unused and has an approving decision on exactly the expected content. |
| UpgradeApplies.EveryRunIsOwned | scripts/self_upgrade_runner.py:365-368 | The ownership invariant holds in every interleaving: a runner in its apply phase holds a spent authorization nobody else applies under, and every write, confirmation and successful result has a recorded call of its own job. |
| UpgradeApplies.OneApplyPerAuthorization | scripts/self_upgrade_runner.py:365-368 | No candidate authorization leads to two calls of apply_files, nor to two runners in their apply phase, over all requests and forged request files. |
| UpgradeApplies.AppliesFollowVerification | scripts/self_upgrade_runner.py:170-206 | Every call of apply_files, every target write and every passed hash check belongs to the one apply of its authorization, which started from a verification that saw the approved tree, each record's content in it and each target file at its baseline, and from a second passing run of the tests. |
| UpgradeApplies.AppliedMeansConfirmed | scripts/self_upgrade_runner.py:369-382 | A request reported as applied was applied by the one verified apply of its authorization, for that request, and that apply confirmed each of its records in the target. |
| UpgradeLocks.LocksHoldInEveryRun | scripts/self_upgrade_runner.py:337-401 | In every interleaving a runner past its lock step holds a lock nobody else holds. |
| UpgradeLocks.OneRunnerPerRequest | scripts/self_upgrade_runner.py:345-351 | Two upgrade runners never work on the same request at the same time. |
| UpgradeIsolation.UndisturbedApplyIsAtomic | scripts/self_upgrade_runner.py:299-315 | While nobody else touches the target, a runner's apply phase ends with the target unchanged or fully applied, and its result says which, whatever happens to all other files. |
| Skills.IndexIsSearch | app/core/registry.py:195-212 | Without conflicts, index and contract table agree with linear search. |
| Skills.RemovalIsLoadable | app/core/registry.py:618-643 | The rebuild after a removal cannot fail, so the branch that empties the index is unreachable. |
| Skills.RegistrationUndone | app/core/registry.py:178-190 | Undoing a registration restores the dictionary with its order. |
| Skills.EveryRunIsConsistent | app/core/registry.py:178-303 | The registry invariant holds after any sequence of discoveries, reloads, registrations, removals and file edits. |
| Skills.LookupIsLinearSearch | app/core/registry.py:195-212 | Then every tool lookup is linear search over the loaded skills, the contracts agree, and no tool belongs to two skills. |
| Skills.NoModuleLeaks | app/core/registry.py:107-149 | The module table holds the modules of the loaded skills and no others. |
| Skills.BuiltinsYieldOnlyToReload | app/core/registry.py:264-303 | A built-in skill is never replaced by an app-space one except by a reload that finds its own file gone. |
| Skills.ScanKeepsOrigin | app/core/registry.py:228-251 | A scan never replaces a loaded skill. |
| Skills.BuiltinReplaced | app/core/registry.py:264-279 | A run in which that reload happens. |
| Skills.FileSurvivesExactly | app/core/registry.py:592-610 | Exactly when a file of the name is left after a registration, and that a registration that does not load restores all tables but loses a file it had overwritten. |
| Skills.ReloadWorksExactly | app/core/registry.py:264-303 | Exactly when a reload works after any registration of a name the application has no file for. |
| Skills.StrandedSkill | app/core/registry.py:592-610 | A reachable registry with a loaded skill that no reload finds. |
| Skills.ReloadUndoesRemoval | app/core/registry.py:264-303 | Unregistering an external skill and reloading it brings every tool lookup back. |
| Skills.LoadableExtends | app/core/registry.py:199-209 | One more skill fits exactly when none of its tools is indexed and all its contracts resolve. |
| Registries.SkillRegistry.AddTools | app/core/registry.py:199-210 | The inner loop enters every named tool of a skill, or finds a tool of another skill or an unresolvable contract. |
| Registries.SkillRegistry.RebuildToolIndex | app/core/registry.py:195-212 | Succeeds exactly on conflict-free, resolvable skills and swaps both tables in only then. |
| Registries.SkillRegistry.UndoRegistration | app/core/registry.py:184-190 | The recovery puts dictionary and tables back, and its rebuild always succeeds. |
| Registries.SkillRegistry.RegisterModule | app/core/registry.py:178-193 | Registers the module, or leaves dictionary, order, tables, keys and errors as they were and discards it. |
| Registries.SkillRegistry.LoadFile | app/core/registry.py:107-130 | Import, validation and registration: the loaded state, or nothing but a spent key. |
| Registries.SkillRegistry.ScanDir | app/core/registry.py:228-251 | The scan loop loads file by file, first come first served. |
| Registries.SkillRegistry.ReloadSkill | app/core/registry.py:264-303 | The reloaded state, or the previous one with an error noted. |
| Registries.SkillRegistry.RestoreAfterFailure | app/core/registry.py:290-303 | The recovery of a failed reload changes nothing and never reaches the fallback that empties the index. |
| Registries.SkillRegistry.RegisterExternalSkill | app/core/registry.py:536-616 | The registered state with its file, or the previous tables with the file deleted; built-ins are refused. |
| Registries.SkillRegistry.UnregisterExternalSkill | app/core/registry.py:618-643 | Removes exactly an external skill from every table and rebuilds without ever using the fallback. |

## Left out

- OpsPasses.OpsRunner.Execute: SSH commands, timeouts, redaction and rollback of a deployment are one abstract outcome, because they are foreign calls.
- OpsProtocol.RevocationIsHonoured: states the promise for runs without a late lock only, because the code does not keep it in general; the exact condition is `HonouredExactlyWhenTimely`.
- OwnerApproval.TallyIsQuorum: states the rule for a request file that stays as it is between the votes; a changing file is covered by `QuorumOverChangingFile` and `CountedOnApprovedContent`.
- Operations.StatusMovesForward: covers requests created by `submit_operation`, which never asks for several approvers; the votes of a quorum are covered by `TallyIsQuorum`.
- AgentEvents.LedgerAccountsForEveryRun: compares number, type and origin, not payloads, because the ledger sanitizes the wrapped event again with a depth limit; other writers of the ledger are assumed not to forge agent events.
- UpgradeApplies.AppliesFollowVerification: says what verification saw of each target file; the code does not look again before the copy, so a change of the target between the two is overwritten.
- UpgradeIsolation.UndisturbedApplyIsAtomic: needs the target left alone by others, because only requests are locked, not the target tree.
- UpgradeTransaction.UpgradeTarget.ApplyFiles: what each copy does is an input; failures inside backup and rollback, file modes and directories left behind are not modelled.
- UpgradeCandidate.CandidateWorkspace.PrepareChanges: path rules, syntax checks, redline scans and line counts are given as facts about each change.
- Skills.EveryRunIsConsistent: runtime state bound to skills, the marker file of the test gate, the source and test gates (one flag) and the older `register_new_skill` path are not modelled.
- Crashes, full disks, lock reclaim by the runner supervisor, and concurrent writers of one task: excluded by assumption.
- Signed owner commands, their replay protection and the parsing of natural-language decisions: cryptography and text only.
- Waiting and blocking reads (`wait_after`, `wait_for_result`), snapshots, listings and views: read-only projections.
- The lookup behind a policy decision (the decision itself is an input of a submission), capability scorecards, growth reports, LLM calls, prompts, the web and terminal interfaces, and the recovery wrapper around the upgrade session.
