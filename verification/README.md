# Verified models of the H2A governance services and the Agent Census

This project models, in Dafny, four parts of the repository that keep state, and proves what
they promise over every run:

- **Governed actions** (`GovernanceModel`, `GovernancePlans`, `GovernanceSafety`,
  `GovernanceRecovery`, `GovernanceRuns`, `GovernanceTheorems`, `GovernanceInterruptions`,
  `GovernanceRetries`, `GovernanceAccess`, `GovernanceRecords`, `GovernanceMemory`,
  `GovernanceWitness`, `GovernanceService`): the write-ahead protocol of the governance service
  over a state file, a policy and approval registry, an append-only ledger and artifact files.
  An operation is a plan, the list of its durable writes; a call makes any prefix of its plan,
  so a crash or a failed write may fall between any two writes, recovery included. Hashes and
  signatures are datatype constructors, hence injective; fresh ids are a counter.
- **Room runs** (`RoomFiles`, `RoomPaths`, `PublicationTree`, `RoomMachine`, `RoomSafety`, `RoomRuns`, `RoomTheorems`,
  `RoomReviewers`, `RoomRoundTrip`, `RoomWorkers`, `RoomRuntime`): request, decision, background execution, cancellation, restart, publication
  and download as a state machine with one step per durable change. A background worker is a
  program counter, so every `await` of the source is a point where any other move may come.
  A write may succeed, fail without effect, or land and still report failure. A published
  directory is a tree of files and directories that grows by one file at a time.
- **The Agent Census** (`EvidenceMerge`, `CensusModel`, `Classification`, `Capabilities`,
  `RuntimeGrouping`, `RuntimeEvidence`, `IsoTimestamp`, `Registry`, `RegistryInvariants`,
  `ProjectionTheorems`, `EdgeTheorems`, `IdentityResolution`, `Reingestion`, `CensusService`): evidence
  merging, identity resolution, projection, alerts, graph edges, runtime events and expiry.
- **The control-plane refresh** (`RefreshCoalescer`): a debounced single-flight refresh loop.

`Options` and `TextOrder` are shared. Where the source changes state in place the model has a
class whose methods are proved equal to the functions the theorems are about:
`GovernanceService.Governance`, `RoomRuntime.RoomRuntime`, `CensusService.Census` and
`RefreshCoalescer.ControlPlaneRefresh`.

The definitions that the operations share, who may act, which observations are one entity, what
a record, an edge or an item of evidence says, are each characterised by a second statement in
terms of the stored lists alone: `GovernanceAccess`, `GovernanceRecords`, `RoomPaths`, `RoomReviewers`, `RoomWorkers`,
`IdentityResolution`, `ProjectionTheorems`, `EdgeTheorems` and `RuntimeEvidence`.

Where a promise does not hold as stated, the condition under which it does is proved:

- "Denied" is not final for an action that carries an approval: after a restart denied it,
  approving it again executes it, and nothing else does. An action that policy allowed without
  an approval has none to repeat, so a restart that denies it denies it for good.
- A mandate that has expired but is still marked active is neither replaced nor renewed.
- A request whose writes are cut short is not always made good by sending it again. It burns
  its idempotency key, and is denied, exactly if the cut falls between its policy decision and
  its action record; an allowed one stays pending until a restart exactly if the cut falls
  between action record and commit; and the approval that was asked for belongs to no action,
  so that no human can ever decide it, exactly if the cut falls between that approval and its
  action.
- A review that is cut short refuses its room for good exactly if some but not all of its three
  writes were made.
- An accepted bundle is published exactly if none of its paths lies inside another: the run of
  a bundle with a file beside files below its own name succeeds and can never be published.
- A controller is left without a worker exactly by an approval whose state write is not
  acknowledged, whether it landed or not; two of them stop every later approval until a restart.
- A batch of events sent again is refused when one of its workloads is claimed by two entities,
  and is accepted again when an expired event with one of its ids has just been deleted.
- One workload that exceeds a limit refuses the events of all; and free text in workload names
  can make two workloads share one candidate id.

## Model

| member | source | states |
|---|---|---|
| GovernanceTheorems.ExactlyOnce | h2a-mvp/h2a-mvp/apps/governance/service.ts:438-495 | over every run from an empty installation, cut anywhere, each action is committed at most once, the commits are what its count says, and it has at most one audit event and none without a commit |
| GovernanceTheorems.RestartRecordsEveryExecution | h2a-mvp/h2a-mvp/apps/governance/service.ts:136-144 | after every completed restart the number of audit events of each action equals its execution count |
| GovernanceTheorems.MissingEventMeansCutAppend | h2a-mvp/h2a-mvp/apps/governance/service.ts:487-492 | a call can newly leave an execution without its event only if it was cut exactly between that action's commit and the append that follows it |
| GovernanceTheorems.ExecutedActionsNeverChange | h2a-mvp/h2a-mvp/apps/governance/service.ts:136-144 | an executed record is the same in every later world, its receipt verifies, its exported file still hashes to the recorded hash, and recovery's 409 cannot happen to it |
| GovernanceTheorems.RunsCommitOnlySanctioned | h2a-mvp/h2a-mvp/apps/governance/service.ts:433-444 | every commit of every run happens under the action's own active, unexpired passport and mandate, allowed by policy or approved for the same agent, mandate, key and action, and that sanction still stands at the end |
| GovernanceAccess.OnlyMembersCommit | h2a-mvp/h2a-mvp/apps/governance/service.ts:433-444 | over every run and on every path, a call commits an action only while its caller is an administrator or listed in the first room of the action's room id, the action's agent is listed there too and has the very passport, owner and mandate the action names, active, unexpired and covering it, and the approval, if policy asked for one, was given for this very request |
| GovernanceAccess.AuthorityMeans | h2a-mvp/h2a-mvp/apps/governance/service.ts:415-437 | the check before every execution holds exactly if passport, owner, mandate and room say so, in terms of the stored lists |
| GovernanceAccess.RequestIsForbiddenIff | h2a-mvp/h2a-mvp/apps/governance/service.ts:284-288 | a new request is answered 403 exactly if its action is known, its agent governed and the current user or the agent is not in the room; then nothing at all is written |
| GovernanceAccess.DecisionIsForbiddenIff | h2a-mvp/h2a-mvp/apps/governance/service.ts:299-314 | the same for deciding an approval, while there is anything left to decide |
| GovernanceAccess.ProposalIsForbiddenIff | h2a-mvp/h2a-mvp/apps/governance/service.ts:316-317 | the same for proposing a memory from an action or from a finished room run |
| GovernanceAccess.ReviewIsForbiddenIff | h2a-mvp/h2a-mvp/apps/governance/service.ts:329-336 | a review of a proposed memory is answered 403, and writes nothing, exactly for a named proposer and for anyone outside its room |
| GovernanceRecords.UngovernedIsTold | h2a-mvp/h2a-mvp/apps/governance/service.ts:415-432 | an operation by an agent that is not governed is answered 404 if it is unknown, 400 if it lacks its owner's passport or a mandate in force, and 409 if its passport is not in force |
| GovernanceAccess.RoomsChangeOnlySo | h2a-mvp/h2a-mvp/apps/governance/service.ts:163-171 | a call, cut or not, changes the rooms only by an administrator setting one room's humans or by adding a room whose only human is its creator and whose agents are all governed |
| GovernanceAccess.IdentitiesAreForGood | h2a-mvp/h2a-mvp/apps/governance/service.ts:347-373 | over every run each agent has at most one owner and one passport, made out to that owner, and none of it is ever taken back |
| GovernanceRecords.CommitsReport | h2a-mvp/h2a-mvp/apps/governance/service.ts:445-490 | over every run each commit records, for its caller and at its own time, the agents in force and without owner, the length of the ledger or all of it, with a receipt over the whole record, and an export's file is there before it |
| GovernanceSafety.RejectedApprovalNeverExecutes | h2a-mvp/h2a-mvp/apps/governance/service.ts:299-314 | an action whose approval was rejected or invalidated is never executed, and the approval keeps its status |
| GovernanceTheorems.ApprovalExecutesIff | h2a-mvp/h2a-mvp/apps/governance/service.ts:299-314 | approving executes an unexecuted action exactly when its approval is waiting or approved and its authority holds, whatever the action's own status |
| GovernanceWitness.DeniedIsNotTerminal | h2a-mvp/h2a-mvp/apps/governance/service.ts:125-131 | a concrete run in which a restart denies an approved export and a later approval executes it |
| GovernanceInterruptions.RestartSettles | h2a-mvp/h2a-mvp/apps/governance/service.ts:112-145 | a whole restart makes of every action what the world it found says, although earlier actions execute on the way: sanctioned ones execute or are denied by their authority, refused and invalidated ones are closed, waiting ones wait, settled ones are not touched |
| GovernanceInterruptions.RestartDeniesWithoutAuthority | h2a-mvp/h2a-mvp/apps/governance/service.ts:122-131 | after a whole restart an allowed or approved pending action is denied exactly if its authority is gone at that moment, and executed otherwise |
| GovernanceInterruptions.DeniedExecutesIff | h2a-mvp/h2a-mvp/apps/governance/service.ts:299-314 | of all completed calls of any kind a denied action is executed exactly by the approval of its own approval, while that is waiting or approved, under the action's authority |
| GovernanceInterruptions.DenialWithoutApprovalIsFinal | h2a-mvp/h2a-mvp/apps/governance/service.ts:124-131 | a denied action that has no approval, so also one that policy allowed and a restart denied, stays denied and unexecuted in every later world |
| GovernanceTheorems.PolicyDenialIsFinal | h2a-mvp/h2a-mvp/apps/governance/service.ts:284-297 | what policy itself denied is denied and unexecuted in every later world |
| GovernanceTheorems.RequestExecutesIff | h2a-mvp/h2a-mvp/apps/governance/service.ts:284-297 | a new request by a governed agent executes, by itself and at once, exactly when its key was never decided and the mandate allows the action without approval |
| GovernanceRecords.ReplayIsAnswered | h2a-mvp/h2a-mvp/apps/governance/service.ts:286-287 | a request whose key an action has writes nothing, and is refused exactly if it asks for anything else than that action |
| GovernanceRetries.InterruptedRequestEnds | h2a-mvp/h2a-mvp/apps/governance/service.ts:284-297 | a new request by a governed agent, cut after any number of its writes and sent again: status, count, decision and approval of its action for every cut; an allowed one is executed once if nothing was written or the commit was, denied if the cut fell between decision and action, left pending if between action and commit; one that needs approval waits or is denied by the same rule |
| GovernanceRetries.InterruptedRequestIsDenied | h2a-mvp/h2a-mvp/packages/mandates/src/mandateService.ts:132-134 | a new request that its mandate does not deny is denied on its second sending, as a replay of itself, exactly if the first was cut after its policy decision and before its action |
| GovernanceRetries.InterruptedApprovalIsOrphanedIff | h2a-mvp/h2a-mvp/apps/governance/service.ts:299-302 | where an approval is needed, deciding the first one asked for, after any later calls, is answered that there is no such approval exactly if the first sending was cut between it and its action |
| GovernanceRetries.WaitingRequestExecutesIff | h2a-mvp/h2a-mvp/apps/governance/service.ts:299-314 | the action that waits after the second sending is executed by approving the approval asked for last exactly if its authority holds |
| GovernanceRetries.StrandedRequestIsSettled | h2a-mvp/h2a-mvp/apps/governance/service.ts:120-131 | the allowed action left pending between its record and its commit is executed by the next restart if its authority holds then, and denied otherwise |
| GovernanceRecovery.InitializeRepairs | h2a-mvp/h2a-mvp/apps/governance/service.ts:112-145 | from any world a run can leave, a restart succeeds, leaves no action pending but those that wait for a human, and records each execution exactly once |
| GovernanceRecovery.ExecutionIsProper | h2a-mvp/h2a-mvp/apps/governance/service.ts:438-492 | an execution that is allowed always finds a control, succeeds, commits before its event and changes its own action alone |
| GovernanceSafety.WriteKeeps | h2a-mvp/h2a-mvp/apps/governance/service.ts:487-491 | every durable write that is in order keeps all invariants of the four stores |
| GovernanceSafety.CommitsAreCounted | h2a-mvp/h2a-mvp/apps/governance/service.ts:439-490 | from any sound world, the commits of an action in a sequence of writes are what its count went up by |
| GovernanceRuns.PlanIsProper | h2a-mvp/h2a-mvp/apps/governance/service.ts:284-345 | whatever is asked, by whomever and whenever, the writes are in order and each commit is followed at once by its event |
| GovernanceTheorems.OneAuthorityInEveryRun | h2a-mvp/h2a-mvp/apps/governance/service.ts:227-233 | no agent ever has two active mandates, and the mandate shown, the newest, is the one enforced whenever one is active |
| GovernanceTheorems.AssignmentGovernsIff | h2a-mvp/h2a-mvp/apps/governance/service.ts:374-383 | assigning a mandate leaves the agent governed exactly when the passport is in force and no expired, still active mandate is kept |
| GovernanceRecords.AssignmentMakes | h2a-mvp/h2a-mvp/apps/governance/service.ts:374-383 | assigning changes nothing for an agent that has enough, and else gives it exactly the thirty-day workspace mandate in the place of one that is revoked together with all that waits under it |
| GovernanceRecords.LifecycleMakes | h2a-mvp/h2a-mvp/packages/mandates/src/mandateService.ts:100-127 | suspending, reactivating and revoking change the newest mandate alone, exactly where they may; a revocation withdraws what waits under it |
| GovernanceRecords.OwnerIsAnswered | h2a-mvp/h2a-mvp/apps/governance/service.ts:347-356 | only a registered agent gets an owner, only once, and asking again is answered by whether it is the same one |
| GovernanceRecords.PassportIsIssued | h2a-mvp/h2a-mvp/apps/governance/service.ts:357-373 | a passport is for an agent with an owner, made out to that owner for a year, and only one |
| GovernanceRecords.RoomIsMade | h2a-mvp/h2a-mvp/apps/governance/service.ts:235-245 | a room is made exactly if its agents are all governed and the agent has none of the name yet, of its creator and these agents |
| GovernanceWitness.ExpiredMandateBlocksRenewal | h2a-mvp/h2a-mvp/apps/governance/service.ts:376-377 | a concrete agent with a valid passport that assigning leaves ungoverned |
| GovernanceMemory.MemoriesAreDecidedOnce | h2a-mvp/h2a-mvp/apps/governance/service.ts:329-345 | in every run a memory's hash is that of its content, and a decided memory never changes again |
| GovernanceMemory.NamedUsersNeverReviewTheirOwn | h2a-mvp/h2a-mvp/apps/governance/service.ts:334 | over every run of named users no memory is reviewed by the person who proposed it |
| GovernanceRecords.MemoryIsProposed | h2a-mvp/h2a-mvp/apps/governance/service.ts:316-328 | a memory is drawn from the agent's latest executed action in the room, in the current user's name, and from nothing else |
| GovernanceRecords.BuildMemoryIsProposed | h2a-mvp/h2a-mvp/apps/governance/service.ts:188-200 | a finished room run proposes one memory, once |
| GovernanceRecords.ReviewMakes | h2a-mvp/h2a-mvp/apps/governance/service.ts:337-345 | a review makes of the memory exactly what the reviewer says, with the edited text hashed anew, and tells so in two events |
| GovernanceMemory.RoomConsumesIff | h2a-mvp/h2a-mvp/apps/governance/room-runtime.ts:102-112 | a room is refused exactly when a published memory of it lacks its review events; no other integrity failure is possible |
| GovernanceMemory.LostReviewIsForever | h2a-mvp/h2a-mvp/apps/governance/room-runtime.ts:102-112 | once the review events of a published memory are lost, its room is refused in every later world, restarts included |
| GovernanceMemory.CutReviewRefusesTheRoom | h2a-mvp/h2a-mvp/apps/governance/service.ts:337-345 | a review cut after any number of its three writes leaves the room served exactly when none or all were made |
| GovernanceService.Governance.Serve | h2a-mvp/h2a-mvp/apps/governance/service.ts:101-145 | whatever operation is served and wherever the storage gives out, the object's stores are those of one call of a run, complete exactly if the answer is no failed write; so everything proved of runs holds of the object |
| GovernanceService.Governance.Execute | h2a-mvp/h2a-mvp/apps/governance/service.ts:438-492 | the imperative execution makes exactly the writes of its plan, or the prefix the storage takes, and answers accordingly |
| GovernanceService.Governance.RequestAction | h2a-mvp/h2a-mvp/apps/governance/service.ts:284-297 | the same for a request: replay check, authority, policy decision write by write, action record, execution |
| GovernanceService.Governance.DecideApproval | h2a-mvp/h2a-mvp/apps/governance/service.ts:299-314 | the same for a human decision, first or repeated |
| GovernanceService.Governance.Restart | h2a-mvp/h2a-mvp/apps/governance/service.ts:112-145 | both recovery loops; the answer is success or a failed write, never a refusal, and after success nothing is left to repair |
| GovernanceService.Governance.AssignMandate | h2a-mvp/h2a-mvp/apps/governance/service.ts:374-383 | the same for an assignment, including revoking the mandate it replaces |
| GovernanceService.Governance.UpdateMandate | h2a-mvp/h2a-mvp/packages/mandates/src/mandateService.ts:100-127 | the same for suspending, reactivating and revoking the newest mandate |
| GovernanceService.Governance.ReviewMemory | h2a-mvp/h2a-mvp/apps/governance/service.ts:329-345 | the same for a review, refused in the source's order of checks |
| GovernanceService.Governance.ProposeMemory | h2a-mvp/h2a-mvp/apps/governance/service.ts:316-328 | the same for a proposal from the agent's latest executed action in the room |
| RoomTheorems.RequestHashNeverChanges | h2a-mvp/h2a-mvp/apps/governance/room-runtime.ts:82-85 | no sequence of moves changes anything a request hash covers |
| RoomTheorems.SucceededRunsAreInCustody | h2a-mvp/h2a-mvp/apps/governance/room-runtime.ts:86-95 | in every reachable state a succeeded or published run was approved, after its request, for exactly the requested hash, its steps succeeded with outputs matching hash and event, so the integrity check passes |
| RoomTheorems.DownloadReturnsThePublishedFiles | h2a-mvp/h2a-mvp/apps/governance/room-runtime.ts:282-292 | a download answers exactly for published runs, with exactly the last step's files, each under its own path, and the published directory holds those files and nothing else |
| RoomWorkers.DownloadAnswersIff | h2a-mvp/h2a-mvp/apps/governance/room-runtime.ts:282-292 | in any state, sound or not, a download answers exactly for a publication that ledger and run witness from request to publication, with its last files |
| RoomTheorems.NestedBundleIsNeverPublished | h2a-mvp/h2a-mvp/apps/governance/room-runtime.ts:259-266 | a run whose finished work has one path inside another is never published or downloaded, over all later moves |
| RoomTheorems.NextStatuses | h2a-mvp/h2a-mvp/apps/governance/room-runtime.ts:178-191 | whatever fails, success comes from running and running from pending, and a dead run is not published |
| RoomTheorems.DeadStaysDead | h2a-mvp/h2a-mvp/apps/governance/room-runtime.ts:165-193 | a cancelled, rejected, failed or interrupted run never runs, succeeds or is published again, even when storage fails |
| RoomTheorems.WorkingStorageIsLawful | h2a-mvp/h2a-mvp/apps/governance/room-runtime.ts:233-235 | while no write has failed, every status change of every interleaving is in the table, so an outcome is never taken back |
| RoomTheorems.AtMostTwoRun | h2a-mvp/h2a-mvp/apps/governance/room-runtime.ts:173-186 | while no write has failed, every running run holds a controller and a worker, and at most two run |
| RoomTheorems.RunningStepsAreInOrder | h2a-mvp/h2a-mvp/apps/governance/room-runtime.ts:205-232 | the steps of a running run are done, then at most one under way, then queued |
| RoomTheorems.CancellationIsBounded | h2a-mvp/h2a-mvp/apps/governance/room-runtime.ts:188-193 | once a cancellation lands the run never runs again, and over all later moves at most one further step is recorded as succeeded, and none unless its worker was past the abort check |
| RoomTheorems.NamedUsersNeverDecideTheirOwn | h2a-mvp/h2a-mvp/apps/governance/room-runtime.ts:165-180 | among named users no run is ever approved or rejected by its requester, however checks and decisions interleave |
| RoomReviewers.NamedUsersNeverPublishTheirOwn | h2a-mvp/h2a-mvp/apps/governance/room-runtime.ts:244-271 | over all moves whose publication checks are made by named users nobody publishes a run of their own, however checks and publications interleave |
| RoomReviewers.PublicationIsAdmittedIff | h2a-mvp/h2a-mvp/apps/governance/room-runtime.ts:244-250 | the check before a publication lets it through exactly if the actor is allowed, ledger and run witness request, approval and every output, and it is no named user's own run; else it changes nothing |
| RoomReviewers.DecisionIsAdmittedIff | h2a-mvp/h2a-mvp/apps/governance/room-runtime.ts:165-171 | the check before a decision lets it through exactly if the actor is allowed, the request is on record as it stands and it is no named user's own run; else it changes nothing |
| RoomTheorems.OrphanedIff | h2a-mvp/h2a-mvp/apps/governance/room-runtime.ts:172-186 | from any sound state a controller is left without a worker by exactly one kind of move: an approval in order and told whose state write fails, or lands and reports failure |
| RoomTheorems.OrphanEndsIff | h2a-mvp/h2a-mvp/apps/governance/room-runtime.ts:172-186 | such a controller goes, or gets a worker, exactly by a crash or by a second approval of the run, still pending, that lands |
| RoomTheorems.WorkingStorageLosesNoSlot | h2a-mvp/h2a-mvp/apps/governance/room-runtime.ts:179-186 | while no write has failed, in every interleaving the controllers are exactly those of the workers |
| RoomTheorems.FailedApprovalLeaks | h2a-mvp/h2a-mvp/apps/governance/room-runtime.ts:172-180 | the approval leaves its run pending if the write was refused and running with nobody at work if it landed after all; either way the slot is lost through every later move but a crash once the run is cancelled |
| RoomTheorems.LostSlotsBlockEveryRun | h2a-mvp/h2a-mvp/apps/governance/room-runtime.ts:176 | two lost controllers, whatever became of their runs, stay lost and no run starts running until the server restarts |
| RoomRoundTrip.ApprovedRunsDeliver | h2a-mvp/h2a-mvp/apps/governance/room-runtime.ts:165-292 | from any reachable state, a requested run approved and published while nothing fails can be downloaded exactly if its last agent produced files none of whose paths lies inside another, and the download is that bundle |
| RoomRoundTrip.NestedRunSucceedsForNothing | h2a-mvp/h2a-mvp/apps/governance/room-runtime.ts:251-271 | a concrete bundle that is accepted at every step: its run succeeds and is never published or downloaded, whatever comes after |
| RoomRoundTrip.RequestsAreOnRecord | h2a-mvp/h2a-mvp/apps/governance/room-runtime.ts:149-164 | a request stored and told while nothing fails waits for a decision with exactly its own hash on record |
| RoomRoundTrip.LuckyRunSucceeds | h2a-mvp/h2a-mvp/apps/governance/room-runtime.ts:195-233 | an approved run that nothing goes wrong for succeeds, whatever its number of steps, and each step keeps its agent's output |
| RoomSafety.AdvanceKeeps | h2a-mvp/h2a-mvp/apps/governance/room-runtime.ts:195-243 | every step of the background worker, failing or not, keeps steps, hashes and events consistent |
| RoomWorkers.StumblesIff | h2a-mvp/h2a-mvp/apps/governance/room-runtime.ts:195-233 | one move of a worker goes on exactly if its check, its authority, its process and its write succeed and no abort is set where one counts, and is caught otherwise; the start asks for request and approval on record |
| RoomWorkers.StumblingEnds | h2a-mvp/h2a-mvp/apps/governance/room-runtime.ts:234-243 | whatever a worker stumbles over, while the storage holds from then on its run ends cancelled if it was cancelled or aborted and failed otherwise, no step is left under way, the failure is told, worker and slot are gone, and no other run is touched |
| RoomWorkers.WreckedEnds | h2a-mvp/h2a-mvp/apps/governance/room-runtime.ts:180-184 | an unacknowledged write outside the try block or in winding up leaves the run failed, whatever it was, and frees its slot |
| RoomWorkers.CrashForgets | h2a-mvp/h2a-mvp/apps/governance/room-runtime.ts:66-69 | a crash takes workers, controllers and passed checks with it, and nothing that is on disk |
| RoomRuns.NextKeeps | h2a-mvp/h2a-mvp/apps/governance/room-runtime.ts:74-80 | every move by anybody keeps the invariant of runs, workers, controllers and pending checks |
| RoomFiles.ValidateFiles | h2a-mvp/h2a-mvp/apps/governance/room-runtime.ts:34-44 | accepts exactly the bundles of safe paths, distinct up to case, within the size limit |
| RoomPaths.ValidIff | h2a-mvp/h2a-mvp/apps/governance/room-runtime.ts:34-44 | a bundle is accepted exactly if its paths start with a letter, digit or underscore and have only letters, digits and _ . / -, no empty or dotted part and no device name, and an accepted extension; are distinct up to case; and hold at most 600 000 bytes |
| RoomFiles.SafePathStaysInside | h2a-mvp/h2a-mvp/apps/governance/room-runtime.ts:39 | an accepted path is relative and goes one level down at each part, so the file stays below its directory |
| RoomFiles.PackingIsLossless | h2a-mvp/h2a-mvp/apps/governance/room-runtime.ts:291 | packing an accepted bundle by path keeps every file |
| RoomFiles.CaseTwinsAreRefused | h2a-mvp/h2a-mvp/apps/governance/room-runtime.ts:40 | two paths that differ only in case are refused |
| PublicationTree.LandsIff | h2a-mvp/h2a-mvp/apps/governance/room-runtime.ts:259-266 | all writes of a bundle of distinct paths land, in whatever order its files come, exactly if no path lies inside another, and then the directory holds the bundle and nothing else |
| PublicationTree.NestedIsValid | h2a-mvp/h2a-mvp/apps/governance/room-runtime.ts:34-44 | a concrete bundle is accepted and yet its writes do not all land |
| PublicationTree.DiskIsDownload | h2a-mvp/h2a-mvp/apps/governance/room-runtime.ts:291 | where a bundle landed, directory and archive show the same contents under the same paths |
| PublicationTree.LayOut | h2a-mvp/h2a-mvp/apps/governance/room-runtime.ts:261-266 | the loop of directory and file writes ends with the bundle's tree, or throws at the first write that finds something in its way |
| RoomRuntime.RoomRuntime.Initialize | h2a-mvp/h2a-mvp/apps/governance/room-runtime.ts:74-76 | the restart loop interrupts exactly the running runs and keeps the invariant |
| RoomRuntime.RoomRuntime.Decide | h2a-mvp/h2a-mvp/apps/governance/room-runtime.ts:173-186 | the imperative decision is the machine's, including the controller left by a failed write |
| RoomRuntime.RoomRuntime.Cancel | h2a-mvp/h2a-mvp/apps/governance/room-runtime.ts:188-193 | the imperative cancellation is the machine's and aborts the controller whether or not the write lands |
| RoomRuntime.RoomRuntime.Work | h2a-mvp/h2a-mvp/apps/governance/room-runtime.ts:195-243 | one step of the background worker, with its try block, inner and outer catch, is the machine's |
| RoomRuntime.RoomRuntime.Publish | h2a-mvp/h2a-mvp/apps/governance/room-runtime.ts:251-271 | the imperative publication is the machine's: checks, then the files on disk, then the event, then the state write; a bundle that does not land leaves neither event nor publication |
| RoomRuntime.RoomRuntime.Download | h2a-mvp/h2a-mvp/apps/governance/room-runtime.ts:282-292 | the checks and the packing loop answer what the machine's download says |
| EvidenceMerge.MergeIsHomomorphism | agent-discovery-platform/src/agent_census/detection.py:109-131 | merging two merged lists gives what merging everything at once gives, and merging again changes nothing |
| EvidenceMerge.OrderFreeIffTiesAgree | agent-discovery-platform/src/agent_census/detection.py:114-131 | the result is the same for every order of the items exactly when the earliest items of each key agree, and they always do where no item has an event id |
| EvidenceMerge.MergeHolds | agent-discovery-platform/src/agent_census/detection.py:109-131 | a merged list holds exactly the first of the earliest reports of each event, or of each thing at one time where no event is named, in order of time, source, kind, event and value |
| EvidenceMerge.MergeEvidence | agent-discovery-platform/src/agent_census/detection.py:109-131 | the nested loops over a dictionary compute the merge |
| CensusModel.JoinKeyInjective | agent-discovery-platform/src/agent_census/models.py:18-19 | joined keys of plain sources are equal exactly for the same source and candidate |
| CensusModel.BarredSourcesCollide | agent-discovery-platform/src/agent_census/models.py:18-19 | with a bar in a source name two different observations would share a key |
| RegistryInvariants.RowKeysAreDistinct | agent-discovery-platform/src/agent_census/storage.py:186-197 | stored observations have distinct row keys exactly if they have distinct sources and candidate ids, source names being plain |
| CensusModel.KindsOfMerged | agent-discovery-platform/src/agent_census/detection.py:150-154 | merging loses no kind and invents none |
| Classification.ClassificationIsMonotone | agent-discovery-platform/src/agent_census/detection.py:207-264 | adding observations never turns an agent into a non-agent, lowers its confidence or its confirmation |
| Classification.ConfirmedIff | agent-discovery-platform/src/agent_census/detection.py:207-264 | "confirmed" is said exactly of agents that some candidate declares and that the candidates show in at least four distinct behaviours; agents score from 84 to 97 hundredths, everything else at most 69 |
| Classification.ScoreAddsUp | agent-discovery-platform/src/agent_census/detection.py:207-264 | the score adds up the distinct behaviours observed and a declaration, by their weights, and is cut off at 97 for agents and 69 for everything else |
| Classification.AgentIsCalled | agent-discovery-platform/src/agent_census/detection.py:218-230 | an agent is called a system only if it was seen to delegate, a sub-agent by its hint, and autonomous otherwise |
| Classification.OthersAreCalled | agent-discovery-platform/src/agent_census/detection.py:231-247 | type and grade of everything else, by what was observed and hinted, in the source's order |
| Classification.AgentGates | agent-discovery-platform/src/agent_census/detection.py:208-214 | an agent is exactly what was observed to use a model and a tool, to decide and to continue, by whichever candidates |
| Classification.RepeatsChangeNothing | agent-discovery-platform/src/agent_census/detection.py:211-214 | an observation that repeats known kinds changes no verdict |
| RuntimeGrouping.GroupingIsOrderFree | agent-discovery-platform/src/agent_census/detection.py:405-533 | for distinct event ids every permutation gives the same candidates, refusals included, and the same list of them in strict order of any text of their keys |
| RuntimeGrouping.EveryEventCountsOnce | agent-discovery-platform/src/agent_census/detection.py:422-480 | each event of an accepted batch yields exactly one evidence item of its own type, in its own workload's candidate |
| RuntimeEvidence.CandidatesDescribeTheirEvents | agent-discovery-platform/src/agent_census/detection.py:405-533 | for any list of events that is accepted, each workload has a candidate that holds, in the order of time, exactly what its events say: the tool, model or target under the event's own kind, provider, location and server where they are named, a retransmitted event once as of its earliest report; and tools, endpoint, account, provider, framework and model exactly as the events agree on them |
| RuntimeGrouping.BatchIsRefusedIff | agent-discovery-platform/src/agent_census/detection.py:426-532 | no candidate comes out of a batch exactly if some workload's distinct events leave over 2000 items of evidence, name over 100 tools, carry a value over 500 characters or an unacceptable server, or agree on an endpoint over 2048 characters |
| RuntimeGrouping.RuntimeIdInjective | agent-discovery-platform/src/agent_census/detection.py:483 | workloads with plain names share a candidate id only if they are the same |
| RuntimeGrouping.RuntimeIdsCanCollide | agent-discovery-platform/src/agent_census/detection.py:483 | two different workloads with bars in their names share a candidate id |
| RuntimeGrouping.GroupRuntimeEvents | agent-discovery-platform/src/agent_census/detection.py:405-533 | the loop over a dictionary of dictionaries computes the candidates or raises |
| IsoTimestamp.TextInOrder | agent-discovery-platform/src/agent_census/storage.py:213 | the text of UTC times, with or without a fraction, is ordered exactly as the times |
| IsoTimestamp.TextExpiryIsTimeExpiry | agent-discovery-platform/src/agent_census/service.py:320-321 | deleting by text and filtering by time keep the same events |
| IsoTimestamp.TextSortIsChronological | agent-discovery-platform/src/agent_census/storage.py:225 | ordering by text is ordering by time |
| IsoTimestamp.ZuluSuffixWouldMisorder | agent-discovery-platform/src/agent_census/storage.py:213 | a "Z" suffix instead of "+00:00" would put a later time first |
| RegistryInvariants.After | agent-discovery-platform/src/agent_census/service.py:177-369 | every sequence of requests at any times leads to a state that keeps the invariant and is progress from the first |
| RegistryInvariants.RunsKeepTheRegistry | agent-discovery-platform/src/agent_census/service.py:177-369 | over every sequence of requests from the empty registry no entity or observation is orphaned and row keys are distinct; from each state to each later one keys stay with their entity, times never go back, registration never reverts, the seen interval only widens |
| RegistryInvariants.ReachableEntitiesReflectTheirRows | agent-discovery-platform/src/agent_census/storage.py:359-374 | in every reachable state evidence and verdict of an entity are those of classifying its stored observations from scratch, its seen interval spans them, and an alert exists exactly for the unregistered entities whose observations show an agent's behaviour |
| ProjectionTheorems.ReachableRecordsShow | agent-discovery-platform/src/agent_census/service.py:93-102 | in every reachable state a record shows endpoint and owner of the observation that speaks first, declared before telemetry, newer before older, first stored before later stored, or none if none has any; and deployment, models and servers as the observations have them |
| ProjectionTheorems.UpsertShows | agent-discovery-platform/src/agent_census/service.py:80-175 | an upsert writes one record, which shows of its observations as of then: activity, tools, protocols, capabilities, trust and health kept only at an unchanged endpoint, registration and seen interval |
| ProjectionTheorems.RefreshShows | agent-discovery-platform/src/agent_census/service.py:334-369 | the same for every record after a refresh, but for the health that a probe found, and only an approved endpoint is probed |
| ProjectionTheorems.AlertsTell | agent-discovery-platform/src/agent_census/storage.py:359-374 | in every reachable state an alert repeats what its entity's record says |
| ProjectionTheorems.IngestStores | agent-discovery-platform/src/agent_census/service.py:305-321 | a committed batch lies inside the window and leaves exactly the stored and the new events inside it; one whose id is stored is not new |
| IdentityResolution.NewObservationGoesTo | agent-discovery-platform/src/agent_census/detection.py:315-402 | an observation with a new source key is stored with the only entity that shares an address, a full workload or a registration with it and has no contrary registration or namespace, and with a new entity if none or several do |
| IdentityResolution.KnownObservationStays | agent-discovery-platform/src/agent_census/service.py:186-202 | one with a known source key replaces it unless that is newer, and is refused exactly if it is from the future or its entity has not the only claim to it |
| IdentityResolution.SameAddressSharesEntity | agent-discovery-platform/src/agent_census/detection.py:338-349 | an observation at the address of a stored one, in any spelling, joins its entity unless a mark speaks against it or another entity claims it as well |
| IdentityResolution.CanonicalMeansSameAddress | agent-discovery-platform/src/agent_census/detection.py:139-147 | canonical forms are equal exactly for the same scheme and host up to case, the same port up to the scheme's own, and the same path up to an empty one |
| RegistryInvariants.StepKeeps | agent-discovery-platform/src/agent_census/service.py:177-369 | each request keeps the invariant and the progress, and only a trust decision approves |
| RegistryInvariants.UpsertKeeps | agent-discovery-platform/src/agent_census/service.py:177-217 | a committed upsert moves no key, replaces no newer snapshot and keeps alerts and projections in step |
| RegistryInvariants.RefreshKeeps | agent-discovery-platform/src/agent_census/service.py:334-369 | the empty-list error of `fingerprint` is unreachable from a refresh, which keeps everything |
| RegistryInvariants.DeleteKeeps | agent-discovery-platform/src/agent_census/storage.py:198-202 | a deletion leaves nothing of the entity and everything else in order |
| RegistryInvariants.IngestKeeps | agent-discovery-platform/src/agent_census/service.py:305-332 | a committed ingestion keeps the invariant and the progress |
| RegistryInvariants.EdgesAgreeAfterRegraph | agent-discovery-platform/src/agent_census/storage.py:291-357 | after every discovery, committed ingestion or refresh the stored edges are those computed from scratch; an agent target exists, and it is there exactly if the evidence calls a service whose name that entity alone bears |
| EdgeTheorems.EdgesAreGiven | agent-discovery-platform/src/agent_census/storage.py:291-357 | an entity has exactly the edges that its record or its calls give, each backed by what shows it: all items that name the tool, the proof of the capability's first basis, the first item that reports the call |
| EdgeTheorems.StoredEdgesAreGiven | agent-discovery-platform/src/agent_census/storage.py:291-357 | after every discovery, committed ingestion or refresh these are exactly the edges stored |
| RegistryInvariants.RefreshSaysHealthyIff | agent-discovery-platform/src/agent_census/service.py:334-362 | a refresh calls an entity healthy exactly if it was probed and answered, or was not probed and is still healthy at the same endpoint, within the time to live, with active evidence; only an endpoint that was approved is probed |
| RegistryInvariants.ScanSaysHealthyIff | agent-discovery-platform/src/agent_census/api.py:217-235 | a scan leaves an approved entity healthy exactly if its local handler is installed or, elsewhere, its endpoint answered, and any other exactly if it stays healthy |
| RegistryInvariants.ProbeLocalsKeeps | agent-discovery-platform/src/agent_census/api.py:224-235 | the scan's own writes keep the invariant, progress and every approval |
| RegistryInvariants.ApprovalIsBoundToEndpoint | agent-discovery-platform/src/agent_census/service.py:102 | as long as an entity stays approved, over any sequence of requests, it has the endpoint it was approved with |
| RegistryInvariants.StepBindsApproval | agent-discovery-platform/src/agent_census/api.py:385-398 | only an operator's approval of an observed endpoint makes an entity approved |
| Reingestion.ReingestionIff | agent-discovery-platform/src/agent_census/service.py:305-332 | a committed batch sent again at the same clock is committed exactly when each candidate resolves to the entity that holds its key, and then accepts nothing and leaves events, observations, entities, registration and seen intervals as they were |
| Reingestion.ReplayAcceptsNothingIff | agent-discovery-platform/src/agent_census/storage.py:204-217 | the second sending accepts no event exactly when no just expired event carried one of its ids |
| Reingestion.RetentionIsByText | agent-discovery-platform/src/agent_census/service.py:320-321 | the registry's retention by time leaves exactly the rows that deleting by timestamp text leaves |
| Reingestion.ContestedLeavesHome | agent-discovery-platform/src/agent_census/service.py:198-205 | an observation that two entities claim makes an entity of its own and is refused from then on |
| Reingestion.ReingestionCanBeRefused | agent-discovery-platform/src/agent_census/service.py:199-202 | a concrete batch that is committed once and refused when sent again |
| Reingestion.PlainWorkloadsHaveDistinctKeys | agent-discovery-platform/src/agent_census/detection.py:483 | workloads with plain names have distinct source keys |
| CensusService.Census.Upsert | agent-discovery-platform/src/agent_census/service.py:177-217 | the imperative upsert is refused and changes the tables exactly as the registry's function says, and keeps the invariant |
| CensusService.Census.Ingest | agent-discovery-platform/src/agent_census/service.py:305-332 | the transaction over events and candidates commits or rolls every table back as the registry's function says |
| CensusService.Census.Refresh | agent-discovery-platform/src/agent_census/service.py:334-369 | the loop over entities, with record, alert and edges in turn, is the registry's refresh |
| CensusService.Census.ProbeLocals | agent-discovery-platform/src/agent_census/api.py:224-235 | the scan's loop over the stored records is the registry's and keeps the invariant |
| CensusService.Census.Discover | agent-discovery-platform/src/agent_census/service.py:271-304 | candidates in transactions of their own, then every graph again |
| CensusService.Census.DeleteEntity | agent-discovery-platform/src/agent_census/storage.py:198-202 | the cascade of a deletion is the registry's, and the answer says whether the entity was there |
| CensusService.BuildEdges | agent-discovery-platform/src/agent_census/storage.py:291-357 | the loops over relations and used ids compute the simple definition of an entity's edges |
| Capabilities.CapabilitiesMeanWhatTheySay | agent-discovery-platform/src/agent_census/detection.py:267-312 | a capability is declared exactly if a candidate declares it, observed exactly if a tool call shows it, and inferred exactly if the closed table gives it for a tool offered or called, with the higher score exactly if called |
| Capabilities.ProofsMeanWhatTheySay | agent-discovery-platform/src/agent_census/detection.py:267-312 | the proof listed with a capability is exactly what shows it: the skill declared, the tools offered or called that the closed table gives it for, the calls of the tool |
| Capabilities.InferCapabilities | agent-discovery-platform/src/agent_census/detection.py:267-312 | the loops over candidates, skills, tools and merged evidence compute the capabilities |
| RefreshCoalescer.NoLostWakeup | h2a-mvp/h2a-mvp/apps/desktop/main/index.ts:1214-1236 | in every interleaving a pending change has a timer or a running flush, at most one refresh is in flight, and a change is cleared only by a refresh that starts after it |
| RefreshCoalescer.Drains | h2a-mvp/h2a-mvp/apps/desktop/main/index.ts:1221-1236 | without new changes every run of timers and refreshes ends, within six events |
| RefreshCoalescer.RejectionIsRetriedIffAChangeSlippedIn | h2a-mvp/h2a-mvp/apps/desktop/main/index.ts:1230-1235 | a refresh that throws is followed by another exactly when a change came while it was in flight |
| RefreshCoalescer.ControlPlaneRefresh.RefreshSettled | h2a-mvp/h2a-mvp/apps/desktop/main/index.ts:1226-1235 | what follows a refresh that settles, either way, is the machine's step and keeps the invariant |
| RefreshCoalescer.ControlPlaneRefresh.Flush | h2a-mvp/h2a-mvp/apps/desktop/main/index.ts:1221-1236 | the function that the timer calls is the machine's step and keeps the invariant |

## Left out

- GovernanceAccess.RoomsChangeOnlySo: a new room leaves one joining note where the source leaves one for each of its agents, and humans are not looked up in the directory.
- GovernanceTheorems.AssignmentGovernsIff: the clock is read once per operation; the source reads it at each check.
- GovernanceTheorems.RunsCommitOnlySanctioned: signatures of passports and mandates are not modelled, since nothing in the service changes either without signing it again.
- GovernanceInterruptions.RestartDeniesWithoutAuthority: reads of the stores do not fail here; in the source a failed read inside the authority check of a restart also denies the action.
- GovernanceRetries.InterruptedRequestEnds: nothing else happens between the two sendings; a restart in between is told by GovernanceInterruptions.RestartSettles.
- GovernanceMemory.MemoriesAreDecidedOnce: the default content of a proposed memory, the summary of an action's result, is passed in as text.
- RoomTheorems.AtMostTwoRun: holds while storage works; with failing writes a running run may be left without a worker.
- PublicationTree.LandsIff: names are compared letter by letter, so a directory and a file that differ in case are two; links, and a disk that fails for another reason than the bundle's own shape, are not modelled.
- RuntimeGrouping.GroupRuntimeEvents: returns the candidates as a map by workload; the source lists them by the printed text of the workload's key, and wherever those texts differ the list is unique (GroupingIsOrderFree).
- Reingestion.ReingestionIff: asks for distinct source keys within the batch, which plain workload names guarantee; of the records it compares registration and seen interval, since ties between equally old observations may fall differently in the rest. An endpoint's port always parses here: the source accepts a candidate with a registration id and a port that does not parse, and every comparison of endpoints with it then raises.
- Reingestion.RetentionIsByText: the calendar that turns a time into date and clock fields is a parameter that keeps the order of the times at hand.
- Tampering with stored files: the ledger, the state file and the exports change only through the services.
- Passport status changes, mandate delegation, rotation of signing keys, ledger hash chaining and the last fifty decisions window of the policy service.
- Work items, handoffs, workplace projections, scans and the import of scanned entities beyond their identity.
- The command-line processes, prompts, workspaces, telemetry and trace export of room runs: a process gives any result or none, and the trace write only succeeds or fails.
- Schema validation of requests, redaction of secrets, metadata and free-text reasons; field lengths count only where building a candidate raises, and whether the text of a server is an acceptable URL is part of the event.
- Names, versions, descriptions, environments and decision histories of Census records; None and the empty text are one value where the source only asks for truth.
- Search, matching, invocation, telemetry parsing and the HTTP layers of both services.
- The file watcher, the safety poll and the debounce time of the control-plane refresh.
- The desktop's platform, diagnostics and Census adapters and the table of actors.
