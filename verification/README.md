# Workflow and cost-rule verification

A Dafny model of the parts of the asset workflow service whose correctness depends on several
operations at once, with machine-checked proofs.

- **SKU audit and distribution.** `Workflow` holds the transition policy. `Distribution` holds the
  tables (SKUs, versions, audit actions, jobs, attempts, incidents, the event log) and every
  transaction that writes them. Two granularities are used. At transaction level (`Tx`, `Exec`) the
  values a caller read before its transaction may come from any earlier state, so every interleaving
  of validation and commit is covered; status and event-log results are proved there
  (`StatusHistory`), and so are the fate of superseded attempts (`AttemptSafety`) and what happens
  between an ack's job list and its completing transaction (`CompletionWindow`). At call level
  (`ServiceCalls`) each service call or worker pass is one step; results about jobs, versions, audit
  actions and incidents are proved there (`JobSafety`, `JobGate`, `StartBounds`, `VersionSafety`,
  `ActionRecords`, `IncidentLedger`), and `CallIsRun` shows which run of transactions each call is.
  `CallEffects` says what each call answers and leaves, row by row, without the functions the calls
  are built from. `DistributionInvariant` gathers what all calls keep. `DistributionServer` is the
  imperative form: a class whose methods update the tables statement by statement, each proved equal
  to its call, and whose `Valid()` is that invariant. `Scenarios` holds runs from the empty database
  in which the services fall short.
- **Task audit with handover and takeover.** `AuditTasks` is the six-action machine with its
  invariants over all runs; `AuditDesk` is the class that runs it, and its `Valid()` says that every
  task is sound; `AuditEffects` says what each action answers and leaves, field by field.
- **Cost preview.** `CostPreview` has the engine's loop, proved equal to a closed form by position;
  `CostLaws` has order independence, proportionality in quantity, and rounding; `CostMeaning` the answer
  as a relation between request, sorted rules and response.
- **Cost rule lineage.** `Lineage` has the caching loader and its two walks; `LineageLaws` what a chain
  is in any store and in consistent ones; `RuleVersions` which edits keep the store consistent.
- **Override history.** `OverrideHistory` has the two summary folds, the grammar, their agreement, and
  what a boundary shows of the stored review and finance records.
- **Stage visibility.** `StageVisibility` has the builder and role grants; `VisibilityLaws` its
  exactness and who sees what.
- **Layouts.** `Layout` has the box and multi-face sheets.

Amounts and sizes are `real`, integers unbounded, times integers. Row ids of append-only tables are
positions. A failed transaction leaves the state it started from.

Where the code falls short of what one would expect, the code is kept, a concrete failing input is
proved, and the exact condition is given:

- The direct status transition completes a SKU without looking at its jobs
  (`DirectTransitionSkipsJobs`); `CompletedOnlyWhenDone` says exactly which completing calls leave the
  jobs finished.
- The completion gate is read outside the completing transaction
  (`InterleavedAcksCompleteAFailedJob`); what it read stays true throughout a window of transactions
  exactly when none of them disturbs the SKU (`FinishedIffUndisturbed`, `WindowIffUndisturbed`).
- The policy's rule that Approved_PendingVerify has no running job is guarded by no service: a pull
  ignores the SKU's status (`PullIgnoresGate`); `GateKeptIffNotBroken` says exactly which calls break
  it, and `NothingRunsUnreleased` that without the release step no job runs at all.
- Two audit decisions under one action id can both commit, and the second then goes unrecorded, its
  job tied to the other decision (`ApprovalGoesUnrecorded`); a committed decision is recorded exactly
  under `DecisionRecordedIff`, and over whole calls every job has its approval (`JobsAreApproved`).
- Patching a rule can make two rules supersede each other (`PatchMakesCycle`); an accepted edit keeps
  the rules free of cycles exactly when the rule it supersedes does not already reach the edited one
  (`EditKeepsAcyclic`). Whether versions rise along links is another matter (`PatchBreaksRiseOnly`,
  `EditRises`).
- Two rules may supersede the same one (`CreatesCanFork`). In every store that edits can leave, lineages
  agree exactly when there is neither such a fork nor a cycle (`LineagesAgreeIff`), and a run of edits
  keeps them in agreement exactly when each edit makes no fork and closes no loop
  (`RunsAgreeIffHarmless`).
- A print-side formula never falls back to its single-sided price (`SingleFallbackFails`,
  `SingleNeverStandsIn`, `UnpricedFormulaOnlyAsksReview`).
- The visibility builder files a lane named `*` with the grants to no lane (`StarLaneIsLost`); it is
  exact exactly under `ExactIffLanesKept`.

## Model

| member | source | states |
|---|---|---|
| Workflow.CompletedRunShape | policy/engine.go:23-93 | every walk of allowed transitions from Draft to Completed ends, after its last stand at Draft or Blocked, with exactly one of four fixed status sequences through audit A, optional audit B, verification, approval and distribution |
| Workflow.AllowedIffEntered | policy/engine.go:23-93 | a transition is allowed exactly when its source is listed for its target in the table turned round, target by target |
| Workflow.EveryTailIsTaken | policy/engine.go:23-93 | each of those four sequences ends some walk from Draft to Completed |
| Workflow.PendingVerifyShape | policy/engine.go:38-67 | a walk standing at Approved_PendingVerify passed audit A directly before, or audit A and then audit B |
| Workflow.AuditBShape | policy/engine.go:38-60 | a walk standing at AuditB_Approved passed audit A just before audit B, coming from Draft or Blocked |
| Workflow.AuditAShape | policy/engine.go:24-42 | a walk standing at AuditA_Approved came straight from Draft through submission, or from Blocked |
| Workflow.TerminalIsFinal | policy/engine.go:23-93 | no walk leaves Completed or Cancelled |
| Workflow.WalkAppend | policy/engine.go:87-93 | walks compose |
| StatusHistory.ExecAdvances | service/audit.go:159-246 | every transaction, however stale the values its caller read, moves statuses only along allowed transitions from the status stored at commit and logs exactly those moves |
| StatusHistory.RunAdvances | repo/mysql/db.go:110-128 | the same over every interleaving of any number of transactions, rolled-back ones included |
| StatusHistory.LogReplays | service/audit.go:186-244 | in every reachable state the status events of a SKU replay from Draft to its stored status, each taking up where the last left |
| StatusHistory.TerminalForever | policy/engine.go:81-93 | a Completed or Cancelled SKU keeps its status and gains no status event in any continuation |
| StatusHistory.CompletedLogShape | policy/engine.go:23-93 | the log of a Completed SKU ends in one of the four lawful ways to completion |
| StatusHistory.AuditTxAdvances | service/audit.go:159-246 | the audit transaction, with its two hops on stage B approval, is a lawful move with its events in order, or changes nothing |
| StatusHistory.MoveTxAdvances | service/agent.go:408-431 | a CAS with its event is a lawful move or changes nothing |
| StatusHistory.PassTxAdvances | workers/verify_worker.go:105-170 | a passed verification, which may complete the SKU in the same transaction, is lawful |
| StatusHistory.ValidatedPlan | service/audit.go:87-126 | whatever snapshots validation read, the planned move is an allowed transition to one of the four audit outcomes |
| ServiceCalls.CallIsRun | service/agent.go:185-439 | each service call and worker pass is the run of its listed transactions, all enabled, with the same final state |
| ServiceCalls.AckIsRun | service/agent.go:271-439 | an accepted success ack is the verification request if one is due, the job transaction and, when the gate is then open, the completing one; a failure is the one that fails the job; a refusal is none |
| ServiceCalls.PullIsRun | service/agent.go:185-231 | a pull is the claim of the first pending job followed by the CAS of its SKU from Approved to Distribution_Running, or nothing |
| ServiceCalls.SubmitIsRun | service/audit.go:72-246 | a submission is the one audit transaction on the plan validated in the same state, or nothing |
| ServiceCalls.TransitionIsMove | service/sku.go:203-285 | a direct transition is its CAS with its event when accepted, and nothing otherwise |
| ServiceCalls.FirstPending | repo/mysql/job.go:131-219 | the job pulled is Pending and no earlier job is |
| JobSafety.DoneOnlyByAck | service/agent.go:271-335 | a job becomes Done only through a success ack on its then-current attempt carrying file id and size, and job.done is logged |
| JobSafety.CompletedOnlyWhenDone | service/agent.go:394-439 | a call that brings a SKU to Completed leaves it with a job, all jobs Done and none Verifying if and only if it does not name Completed itself or the jobs stood so before it |
| JobSafety.CompletionIsEarned | service/agent.go:271-439 | in every run that does not complete SKU k by name, whatever it does to others: if k is Completed it has a job, and each of its jobs was acked by some call of the run on its then-current attempt with file id and size and has its job.done event |
| JobSafety.DoneIsEarned | service/agent.go:271-335 | in every reachable state each Done job was so acked and logged |
| JobSafety.EarnedStep | service/agent.go:394-439 | every further call that does not complete k by name keeps that of k |
| JobSafety.GatedCompletion | service/agent.go:394-439 | every completing call but a direct transition leaves the jobs finished |
| Scenarios.DirectTransitionSkipsJobs | service/sku.go:203-285 | creation and seven direct transitions complete a SKU that has no job |
| Scenarios.TransitionsFollow | service/sku.go:203-285 | any allowed way through the statuses can be taken by direct transitions, which touch nothing but status and log |
| Scenarios.Audited | service/audit.go:72-246 | creation, a stable sync and both audit stages leave the SKU at Approved_PendingVerify with one job per target |
| Scenarios.InterleavedAcksCompleteAFailedJob | service/agent.go:291-335 | from the empty database a run is reached in which two admitted acks of one attempt interleave, the second disturbs the SKU between the first's job list and its completion, and the SKU completes with its only job failed |
| CompletionWindow.FinishedIffUndisturbed | service/agent.go:394-431 | a transaction leaves a finished SKU finished if and only if it is neither a change of one of its jobs other than a success ack or a failed verification, nor a stage B approval creating a job for it |
| CompletionWindow.WindowIffUndisturbed | service/agent.go:394-431 | a SKU listed as finished stays finished throughout a window of transactions if and only if none of them disturbs it |
| CompletionWindow.UndisturbedWindowCompletesLawfully | service/agent.go:394-431 | after an undisturbed window the completing transaction completes a SKU whose jobs are all Done and none Verifying; after any window it does so exactly when the SKU is still finished |
| CompletionWindow.AuditCase | service/audit.go:186-236 | a stage B approval reopens exactly the finished SKU it creates a new job for |
| CompletionWindow.EnqueueGrows | repo/mysql/job.go:57-85 | batch creation adds a row exactly when some key of the batch is new |
| StartBounds.StartsAreBounded | workers/retry_scheduler.go:87-97 | in every reachable state a job was started at most once more than it was retried, retries stay within the maximum, and no job was started more than four times |
| StartBounds.JobTxBounded | repo/mysql/job.go:131-219 | each guarded change of a job keeps that bound |
| StartBounds.KeysStayUnique | repo/mysql/job.go:57-85 | no interleaving of transactions creates two jobs with one idempotent key |
| DistributionInvariant.InvariantHolds | service/agent.go:98-439 | in every state reached by whole calls the log replays, versions are numbered, the audit trail is sound and holds every job's approval, incidents balance, keys are unique and starts are bounded |
| DistributionInvariant.InvariantStep | service/agent.go:98-439 | every call keeps all of that |
| JobSafety.EnqueueIdempotent | repo/mysql/job.go:57-85 | batch creation keeps keys unique, leaves a row for every key of the batch, and repeating it changes nothing |
| JobSafety.EnqueueExtends | repo/mysql/job.go:57-85 | batch creation only appends rows of the batch |
| JobSafety.SubmitJobs | service/audit.go:201-236 | a submission only adds PendingVerify jobs, for a SKU it leaves at Approved_PendingVerify |
| JobSafety.PerformKeeps | service/agent.go:185-439 | no call loses a job, moves one to another SKU, or rewrites the log |
| JobSafety.CompletedGainsNoJob | service/audit.go:201-236 | jobs are added only as PendingVerify and never to a Completed SKU |
| JobGate.GateKeptIffNotBroken | policy/engine.go:61-67 | a call keeps "no running job at Approved_PendingVerify" if and only if it is neither a pull for such a SKU nor a move there of a SKU with a running job |
| JobGate.NothingRunsUnreleased | service/audit.go:134-145 | in every run without the job release step no job ever leaves PendingVerify, so the gate holds |
| Scenarios.PullIgnoresGate | service/agent.go:185-231 | from the empty database a run through both audit stages is reached in which a pull starts a job of a SKU still at Approved_PendingVerify |
| JobGate.PullGate | repo/mysql/job.go:131-219 | a pull keeps the gate exactly when the oldest pending job's SKU is not at it |
| JobGate.SubmitGate | service/audit.go:186-236 | a submission keeps the gate exactly when the SKU it brings there has no running job |
| JobGate.TransitionGate | service/sku.go:203-285 | a direct transition keeps the gate exactly when it does not bring a SKU with a running job there |
| AttemptSafety.PullSupersedes | repo/mysql/job.go:131-219 | a claim supersedes every earlier attempt of the job |
| AttemptSafety.SupersededForever | repo/mysql/job.go:131-219 | no interleaving of transactions makes a superseded attempt current again |
| AttemptSafety.SupersededIsInert | service/agent.go:233-293 | whatever happens after an attempt was superseded, a heartbeat or ack carrying it is refused and changes nothing |
| AttemptSafety.LeaseUntouched | service/agent.go:233-268 | no call changes the lease of an attempt that has expired |
| AttemptSafety.ExpiredForever | service/agent.go:233-268 | under a monotone clock an expired attempt stays expired and every heartbeat for it is refused |
| VersionSafety.VersionsAreNumbered | service/agent.go:127-158 | in every reachable state the versions of a SKU are numbered 1..n in order and the newest is current |
| VersionSafety.SyncNumbered | service/agent.go:98-178 | a sync keeps every SKU so numbered |
| VersionSafety.ActionForNewestVersion | service/audit.go:103-174 | an audit action is recorded only for the newest version, stable, not missing and of the submitted hash, and no earlier action is altered |
| VersionSafety.AuditTrailIsSound | repo/mysql/audit.go:53-108 | in every reachable state no stage of a version is decided twice and every action names its version's true hash |
| VersionSafety.SubmitInserts | service/audit.go:159-184 | a submission that changes the audit table passed validation and inserted exactly its own action |
| ActionRecords.SubmitIsIdempotent | service/audit.go:72-86 | whatever calls come between, submitting an accepted action id again returns the action first recorded and changes nothing |
| ActionRecords.DecisionRecordedIff | service/audit.go:168-174 | a committed decision is on record under its action id if and only if the id was free at commit or already stood for the same decision |
| ActionRecords.JobsAreApproved | service/audit.go:134-146 | in every state reached by whole calls each job's action is on record as the stage B approval of the job's version |
| ActionRecords.ActionsStayAll | repo/mysql/audit.go:53-108 | no run of calls alters or removes a recorded action |
| Scenarios.ApprovalGoesUnrecorded | service/audit.go:159-246 | from the empty database a run is reached in which an approval validated while its action id was free commits after a rejection used the id: the SKU moves on and its job is created, and the action on record for the job is the rejection |
| IncidentLedger.IncidentsBalance | service/agent.go:338-369 | in every reachable state incidents, incident.created events and failure events are equal in number; each incident has one created event and one resolved event exactly when Resolved |
| IncidentLedger.OpeningBalanced | workers/retry_scheduler.go:146-200 | each way an incident opens logs one cause and one incident.created |
| IncidentLedger.IncidentTxBalanced | service/incident.go:72-156 | assigning and resolving keep the balance, so none is resolved twice |
| DistributionServer.Server.Submit | service/audit.go:72-268 | the imperative submission gives the answer and leaves the tables of the specified call, and keeps the invariant |
| DistributionServer.Server.CheckSubmission | service/audit.go:87-146 | every refusal before the transaction, in source order, or the plan with its jobs |
| DistributionServer.Server.CommitAudit | service/audit.go:159-246 | the transaction body equals the specified transaction and undoes the CAS when the action is a duplicate |
| DistributionServer.Server.SecondHop | service/audit.go:201-244 | stage B approval moves on to Approved_PendingVerify with jobs and both status events, and its second CAS cannot miss |
| DistributionServer.Server.BuildJobs | service/audit.go:128-157 | one job per target, in order, keyed by action and target |
| DistributionServer.Server.CreateBatch | repo/mysql/job.go:57-85 | row-by-row insert-ignore equals the specified batch |
| DistributionServer.Server.CasWorkflowStatus | repo/mysql/sku.go:156-183 | updates exactly when id and expected status match |
| DistributionServer.Server.InsertIdempotent | repo/mysql/audit.go:53-108 | keeps an existing id, refuses a second decision of a stage, otherwise inserts |
| DistributionServer.Server.Sync | service/agent.go:98-178 | the SKU found by code, the next version number, the current pointer and the event, or the refusal; keeps the invariant |
| DistributionServer.Server.AddVersion | service/agent.go:149-177 | version row, current pointer and event together |
| DistributionServer.Server.Create | service/sku.go:126-183 | the Draft row under its unique code with its event, or the refusal; keeps the invariant |
| DistributionServer.Server.PullPending | repo/mysql/job.go:131-219 | claims the oldest Pending job with a new attempt and its event, or reports none |
| DistributionServer.Server.PullJob | service/agent.go:185-231 | the claim and then the CAS to Distribution_Running, whose miss is ignored; keeps the invariant |
| DistributionServer.Server.Heartbeat | service/agent.go:233-268 | renews only the lease of a current, unexpired attempt; keeps the invariant |
| DistributionServer.Server.AckJob | service/agent.go:271-374 | Done with evidence, otherwise Fail with incident, and completion tried after success; keeps the invariant |
| DistributionServer.Server.FinishJob | service/agent.go:304-327 | the job Done, the attempt acked, the verification request and job.done |
| DistributionServer.Server.FailJob | service/agent.go:338-369 | the job failed, the attempt acked, an incident and both events |
| DistributionServer.Server.TryCompleteSku | service/agent.go:394-439 | completes exactly when the gate is open, and reports a missed CAS |
| DistributionServer.Server.AllDone | policy/engine.go:118-128 | true exactly when the SKU has a job and all its jobs are Done |
| DistributionServer.Server.StillVerifying | service/agent.go:394-407 | true exactly when some job of the SKU is Verifying |
| DistributionServer.Server.TransitionStatus | service/sku.go:203-285 | the checked CAS with its event, or the refusal; keeps the invariant |
| DistributionServer.Server.Assign | service/incident.go:72-112 | Open or InProgress to InProgress with its event, or the refusal; keeps the invariant |
| DistributionServer.Server.Resolve | service/incident.go:117-156 | InProgress to Resolved with its event, or the refusal; keeps the invariant |
| CallEffects.SubmitAcceptedIff | service/audit.go:72-146 | a submission under a free action id is accepted if and only if the form is complete, the version is its SKU's current one, stable, not missing and of that hash, the SKU awaits that stage, the decision is known, a stage B approval has a target, and the stage is undecided |
| CallEffects.SubmitRefusal | service/audit.go:72-146 | a refusal changes nothing and is that of the first check that fails, check by check |
| CallEffects.SubmitRepeat | service/audit.go:72-86 | a repeated action id is answered with the action on record and changes nothing |
| CallEffects.SubmitEffect | service/audit.go:159-246 | an accepted decision leaves its SKU at AuditA_Approved, AuditA_Rejected, Approved_PendingVerify or AuditB_Rejected exactly according to stage and decision, records that action, and touches no other SKU or table |
| CallEffects.AwaitedMoves | service/audit.go:274-296 | a decision is an allowed move exactly from the pending status of its stage |
| CallEffects.SubmitReports | service/audit.go:128-157 | only a stage B approval creates jobs, and it reports one fresh job per target in order |
| CallEffects.SubmitLogs | service/audit.go:186-244 | the log gains the action, one line per job, and each hop of the status with its true ends, in that order and nothing else |
| CallEffects.NewKeysAllInserted | repo/mysql/job.go:57-85 | rows with new and distinct keys are all inserted, in order |
| ActionRecords.SubmitExplained | service/audit.go:159-246 | each status change a submission writes belongs to the action it records: its stage and decision are those that lead to that status, for a version of that SKU |
| ActionRecords.AuditEdgesExplained | service/audit.go:159-246 | the same over every run of calls: an edge into an audit outcome written by a submission has on record, then and ever after, an action of that stage and decision for a version of that SKU |
| CallEffects.SyncEffect | service/agent.go:98-178 | when a sync is accepted, the version it adds with its number, the pointer and the event, and each refusal otherwise |
| CallEffects.CreateEffect | service/sku.go:126-183 | a new code and id with a name give a Draft SKU and its event, anything else is refused |
| CallEffects.TransitionEffect | service/sku.go:203-285 | the SKU moves, with its event, exactly when it stands at the expected status and the move is allowed; each refusal otherwise |
| CallEffects.PullRefusal | service/agent.go:185-200 | a blank agent or a missing lease is refused, and without a Pending job nothing is pulled |
| CallEffects.PullEffect | service/agent.go:185-231 | the first Pending job runs on the new attempt until now plus lease, with its event, and its SKU moves to Distribution_Running exactly when it stood at Approved |
| CallEffects.HeartbeatEffect | service/agent.go:233-268 | the lease of a current, unexpired attempt ends at now plus lease and nothing else changes; every other heartbeat gets its refusal and changes nothing |
| CallEffects.EvidenceLevels | policy/engine.go:99-115 | each evidence level is satisfied exactly by the fields it takes |
| CallEffects.AckRefusal | service/agent.go:271-293 | an ack whose attempt is not its job's current one is refused and changes nothing |
| CallEffects.AckOutcome | service/agent.go:291-369 | an ack on the current attempt leaves its job Done if and only if it reports success with file id and size; otherwise the job is Fail and exactly one more incident, naming it, is open |
| CallEffects.AckFailure | service/agent.go:338-369 | all that a failed ack leaves: the job, the attempt, the incident and both events |
| CallEffects.AckSuccess | service/agent.go:304-335 | all that a sufficient ack leaves: the job Done, the attempt acked, the event, and the SKU Completed exactly when every job of it is Done, none is Verifying and it stood at Distribution_Running |
| CallEffects.TryCompleteEffect | service/agent.go:394-439 | completion tried on a SKU that has a job: exactly when it completes, and when the missed move is reported |
| CallEffects.AssignEffect | service/incident.go:72-112 | each refusal, or the incident InProgress with its event |
| CallEffects.ResolveEffect | service/incident.go:117-156 | each refusal, or an InProgress incident Resolved with its event |
| CallEffects.ReapEffect | workers/lease_reaper.go:51-123 | exactly a Running job whose attempt's lease has ended goes Stale and loses its attempt |
| CallEffects.RetryEffect | workers/retry_scheduler.go:52-203 | a failed or stale job with retries left goes back to Pending with one retry more, without any left it is given up with an open incident, and no other job is touched |
| CallEffects.DenyEffect | workers/verify_worker.go:172-230 | a failed verification marks its job and opens an incident |
| CallEffects.PassEffect | workers/verify_worker.go:105-170 | a passed verification marks its job, and completes the SKU in distribution exactly when all its jobs are Done and verified or never asked to be |
| AuditTasks.AuditRuns | service/audit_v7_service.go:109-577 | over every run from a task without pending handover, whatever its earlier records and events: at most one handover is pending and then the task has no handler and stands in the handover's stage; the logs only grow, and what they gain stays in lockstep, tells the stage the task stood in and what each action does to status and handler, pairs each handover with the next takeover in the same stage by the named auditor, replays from the starting to the stored status and handler, and holds at most two decisions |
| AuditTasks.AllStep | service/audit_v7_service.go:109-577 | a call, refused or not, keeps every task sound |
| AuditTasks.RunSound | service/audit_v7_service.go:109-577 | every run keeps all of that for every task |
| AuditTasks.PendingFreezes | service/audit_v7_service.go:602-616 | while a handover is pending no call touches its task or its row but an allowed takeover by the auditor it names |
| AuditTasks.PendingFreezesRun | service/audit_v7_service.go:602-616 | the same over whole runs |
| AuditTasks.TakeoverCompletesHandover | service/audit_v7_service.go:416-577 | whatever other calls come between, the named takeover succeeds, status is as before, both records carry the stage, nothing stays pending |
| AuditTasks.HandOverStep | service/audit_v7_service.go:416-505 | a handover parks the task with its row the only pending one |
| AuditTasks.TakeOverStep | service/audit_v7_service.go:506-577 | a takeover of the pending row leaves nothing pending and the machine sound |
| AuditTasks.ApproveStep | service/audit_v7_service.go:164-266 | an approval keeps the machine sound and uses up a decision |
| AuditTasks.RejectStep | service/audit_v7_service.go:268-351 | a rejection keeps the machine sound and uses up a decision |
| AuditTasks.OtherTaskStep | service/audit_v7_service.go:109-577 | a call leaves other tasks, their logs and handovers alone |
| AuditDesk.Desk.FindPending | service/audit_v7_service.go:602-616 | the scan finds a pending handover exactly when there is one |
| AuditDesk.Desk.Check | service/audit_v7_service.go:807-823 | the shared guards, in source order |
| AuditDesk.Desk.Claim | service/audit_v7_service.go:109-162 | the specified store or refusal; a refusal changes nothing; every task stays sound |
| AuditDesk.Desk.Approve | service/audit_v7_service.go:164-266 | the specified store or refusal; a refusal changes nothing; every task stays sound |
| AuditDesk.Desk.Reject | service/audit_v7_service.go:268-351 | the specified store or refusal; a refusal changes nothing; every task stays sound |
| AuditDesk.Desk.Transfer | service/audit_v7_service.go:353-414 | the specified store or refusal; a refusal changes nothing; every task stays sound |
| AuditDesk.Desk.HandOver | service/audit_v7_service.go:416-505 | the specified store or refusal; a refusal changes nothing; every task stays sound |
| AuditDesk.Desk.TakeOver | service/audit_v7_service.go:506-577 | the specified store or refusal; a refusal changes nothing; every task stays sound |
| AuditDesk.Desk.CheckTakeOver | service/audit_v7_service.go:506-547 | the guards of a takeover, in source order |
| AuditEffects.ClaimEffect | service/audit_v7_service.go:109-162 | each refusal, or the auditor is the handler and status, record and event say so |
| AuditEffects.ApproveEffect | service/audit_v7_service.go:164-266 | each refusal, or the task stands at the status named, which must be one the stage leads to, without handler; outsourcing is remembered |
| AuditEffects.RejectEffect | service/audit_v7_service.go:268-351 | each refusal, or the task is back with its designer under the rejected status of the stage; outsource review cannot reject |
| AuditEffects.TransferEffect | service/audit_v7_service.go:353-414 | each refusal, or the task is with the auditor named, as record and event say |
| AuditEffects.HandOverEffect | service/audit_v7_service.go:416-505 | each refusal in source order, or the task without handler and one more pending row from and to the auditors named |
| AuditEffects.TakeOverEffect | service/audit_v7_service.go:506-577 | each refusal in source order, or the row closed and the task with the auditor it names |
| AuditEffects.UntouchedRun | service/audit_v7_service.go:109-577 | a run with no accepted call that names a task leaves the task as it is |
| AuditEffects.TransferHolds | service/audit_v7_service.go:353-414 | after an accepted transfer the auditor named handles the task throughout every run with no accepted call that names the task |
| CostPreview.PreviewCostRules | service/cost_prefill.go:18-159 | the engine with its running area, tax, estimate and review flag gives the closed form over the sorted, non-nil rules |
| CostPreview.ApplyMinimum | service/cost_prefill.go:65-77 | one turn on a minimum area keeps the running values equal to the closed form |
| CostPreview.ApplyFixed | service/cost_prefill.go:78-90 | one turn on a fixed price keeps the running values equal to the closed form |
| CostPreview.ApplySurcharge | service/cost_prefill.go:91-109 | one turn on a surcharge keeps the running values equal to the closed form |
| CostPreview.ApplyProcess | service/cost_prefill.go:110-116 | one turn on a special process keeps the running values equal to the closed form |
| CostPreview.ApplyFormula | service/cost_prefill.go:117-127 | one turn on a size formula keeps the running values equal to the closed form |
| CostPreview.ApplyUnpriced | service/cost_prefill.go:128-132 | one turn on a manual quote or unknown kind keeps the running values equal to the closed form |
| CostPreview.FixedCharge | service/cost_rule_service.go:423-439 | a charge exactly when there is a base price and an area, equal to quantity times the charge per piece |
| CostPreview.SurchargeFor | service/cost_prefill.go:99-106 | the surcharge taxed by its own multiplier or the nearest fixed price's |
| CostPreview.FormulaCharge | service/cost_rule_service.go:441-469 | a charge exactly when the formula prices the detected side, equal to quantity times that price |
| CostPreview.ParsePrices | service/cost_rule_service.go:479-494 | the map holds for each side the price of its last parsable piece |
| CostPreview.AreaOf | service/cost_rule_service.go:513-521 | the area is never negative and zero exactly when neither a positive area nor two positive sides are given; its value from the request is stated by `CostMeaning.RequestIsRead` |
| CostPreview.QuantityOf | service/cost_rule_service.go:523-528 | at least one, and the requested quantity when that is positive |
| CostLaws.PreviewOrderIndependent | service/cost_prefill.go:19-35 | the preview is the same for every ordering of rules with distinct ids, nil entries anywhere |
| CostLaws.SortSorts | service/cost_prefill.go:27-35 | the sort is sorted by priority, version descending and id, and a permutation |
| CostLaws.SortStable | service/cost_prefill.go:27-35 | rules that tie keep their order |
| CostLaws.SortedUnique | service/cost_prefill.go:27-35 | rules with distinct ids have one sorted order |
| CostLaws.BillableIsMaximum | service/cost_prefill.go:65-77 | the area a charge uses is the maximum of the input area and the minimum areas sorted before it |
| CostLaws.FixedTaxIsNearest | service/cost_prefill.go:78-106 | the tax a surcharge borrows is that of the last charged fixed price before it, one when there is none |
| CostLaws.EstimateIsSum | service/cost_prefill.go:39-133 | the unrounded estimate is the quantity times a sum over positions in which each area charge uses the maximum of the input area and the minimum areas before it and each surcharge is taxed by its own multiplier or that of the nearest charged fixed price before it, all said of the list itself |
| CostLaws.RawScales | service/cost_prefill.go:39-133 | the unrounded estimate at quantity q is exactly q times that at one |
| CostLaws.QuantityLaw | service/cost_prefill.go:135-159 | applied rules, matched rule, review flag and presence of an estimate do not depend on quantity, and rounded estimates are proportional within 0.0005(q+1) |
| CostLaws.RoundedIsNearest | service/cost_prefill.go:161-163 | rounding gives a thousandth, off by at most 0.0005, and no thousandth is closer |
| CostLaws.RoundedIsOdd | service/cost_prefill.go:161-163 | negative amounts round like positive ones, halves away from zero |
| CostLaws.SingleNeverStandsIn | service/cost_rule_service.go:452-467 | a print-side formula ends in manual review, charging nothing, exactly when it has no price for the detected side |
| CostLaws.UnpricedFormulaOnlyAsksReview | service/cost_rule_service.go:452-467 | wherever it stands, a print-side formula without a price for the detected side asks for review and leaves the estimate of the other rules as it is |
| CostLaws.SingleFallbackFails | service/cost_rule_service.go:455-464 | a double-sided request against a formula with a single-sided price only is left to manual review |
| CostMeaning.Preview | service/cost_prefill.go:18-163 | for the rules without nils, sorted by priority, falling version and id with ties in list order: the first is matched, exactly the rules with something to say are applied, review is asked for exactly when none applies or some rule cannot be worked out, an estimate is given exactly when a rule applies and either none asks for review or the amount is positive, and it is the nearest thousandth of quantity times the charges; area, surcharge basis and quantity are those of the request |
| CostMeaning.QuoteAnswers | service/cost_prefill.go:37-159 | the same of the engine's closed form, for every request and every list of rules |
| CostMeaning.RequestIsRead | service/cost_rule_service.go:513-528 | the input area is the area used when positive, else the product of two positive sides used, else zero, where a size given wins over the text; the surcharge basis is the product of the sides unless a box layout or a side is missing; the quantity is the one given when positive, else one |
| CostMeaning.PricedInProportion | service/cost_prefill.go:78-133 | a charge is proportional to price, area and tax each, and one of each costs one |
| CostMeaning.ReviewIs | service/cost_prefill.go:65-133 | which rules ask for review, kind by kind, from the fields of the rule |
| CostMeaning.ListedIs | service/cost_prefill.go:65-133 | which rules are applied, by position, from the fields of the rules at and before it |
| CostMeaning.RoundedIs | service/cost_prefill.go:161-163 | rounding gives the thousandth whose half-open interval holds the amount, halves away from zero |
| CostLaws.SortedMeans | service/cost_prefill.go:27-35 | sorted means priorities rise, among equal ones versions fall, among equal ones ids rise |
| CostLaws.SidePriceIs | service/cost_rule_service.go:479-494 | the price of a side is that of the last piece that prices it, by position, and none when no piece does |
| Lineage.LineageLoader.Get | service/cost_governance_read_model.go:36-50 | a read through the cache sees cached rules first, then the store, and changes nothing that is seen |
| Lineage.LineageLoader.Collect | service/cost_governance_read_model.go:94-110 | the loop ends for every store and meets exactly the specified walk |
| Lineage.LineageLoader.LoadChain | service/cost_governance_read_model.go:84-134 | the two loops and the reversal give the specified chain and position |
| Lineage.LineageLoader.Decorate | service/cost_governance_read_model.go:52-82 | depth, root, latest, neighbours and chain are those of the rule's chain |
| Lineage.ReverseSlice | service/cost_governance_read_model.go:136-140 | the in-place reversal reverses |
| Lineage.DecorateList | service/cost_rule_service.go:106-111 | decorating a list through one shared cache gives each rule what a fresh loader gives |
| LineageLaws.AnyStoreChain | service/cost_governance_read_model.go:84-134 | for any store, cyclic or not: distinct rules, the start at its index, adjacent rules joined by the link followed, and both ends stop only at a missing link or a rule already in the chain |
| LineageLaws.WalkFacts | service/cost_governance_read_model.go:94-131 | a walk meets distinct unvisited stored rules, each by the link of the one before |
| LineageLaws.WalkStops | service/cost_governance_read_model.go:94-131 | a walk stops only where the link leads nowhere or to a rule seen |
| LineageLaws.DecorationMeans | service/cost_governance_read_model.go:52-82 | in any store: the neighbours shown are the rules this one's own links lead to and stand next to it in the chain, root and latest are its ends, and it is the latest exactly when nothing follows |
| LineageLaws.SameChainFromEveryMember | service/cost_governance_read_model.go:168-183 | with inverse acyclic links every member loads the same chain, its depth is its position, its neighbours are those of the chain, and only the last is the latest |
| LineageLaws.ChainIsSpine | service/cost_governance_read_model.go:84-134 | with inverse acyclic links a chain runs from a rule superseding none to one superseded by none |
| LineageLaws.SpineChain | service/cost_governance_read_model.go:84-134 | a whole line loaded from any of its rules comes back whole |
| RuleVersions.EditRises | service/cost_rule_service.go:322-352 | an accepted edit keeps versions rising along links if and only if it stays below every rule superseding the edited one |
| RuleVersions.CreateRises | service/cost_rule_service.go:144-162 | a create always keeps versions rising |
| RuleVersions.CarefulRunsRise | service/cost_rule_service.go:144-274 | so does every run of creates and patches that meet the condition |
| RuleVersions.DraftRises | service/cost_rule_service.go:322-352 | an accepted draft has a positive version above that of an existing superseded rule |
| RuleVersions.PatchMakesCycle | service/cost_rule_service.go:164-274 | two creates and a patch, all accepted, leave two rules superseding each other, without a fork, and lineages that disagree |
| RuleVersions.PatchBreaksRiseOnly | service/cost_rule_service.go:164-274 | an accepted patch can break the rise of versions and leave no cycle |
| RuleVersions.EditKeepsAcyclic | service/cost_rule_service.go:329-349 | an accepted edit keeps the rules free of cycles if and only if the rule it supersedes neither is nor leads by supersedes links to the edited one |
| RuleVersions.RunsAcyclicIffLoopFree | service/cost_rule_service.go:144-274 | rules stay free of cycles throughout a run of edits if and only if none of them closes a loop as it is made |
| RuleVersions.CreateClosesNoLoop | service/cost_rule_service.go:144-162 | a create never closes a loop |
| RuleVersions.RunsStayClosed | service/cost_rule_service.go:329-339 | every run of creates and patches keeps each supersedes link leading to another existing rule |
| RuleVersions.LineagesAgreeIff | repo/mysql/cost_rule.go:20-27 | with the superseded-by link derived as the newest superseding row, in every store whose links lead to other rows: lineages agree from every member if and only if no two rows supersede the same rule and there is no cycle |
| RuleVersions.AgreementRanks | service/cost_governance_read_model.go:84-134 | when lineages agree each rule stands in its chain after the rule it supersedes, so there is no cycle |
| RuleVersions.EditKeepsUnforked | service/cost_rule_service.go:329-349 | an accepted edit keeps the rules free of forks if and only if no other rule already supersedes the one it does |
| RuleVersions.EditKeepsAgreement | service/cost_rule_service.go:144-274 | an edit keeps agreeing lineages in agreement if and only if it makes no fork and closes no loop |
| RuleVersions.RunsAgreeIffHarmless | service/cost_rule_service.go:144-274 | lineages agree throughout a run of edits if and only if each edit is harmless in that sense as it is made |
| RuleVersions.ReadInverse | repo/mysql/cost_rule.go:20-27 | in a store whose links lead to other rows and that has no fork, cyclic or not, the derived links are inverse |
| RuleVersions.ForkDisagrees | repo/mysql/cost_rule.go:20-27 | of two rows superseding one rule, the one that is not its newest superseder has that rule just before it in its chain, and that rule's own chain is another |
| RuleVersions.CreatesCanFork | service/cost_rule_service.go:144-162 | three accepted creates fork a lineage |
| RuleVersions.DraftMeans | service/cost_rule_service.go:292-393 | exactly which drafts are accepted, and the version each gets: the one asked for, the next after the superseded rule's, or one |
| RuleVersions.EditMeans | service/cost_rule_service.go:144-274 | an accepted edit writes its own row only; a create what it was given, a patch that and else what stood there; a refused one writes nothing |
| RuleVersions.ReadMeans | repo/mysql/cost_rule.go:20-27 | the superseded-by link leads to the superseding row of highest version and, among those, highest id |
| OverrideHistory.SummariseFallback | service/cost_governance_read_model.go:324-396 | the fallback loop reports count, latest events and boundary of the classified log |
| OverrideHistory.SummariseAudit | service/cost_governance_read_model.go:283-322 | the audit-event loop reports count, latest events and last boundary of the non-nil events, and the list length as event count |
| OverrideHistory.ClassifiedIsWord | service/cost_governance_read_model.go:338-393 | every log classifies into (Applied Updated* Released)* (Applied Updated*)?, open exactly while the override is on |
| OverrideHistory.WordsAreReached | service/cost_governance_read_model.go:338-393 | every word of that grammar is the classification of some log |
| OverrideHistory.AppliedAndReleasedBalance | service/cost_governance_read_model.go:353-392 | as many releases as applications, but for the one still open |
| OverrideHistory.RunBothFolds | service/cost_governance_read_model.go:270-396 | run one after the other, the fallback loop on a log and the audit loop on what the log classifies into give equal summaries, counts and boundaries |
| OverrideHistory.FoldsAgree | service/cost_governance_read_model.go:270-281 | the two specifications agree on every log |
| OverrideHistory.ViewReadyIff | service/cost_governance_read_model.go:555-604 | on the stored records: costs are ready for the finance view if and only if finance is asked for, a required review has a record that says Approved, and the finance record, if any, is not pending |
| OverrideHistory.ShownReview | service/cost_governance_read_model.go:555-565 | the review status shown is the stored one when that is Approved, Rejected or Pending and a review is required; Pending when none is stored, and not required when none is asked for |
| OverrideHistory.ShownFinance | service/cost_governance_read_model.go:567-584 | the finance status shown is the stored one when recognised; otherwise it follows the stored review |
| OverrideHistory.LastBoundaryIs | service/cost_governance_read_model.go:283-322 | the boundary is that of the last event with the records kept under its id |
| OverrideHistory.SummaryMeans | service/cost_governance_read_model.go:283-322 | the summary counts applications and updates and shows the last event, the last override and the last release, by position |
| OverrideHistory.ClassifiedIs | service/cost_governance_read_model.go:338-393 | the classification depends on the telling events alone: each is marked by its own flag and that of the one before it |
| StageVisibility.Builder.GrantTo | service/data_scope.go:241-263 | the index, buckets and seen sets stay those of the grants made |
| StageVisibility.Builder.Build | service/data_scope.go:265-278 | the list is that of the grants made |
| StageVisibility.AddStatuses | service/data_scope.go:253-262 | blank and repeated statuses are left out, the others appended in order |
| StageVisibility.VisibilitiesFor | service/data_scope.go:132-212 | the roles held are checked in turn and their grants built |
| StageVisibility.HasRole | service/data_scope.go:295-302 | true exactly when the role is held |
| VisibilityLaws.ExactIffLanesKept | service/data_scope.go:241-285 | exactly the granted (lane, non-blank status) pairs are visible if and only if every grant that shows something names the lane its bucket was opened with |
| VisibilityLaws.StarLaneIsLost | service/data_scope.go:280-285 | a grant to no lane and one to the lane `*` share a bucket and the second loses its lane |
| VisibilityLaws.BuiltTidy | service/data_scope.go:265-278 | buckets are non-empty, in first-grant order, one per key, of distinct non-blank statuses |
| VisibilityLaws.ListedMember | service/data_scope.go:265-278 | a pair is visible exactly when granted under its key and the key's first grant has its lane |
| VisibilityLaws.LaterGrantsOnlyAdd | service/data_scope.go:241-263 | a later grant takes no visible pair away |
| VisibilityLaws.RolesShowExactly | service/data_scope.go:132-212 | a user sees exactly the pairs granted by the roles held |
| VisibilityLaws.MoreRolesShowMore | service/data_scope.go:132-212 | adding roles never removes a visible pair |
| VisibilityLaws.UserSeesIff | service/data_scope.go:132-212 | a user sees a status in a lane if and only if one of the roles held may see it, said status by status |
| VisibilityLaws.StatusesInOrder | service/data_scope.go:241-263 | a bucket holds what was offered under its key in the order of offering, blanks and repeats passed over |
| VisibilityLaws.AddedInTurn | service/data_scope.go:253-262 | statuses are taken one after the other, and only a new non-blank one goes to the end |
| VisibilityLaws.ChecksInOrder | service/data_scope.go:132-212 | the grants of the seven roles come in the order the roles are checked |
| Layout.BoxLayoutExceedsSurface | service/cost_dimension_extractor.go:77-99 | the sheet exists exactly for positive sides and exceeds the six faces 2(wd+wh+dh), closed or not |
| Layout.FaceLayoutCovers | service/cost_dimension_extractor.go:252-283 | the grid has a cell for every face and the sheet covers all faces |
| Layout.BoxLayoutIs | service/cost_dimension_extractor.go:77-99 | the sheet is the four sides wide and one or two flaps of the shorter side higher than the box |
| Layout.GridIs | service/cost_dimension_extractor.go:252-283 | up to four faces lie in one row, more in as few rows of four as hold them, six in one row more |
| Layout.FaceLayoutIs | service/cost_dimension_extractor.go:252-283 | the sheet is that grid of faces, for positive sizes and at least one face |

## Left out

- Results about attempts' leases, job starts, versions, audit actions and incidents are per whole call: their guards are read outside the transactions. For completion the window between read and commit is covered by `CompletionWindow`.
- Workers (`Reap`, `Retry`, `Verify`) are value-level steps on one row, not loops over batches; back-off times and next_retry_at are not modelled.
- ServiceCalls.FirstPending: the job table is in order of position, and among Pending jobs the lowest position is the oldest; the source orders by created_at, which one batch shares, so the order within a batch is not promised there.
- Moving jobs from PendingVerify to Pending is a step of its own (`Release`): no service does it, only the integration scenario in tests/integration_test.go.
- Verification on done is an arbitrary set of targets, requested by a statement outside the acknowledging transaction; the policy engine's own setting is none, and lock waits between the two are not modelled.
- Event payloads beyond from, to, actor and kind; per-SKU sequence numbers are ranks in the log.
- Clocks, generated ids and policy values are parameters; infrastructure errors are not modelled beyond an all-or-nothing transaction.
- White space is space, tab, carriage return and newline; other Unicode white space is not modelled.
- Lane policy and authorization of the audit actions are arbitrary booleans; handover numbers, comments, asset-flow and filing side effects are not modelled.
- Status changes of a task by other services between audit actions, such as the designer's rework after a rejection; each such change begins a new run.
- Floating-point rounding: amounts are exact reals, so the 0.0005(q+1) bound is about decimal rounding only.
- Text matching (keywords, print side, copper paper, box layout) and dimension parsing enter the preview as facts of the request; explanation strings and governance status are not modelled.
- Name, rule type, category lookup and date-range checks of a cost rule draft enter as one arbitrary outcome.
- Lineage.DecorateList: the listed rules are rows of the store read; a store changing between reads is not modelled.
- Review and finance records enter the boundary as maps by event id; action summaries and policy hydration are not modelled.
- Unit inference, size pairs and multipliers in the dimension extractor: regular expressions and easy arithmetic.
- ERP bridges, sync clients, transport, notifications, identity, file serving and the web front end.
