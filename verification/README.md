# Coder Manager: the durable job protocol and the workflows on it

Coder Manager keeps every business operation as a row of `job_executions` beside the row of the
resource it works on: an instance, a template, a template assignment or a workspace. Workers claim,
heartbeat, advance, defer, fail or complete a job; a periodic scan reclaims expired claims; API
requests stage new jobs that supersede finished or failed ones. This project models that protocol,
the workflows built on it and the self-contained algorithms around it, and proves what they promise.

`dafny verify dfyconfig.toml` checks everything.

## How the model is built

* **State.** `Store.State` holds all tables, what every worker holds in its local variables, and the
  history of what happened outside the database. The columns action, status, job and step of the four
  resource tables are kept in one table of `Life` rows, which is all that the protocol reads of them.
* **Steps.** Every committed transaction and every remote observation is one function on the state.
  `Events` collects them: a run is any sequence of requests, deliveries, reclaims and acts of any
  worker that ever received a token, in any order. A worker may stop at any point and come back
  arbitrarily late; remote answers are arbitrary arguments. All theorems about runs quantify over every
  such sequence.
* **In place.** The original assigns columns inside sessions. `JobTable` (the protocol), `Session` with
  `InstanceRepository`, `TemplateRepository` and `WorkspaceRepository` (the requests), and
  `InstanceTasks`, `TemplateTasks` and `WorkspaceTasks` (the transactions of the steps) do the same,
  row by row and loop by loop, and each method is proved equal to the function that the theorems are
  about.
* **Laws.** `ProtocolLaws`, `InstanceLaws`, `TemplateLaws`, `WorkspaceLaws`, `StepLaws`, `PublicationLaws` and
  `WorkspaceStepLaws` state in columns, without the names of the functions, when each transaction is accepted and
  what it writes and leaves alone. `Selections` carries what a worker has selected through whole runs.
* **Proof.** `Protocol` and `Runs` treat the protocol alone. `Frames` summarises every worker
  transaction that deletes nothing by one predicate, `Soundness` derives from it what a token may do,
  `Tables`, `RequestTables` and `Asks` do the same for requests and deletions. The invariants follow in
  `Interlock`, `Homes`, `Readiness`, `Bootstrap`, `DeletionOrder`, `Campaigns`, `Revisions`, `Coverage`
  and `Pools`; `System` proves them together and `Theorems` states the results about reachable states.
* **Algorithms.** `Parameters`, `Placement`, `Inventory`, `WorkspaceRemoval`, `WorkspaceStops`,
  `HelmArgs`, `ApplicationClient` and `Publication` stand alone.

## Where the code and its documentation differ

* The documentation says that stale deliveries are safe no-ops (lines 643-646 of the repository's
  README). `_claim_members` and `_claim_cleanup` write member rows without checking ownership, so a worker
  that lost its claim before this transaction can still mark members as running. For `_claim_cleanup` this
  never does harm. For `_claim_members` it can: `StaleClaim` gives two runs from the empty database, one in
  which an update settles a member although no policy accepted by Argo CD ever named it, and one in which an
  update ends in success and leaves a member unsettled. `LostMembers.LosesExactly` says exactly when such a
  claim can lose a change, for every stage of the update; `Theorems.CarefulRun` is the absence of harmful
  claims, and the results on settled members hold for runs with it. Claims by current attempts are always
  harmless. Everything else, the deletion of accounts included, tolerates stale workers.
* A publication interrupted between creating the remote template and storing its identifier is recovered
  by a retry with the same commit and revision. With another one the stored version is cleared first
  (`_prepare_deployment`), and the retry rejects its own template as foreign; `Publication.RejectedExactly`
  gives the exact condition and `Publication.CrashBeforeStoring` a run that leads there.
* The provider upload stages an update without looking at template assignments, as the code does, so an
  instance may be busy while an assignment is active; no theorem assumes otherwise.

## Reading the results

Row and job agreement, fencing, liveness of the scan: `Runs`, then `Theorems` and `Liveness` for the whole
system.
Members: `Coverage`, `LostMembers`, `Accounts`, `Theorems`. Deletion: `DeletionOrder`, `Theorems`. Publication: `Campaigns` for
the local rows, `Selections` for the choice of targets, `Publication` for the remote side. Workspaces: `Revisions`,
`Homes`. A single request or step: the module of laws it belongs to.

## Model

| member | source | states |
|---|---|---|
| `Runs.ReachableAgreement` | src/coder_manager/tasks/common/execution.py:85-101 | Whatever the interleaving of deliveries, stale workers, reclaims and superseding requests: every unfinished row references the one unfinished job that names it, with its status, step and action; a finished row has no step and its job is finished; no job belongs to two rows; a job runs exactly while `claimed_at` is set. |
| `Runs.AtMostOneOwner` | src/coder_manager/tasks/common/execution.py:104-168 | The claims ever issued for one job have distinct attempts, and of all of them at most one per job and per resource passes the ownership check at a time. |
| `Runs.RejectedForever` | src/coder_manager/tasks/common/execution.py:148-168 | A claim that the ownership check rejects once is rejected after every later sequence of transactions. |
| `Runs.NothingComesBack` | src/coder_manager/tasks/common/execution.py:104-145 | A successful or superseded job is never claimed, redelivered or owned again. |
| `Runs.ScanRevives` | src/coder_manager/tasks/common/execution.py:328-362 | A scan that lists a live job after its heartbeat expired leaves it claimable, whatever else it reclaims. |
| `Runs.NothingGetsStuck` | src/coder_manager/tasks/retry_job_executions.py:27-62 | In every reachable state one scan with a late enough threshold makes any job still referenced by its resource claimable, and the next delivery owns it. |
| `Runs.AdvancesSpendSteps` | src/coder_manager/tasks/common/execution.py:171-208 | Over any run the number of advances of one job is bounded by the steps its workflow has left. |
| `Runs.AtMostThreeAdvances` | src/coder_manager/tasks/common/execution.py:171-208 | No job advances more than three times. |
| `Runs.BootstrapNeverUpdates` | src/coder_manager/tasks/instance/create/step_03_bootstrap_admin.py:102-110 | The branch for `instance.update` in the bootstrap step is dead: no job of that name ever reaches it. |
| `Protocol.DoKeeps` | src/coder_manager/tasks/common/execution.py:171-307 | Every transaction keeps the protocol invariant and moves the tables only forward (attempts, steps, finished jobs, row references). |
| `Protocol.NextFits` | src/coder_manager/tasks/common/registry.py:15-77 | Every advance a step body asks for stays in the workflow of its job and lowers the steps left. |
| `JobTable.JobTable.MatchesResource` | src/coder_manager/tasks/common/execution.py:85-101 | Decides the resource match on the loaded row. |
| `JobTable.JobTable.OwnedExecution` | src/coder_manager/tasks/common/execution.py:148-168 | Decides ownership of one attempt. |
| `JobTable.JobTable.ClaimExecution` | src/coder_manager/tasks/common/execution.py:104-145 | The row updates of a claim give the specified tables and hand out a token exactly when the job is claimable. |
| `JobTable.JobTable.HeartbeatExecution` | src/coder_manager/tasks/common/execution.py:374-388 | Refreshes `claimed_at` of an owned attempt and nothing else. |
| `JobTable.JobTable.AdvanceExecution` | src/coder_manager/tasks/common/execution.py:171-208 | Moves an owned job and its row to the next step, pending, and otherwise changes nothing. |
| `JobTable.JobTable.CompleteExecution` | src/coder_manager/tasks/common/execution.py:211-247 | Finishes an owned job and settles or deletes its row; a rejected token changes nothing. |
| `JobTable.JobTable.DeferExecution` | src/coder_manager/tasks/common/execution.py:250-278 | Returns an owned job and its row to pending on the same step. |
| `JobTable.JobTable.FailExecution` | src/coder_manager/tasks/common/execution.py:281-307 | Puts an owned job and its row into error on the same step. |
| `JobTable.JobTable.PrepareExecutionRetry` | src/coder_manager/tasks/common/execution.py:328-362 | Reclaims exactly the expired running attempt whose row still matches and answers the persisted task to redeliver. |
| `JobTable.JobTable.RetryJobExecutions` | src/coder_manager/tasks/retry_job_executions.py:27-62 | The scan loop equals the fold of single reclaims, its two counters add up to the listed jobs, and `scheduled` counts the accepted deliveries. |
| `JobTable.ScheduledExactly` | src/coder_manager/tasks/retry_job_executions.py:47-61 | The scan delivers exactly the listed jobs that wait, failed or expired with a matching row and whose delivery is accepted. |
| `JobTable.ScannedExactly` | src/coder_manager/tasks/retry_job_executions.py:47-61 | The scan reclaims exactly the listed attempts that expired, and changes no other job. |
| `JobTable.JobTable.Stage` | src/coder_manager/repositories/job_executions.py:18-39 | Stages one fresh pending job and points the row at it. |
| `JobTable.JobTable.Discard` | src/coder_manager/repositories/templates.py:98-107 | Deletes the finished job of a row at rest and clears its lifecycle columns. |
| `ProtocolLaws.OwnsExactly` | src/coder_manager/tasks/common/execution.py:148-168 | The fence in columns: the job runs this very attempt of this step and task, and its row references it, shows the action that belongs to the name of the job, and stands at the same step. |
| `ProtocolLaws.ClaimStarts` | src/coder_manager/tasks/common/execution.py:104-145 | A waiting or failed job whose row matches runs its next attempt, its row runs with it, and the token handed out owns it; nothing else changes. |
| `ProtocolLaws.ClaimRefuses` | src/coder_manager/tasks/common/execution.py:104-145 | A running or finished job, another task or a row that has moved on: nothing is claimed. |
| `ProtocolLaws.HeartbeatRefreshes` | src/coder_manager/tasks/common/execution.py:374-388 | An owned heartbeat sets `claimed_at` to now and leaves the attempt owned. |
| `ProtocolLaws.AdvanceMoves` | src/coder_manager/tasks/common/execution.py:171-208 | The job and its row wait unclaimed at the requested step, under its task; the attempt is kept. |
| `ProtocolLaws.CompleteFinishes` | src/coder_manager/tasks/common/execution.py:211-247 | The job is in success and unclaimed; its row is in success without a step, under the marked action if one is given. |
| `ProtocolLaws.CompleteAndDeleteErases` | src/coder_manager/tasks/common/execution.py:211-247 | The job is in success and its row is gone. |
| `ProtocolLaws.DeferReturns` | src/coder_manager/tasks/common/execution.py:250-278 | The job and its row wait unclaimed on the same step, task and attempt. |
| `ProtocolLaws.FailRecords` | src/coder_manager/tasks/common/execution.py:281-307 | A failure is recorded: the job and its row are in error, unclaimed, on the same step, task and attempt, with the same action. |
| `ProtocolLaws.StaleWritesNothing` | src/coder_manager/tasks/common/execution.py:171-307 | A token that is not owned changes nothing by any of these. |
| `ProtocolLaws.ReclaimsExactly` | src/coder_manager/tasks/common/execution.py:328-362 | A running attempt whose row matches is reclaimed exactly when its last heartbeat is no later than the threshold; a later one protects it. |
| `ProtocolLaws.RedeliversExactly` | src/coder_manager/tasks/common/execution.py:328-362 | Waiting and failed jobs with a matching row are redelivered unchanged, all others left alone. |
| `ProtocolLaws.StagedIsClaimable` | src/coder_manager/repositories/job_executions.py:18-39 | A job staged by a request can be delivered at once, and the attempt this starts owns it. |
| `InstanceLaws.FreeExactly` | src/coder_manager/repositories/instances.py:404-432 | The guard on assignments: none of the instance, and no template behind one, is waiting, running or failed. |
| `InstanceLaws.MissingInstance` | src/coder_manager/repositories/instances.py:218-290 | Without the instance every request on it is refused as not found and changes nothing. |
| `InstanceLaws.CreationReserves` | src/coder_manager/repositories/instances.py:130-216 | Refused for capacity exactly when every database is full; otherwise the slot is taken on the first database by name among the least utilised free ones. |
| `InstanceLaws.DeletionAccepts` | src/coder_manager/repositories/instances.py:218-275 | Accepted exactly for a free instance that is settled or a failed creation; only a failed creation without a stored password starts behind the removal of workspaces. |
| `InstanceLaws.StartAccepts` | src/coder_manager/repositories/instances.py:332-402 | A start is accepted exactly for an idle instance, and stages the start under `starting`. |
| `InstanceLaws.StopAccepts` | src/coder_manager/repositories/instances.py:332-402 | A stop is accepted exactly for an idle instance, and stages the stop under `stopping`. |
| `InstanceLaws.SyncAccepts` | src/coder_manager/repositories/instances.py:277-330 | A synchronisation is accepted exactly for an idle instance and returns its failed members, and only those, to pending. |
| `InstanceLaws.ProviderAccepts` | src/coder_manager/repositories/instance_kubernetes.py:54-100 | Accepted exactly for a settled instance without a provider. |
| `InstanceLaws.ObservationStores` | src/coder_manager/tasks/check_instance_states.py:77-92 | The hourly observation writes the state of idle instances that are not being deleted, and nothing else. |
| `InstanceLaws.MemberAdded` | src/coder_manager/repositories/members.py:103-124 | Accepted exactly while members may change and the name is free in the instance; the change joins the update under way or stages one. |
| `InstanceLaws.RoleChanged` | src/coder_manager/repositories/members.py:126-151 | A changed role of a settled member is pending as an update; an unchanged one changes nothing and stages nothing. |
| `InstanceLaws.MemberDropped` | src/coder_manager/repositories/members.py:153-184 | Accepted exactly for a settled, unprotected member without workspaces. |
| `TemplateLaws.BusyExactly` | src/coder_manager/repositories/templates.py:249-285 | The two guards in columns. |
| `TemplateLaws.MissingTemplate` | src/coder_manager/repositories/templates.py:129-150 | Without the template every request on it or its parameters is refused as not found and changes nothing. |
| `TemplateLaws.TemplateAdded` | src/coder_manager/repositories/templates.py:109-127 | A template with a free name is added at rest, without a job, at revision zero. |
| `TemplateLaws.SourceReplaced` | src/coder_manager/repositories/templates.py:129-184 | Accepted exactly while the template is quiet and the change fits; a changed source is stored and the finished job discarded, an unchanged one changes nothing. |
| `TemplateLaws.TemplateDropped` | src/coder_manager/repositories/templates.py:186-212 | Accepted exactly for a settled template without assignments and workspaces; the row and its finished job go. |
| `TemplateLaws.SyncStaged` | src/coder_manager/repositories/templates.py:214-247 | Accepted exactly while the template is quiet; the finished job is replaced by a fresh one. |
| `TemplateLaws.UserParameterAdded` | src/coder_manager/repositories/template_parameters.py:104-157 | A new definition is stored under its name and the revision stays. |
| `TemplateLaws.SystemParameterAdded` | src/coder_manager/repositories/template_parameters.py:104-157 | A new system value is stored and the revision advances. |
| `TemplateLaws.UserParameterReplaced` | src/coder_manager/repositories/template_parameters.py:159-226 | A definition is replaced; the kind of a parameter cannot change. |
| `TemplateLaws.SystemValueRotated` | src/coder_manager/repositories/template_parameters.py:159-226 | A rotation stores the new value and advances the revision; the same value, or none, changes nothing. |
| `TemplateLaws.ParameterDropped` | src/coder_manager/repositories/template_parameters.py:228-271 | The parameter goes; only a system value advances the revision. |
| `TemplateLaws.MissingParents` | src/coder_manager/repositories/template_assignments.py:236-256 | Without the instance or the template both assignment requests are refused as not found. |
| `TemplateLaws.AssignmentAdded` | src/coder_manager/repositories/template_assignments.py:101-160 | A missing pair is created exactly on a started, settled instance and a settled template. |
| `TemplateLaws.AssignmentRepeated` | src/coder_manager/repositories/template_assignments.py:101-160 | A created pair answers nothing to do, one being created its job, one going away a conflict; nothing changes. |
| `TemplateLaws.AssignmentDropped` | src/coder_manager/repositories/template_assignments.py:162-234 | A created pair whose workspaces are settled is removed by a fresh job; otherwise nothing changes and the refusal says why. |
| `TemplateLaws.AssignmentGone` | src/coder_manager/repositories/template_assignments.py:162-190 | Removing a missing pair is accepted without a job and changes nothing. |
| `TemplateLaws.AssignmentUnavailable` | src/coder_manager/repositories/template_assignments.py:278-296 | On an instance that is not started and settled, or under a synchronising template, nothing changes; only the removal of a missing pair is accepted. |
| `WorkspaceLaws.DefinitionsExactly` | src/coder_manager/repositories/workspaces.py:394-412 | The definitions a request is resolved against are the user parameters, each once, in the order of their names. |
| `WorkspaceLaws.OfferedExactly` | src/coder_manager/repositories/workspaces.py:447-468 | A settled template with a created, settled assignment to the instance and a known remote template. |
| `WorkspaceLaws.WorkspaceAdded` | src/coder_manager/repositories/workspaces.py:155-202 | Exactly when a creation is accepted and what each refusal is; the new row holds the resolved parameters at revision zero. |
| `WorkspaceLaws.ChangeableExactly` | src/coder_manager/repositories/workspaces.py:365-381 | The guard shared by update and deletion, refusals included. |
| `WorkspaceLaws.WorkspaceReplaced` | src/coder_manager/repositories/workspaces.py:204-258 | The new name and the resolved parameters are stored, the revision advances exactly when the parameters change, and a settled workspace that is as requested stages nothing. |
| `WorkspaceLaws.WorkspaceDropped` | src/coder_manager/repositories/workspaces.py:260-283 | Accepted exactly while the workspace can change. |
| `WorkspaceLaws.UnchangeableWorkspace` | src/coder_manager/repositories/workspaces.py:365-381 | The refusals of an update. |
| `WorkspaceLaws.DatabaseAdded` | src/coder_manager/repositories/managed_databases.py:112-133 | A database with a positive capacity and a free name is added. |
| `WorkspaceLaws.DatabaseResized` | src/coder_manager/repositories/managed_databases.py:135-177 | Accepted exactly when the new capacity holds the allocations and the name is free. |
| `WorkspaceLaws.DatabaseDropped` | src/coder_manager/repositories/managed_databases.py:179-197 | Accepted exactly for a database without allocations. |
| `WorkspaceLaws.DatabaseSyncStaged` | src/coder_manager/repositories/job_executions.py:55-68 | A database synchronisation is a job without a row. |
| `StepLaws.DeliveryStarts` | src/coder_manager/tasks/common/execution.py:104-145 | A delivery starts one attempt exactly when its job can be claimed under the Celery task it names. |
| `StepLaws.DeferralWaits` | src/coder_manager/tasks/common/execution.py:250-278 | Only the steps that talk to a busy Argo CD without claimed members return to wait by themselves. |
| `StepLaws.DatabaseSyncEnds` | src/coder_manager/tasks/database/sync/step_01_sync_database.py:15-28 | The synchronisation completes its job and writes nothing else. |
| `StepLaws.SchemaCreated` | src/coder_manager/tasks/instance/create/step_01_create_schema.py:26-40 | The schema step moves on to the instance, and needs the allocation. |
| `StepLaws.ApplicationCreated` | src/coder_manager/tasks/instance/create/step_02_create_instance.py:38-93 | The name and the started state are stored with the advance to the bootstrap. |
| `StepLaws.BootstrapPrepared` | src/coder_manager/tasks/instance/create/step_03_bootstrap_admin.py:39-68 | A candidate is drawn once; a later attempt takes the one drawn, and an instance with a password sends none. |
| `StepLaws.BootstrapSent` | src/coder_manager/tasks/instance/create/step_03_bootstrap_admin.py:91-101 | What is sent is the candidate that was read, and nothing when a password is stored. |
| `StepLaws.PasswordPromoted` | src/coder_manager/tasks/instance/create/step_03_bootstrap_admin.py:71-116 | The candidate becomes the password, and is cleared, in the transaction that completes the creation. |
| `StepLaws.MembersTaken` | src/coder_manager/tasks/instance/update/step_01_update_instance.py:122-169 | Taken are exactly the unsettled members of the instance; the policy names exactly the members that are not leaving, with their roles. |
| `StepLaws.MembersRead` | src/coder_manager/tasks/instance/start/step_01_start_instance.py:45-75 | A start reads the same policy and takes nobody. |
| `StepLaws.PolicyRecorded` | src/coder_manager/tasks/instance/update/step_01_update_instance.py:54-107 | The accepted policy is the one that was read, and needs the allocation. |
| `StepLaws.PolicyFinished` | src/coder_manager/tasks/instance/update/step_01_update_instance.py:54-119 | The name and the started state are stored with the advance to the cleanup. |
| `StepLaws.PolicyDeferred` | src/coder_manager/tasks/instance/update/step_01_update_instance.py:187-199 | The job waits on the same step and the members it took wait with it. |
| `StepLaws.MembersFailed` | src/coder_manager/tasks/instance/update/step_01_update_instance.py:172-184 | The failure is recorded on the job, its row and the members it took that still run. |
| `StepLaws.CleanupTaken` | src/coder_manager/tasks/instance/update/step_02_cleanup_users.py:87-127 | Taken are exactly the reconciled or failed members; a name is expected exactly when a member row has it that is not a departure among those taken. |
| `StepLaws.AccountDeleted` | src/coder_manager/tasks/instance/update/step_02_cleanup_users.py:130-138 | Every account that is not expected can be deleted, and no other; the deletion refreshes the claim. |
| `StepLaws.CleanupFinished` | src/coder_manager/tasks/instance/update/step_02_cleanup_users.py:41-84 | The cleanup keeps the members it took and the name it read for the end of the update. |
| `StepLaws.UpdateEnds` | src/coder_manager/tasks/instance/update/step_01_update_instance.py:202-272 | The departures that were taken are gone, the other taken members settled, nobody else changes; a pending member hands the instance to a fresh update. |
| `StepLaws.SettledExactly` | src/coder_manager/tasks/instance/update/step_01_update_instance.py:218-235 | Which member rows disappear and which are settled, row by row. |
| `StepLaws.WorkspacesStopped` | src/coder_manager/tasks/instance/stop/step_01_stop_workspaces.py:37-80 | The stop moves on to the instance. |
| `StepLaws.AbsenceObserved` | src/coder_manager/tasks/instance/stop/step_02_stop_instance.py:23-41 | A stop or a removal is confirmed by an observed absence of the Application. |
| `StepLaws.InstanceStopped` | src/coder_manager/tasks/instance/stop/step_02_stop_instance.py:23-56 | A stop ends with the instance recorded as stopped. |
| `StepLaws.ApplicationRestoredFirst` | src/coder_manager/tasks/instance/delete/step_01_remove_workspaces.py:123-142 | The Application is restored and the instance recorded as started before workspaces are removed. |
| `StepLaws.WorkspacesGone` | src/coder_manager/tasks/instance/delete/step_01_remove_workspaces.py:42-120 | The removal is confirmed only after the Application was restored. |
| `StepLaws.RemovalMovesOn` | src/coder_manager/tasks/instance/delete/step_01_remove_workspaces.py:42-120 | The removal of workspaces moves on to the instance. |
| `StepLaws.InstanceRemoved` | src/coder_manager/tasks/instance/delete/step_02_remove_instance.py:27-61 | The stopped state is stored with the advance to the schema. |
| `StepLaws.SchemaGone` | src/coder_manager/tasks/instance/delete/step_03_remove_schema.py:26-38 | The schema of an allocation is dropped. |
| `StepLaws.SchemaMovesOn` | src/coder_manager/tasks/instance/delete/step_03_remove_schema.py:26-38 | The schema step moves on to the local rows. |
| `StepLaws.NothingGoesOnUnconfirmed` | src/coder_manager/tasks/instance/delete/step_02_remove_instance.py:27-61 | No step of a stop or deletion goes on before its observation. |
| `StepLaws.InstanceErased` | src/coder_manager/tasks/instance/delete/step_04_remove_local_configuration.py:25-47 | The rows of the instance, and only those, disappear with it. |
| `StepLaws.StaleStepsWriteNothing` | src/coder_manager/tasks/common/execution.py:148-168 | A worker without its claim changes no row by any transaction that ends or advances an instance step. |
| `PublicationLaws.TargetsSelected` | src/coder_manager/tasks/template/_sync.py:131-155 | The stored targets of a synchronisation are exactly the created, settled assignments of the template on an existing, started, settled instance that is not being deleted, each once. |
| `PublicationLaws.TargetsReadable` | src/coder_manager/tasks/template/_sync.py:131-155 | In whatever order the query answers them, the worker goes on with them. |
| `PublicationLaws.CreationTargetsItself` | src/coder_manager/tasks/template/create/step_01_create_template.py:38-66 | The creation of an assignment publishes to this assignment alone. |
| `PublicationLaws.SourceFetched` | src/coder_manager/tasks/template/_sync.py:83-112 | The revision is read with the source, before anything is published. |
| `PublicationLaws.FencedExactly` | src/coder_manager/tasks/template/_sync.py:379-415 | The fence in columns, for both publishing jobs. |
| `PublicationLaws.TargetOpened` | src/coder_manager/tasks/template/_sync.py:158-234 | An instance that is not ready is one failure, a target that carries the source is done, any other is marked running for the source, and a version of another source is forgotten. |
| `PublicationLaws.TargetMissed` | src/coder_manager/tasks/template/_sync.py:317-376 | A target whose rows are gone is one failure; a lost claim stops the worker. |
| `PublicationLaws.IdentifiersStored` | src/coder_manager/tasks/template/_sync.py:260-286 | What the server answered is stored; what it did not answer is kept. |
| `PublicationLaws.TargetClosed` | src/coder_manager/tasks/template/_sync.py:289-314 | Success records the fetched commit and revision as applied; a failure keeps what was applied. |
| `PublicationLaws.StaleDeploysNothing` | src/coder_manager/tasks/template/_sync.py:317-376 | A worker that has lost the fence writes no deployment. |
| `PublicationLaws.PublicationEnds` | src/coder_manager/tasks/template/sync/step_01_sync_template.py:47-75 | The job ends exactly when every target was handled and none failed, and a creation is marked as created. |
| `PublicationLaws.RemovalPrepared` | src/coder_manager/tasks/template/delete/step_01_delete_template.py:54-97 | A removal with a known remote template needs a ready instance. |
| `PublicationLaws.RemovalConfirmed` | src/coder_manager/tasks/template/delete/step_01_delete_template.py:148-179 | The confirmation keeps the pair that was read. |
| `PublicationLaws.AssignmentErased` | src/coder_manager/tasks/template/delete/step_01_delete_template.py:100-128 | The assignment goes with exactly the workspaces of its pair. |
| `WorkspaceStepLaws.SnapshotTaken` | src/coder_manager/tasks/workspace/_remote.py:65-130 | The worker takes the stored values of the parameters defined now and the revision they belong to. |
| `WorkspaceStepLaws.CreationChooses` | src/coder_manager/tasks/workspace/create/step_01_create_workspace.py:31-87 | A usable latest build that carries just the values is adopted, any other replaced by a new one. |
| `WorkspaceStepLaws.UpdateChooses` | src/coder_manager/tasks/workspace/update/step_01_update_workspace.py:32-81 | An applied revision needs no build; a usable start build with just the values is adopted, otherwise a new one starts. |
| `WorkspaceStepLaws.BuildRecorded` | src/coder_manager/tasks/workspace/_remote.py:160-179 | Both identifiers are stored before the wait. |
| `WorkspaceStepLaws.RunningObserved` | src/coder_manager/tasks/workspace/_remote.py:216-241 | Only a start build is seen running, with the parameters it carries. |
| `WorkspaceStepLaws.WorkspaceBuilt` | src/coder_manager/tasks/workspace/_remote.py:182-213 | A build seen running applies the current revision. |
| `WorkspaceStepLaws.WorkspaceUnchanged` | src/coder_manager/tasks/workspace/_remote.py:182-213 | Without a build the revisions stay; before either nothing ends. |
| `WorkspaceStepLaws.DeleteBuildStored` | src/coder_manager/tasks/workspace/delete/step_01_delete_workspace.py:30-87 | The identifiers of the delete build are stored before the wait. |
| `WorkspaceStepLaws.DeletionObserved` | src/coder_manager/tasks/workspace/delete/step_01_delete_workspace.py:30-87 | The deletion is observed only after the snapshot. |
| `WorkspaceStepLaws.WorkspaceErased` | src/coder_manager/tasks/workspace/delete/step_01_delete_workspace.py:30-87 | The row goes exactly when the remote workspace is gone. |
| `Selections.SelectedAreSynchronised` | src/coder_manager/tasks/template/sync/step_01_sync_template.py:35-75 | Over every run: when a synchronisation succeeds, each assignment that was created and settled on a started, settled instance when the targets were read carries the fetched commit at the current revision. |
| `Selections.DepartingAccountsAreUnexpected` | src/coder_manager/tasks/instance/update/step_02_cleanup_users.py:87-127 | Over every run: when the end of an update removes a member, that attempt did not expect its account, unless another row of the instance that was no taken departure kept the name. |
| `Selections.CleanupHolds` | src/coder_manager/tasks/instance/update/step_02_cleanup_users.py:41-84 | While a cleanup is current the members of its instance change their status only, over every run. |
| `Selections.FailedCreationIsDroppable` | src/coder_manager/repositories/instances.py:218-275 | When the owner of a creation without a password reports a failure and no assignment holds the instance, the next deletion request is accepted and starts behind the removal of workspaces. |
| `Catalogue.ReachableDefinitions` | src/coder_manager/repositories/workspaces.py:394-412 | In every reachable state the definitions of a template have distinct names and are exactly its user parameters. |
| `System.ReachableIsGood` | src/coder_manager/tasks/common/execution.py:85-362 | All invariants of the system hold after every sequence of requests, worker acts, deliveries and reclaims from the empty database. |
| `System.RunEvolves` | src/coder_manager/tasks/common/execution.py:85-362 | Over every run of the whole system the tables of the protocol move only forward: identifiers and attempts are not reused, steps do not go back, finished jobs stay as they are, and no row returns to a job it has left. |
| `Soundness.StrangersStutter` | src/coder_manager/tasks/common/execution.py:148-168 | An act of a worker that never received its token changes nothing. |
| `Liveness.NothingComesBack` | src/coder_manager/tasks/common/execution.py:104-145 | Over runs of the whole system a successful or superseded job is never claimed, redelivered or owned again. |
| `Liveness.NothingGetsStuck` | src/coder_manager/tasks/retry_job_executions.py:27-62 | In every reachable state of the whole system one scan with a late enough threshold, run as single reclaims, lets the next delivery of a job still referenced by its resource start an attempt that owns it. |
| `Liveness.AtMostThreeSteps` | src/coder_manager/tasks/common/execution.py:171-208 | Over every run of the whole system no job changes its step more than three times. |
| `Liveness.BootstrapNeverUpdates` | src/coder_manager/tasks/instance/create/step_03_bootstrap_admin.py:102-110 | No reachable job named `instance.update` stands at the bootstrap step. |
| `Theorems.JobsAgree` | src/coder_manager/tasks/common/execution.py:85-101 | The agreement between rows and jobs, for every resource of the whole system. |
| `Theorems.JobsAreConsistent` | src/coder_manager/repositories/template_assignments.py:298-326 | The consistency check of assignment requests rejects no reachable assignment. |
| `Theorems.RejectedForEver` | src/coder_manager/tasks/common/execution.py:148-168 | Fencing over whole runs of the system. |
| `Theorems.AtMostOneOwner` | src/coder_manager/tasks/common/execution.py:148-168 | At most one issued token is accepted per resource in every reachable state of the system. |
| `Theorems.InterlockHolds` | src/coder_manager/repositories/templates.py:249-285 | While a template synchronises no assignment or workspace of it is unfinished; while an assignment is unfinished no workspace of its pair is. |
| `Interlock.TemplateFrozen` | src/coder_manager/repositories/template_parameters.py:238-271 | Over every event: a template row changes only while neither a synchronisation of it nor one of its assignments is unfinished, and its source only while no workspace of it is. |
| `Homes.NoOrphans` | src/coder_manager/tasks/instance/update/step_01_update_instance.py:202-240 | Settling members leaves no workspace without its owner. |
| `Homes.FinalizeKeepsWorkspaces` | src/coder_manager/tasks/instance/update/step_01_update_instance.py:202-272 | The final transaction of an update cascades no workspace away, whoever holds the token. |
| `Homes.DropTemplateMeetsNoWorkspace` | src/coder_manager/repositories/templates.py:186-212 | Deleting a template never meets a workspace: the refusal for referenced templates is unreachable and an accepted deletion takes no workspace along. |
| `Theorems.CreatedIsPublished` | src/coder_manager/repositories/workspaces.py:447-468 | Every created assignment has a known remote template. |
| `Theorems.WorkspacesAreHome` | src/coder_manager/repositories/workspaces.py:155-202 | Every reachable workspace has a created or deleting assignment of its pair with a known remote template, and an owner row that is not being deleted. |
| `Theorems.NothingCascades` | src/coder_manager/repositories/members.py:153-184 | In every reachable state neither the end of an update nor the deletion of a template takes a workspace along. |
| `Theorems.InstanceAttemptHasAll` | src/coder_manager/tasks/instance/start/step_01_start_instance.py:61-64 | A current attempt on an instance always finds the instance, its allocation and, where the step needs them, the admin password and the Argo CD name. |
| `Theorems.WorkspaceAttemptHasAll` | src/coder_manager/tasks/workspace/_remote.py:65-130 | A current attempt on a workspace never meets a missing prerequisite of its snapshot. |
| `Theorems.TemplateAttemptHasAll` | src/coder_manager/tasks/template/_sync.py:317-376 | A current publication or removal finds its row, and every assignment it reaches belongs to an existing instance with a stored password. |
| `Theorems.PasswordStays` | src/coder_manager/tasks/instance/create/step_03_bootstrap_admin.py:71-82 | A stored admin password is never cleared or replaced, by any event. |
| `Theorems.OneBootstrapPassword` | src/coder_manager/tasks/instance/create/step_03_bootstrap_admin.py:39-116 | Over every run all bootstrap calls for one instance carry the same password, and what the instance stores is that password. |
| `Theorems.OnlyDeletionErases` | src/coder_manager/tasks/instance/delete/step_04_remove_local_configuration.py:25-47 | An instance row disappears through the last deletion step of its own current job and through nothing else. |
| `Theorems.DeletionInOrder` | src/coder_manager/tasks/instance/delete/step_02_remove_instance.py:27-61 | When the row disappears, its own job has, in this order, removed the workspaces (or the creation was abandoned without ever storing a password), seen Argo CD answer absent and dropped the schema; the allocation is there until then. |
| `Theorems.CondemnedStays` | src/coder_manager/repositories/instances.py:218-275 | Once accepted, a deletion is never undone by any event while the instance exists. |
| `Theorems.DeletionRefuses` | src/coder_manager/repositories/instances.py:277-402 | While an instance is being deleted every request on it, its members, its assignments or its workspaces is refused and changes nothing. |
| `DeletionOrder.ThirdMilestone` | src/coder_manager/tasks/instance/delete/step_03_remove_schema.py:26-38 | The progress counter of a deletion is backed by the three observations at increasing positions of the history. |
| `Campaigns.FenceIsOwnership` | src/coder_manager/tasks/template/_sync.py:317-415 | The fence of the deployment writes, which repeats the ownership test in its own words, accepts exactly the current attempts of the two publishing steps on their own targets. |
| `Campaigns.PublicationComplete` | src/coder_manager/tasks/template/sync/step_01_sync_template.py:35-75 | From the campaign invariant: a publication that ends has settled every target at the fetched commit. |
| `Campaigns.CreationIsPublished` | src/coder_manager/tasks/template/create/step_01_create_template.py:38-66 | An assignment becomes created only in the step that has published it. |
| `Theorems.SynchronisedTargets` | src/coder_manager/tasks/template/sync/step_01_sync_template.py:35-75 | When a synchronisation succeeds, every assignment it selected, which `PublicationLaws.TargetsSelected` determines, holds a successful deployment of the commit it fetched at the current revision of the template, through partial failures, retries and the already-applied shortcut. |
| `Theorems.CompletedWorkspace` | src/coder_manager/tasks/workspace/_remote.py:182-213 | The applied revision never exceeds the desired one; a completion leaves the current revision applied, and when it sets it, the build this attempt saw running carried exactly the stored parameters of that revision restricted to the names defined at the snapshot. |
| `Revisions.CompletionApplies` | src/coder_manager/tasks/workspace/update/step_01_update_workspace.py:58-97 | The same for one completion from the invariant on builds, with the row parameters and revision untouched. |
| `Revisions.RevisionTellsParameters` | src/coder_manager/repositories/workspaces.py:204-258 | The revision of a workspace only grows, and two states of one row have the same revision exactly when they have the same parameters. |
| `Theorems.PoolWithinCapacity` | src/coder_manager/repositories/managed_databases.py:135-197 | In every run no database exceeds its capacity, and a creation is refused for capacity exactly when every database is full. |
| `Theorems.CarefulRunCovers` | src/coder_manager/tasks/instance/update/step_01_update_instance.py:122-199 | In runs whose member claims are harmless the invariant on member changes holds. |
| `Theorems.NoMemberChangeIsLost` | src/coder_manager/tasks/instance/update/step_01_update_instance.py:202-272 | In those runs an update settles only members whose current name and role were in a policy accepted by Argo CD in the same job, and it ends either with every member settled or by handing the instance to a fresh update in the same transaction. |
| `Theorems.OnlyUpdatesSettle` | src/coder_manager/tasks/instance/update/step_01_update_instance.py:202-272 | A member becomes settled by the final transaction of an update and by no other event. |
| `LostMembers.LosesExactly` | src/coder_manager/tasks/instance/update/step_01_update_instance.py:122-169 | Exactly when the code keeps this promise: after a claim of the members, by whatever worker, some continuation without another harmful claim breaks it if and only if the claim was harmful, that is, unless the pending members are carried by the policy that the current attempt read or by policies accepted in its job, or are claimed by the current cleanup, as the stage of the update needs. |
| `LostMembers.FirstLoss` | src/coder_manager/tasks/instance/update/step_01_update_instance.py:122-169 | The same over runs: a run of harmless claims has lost nothing, and its next claim loses a change exactly when it is harmful. |
| `Coverage.TakingCovers` | src/coder_manager/tasks/instance/update/step_01_update_instance.py:135-162 | Claiming the members keeps the invariant on member changes if and only if the claim is harmless, at every stage of the update. |
| `Coverage.CurrentIsHarmless` | src/coder_manager/tasks/instance/update/step_01_update_instance.py:122-169 | The claim of a current attempt is harmless. |
| `Coverage.NothingPendingIsHarmless` | src/coder_manager/tasks/instance/update/step_01_update_instance.py:135-162 | Any claim is harmless while no member of the instance is pending. |
| `Accounts.CleanupDeletesOnlyDepartures` | src/coder_manager/tasks/instance/update/step_02_cleanup_users.py:41-127 | Over every run, stale claims included, no account is deleted whose name belongs to a member that stays or whose deletion was queued later. |
| `Coverage.SettledWasAccepted` | src/coder_manager/tasks/instance/update/step_01_update_instance.py:218-240 | The settled members were in an accepted policy and only their status changes. |
| `Coverage.EndsSettledOrRestaged` | src/coder_manager/tasks/instance/update/step_01_update_instance.py:236-272 | Success with every member settled, or a fresh pending update. |
| `StaleClaim.StaleClaimLosesAMember` | src/coder_manager/tasks/instance/update/step_01_update_instance.py:135-162 | A run from the empty database with one harmful claim, before the cleanup: the update settles a member that no accepted policy names. |
| `StaleClaim.StaleClaimStrandsAMember` | src/coder_manager/tasks/instance/update/step_01_update_instance.py:135-162 | A run from the empty database with one harmful claim, during the cleanup: the update ends in success, no job is left, and a member stays unsettled. |
| `Publication.CrashRecovery` | src/coder_manager/tasks/template/_sync.py:424-571 | Over every run of attempts with one commit and revision, crashing anywhere: the own template is never rejected as foreign, no second template of the name exists, and a finished attempt leaves the version of its goal, imported and not archived, active in the stored template. |
| `Publication.AttemptStarts` | src/coder_manager/tasks/template/_sync.py:208-215 | An attempt for the stored commit and revision keeps the stored version, one for another forgets it; the template identifier is kept. |
| `Publication.LookupAnswers` | src/coder_manager/tasks/template/_sync.py:424-450 | The stored template is recovered as long as nobody else has the name; a named one is recovered only through a stored identifier, and any other is rejected. |
| `Publication.VersionFoundOrMade` | src/coder_manager/tasks/template/_sync.py:497-522 | The version of this name in the template is reused, else a stored version that still exists, and only then one is made. |
| `Publication.AwaitedIsUsable` | src/coder_manager/tasks/template/_sync.py:524-533 | Only a successful import goes on, and an archived version is brought back first. |
| `Publication.PublishesVersion` | src/coder_manager/tasks/template/_sync.py:535-549 | A known template gets the version activated; without one a template of the name is made with it. |
| `Publication.RetrySucceeds` | src/coder_manager/tasks/template/_sync.py:478-571 | From any such state a retry whose import succeeds runs to the end. |
| `Publication.RejectedExactly` | src/coder_manager/tasks/template/_sync.py:211-216 | With another commit or revision the retry is rejected as foreign exactly when a template of the name exists whose identifier was not stored yet. |
| `Publication.CrashBeforeStoring` | src/coder_manager/tasks/template/_sync.py:535-547 | Such a state is one crash away from a clean start. |
| `Parameters.ResolveParameters` | src/coder_manager/repositories/workspaces.py:394-445 | The two loops compute the specified resolution, errors included. |
| `Parameters.StoredExactly` | src/coder_manager/repositories/workspaces.py:420-445 | What an accepted request stores, without reference to the loops: every supplied value; of the other defined names the stored one if it is immutable, else the default, else nothing; and the stored values of names without a definition. |
| `Parameters.RefusedExactly` | src/coder_manager/repositories/workspaces.py:413-443 | Exactly when a request is refused and as what: a supplied name without a definition that does not repeat what is stored, a required value that is missing, another value for a frozen one; of several faults in the definitions the first counts. |
| `Parameters.ResolveMeaning` | src/coder_manager/repositories/workspaces.py:394-445 | A request is accepted exactly when every supplied name is known and no definition refuses; the result holds exactly the chosen values and the old values without a definition. |
| `Parameters.RequiredPresent` | src/coder_manager/repositories/workspaces.py:423-431 | Every required name is present in an accepted result. |
| `Parameters.EchoIsStable` | src/coder_manager/repositories/workspaces.py:204-258 | Resolving a result against itself under the same definitions returns it unchanged, so echoing a snapshot schedules no job. |
| `Parameters.ImmutableForever` | src/coder_manager/repositories/workspaces.py:432-443 | Over whole histories of definitions and updates, a value whose definition is immutable whenever it exists never changes or disappears, even when the definition is deleted and created again. |
| `Parameters.MutableCanChange` | src/coder_manager/repositories/workspaces.py:420-431 | One mutable definition is enough to change any stored value. |
| `Placement.Choose` | src/coder_manager/repositories/instances.py:136-171 | The minimum over the free databases is the specified place, and none is found exactly when all are full. |
| `Placement.PlaceIsLeast` | src/coder_manager/repositories/instances.py:155-171 | The place is free, no free database is less utilised, and of the equally utilised ones it is the first by name. |
| `Placement.PlaceIffFree` | src/coder_manager/repositories/instances.py:136-171 | A place exists exactly when some database has a free slot. |
| `Placement.CreationsStayBalanced` | src/coder_manager/repositories/instances.py:150-171 | Creations keep every capacity and the pairwise balance. |
| `Placement.EmptyPoolBalance` | src/coder_manager/repositories/instances.py:150-171 | From an empty fixed pool, `(a_d - 1) * cap_e <= a_e * cap_d` for every used database d and every database e. |
| `Inventory.AllWorkspaces` | src/coder_manager/domains/coder/service.py:407-439 | The paging loop computes the specified scan. |
| `Inventory.ScanAdvances` | src/coder_manager/domains/coder/service.py:407-439 | With pages that pass the length check the scan terminates and never reports missing progress. |
| `Inventory.ScanComplete` | src/coder_manager/domains/coder/service.py:407-439 | A finished scan holds exactly `count` distinct workspaces, each of them answered during the scan. |
| `Inventory.StableScan` | src/coder_manager/domains/coder/service.py:407-439 | Against a stable server the scan returns the inventory. |
| `Inventory.ScanFails` | src/coder_manager/domains/coder/service.py:407-439 | A scan fails only for a request without a valid answer, for two answers that count differently, or for a workspace that was listed at two places. |
| `Inventory.PageLength` | src/coder_manager/domains/coder/client.py:258-261 | A page holds what is left of the count, at most one hundred workspaces. |
| `Inventory.EmptyScan` | src/coder_manager/domains/coder/service.py:407-439 | An empty result is one request whose count was zero. |
| `WorkspaceRemoval.SubmitDeletes` | src/coder_manager/domains/coder/service.py:262-298 | The submission loop computes the specified sweep. |
| `WorkspaceRemoval.SweepMeaning` | src/coder_manager/domains/coder/service.py:262-298 | A successful sweep makes exactly one accepted submission for each workspace without an active build and awaits every build that is not already deleted. |
| `WorkspaceRemoval.SubmittedExactly` | src/coder_manager/domains/coder/service.py:262-298 | Per scan each workspace is exactly one of: its delete is awaited, its other active build is awaited, or one delete is submitted for it, without repetition and for nobody else. |
| `WorkspaceRemoval.WaitDeletions` | src/coder_manager/domains/coder/service.py:456-485 | The polling loop ends by the deadline and returns only after seeing every blocking build no longer at work, waiting to start included, and every delete finished; it fails only at the deadline or for an answer that is missing, is no delete, or is a failed one. |
| `WorkspaceRemoval.DeleteWorkspaces` | src/coder_manager/domains/coder/service.py:243-375 | The outer loop ends by the deadline, returns only after a complete scan without a chosen workspace, and answers only workspaces that a scan listed and chose and that were dealt with in the way that fits them; every failure is explained by the clock or by an answer. |
| `WorkspaceRemoval.EmptiedMeansEmpty` | src/coder_manager/domains/coder/service.py:243-300 | For the deletion of all workspaces that last scan counted nothing. |
| `WorkspaceStops.ActiveWorkspaces` | src/coder_manager/domains/coder/service.py:216-240 | Answers only workspaces listed under an observed status, and nothing only when no running, starting or stopping workspace was counted. |
| `WorkspaceStops.SubmitStops` | src/coder_manager/domains/coder/service.py:98-138 | Submits stops for the running and starting workspaces and awaits only builds that were already stopping or were accepted just now and have not stopped; it fails only for an answer that is missing, is no stop or is a failed one. |
| `WorkspaceStops.WaitStops` | src/coder_manager/domains/coder/service.py:187-213 | Returns only when every awaited build was seen stopped, and fails only at the deadline or for a bad answer. |
| `WorkspaceStops.StopActiveWorkspaces` | src/coder_manager/domains/coder/service.py:98-138 | Returns only after one scan that counted no active workspace, and answers only workspaces that were listed and whose stop was seen finished. |
| `HelmArgs.UnescapeEscape` | src/coder_manager/domains/argocd/applications.py:154-161 | Undoing the backslash escapes recovers every value, whatever characters it holds. |
| `HelmArgs.EscapeFirst` | src/coder_manager/domains/argocd/applications.py:154-161 | Character by character: a backslash is doubled, a comma gets a backslash, everything else stays. |
| `HelmArgs.BuildHelmArguments` | src/coder_manager/domains/argocd/applications.py:57-99 | The assembled text, read back, has exactly one argument for each name: the users, sorted and joined, under `policy.config.allowedUsernames`, the administrators under `policy.config.adminUsernames`, and every other name with its own value. |
| `HelmArgs.UsersExactly` | src/coder_manager/domains/argocd/applications.py:225-237 | The built-in and the default administrators are always in both lists; a member is among the users, and among the administrators exactly by role. |
| `HelmArgs.TextLines` | src/coder_manager/domains/argocd/applications.py:57-99 | The lines of the text: additional values first, then the namespace, then one argument a line. |
| `HelmArgs.PrintedExactly` | src/coder_manager/domains/argocd/applications.py:154-161 | The assembly fails exactly for a value with a line break. |
| `HelmArgs.ReadBack` | src/coder_manager/domains/argocd/applications.py:57-99 | Splitting the text on newlines and undoing the escapes recovers every name and value exactly. |
| `HelmArgs.ArgumentsAreNamed` | src/coder_manager/domains/argocd/applications.py:57-99 | The names the payload uses are readable names, so the text above can be read back. |
| `HelmArgs.MemberValues` | src/coder_manager/domains/argocd/applications.py:225-237 | The two lists are the sorted users and administrators. |
| `HelmArgs.UsernamesReadBack` | src/coder_manager/domains/argocd/applications.py:225-237 | Administrators are users, and splitting the decoded values at commas recovers both sorted lists, given that no username holds a comma. |
| `HelmArgs.SplitUndoesJoin` | src/coder_manager/schemas/member.py:21-37 | A joined list splits back exactly when it is not empty and no element holds the separator, which is what the username schema guarantees. |
| `HelmArgs.MergeConverges` | src/coder_manager/domains/argocd/applications.py:164-200 | Only an Application without metadata is rejected; otherwise the update keeps version, kind, foreign metadata and foreign labels, takes the desired name, labels and spec, drops the retired labels, and is idempotent. |
| `ApplicationClient.EnsureApplication` | src/coder_manager/domains/argocd/client.py:84-163 | For all answers: creation only after an observed absence, replacement and synchronisation only after a look at an idle Application of this instance, and the four outcomes exactly when the last exchange says so. |
| `ApplicationClient.Converge` | src/coder_manager/domains/argocd/client.py:125-163 | The second half of the same conversation. |
| `ApplicationClient.DeleteApplication` | src/coder_manager/domains/argocd/client.py:198-232 | Completed exactly when the last answer is an absence; an accepted deletion alone, a busy or a leaving Application is deferred, an idle one that is not leaving is always asked to go; a foreign one is never deleted. |
| `InstanceRepository.Create` | src/coder_manager/repositories/instances.py:130-216 | Reserves the place and stages the creation, or refuses and changes nothing. |
| `InstanceRepository.RequestDeletion` | src/coder_manager/repositories/instances.py:218-275 | Accepts reconciled instances and failed creations, and skips workspace removal exactly for a failed creation without a stored password. |
| `InstanceRepository.RequestSync` | src/coder_manager/repositories/instances.py:277-330 | Stages an update and retries exactly the failed members of the instance. |
| `InstanceRepository.RequestPower` | src/coder_manager/repositories/instances.py:332-402 | Stages a start or a stop under the shared guard. |
| `InstanceRepository.HasActiveAssignment` | src/coder_manager/repositories/instances.py:404-432 | Finds an unfinished assignment of the instance or an unfinished template behind one. |
| `InstanceRepository.UploadProvider` | src/coder_manager/repositories/instance_kubernetes.py:54-100 | Stages an update for an idle instance, without looking at template assignments. |
| `InstanceRepository.MemberRefusal` | src/coder_manager/repositories/members.py:216-264 | The guard of the member requests. |
| `InstanceRepository.StageUpdate` | src/coder_manager/repositories/members.py:266-292 | A change joins a pending or running update, or stages a fresh one. |
| `InstanceRepository.CreateMember` | src/coder_manager/repositories/members.py:103-124 | The new member row and the staged update. |
| `InstanceRepository.UpdateRole` | src/coder_manager/repositories/members.py:126-151 | An unchanged role schedules nothing; a changed one is pending. |
| `InstanceRepository.RequestMemberDeletion` | src/coder_manager/repositories/members.py:153-184 | Refused for protected names, unfinished members and owners of workspaces. |
| `TemplateRepository.Create` | src/coder_manager/repositories/templates.py:109-127 | A template is inserted at rest. |
| `TemplateRepository.Update` | src/coder_manager/repositories/templates.py:129-184 | The source is replaced and the finished job discarded, behind the three guards. |
| `TemplateRepository.Delete` | src/coder_manager/repositories/templates.py:186-212 | The template disappears with its finished job. |
| `TemplateRepository.RequestSync` | src/coder_manager/repositories/templates.py:214-247 | The finished job is replaced by a fresh synchronisation. |
| `TemplateRepository.ActiveAssignments` | src/coder_manager/repositories/templates.py:249-268 | Decides the guard on assignments. |
| `TemplateRepository.ActiveWorkspaces` | src/coder_manager/repositories/templates.py:270-285 | Decides the guard on workspaces. |
| `TemplateRepository.CreateParameter` | src/coder_manager/repositories/template_parameters.py:104-157 | A system value advances the revision, a user definition does not. |
| `TemplateRepository.UpdateParameter` | src/coder_manager/repositories/template_parameters.py:159-226 | Only a rotated system value advances the revision; type and name cannot change. |
| `TemplateRepository.DeleteParameter` | src/coder_manager/repositories/template_parameters.py:228-236 | Deleting a system parameter advances the revision. |
| `TemplateRepository.Put` | src/coder_manager/repositories/template_assignments.py:101-160 | Creates the pair or answers the running job. |
| `TemplateRepository.RequestDeletion` | src/coder_manager/repositories/template_assignments.py:162-234 | Stages the removal of a created assignment without unfinished workspaces. |
| `TemplateRepository.MutationRefusal` | src/coder_manager/repositories/template_assignments.py:278-296 | The guard on the instance and the template. |
| `TemplateRepository.ConsistentJob` | src/coder_manager/repositories/template_assignments.py:298-326 | Decides the consistency check. |
| `WorkspaceRepository.Create` | src/coder_manager/repositories/workspaces.py:155-202 | Inserts the workspace with its resolved parameters at revision zero. |
| `WorkspaceRepository.Update` | src/coder_manager/repositories/workspaces.py:204-258 | Bumps the revision exactly when the parameters change and stages no job when nothing does. |
| `WorkspaceRepository.RequestDeletion` | src/coder_manager/repositories/workspaces.py:260-283 | Stages the deletion behind the shared guard. |
| `WorkspaceRepository.RequireRemoteTemplate` | src/coder_manager/repositories/workspaces.py:447-468 | Decides whether a created, finished assignment with a known remote template exists. |
| `WorkspaceRepository.UpdateDatabase` | src/coder_manager/repositories/managed_databases.py:135-177 | Refuses a capacity below the allocations. |
| `WorkspaceRepository.DeleteDatabase` | src/coder_manager/repositories/managed_databases.py:179-197 | Refuses a database in use. |
| `InstanceTasks.FinishApplication` | src/coder_manager/tasks/instance/create/step_02_create_instance.py:32-95 | Stores the name and the started state with the advance. |
| `InstanceTasks.PrepareBootstrap` | src/coder_manager/tasks/instance/create/step_03_bootstrap_admin.py:39-68 | One candidate is committed before it is used and reloaded afterwards. |
| `InstanceTasks.FinishBootstrap` | src/coder_manager/tasks/instance/create/step_03_bootstrap_admin.py:71-82 | Promotes the candidate in the completing transaction and clears it. |
| `InstanceTasks.ClaimMembers` | src/coder_manager/tasks/instance/update/step_01_update_instance.py:122-169 | Marks the unsettled members and reads the policy, without checking ownership. |
| `InstanceTasks.FailMembers` | src/coder_manager/tasks/instance/update/step_01_update_instance.py:172-184 | With an owned failure exactly the members still held by the attempt fail. |
| `InstanceTasks.DeferMembers` | src/coder_manager/tasks/instance/update/step_01_update_instance.py:187-199 | With an owned deferral exactly those members return to pending. |
| `InstanceTasks.FinishPolicy` | src/coder_manager/tasks/instance/start/step_01_start_instance.py:39-98 | Stores the name and the started state with the advance. |
| `InstanceTasks.ClaimCleanup` | src/coder_manager/tasks/instance/update/step_02_cleanup_users.py:87-127 | Marks the reconciled and failed members and builds the expected names, as `StepLaws.CleanupTaken` says in columns. |
| `InstanceTasks.CleanupAccounts` | src/coder_manager/domains/coder/service.py:74-95 | Over the accounts that Coder lists: succeeds exactly when the claim is current and Coder deletes every one that is neither expected nor protected; they are deleted in order, and a failure leaves a prefix of them deleted. |
| `InstanceTasks.DeletionIsTheAct` | src/coder_manager/domains/coder/service.py:90-94 | Each turn of that loop is the transaction that the theorems are about. |
| `InstanceTasks.SettleMembers` | src/coder_manager/tasks/instance/update/step_01_update_instance.py:218-235 | The loop deletes or settles exactly the claimed running members. |
| `InstanceTasks.FinalizeUpdate` | src/coder_manager/tasks/instance/update/step_01_update_instance.py:202-272 | The final transaction, with a fresh update exactly when a member is pending. |
| `InstanceTasks.FinishStop` | src/coder_manager/tasks/instance/stop/step_02_stop_instance.py:23-56 | Stores the stopped state with the completion. |
| `InstanceTasks.RestoreApplication` | src/coder_manager/tasks/instance/delete/step_01_remove_workspaces.py:123-142 | Stores the restored Application of an owned deletion. |
| `InstanceTasks.FinishRemoveInstance` | src/coder_manager/tasks/instance/delete/step_02_remove_instance.py:27-61 | Stores the stopped state with the advance, only after the confirmed absence. |
| `InstanceTasks.RemoveLocal` | src/coder_manager/tasks/instance/delete/step_04_remove_local_configuration.py:25-47 | All rows of the instance disappear in one transaction. |
| `TemplateTasks.LockTarget` | src/coder_manager/tasks/template/_sync.py:317-376 | The fence answers lost, missing or locked, exactly as the rows say. |
| `TemplateTasks.PrepareDeployment` | src/coder_manager/tasks/template/_sync.py:158-234 | Retargets the deployment, clearing a version of another source, or reports it applied. |
| `TemplateTasks.StoreIds` | src/coder_manager/tasks/template/_sync.py:260-286 | Stores the identifiers behind the fence. |
| `TemplateTasks.FinishDeployment` | src/coder_manager/tasks/template/_sync.py:289-314 | Records the outcome behind the fence. |
| `TemplateTasks.SyncTarget` | src/coder_manager/tasks/template/_sync.py:453-571 | On a target the attempt holds: published exactly when the instance is ready and it carries the source or Coder imports it, with exactly the deployment row that the answer calls for; a target whose rows are gone fails, a lost claim stops the worker, and neither writes. |
| `TemplateTasks.ImportTarget` | src/coder_manager/tasks/template/_sync.py:477-571 | What Coder answered is stored before the outcome, and the outcome is its answer. |
| `TemplateTasks.SyncTargets` | src/coder_manager/tasks/template/sync/step_01_sync_template.py:55-69 | One failed target does not keep the others from being published; the loop stops only when the claim is lost. |
| `TemplateTasks.SyncTemplate` | src/coder_manager/tasks/template/sync/step_01_sync_template.py:47-75 | A current attempt gives every target exactly the row its answer calls for, counts exactly the failing targets, and completes the job exactly when there is none; an attempt that does not own its job writes nothing. |
| `WorkspaceTasks.StoreRemoteIds` | src/coder_manager/tasks/workspace/_remote.py:160-179 | Stores the identifiers of an owned attempt. |
| `WorkspaceTasks.CompleteWorkspace` | src/coder_manager/tasks/workspace/_remote.py:182-213 | Sets the applied revision exactly when a build was awaited. |
| `WorkspaceTasks.FinishDelete` | src/coder_manager/tasks/workspace/delete/step_01_delete_workspace.py:30-87 | The row disappears with the completion. |
| `WorkspaceTasks.RemoveLocalAssignment` | src/coder_manager/tasks/template/delete/step_01_delete_template.py:100-128 | The assignment and the workspaces of its pair disappear in one transaction. |

## Left out

- Theorems.NoMemberChangeIsLost: holds for runs without harmful claims, because `_claim_members` does not check ownership; `LostMembers.LosesExactly` shows that this condition is exact.
- HelmArgs.UsernamesReadBack: assumes usernames without commas, which the member schema and the parser of the default administrators enforce.
- WorkspaceStops.StopActiveWorkspaces: the scan by status has no bound of its own on the answered count; a ghost bound on the counts is assumed so that it ends.
- WorkspaceRemoval.DeleteWorkspaces: starts after the wait for Coder to become reachable, and assumes that the monotonic clock advances between two looks at it.
- TemplateTasks.SyncTarget: the remote calls of one target are one answer, an import or a failure; `Publication` models them call by call.
- TemplateTasks.SyncTemplate: a run of the loop without interference; interleavings with other workers and requests are what `Campaigns` is about.
- Find: relies on the unique constraint on the pair of an assignment, which `Tables.Linked` shows for every reachable state.
- WorkspaceSteps.ObserveRunning: that only a start build can be seen running is taken from Coder; the wait itself looks at the status alone.
- Transactions are atomic and serialisable: row locks motivate this for the locked rows, unlocked reads across rows are taken to be serialisable too; lock order and deadlocks are not modelled.
- Identifiers: one counter stands for uuid4, so identifiers never repeat.
- Encryption: passwords and system values are held in clear, since encryption and decryption are inverse to each other; Base64 likewise.
- Images, modules, names and quotas of requests: their checks are flags of the requests (`valid`, `unique`, `compatible`).
- Utilisation is compared exactly by cross-multiplication instead of in floating point.
- The transport: HTTP, JSON, TLS, timeouts and authentication; each call answers arbitrarily within the check the client makes.
- Git fetch, archives and templates on disk: the fetched commit is an arbitrary answer.
- Remote effects of a worker that has lost its claim: only local writes are fenced, so theorems speak about what the current attempt observed.
- `update_action` of the repositories: nothing calls it, and it would break the agreement of rows and jobs.
- The daily stop of workspaces and its dispatcher: best effort, writes no row.
- The wait for Coder to become reachable before a deletion, and what its account listing answers: arbitrary observations.
- The schema creation, account deletion and schema drop effects themselves: one fact of the history each.
- InstanceTasks.CleanupAccounts: a run of the loop without interference; deletions interleaved with other workers and requests are what `Accounts` and `Selections` are about.
- Parameters.StoredExactly: takes the definitions by distinct names, which `Catalogue.ReachableDefinitions` shows for every reachable state.
- Log redaction, pagination of local lists, catalogue filters, image rows, OIDC, metrics, configuration and the Celery wiring.
