/** The durable job protocol: claim, heartbeat, advance, complete, defer, fail and reclaim,
    each one committed transaction. */
module Execution {
  import opened Records

  /** The action a resource shows while a job of this name owns it; a system job has none. */
  function ActionOf(name: JobName): Option<Action> {
    match name
    case InstanceCreate => Some(Creating)
    case InstanceUpdate => Some(Updating)
    case InstanceStart => Some(Starting)
    case InstanceStop => Some(Stopping)
    case InstanceDelete => Some(Deleting)
    case TemplateSync => Some(Syncing)
    case AssignmentCreate => Some(Creating)
    case AssignmentDelete => Some(Deleting)
    case WorkspaceCreate => Some(Creating)
    case WorkspaceUpdate => Some(Updating)
    case WorkspaceDelete => Some(Deleting)
    case DatabaseSync => None
  }

  predicate FitsResource(name: JobName, resource: Option<Resource>) {
    match name
    case InstanceCreate | InstanceUpdate | InstanceStart | InstanceStop | InstanceDelete =>
      resource.Some? && resource.value.InstanceRow?
    case TemplateSync => resource.Some? && resource.value.TemplateRow?
    case AssignmentCreate | AssignmentDelete => resource.Some? && resource.value.AssignmentRow?
    case WorkspaceCreate | WorkspaceUpdate | WorkspaceDelete => resource.Some? && resource.value.WorkspaceRow?
    case DatabaseSync => resource.None?
  }

  /** The steps a new job may start at. */
  predicate IsEntry(name: JobName, step: Step) {
    match name
    case InstanceCreate => step == CreateSchema
    case InstanceUpdate => step == UpdateInstance
    case InstanceStart => step == StartInstance
    case InstanceStop => step == StopWorkspaces
    case InstanceDelete => step == RemoveWorkspaces || step == RemoveInstance
    case TemplateSync => step == SyncTemplate
    case AssignmentCreate => step == CreateTemplate
    case AssignmentDelete => step == DeleteTemplate
    case WorkspaceCreate => step == CreateWorkspace
    case WorkspaceUpdate => step == UpdateWorkspace
    case WorkspaceDelete => step == DeleteWorkspace
    case DatabaseSync => step == SyncDatabase
  }

  /** The next step each task body passes to `advance_execution`. The bootstrap body advances only
      for a job named instance.update. */
  function NextStep(name: JobName, step: Step): Option<Step> {
    match step
    case CreateSchema => Some(CreateInstance)
    case CreateInstance => Some(BootstrapAdmin)
    case BootstrapAdmin => if name == InstanceUpdate then Some(CleanupUsers) else None
    case UpdateInstance => Some(CleanupUsers)
    case StartInstance => Some(CleanupUsers)
    case StopWorkspaces => Some(StopInstance)
    case RemoveWorkspaces => Some(RemoveInstance)
    case RemoveInstance => Some(RemoveSchema)
    case RemoveSchema => Some(RemoveLocalConfiguration)
    case _ => None
  }

  /** The workflow graph: the steps a job of this name can ever be at. */
  predicate InWorkflow(name: JobName, step: Step) {
    || IsEntry(name, step)
    || (name == InstanceCreate && (step == CreateInstance || step == BootstrapAdmin))
    || ((name == InstanceUpdate || name == InstanceStart) && step == CleanupUsers)
    || (name == InstanceStop && step == StopInstance)
    || (name == InstanceDelete && (step == RemoveSchema || step == RemoveLocalConfiguration))
  }

  /** How many times a job at this step can still advance, at most. */
  function StepsLeft(step: Step): nat {
    match step
    case RemoveWorkspaces => 3
    case RemoveInstance | CreateSchema => 2
    case RemoveSchema | CreateInstance | UpdateInstance | StartInstance | StopWorkspaces => 1
    case _ => 0
  }

  // ---------- reads ----------

  /** `_resource_matches`, on the row that `_resource_for_job` loads. */
  predicate ResourceMatches(core: Core, id: nat, job: Job) {
    || job.resource.None?
    || (&& job.resource.value in core.life
        && ActionOf(job.name).Some?
        && var row := core.life[job.resource.value];
           row.job == Some(id) && row.action == ActionOf(job.name).value && row.step == Some(job.step))
  }

  /** `owned_execution` returns the pair. */
  predicate Owned(core: Core, c: Claim) {
    && c.job in core.jobs
    && var job := core.jobs[c.job];
       && job.task == c.task && job.step == c.step && job.attempt == c.attempt && job.status == Running
       && ResourceMatches(core, c.job, job)
  }

  predicate Claimable(core: Core, id: nat, task: Step) {
    && id in core.jobs
    && core.jobs[id].task == task
    && (core.jobs[id].status == Pending || core.jobs[id].status == Error)
    && ResourceMatches(core, id, core.jobs[id])
  }

  // ---------- transactions ----------

  /** Write one job and mirror its status on the attached row, in one transaction. */
  function Write(core: Core, id: nat, job: Job, action: Option<Action>, step: Option<Step>): Core {
    var jobs := core.jobs[id := job];
    if job.resource.Some? && job.resource.value in core.life then
      var row := core.life[job.resource.value];
      var action' := if action.Some? then action.value else row.action;
      core.(jobs := jobs,
            life := core.life[job.resource.value := Life(action', job.status, row.job, step)])
    else
      core.(jobs := jobs)
  }

  function ClaimToken(core: Core, id: nat): Claim
    requires id in core.jobs
  {
    var job := core.jobs[id];
    Claim(id, job.task, job.step, job.attempt + 1, job.resource)
  }

  function ClaimExecution(core: Core, id: nat, task: Step, now: int): Core {
    if !Claimable(core, id, task) then core
    else
      var job := core.jobs[id];
      var core' := Write(core, id, job.(status := Running, attempt := job.attempt + 1, claimedAt := Some(now)),
                         None, Some(job.step));
      core'.(claims := core.claims + {ClaimToken(core, id)})
  }

  function HeartbeatExecution(core: Core, c: Claim, now: int): Core {
    if !Owned(core, c) then core
    else core.(jobs := core.jobs[c.job := core.jobs[c.job].(claimedAt := Some(now))])
  }

  function AdvanceExecution(core: Core, c: Claim, next: Step): Core {
    if !Owned(core, c) then core
    else
      var job := core.jobs[c.job].(task := next, step := next, status := Pending, claimedAt := None);
      Write(core, c.job, job, None, Some(next))
  }

  function CompleteExecution(core: Core, c: Claim, action: Option<Action>): Core {
    if !Owned(core, c) then core
    else Write(core, c.job, core.jobs[c.job].(status := Success, claimedAt := None), action, None)
  }

  /** Completion that deletes the owned resource. */
  function CompleteAndDelete(core: Core, c: Claim): Core {
    if !Owned(core, c) then core
    else
      var done := CompleteExecution(core, c, None);
      if core.jobs[c.job].resource.Some?
      then DeleteRows(done, {core.jobs[c.job].resource.value}) else done
  }

  function DeferExecution(core: Core, c: Claim): Core {
    if !Owned(core, c) then core
    else Write(core, c.job, core.jobs[c.job].(status := Pending, claimedAt := None), None, Some(c.step))
  }

  function FailExecution(core: Core, c: Claim): Core {
    if !Owned(core, c) then core
    else Write(core, c.job, core.jobs[c.job].(status := Error, claimedAt := None), None, Some(c.step))
  }

  /** The task name that `prepare_execution_retry` returns for redelivery. */
  function RetryTask(core: Core, id: nat, staleBefore: int): Option<Step> {
    if id !in core.jobs || core.jobs[id].status == Success then None
    else if !ResourceMatches(core, id, core.jobs[id]) then None
    else if core.jobs[id].status == Running
            && (core.jobs[id].claimedAt.None? || core.jobs[id].claimedAt.value > staleBefore) then None
    else Some(core.jobs[id].task)
  }

  function PrepareRetry(core: Core, id: nat, staleBefore: int): Core {
    if RetryTask(core, id, staleBefore).None? || core.jobs[id].status != Running then core
    else
      var job := core.jobs[id];
      Write(core, id, job.(status := Pending, claimedAt := None), None, Some(job.step))
  }

  /** A fresh job staged by an API request or by a finished update, superseding whatever the
      resource referenced before; a missing row is inserted. */
  function RequestJob(core: Core, k: Resource, name: JobName, step: Step): Core
    requires ActionOf(name).Some?
  {
    var id := core.nextId;
    core.(jobs := core.jobs[id := Job(name, step, Some(k), step, Pending, 0, None)],
          life := core.life[k := Life(ActionOf(name).value, Pending, Some(id), Some(step))],
          nextId := id + 1)
  }

  function SystemJob(core: Core): Core {
    var id := core.nextId;
    core.(jobs := core.jobs[id := Job(DatabaseSync, SyncDatabase, None, SyncDatabase, Pending, 0, None)],
          nextId := id + 1)
  }

  /** One identifier drawn for a row that has no job. */
  function DrawId(core: Core): Core {
    core.(nextId := core.nextId + 1)
  }

  /** A row inserted at rest. */
  function InsertIdle(core: Core, k: Resource, action: Action): Core {
    core.(life := core.life[k := Life(action, Success, None, None)])
  }

  /** `_discard_current_job`: the finished job of a template at rest is deleted. */
  function DiscardJob(core: Core, k: Resource, action: Action): Core
    requires k in core.life
  {
    var row := core.life[k];
    core.(jobs := if row.job.Some? then core.jobs - {row.job.value} else core.jobs,
          life := core.life[k := Life(action, Success, None, None)])
  }

  function DeleteRows(core: Core, ks: set<Resource>): Core {
    core.(life := core.life - ks)
  }
}
