/** The rows of the manager's tables that every durable job touches.
    The four columns action, status, job_id and step are the same on instances, templates
    (whose status column is called sync_status), assignments and workspaces, and the protocol
    reads and writes nothing else of them; they are kept together in one table of `Life` rows. */
module Records {

  datatype Option<+T> = None | Some(value: T)

  datatype Status = Pending | Running | Success | Error

  datatype JobName =
    | InstanceCreate | InstanceUpdate | InstanceStart | InstanceStop | InstanceDelete
    | TemplateSync | AssignmentCreate | AssignmentDelete
    | WorkspaceCreate | WorkspaceUpdate | WorkspaceDelete
    | DatabaseSync

  datatype Action = Creating | Updating | Starting | Stopping | Deleting | Syncing | Created | Updated

  /** One constructor per registered step; the task name of a step is the step's own constructor. */
  datatype Step =
    | CreateSchema | CreateInstance | BootstrapAdmin
    | UpdateInstance | CleanupUsers
    | StartInstance
    | StopWorkspaces | StopInstance
    | RemoveWorkspaces | RemoveInstance | RemoveSchema | RemoveLocalConfiguration
    | CreateWorkspace | UpdateWorkspace | DeleteWorkspace
    | SyncDatabase | SyncTemplate | CreateTemplate | DeleteTemplate

  datatype Resource =
    | InstanceRow(id: nat) | TemplateRow(id: nat) | AssignmentRow(id: nat) | WorkspaceRow(id: nat)

  datatype Job = Job(
    name: JobName, task: Step, resource: Option<Resource>, step: Step,
    status: Status, attempt: nat, claimedAt: Option<int>)

  datatype Life = Life(action: Action, status: Status, job: Option<nat>, step: Option<Step>)

  /** The ownership token of one concrete attempt. */
  datatype Claim = Claim(job: nat, task: Step, step: Step, attempt: nat, resource: Option<Resource>)

  /** The protocol's tables. `claims` is the history of every token ever handed out and `nextId`
      stands for uuid4: every identifier in use is below it. */
  datatype Core = Core(jobs: map<nat, Job>, life: map<Resource, Life>, claims: set<Claim>, nextId: nat)

  predicate Unfinished(status: Status) {
    status != Success
  }

  predicate Busy(life: map<Resource, Life>, k: Resource) {
    k in life && Unfinished(life[k].status)
  }
}
