/** The manager's whole state: the protocol's tables, the remaining columns of every resource table,
    the tables without a lifecycle, the private progress of every worker, and the log of what the
    workers observed or did outside the database. */
module Store {
  import opened Records
  import opened Execution
  import Parameters

  datatype Role = User | Admin

  /** Passwords are held in clear: encryption and decryption are inverse to each other. */
  datatype Instance = Instance(
    password: Option<string>, candidate: Option<string>, argoName: Option<string>,
    started: bool, provider: bool)

  datatype Source = Source(displayName: string, gitUrl: string, sourcePath: string, branch: string)

  datatype Template = Template(
    source: Source, revision: nat,
    systemValues: map<string, string>, userParameters: map<string, Parameters.Definition>)

  datatype Deployment = Deployment(
    status: Status, templateId: Option<nat>, versionId: Option<nat>,
    targetCommit: Option<string>, targetRevision: Option<nat>,
    appliedCommit: Option<string>, appliedRevision: Option<nat>)

  datatype Assignment = Assignment(template: nat, instance: nat, deployment: Option<Deployment>)

  datatype Workspace = Workspace(
    name: string, template: nat, instance: nat, member: nat,
    parameters: map<string, string>, revision: nat, applied: Option<nat>,
    remoteId: Option<nat>, buildId: Option<nat>)

  datatype Member = Member(instance: nat, username: string, role: Role, action: Action, status: Status)

  datatype Database = Database(capacity: nat, rank: nat)

  /** What one worker holds between its transactions; each constructor is a point of a step's body. */
  datatype Local =
    | Started
    // update step 1 and the start step: the policy read from the member rows
    | PolicyRead(claimed: set<nat>, policy: set<(string, Role)>)
    | PolicyAccepted(claimed: set<nat>, policy: set<(string, Role)>)
    // update step 2
    | CleanupRead(claimed: set<nat>, expected: set<string>, argoName: string)
    | CleanupDone(claimed: set<nat>, argoName: string)
    // admin bootstrap
    | BootstrapRead(password: Option<string>)
    | BootstrapDone
    // instance deletion
    | ApplicationRestored
    | Confirmed
    // template publication: the targets, how many are handled, whether the next one is open and its
    // remote template known
    | TargetsRead(targets: seq<nat>)
    | Publishing(targets: seq<nat>, handled: nat, failures: nat, commit: string, revision: nat,
                 open: bool, known: bool)
    // assignment removal
    | RemovalRead(template: nat, instance: nat)
    | RemovalDone(template: nat, instance: nat)
    // workspaces: `names` are the parameters defined when the row was read, `carried` the values of
    // the chosen build
    | WorkspaceRead(values: map<string, string>, names: set<string>, desired: nat, applied: Option<nat>)
    | BuildChosen(names: set<string>, carried: map<string, string>, starts: bool, remoteId: nat, buildId: nat)
    | BuildStored(names: set<string>, carried: map<string, string>, starts: bool, remoteId: nat, buildId: nat)
    | BuildRunning(names: set<string>, carried: map<string, string>, remoteId: nat, buildId: nat)
    | BuildSkipped(remoteId: nat)
    | RemoteGone

  /** What happened outside the database, in order. */
  datatype Fact =
    | AcceptedPolicy(job: nat, policy: set<(string, Role)>)
    | DeletedAccount(job: nat, username: string)
    | SentBootstrap(instance: nat, password: string)
    | CreationAbandoned(job: nat)
    | WorkspacesRemoved(job: nat)
    | ApplicationAbsent(job: nat)
    | SchemaDropped(job: nat)

  datatype State = State(
    core: Core,
    instances: map<nat, Instance>,
    templates: map<nat, Template>,
    assignments: map<nat, Assignment>,
    workspaces: map<nat, Workspace>,
    members: map<nat, Member>,
    databases: map<nat, Database>,
    allocations: map<nat, nat>,
    workers: map<Claim, Local>,
    secrets: map<nat, string>,
    log: seq<Fact>)

  datatype Refusal =
    | NotFound | ActionConflict | InstanceBusy | InstanceUnavailable
    | SyncInProgress | AssignmentsInProgress | WorkspacesInProgress | WorkspacesBusy
    | JobConflict | HasAssignments | HasWorkspaces | Referenced | NoCapacity | AlreadyExists
    | Protected | WorkspaceBusy | NotDeployed | OwnerUnavailable | BadConfiguration | ImmutableParameter
    | CapacityConflict | InUse | FieldImmutable

  /** The answer of an API request: a refusal rolls back; an accepted one names the job to deliver,
      if it staged one. */
  datatype Reply = Accepted(job: Option<nat>) | Refused(why: Refusal)

  /** The identifier of the resource a token names. */
  function Id(c: Claim): nat {
    match c.resource case Some(k) => k.id case None => 0
  }

  predicate At(s: State, c: Claim, step: Step) {
    c in s.workers && c.step == step
  }

  function SetLocal(s: State, c: Claim, l: Local): State {
    s.(workers := s.workers[c := l])
  }
}
