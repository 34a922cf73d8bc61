/** The whole system as a state machine: API requests, deliveries, the recovery scan, and the
    transactions and observations of every worker, in any order. */
module Events {
  import opened Records
  import opened Execution
  import opened Store
  import Protocol
  import K = WorkerSteps
  import C = CreateSteps
  import U = UpdateSteps
  import D = TeardownSteps
  import T = TemplateSteps
  import W = WorkspaceSteps
  import IR = InstanceRequests
  import TR = TemplateRequests
  import WR = WorkspaceRequests

  datatype CommonAct = Heartbeat(now: int) | Fail | Defer | FinishDatabaseSync

  datatype CreateAct =
    | FinishSchema | FinishApplication(name: string)
    | PrepareBootstrap(drawn: string) | SendBootstrap | FinishBootstrap

  datatype UpdateAct =
    | ClaimMembers | ReadMembers | AcceptPolicy | FinishPolicy(name: string) | DeferPolicy | FailMembers
    | ClaimCleanup | DeleteAccount(username: string, now: int) | FinishCleanup | FinalizeUpdate

  datatype TeardownAct =
    | FinishStopWorkspaces | ConfirmAbsent | FinishStop
    | RestoreApplication(name: Option<string>) | ConfirmWorkspaces | FinishRemoveWorkspaces
    | FinishRemoveInstance | DropSchema | FinishRemoveSchema | RemoveLocal

  datatype TemplateAct =
    | ReadTargets(targets: seq<nat>) | FetchSource(commit: string) | OpenTarget
    | StoreRemoteIds(templateId: Option<nat>, versionId: Option<nat>)
    | CloseTarget(success: bool) | FinishPublication
    | ReadRemoval | ConfirmRemoval | RemoveAssignment

  datatype WorkspaceAct =
    | ReadWorkspace | ChooseBuild(remote: Option<W.Remote>, freshId: nat, newBuild: nat) | StoreBuild
    | ObserveRunning | FinishWorkspace
    | StoreDeleteBuild(remoteId: nat, buildId: nat) | ObserveDeleted | FinishDeleteWorkspace

  datatype InstanceRequest =
    | AddInstance(unique: bool) | DropInstance(i: nat) | SyncInstance(i: nat) | PowerOn(i: nat)
    | PowerOff(i: nat) | UploadProvider(i: nat) | ObserveState(i: nat, started: bool)
    | AddMember(i: nat, username: string, role: Role) | SetRole(i: nat, m: nat, role: Role)
    | DropMember(i: nat, m: nat, protected: set<string>)

  datatype TemplateRequest =
    | AddTemplate(source: Source, unique: bool)
    | SetSource(t: nat, source: Source, changedModules: bool, compatible: bool)
    | DropTemplate(t: nat) | ResyncTemplate(t: nat)
    | AddParameter(t: nat, payload: TR.Payload) | SetParameter(t: nat, payload: TR.Payload)
    | DropParameter(t: nat, name: string)
    | PutAssignment(i: nat, t: nat) | DropAssignment(i: nat, t: nat)

  datatype WorkspaceRequest =
    | AddWorkspace(i: nat, t: nat, m: nat, name: string, supplied: map<string, string>, valid: bool)
    | SetWorkspace(w: nat, name: string, supplied: map<string, string>, changed: bool, valid: bool)
    | DropWorkspace(w: nat)
    | AddDatabase(capacity: nat, rank: nat) | SetDatabase(d: nat, capacity: nat, rank: nat)
    | DropDatabase(d: nat) | SyncDatabases

  datatype Act =
    | Common(common: CommonAct) | Create(create: CreateAct) | Update(update: UpdateAct)
    | Teardown(teardown: TeardownAct) | OfTemplate(template: TemplateAct) | OfWorkspace(workspace: WorkspaceAct)

  datatype Request =
    | ToInstance(instance: InstanceRequest) | ToTemplate(template: TemplateRequest)
    | ToWorkspace(workspace: WorkspaceRequest)

  datatype Event =
    | Deliver(id: nat, task: Step, now: int)
    | Reclaim(id: nat, staleBefore: int)
    | Work(c: Claim, act: Act)
    | Ask(request: Request)

  function OnCommon(s: State, c: Claim, act: CommonAct): State {
    match act
    case Heartbeat(now) => K.Heartbeat(s, c, now)
    case Fail => K.Fail(s, c)
    case Defer => K.Defer(s, c)
    case FinishDatabaseSync => K.FinishDatabaseSync(s, c)
  }

  function OnCreate(s: State, c: Claim, act: CreateAct): State {
    match act
    case FinishSchema => C.FinishSchema(s, c)
    case FinishApplication(name) => C.FinishApplication(s, c, name)
    case PrepareBootstrap(drawn) => C.PrepareBootstrap(s, c, drawn)
    case SendBootstrap => C.SendBootstrap(s, c)
    case FinishBootstrap => C.FinishBootstrap(s, c)
  }

  function OnUpdate(s: State, c: Claim, act: UpdateAct): State {
    match act
    case ClaimMembers => U.ClaimMembers(s, c)
    case ReadMembers => U.ReadMembers(s, c)
    case AcceptPolicy => U.AcceptPolicy(s, c)
    case FinishPolicy(name) => U.FinishPolicy(s, c, name)
    case DeferPolicy => U.DeferPolicy(s, c)
    case FailMembers => U.FailMembers(s, c)
    case ClaimCleanup => U.ClaimCleanup(s, c)
    case DeleteAccount(username, now) => U.DeleteAccount(s, c, username, now)
    case FinishCleanup => U.FinishCleanup(s, c)
    case FinalizeUpdate => U.FinalizeUpdate(s, c)
  }

  function OnTeardown(s: State, c: Claim, act: TeardownAct): State {
    match act
    case FinishStopWorkspaces => D.FinishStopWorkspaces(s, c)
    case ConfirmAbsent => D.ConfirmAbsent(s, c)
    case FinishStop => D.FinishStop(s, c)
    case RestoreApplication(name) => D.RestoreApplication(s, c, name)
    case ConfirmWorkspaces => D.ConfirmWorkspaces(s, c)
    case FinishRemoveWorkspaces => D.FinishRemoveWorkspaces(s, c)
    case FinishRemoveInstance => D.FinishRemoveInstance(s, c)
    case DropSchema => D.DropSchema(s, c)
    case FinishRemoveSchema => D.FinishRemoveSchema(s, c)
    case RemoveLocal => D.RemoveLocal(s, c)
  }

  ghost function OnTemplate(s: State, c: Claim, act: TemplateAct): State {
    match act
    case ReadTargets(targets) => T.ReadTargets(s, c, targets)
    case FetchSource(commit) => T.FetchSource(s, c, commit)
    case OpenTarget => T.OpenTarget(s, c)
    case StoreRemoteIds(templateId, versionId) => T.StoreRemoteIds(s, c, templateId, versionId)
    case CloseTarget(success) => T.CloseTarget(s, c, success)
    case FinishPublication => T.FinishPublication(s, c)
    case ReadRemoval => T.ReadRemoval(s, c)
    case ConfirmRemoval => T.ConfirmRemoval(s, c)
    case RemoveAssignment => T.RemoveAssignment(s, c)
  }

  function OnWorkspace(s: State, c: Claim, act: WorkspaceAct): State {
    match act
    case ReadWorkspace => W.ReadWorkspace(s, c)
    case ChooseBuild(remote, freshId, newBuild) => W.ChooseBuild(s, c, remote, freshId, newBuild)
    case StoreBuild => W.StoreBuild(s, c)
    case ObserveRunning => W.ObserveRunning(s, c)
    case FinishWorkspace => W.FinishWorkspace(s, c)
    case StoreDeleteBuild(remoteId, buildId) => W.StoreDeleteBuild(s, c, remoteId, buildId)
    case ObserveDeleted => W.ObserveDeleted(s, c)
    case FinishDeleteWorkspace => W.FinishDeleteWorkspace(s, c)
  }

  ghost function AnswerInstance(s: State, r: InstanceRequest): (State, Reply) {
    match r
    case AddInstance(unique) => IR.CreateInstance(s, unique)
    case DropInstance(i) => IR.RequestDeletion(s, i)
    case SyncInstance(i) => IR.RequestSync(s, i)
    case PowerOn(i) => IR.RequestStart(s, i)
    case PowerOff(i) => IR.RequestStop(s, i)
    case UploadProvider(i) => IR.UploadProvider(s, i)
    case ObserveState(i, started) => (IR.ObserveState(s, i, started), Accepted(None))
    case AddMember(i, username, role) => IR.CreateMember(s, i, username, role)
    case SetRole(i, m, role) => IR.UpdateRole(s, i, m, role)
    case DropMember(i, m, protected) => IR.DeleteMember(s, i, m, protected)
  }

  ghost function AnswerTemplate(s: State, r: TemplateRequest): (State, Reply) {
    match r
    case AddTemplate(source, unique) => TR.CreateTemplate(s, source, unique)
    case SetSource(t, source, changedModules, compatible) => TR.UpdateTemplate(s, t, source, changedModules, compatible)
    case DropTemplate(t) => TR.DeleteTemplate(s, t)
    case ResyncTemplate(t) => TR.RequestSync(s, t)
    case AddParameter(t, payload) => TR.CreateParameter(s, t, payload)
    case SetParameter(t, payload) => TR.UpdateParameter(s, t, payload)
    case DropParameter(t, name) => TR.DeleteParameter(s, t, name)
    case PutAssignment(i, t) => TR.PutAssignment(s, i, t)
    case DropAssignment(i, t) => TR.DeleteAssignment(s, i, t)
  }

  ghost function AnswerWorkspace(s: State, r: WorkspaceRequest): (State, Reply) {
    match r
    case AddWorkspace(i, t, m, name, supplied, valid) => WR.CreateWorkspace(s, i, t, m, name, supplied, valid)
    case SetWorkspace(w, name, supplied, changed, valid) => WR.UpdateWorkspace(s, w, name, supplied, changed, valid)
    case DropWorkspace(w) => WR.DeleteWorkspace(s, w)
    case AddDatabase(capacity, rank) => WR.CreateDatabase(s, capacity, rank)
    case SetDatabase(d, capacity, rank) => WR.UpdateDatabase(s, d, capacity, rank)
    case DropDatabase(d) => WR.DeleteDatabase(s, d)
    case SyncDatabases => WR.RequestDatabaseSync(s)
  }

  ghost function DoWork(s: State, c: Claim, act: Act): State {
    match act
    case Common(a) => OnCommon(s, c, a)
    case Create(a) => OnCreate(s, c, a)
    case Update(a) => OnUpdate(s, c, a)
    case Teardown(a) => OnTeardown(s, c, a)
    case OfTemplate(a) => OnTemplate(s, c, a)
    case OfWorkspace(a) => OnWorkspace(s, c, a)
  }

  ghost function Answer(s: State, request: Request): (State, Reply) {
    match request
    case ToInstance(r) => AnswerInstance(s, r)
    case ToTemplate(r) => AnswerTemplate(s, r)
    case ToWorkspace(r) => AnswerWorkspace(s, r)
  }

  ghost function Apply(s: State, e: Event): State {
    match e
    case Deliver(id, task, now) => K.Deliver(s, id, task, now)
    case Reclaim(id, staleBefore) => K.Reclaim(s, id, staleBefore)
    case Work(c, act) => DoWork(s, c, act)
    case Ask(request) => Answer(s, request).0
  }

  ghost function Run(s: State, events: seq<Event>): State
    decreases |events|
  {
    if events == [] then s else Run(Apply(s, events[0]), events[1..])
  }

  const START := State(Protocol.EMPTY, map[], map[], map[], map[], map[], map[], map[], map[], map[], [])
}
