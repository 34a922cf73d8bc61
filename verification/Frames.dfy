/** What every transaction of a step may touch, and how the system's events move the protocol. */
module Frames {
  import opened Records
  import opened Execution
  import opened Store
  import opened Events
  import opened Fencing
  import Protocol
  import opened WorkerSteps
  import C = CreateSteps
  import U = UpdateSteps
  import D = TeardownSteps
  import T = TemplateSteps
  import W = WorkspaceSteps

  /** Every token ever handed out belongs to a worker that may still act. */
  ghost predicate Sound(s: State) {
    Protocol.Inv(s.core) && s.workers.Keys == s.core.claims
  }

  /** Only the progress of the worker that holds `c` changes. */
  ghost predicate OnlyWorker(s: State, s': State, c: Claim) {
    forall d :: (d in s'.workers <==> d in s.workers) && (d in s.workers && d != c ==> s'.workers[d] == s.workers[d])
  }

  /** What the worker must have reached, and written, to finish its step. */
  predicate Gate(s: State, s': State, c: Claim)
    requires c in s.workers
  {
    match c.step
    case CreateInstance => Id(c) in s'.instances && s'.instances[Id(c)].argoName.Some?
    case BootstrapAdmin => Id(c) in s'.instances && s'.instances[Id(c)].password.Some?
    case UpdateInstance | StartInstance => s.workers[c].PolicyAccepted?
    case RemoveWorkspaces | RemoveInstance | RemoveSchema => s.workers[c].Confirmed?
    case SyncTemplate | CreateTemplate => T.AllHandled(s.workers[c])
    case CreateWorkspace | UpdateWorkspace => s.workers[c].BuildRunning? || s.workers[c].BuildSkipped?
    case _ => true
  }

  predicate Advances(core: Core, core': Core, c: Claim) {
    && Owned(core, c) && NextStep(InstanceUpdate, c.step).Some?
    && (c.step == BootstrapAdmin && c.job in core.jobs ==> core.jobs[c.job].name == InstanceUpdate)
    && core' == AdvanceExecution(core, c, NextStep(InstanceUpdate, c.step).value)
  }

  /** The steps that complete their job and keep the resource. */
  predicate Completes(step: Step) {
    || step == BootstrapAdmin || step == Step.StopInstance || step == SyncDatabase || step == Step.SyncTemplate
    || step == Step.CreateTemplate || step == Step.CreateWorkspace || step == Step.UpdateWorkspace
  }

  /** The moves of the protocol that the steps make, apart from deletions. */
  ghost predicate CoreStep(s: State, s': State, c: Claim) {
    || s'.core == s.core
    || s'.core == FailExecution(s.core, c)
    || s'.core == DeferExecution(s.core, c)
    || (exists now :: s'.core == HeartbeatExecution(s.core, c, now))
    || (c in s.workers && Gate(s, s', c) && Advances(s.core, s'.core, c))
    || (c in s.workers && Gate(s, s', c) && Completes(c.step)
        && s'.core == CompleteExecution(s.core, c, if c.step == Step.CreateTemplate then Some(Created) else None))
  }

  /** The progress a worker can record at each step. */
  predicate Fits(step: Step, l: Local) {
    match l
    case Started => true
    case PolicyRead(_, _) | PolicyAccepted(_, _) => step == Step.UpdateInstance || step == Step.StartInstance
    case CleanupRead(_, _, _) | CleanupDone(_, _) => step == CleanupUsers
    case BootstrapRead(_) | BootstrapDone => step == BootstrapAdmin
    case ApplicationRestored => step == RemoveWorkspaces
    case Confirmed => step == Step.StopInstance || step == RemoveWorkspaces || step == RemoveInstance || step == RemoveSchema
    case TargetsRead(_) | Publishing(_, _, _, _, _, _, _) => step == Step.SyncTemplate || step == Step.CreateTemplate
    case RemovalRead(_, _) | RemovalDone(_, _) => step == Step.DeleteTemplate
    case WorkspaceRead(_, _, _, _) => W.IsWorkspaceStep(step)
    case BuildChosen(_, _, _, _, _) | BuildStored(_, _, _, _, _) | BuildRunning(_, _, _, _) | BuildSkipped(_) =>
      step == Step.CreateWorkspace || step == Step.UpdateWorkspace
    case RemoteGone => step == Step.DeleteWorkspace
  }

  /** Every worker is at a point of its own step. */
  ghost predicate LocalsFit(workers: map<Claim, Local>) {
    forall c <- workers :: Fits(c.step, workers[c])
  }

  ghost predicate LocalMoves(s: State, s': State, c: Claim) {
    c in s.workers && c in s'.workers ==>
      s'.workers[c] == s.workers[c] || (Fits(c.step, s'.workers[c]) && Reaches(s, s', c))
  }

  /** What has just been read or done by a worker that reaches a new point of its step. */
  ghost predicate Reaches(s: State, s': State, c: Claim)
    requires c in s.workers && c in s'.workers
  {
    var l := s.workers[c];
    match s'.workers[c]
    case Started => false
    case PolicyRead(claimed, policy) =>
      && policy == U.PolicyOf(s.members, Id(c))
      && (if c.step == Step.UpdateInstance
          then claimed == U.Unsettled(s.members, Id(c)) && s'.members == U.SetStatus(s.members, claimed, Running)
          else claimed == {})
    case PolicyAccepted(claimed, policy) =>
      l == PolicyRead(claimed, policy) && s'.log == s.log + [AcceptedPolicy(c.job, policy)]
    case CleanupRead(claimed, expected, _) =>
      && l.Started? && claimed == U.Reconciled(s.members, Id(c)) && expected == U.ExpectedNames(s.members, Id(c), claimed)
      && s'.members == U.SetStatus(s.members, claimed, Running)
    case CleanupDone(claimed, _) => l.CleanupRead? && l.claimed == claimed
    case BootstrapRead(p) => p.Some? ==> Id(c) in s'.instances && s'.instances[Id(c)].candidate == p
    case BootstrapDone => l.BootstrapRead?
    case ApplicationRestored => true
    case Confirmed =>
      (match c.step
       case RemoveWorkspaces => s'.log == s.log + [WorkspacesRemoved(c.job)]
       case RemoveInstance => s'.log == s.log + [ApplicationAbsent(c.job)]
       case RemoveSchema => Id(c) in s.allocations ==> s'.log == s.log + [SchemaDropped(c.job)]
       case _ => true)
    case TargetsRead(targets) =>
      l.Started? && (if c.step == Step.SyncTemplate then Id(c) in s.templates && T.AreTargets(s, Id(c), targets)
                     else targets == [Id(c)] && Id(c) in s.assignments)
    case Publishing(_, _, _, _, _, _, _) => Publishes(s, s', c)
    case RemovalRead(t, i) => Id(c) in s.assignments && s.assignments[Id(c)].template == t && s.assignments[Id(c)].instance == i
    case RemovalDone(t, i) => l == RemovalRead(t, i)
    case WorkspaceRead(values, names, desired, applied) =>
      Id(c) in s.workspaces && ReadOf(s.workspaces[Id(c)], values, names, desired, applied)
    case BuildChosen(names, carried, starts, _, _) => l.WorkspaceRead? && l.names == names && (starts ==> carried == l.values)
    case BuildStored(names, carried, starts, _, _) => l.BuildChosen? && l.names == names && l.carried == carried && l.starts == starts
    case BuildRunning(names, carried, _, _) => l.BuildStored? && l.names == names && l.carried == carried && l.starts
    case BuildSkipped(_) => l.WorkspaceRead? && l.applied == Some(l.desired)
    case RemoteGone => true
  }

  predicate ReadOf(row: Workspace, values: map<string, string>, names: set<string>, desired: nat, applied: Option<nat>) {
    values == W.Restrict(row.parameters, names) && desired == row.revision && applied == row.applied
  }

  /** The publication of the targets, one after the other, of one commit and revision. */
  predicate Publishes(s: State, s': State, c: Claim)
    requires c in s.workers && c in s'.workers && s'.workers[c].Publishing?
  {
    var l, l' := s.workers[c], s'.workers[c];
    || (&& l.TargetsRead? && s'.assignments == s.assignments && T.TemplateOf(s, c) in s.templates
        && l' == Publishing(l.targets, 0, 0, l'.commit, s.templates[T.TemplateOf(s, c)].revision, false, false))
    || (&& T.HasNext(l) && l'.targets == l.targets && l'.commit == l.commit && l'.revision == l.revision
        && if l'.handled == l.handled then
             && l'.failures == l.failures && (l'.known ==> l.known || (Deployed(s', T.Current(l)) && TemplateKnown(s'.assignments[T.Current(l)])))
             && (l'.open ==> l.open || Deployed(s', T.Current(l)))
           else
             && l'.handled == l.handled + 1 && !l'.open && !l'.known
             && (l'.failures == l.failures ==>
                   Settled(s', T.Current(l), l.commit, l.revision) || (l.open && !Deployed(s', T.Current(l))))
             && l'.failures >= l.failures)
  }

  predicate Deployed(s: State, a: nat) {
    a in s.assignments && s.assignments[a].deployment.Some?
  }

  predicate Settled(s: State, a: nat, commit: string, revision: nat) {
    Deployed(s, a) && T.Applied(s.assignments[a].deployment.value, commit, revision)
  }

  /** The progress behind each fact a worker adds to the log. */
  predicate Backed(s: State, c: Claim, fact: Fact) {
    && c in s.workers
    && match fact
       case AcceptedPolicy(job, policy) => job == c.job && s.workers[c].PolicyRead? && s.workers[c].policy == policy
       case DeletedAccount(job, username) =>
         job == c.job && Owned(s.core, c) && c.step == CleanupUsers
         && s.workers[c].CleanupRead? && username !in s.workers[c].expected
       case SentBootstrap(instance, password) =>
         instance == Id(c) && c.step == BootstrapAdmin && s.workers[c] == BootstrapRead(Some(password))
       case WorkspacesRemoved(job) => job == c.job && c.step == RemoveWorkspaces && s.workers[c].ApplicationRestored?
       case ApplicationAbsent(job) => job == c.job && (c.step == RemoveInstance || c.step == Step.StopInstance)
       case SchemaDropped(job) => job == c.job && c.step == RemoveSchema
       case CreationAbandoned(_) => false
  }

  predicate LogMoves(s: State, s': State, c: Claim) {
    || s'.log == s.log
    || (s'.log != [] && s'.log == s.log + [s'.log[|s'.log| - 1]] && Backed(s, c, s'.log[|s'.log| - 1]))
  }

  predicate InstanceKept(a: Instance, b: Instance) {
    && (a.password.Some? ==> b.password == a.password)
    && (a.argoName.Some? ==> b.argoName.Some?)
  }

  predicate OnInstance(step: Step) {
    || step == Step.CreateSchema || step == Step.CreateInstance || step == BootstrapAdmin || step == Step.UpdateInstance
    || step == CleanupUsers || step == Step.StartInstance || step == StopWorkspaces || step == Step.StopInstance
    || step == RemoveWorkspaces || step == RemoveInstance || step == RemoveSchema || step == RemoveLocalConfiguration
  }

  /** Stored credentials are never cleared, and only the attempt that owns an instance writes it. */
  predicate InstancesTouched(s: State, s': State, c: Claim) {
    || (s'.instances == s.instances && s'.secrets == s.secrets)
    || (&& Owned(s.core, c) && OnInstance(c.step) && Id(c) in s.instances && Id(c) in s'.instances
        && s'.instances == s.instances[Id(c) := s'.instances[Id(c)]]
        && InstanceKept(s.instances[Id(c)], s'.instances[Id(c)])
        && CredentialsMove(s, s', c, s.instances[Id(c)], s'.instances[Id(c)]))
  }

  /** The credentials stay, a first candidate is drawn, or the candidate becomes the password of the
      instance that the transaction completes. */
  predicate CredentialsMove(s: State, s': State, c: Claim, a: Instance, b: Instance) {
    || (s'.secrets == s.secrets && b.password == a.password && b.candidate == a.candidate)
    || (&& c.step == BootstrapAdmin && a.password.None? && a.candidate.None? && b.password.None? && b.candidate.Some?
        && s'.secrets == s.secrets[Id(c) := b.candidate.value])
    || (&& c.step == BootstrapAdmin && s'.secrets == s.secrets && b.candidate.None? && b.password.Some?
        && b.password == (if a.password.Some? then a.password else a.candidate)
        && (s'.core == CompleteExecution(s.core, c, None)
            || (c.job in s.core.jobs ==> s.core.jobs[c.job].name == InstanceUpdate)))
  }

  predicate TemplateKnown(a: Assignment) {
    a.deployment.Some? && a.deployment.value.templateId.Some?
  }

  predicate AssignmentKept(a: Assignment, b: Assignment) {
    && b.template == a.template && b.instance == a.instance
    && (a.deployment.Some? ==> b.deployment.Some?) && (TemplateKnown(a) ==> TemplateKnown(b))
  }

  predicate Successful(a: Assignment) {
    a.deployment.Some? && a.deployment.value.status == Success
  }

  /** A known remote template is never forgotten, and only the owner of a target writes it. */
  predicate AssignmentsTouched(s: State, s': State, c: Claim) {
    || s'.assignments == s.assignments
    || (&& c in s.workers && T.HasNext(s.workers[c]) && T.OwnsTarget(s, c, T.Current(s.workers[c]))
        && T.Current(s.workers[c]) in s'.assignments
        && s'.assignments == s.assignments[T.Current(s.workers[c]) := s'.assignments[T.Current(s.workers[c])]]
        && AssignmentKept(s.assignments[T.Current(s.workers[c])], s'.assignments[T.Current(s.workers[c])])
        && (Successful(s'.assignments[T.Current(s.workers[c])]) ==>
              Successful(s.assignments[T.Current(s.workers[c])]) || s.workers[c].known))
  }

  predicate WorkspaceKept(a: Workspace, b: Workspace) {
    b == a.(applied := b.applied, remoteId := b.remoteId, buildId := b.buildId)
  }

  predicate WorkspacesTouched(s: State, s': State, c: Claim) {
    || s'.workspaces == s.workspaces
    || (&& Owned(s.core, c) && W.IsWorkspaceStep(c.step) && Id(c) in s.workspaces && Id(c) in s'.workspaces
        && s'.workspaces == s.workspaces[Id(c) := s'.workspaces[Id(c)]]
        && WorkspaceKept(s.workspaces[Id(c)], s'.workspaces[Id(c)])
        && (s'.workspaces[Id(c)].applied != s.workspaces[Id(c)].applied ==>
              && c in s.workers && s.workers[c].BuildRunning? && s'.core == CompleteExecution(s.core, c, None)
              && s'.workspaces[Id(c)].applied == Some(s.workspaces[Id(c)].revision)))
  }

  /** Only the statuses of members change, and none becomes success: the members of the instance that
      a step claims become running, and those an attempt holds are put back or marked as failed. */
  predicate MembersTouched(s: State, s': State, c: Claim) {
    || s'.members == s.members
    || (&& c in s.workers && c in s'.workers && s.workers[c].Started? && s'.workers[c].PolicyRead? && c.step == Step.UpdateInstance
        && s'.members == U.SetStatus(s.members, U.Unsettled(s.members, Id(c)), Running))
    || (&& c in s.workers && c in s'.workers && s.workers[c].Started? && s'.workers[c].CleanupRead? && c.step == CleanupUsers
        && s'.members == U.SetStatus(s.members, U.Reconciled(s.members, Id(c)), Running))
    || (&& c in s.workers && Owned(s.core, c) && (c.step == Step.UpdateInstance || c.step == CleanupUsers)
        && (|| (s'.core == DeferExecution(s.core, c)
                && s'.members == U.SetStatus(s.members, U.Held(s.members, U.Claimed(s.workers[c])), Pending))
            || (s'.core == FailExecution(s.core, c)
                && s'.members == U.SetStatus(s.members, U.Held(s.members, U.Claimed(s.workers[c])), Error))))
  }

  predicate Reopened(a: Member, b: Member) {
    b == a.(status := b.status) && (b.status == Success ==> a.status == Success)
  }

  /** A transaction that inserts and deletes nothing. */
  ghost predicate Plain(s: State, s': State, c: Claim) {
    && CoreStep(s, s', c)
    && s'.templates == s.templates && s'.databases == s.databases && s'.allocations == s.allocations
    && InstancesTouched(s, s', c) && AssignmentsTouched(s, s', c) && WorkspacesTouched(s, s', c) && MembersTouched(s, s', c)
    && OnlyWorker(s, s', c) && LocalMoves(s, s', c) && LogMoves(s, s', c)
  }

  lemma LocalIsPlain(s: State, c: Claim, l: Local)
    requires c in s.workers && Fits(c.step, l) && Reaches(s, SetLocal(s, c, l), c)
    ensures Plain(s, SetLocal(s, c, l), c)
  {
    hide Reaches;
  }

  lemma DeploymentIsPlain(s: State, c: Claim, d: Deployment, l: Local)
    requires T.Publishes(s, c) && T.HasNext(s.workers[c]) && l.Publishing? && T.OwnsTarget(s, c, T.Current(s.workers[c]))
    requires TemplateKnown(s.assignments[T.Current(s.workers[c])]) ==> d.templateId.Some?
    requires d.status == Success ==> Successful(s.assignments[T.Current(s.workers[c])]) || s.workers[c].known
    requires Reaches(s, SetLocal(T.SetDeployment(s, T.Current(s.workers[c]), d), c, l), c)
    ensures Plain(s, SetLocal(T.SetDeployment(s, T.Current(s.workers[c]), d), c, l), c)
  {
    hide T.TargetExists, T.JobMatchesClaim, T.JobOwnsSyncResource, Reaches;
  }

  lemma StutterIsPlain(s: State, c: Claim)
    ensures Plain(s, s, c)
  {}

  // ---------- common ----------

  lemma HeartbeatIsPlain(s: State, c: Claim, now: int)
    ensures Plain(s, WorkerSteps.Heartbeat(s, c, now), c)
  {
    hide Owned, AdvanceExecution, FailExecution, DeferExecution, CompleteExecution, HeartbeatExecution, Id;
    StutterIsPlain(s, c);
  }

  lemma FailIsPlain(s: State, c: Claim)
    ensures Plain(s, WorkerSteps.Fail(s, c), c)
  {
    hide Owned, AdvanceExecution, FailExecution, DeferExecution, CompleteExecution, HeartbeatExecution, Id;
    StutterIsPlain(s, c);
  }

  lemma DeferIsPlain(s: State, c: Claim)
    ensures Plain(s, WorkerSteps.Defer(s, c), c)
  {
    hide Owned, AdvanceExecution, FailExecution, DeferExecution, CompleteExecution, HeartbeatExecution, Id;
    StutterIsPlain(s, c);
  }

  lemma FinishDatabaseSyncIsPlain(s: State, c: Claim)
    ensures Plain(s, WorkerSteps.FinishDatabaseSync(s, c), c)
  {
    hide Owned, AdvanceExecution, FailExecution, DeferExecution, CompleteExecution, HeartbeatExecution, Id;
    StutterIsPlain(s, c);
  }

  // ---------- create ----------

  lemma FinishSchemaIsPlain(s: State, c: Claim)
    ensures Plain(s, C.FinishSchema(s, c), c)
  {
    hide Owned, AdvanceExecution, FailExecution, DeferExecution, CompleteExecution, HeartbeatExecution, Id;
    StutterIsPlain(s, c);
  }

  lemma FinishApplicationIsPlain(s: State, c: Claim, name: string)
    ensures Plain(s, C.FinishApplication(s, c, name), c)
  {
    hide Owned, AdvanceExecution, FailExecution, DeferExecution, CompleteExecution, HeartbeatExecution, Id;
    StutterIsPlain(s, c);
  }

  lemma PrepareBootstrapIsPlain(s: State, c: Claim, drawn: string)
    ensures Plain(s, C.PrepareBootstrap(s, c, drawn), c)
  {
    hide Owned, AdvanceExecution, FailExecution, DeferExecution, CompleteExecution, HeartbeatExecution, Id;
    StutterIsPlain(s, c);
  }

  lemma SendBootstrapIsPlain(s: State, c: Claim)
    ensures Plain(s, C.SendBootstrap(s, c), c)
  {
    hide Owned, AdvanceExecution, FailExecution, DeferExecution, CompleteExecution, HeartbeatExecution, Id;
    StutterIsPlain(s, c);
  }

  lemma FinishBootstrapIsPlain(s: State, c: Claim)
    ensures Plain(s, C.FinishBootstrap(s, c), c)
  {
    hide Owned, AdvanceExecution, FailExecution, DeferExecution, CompleteExecution, HeartbeatExecution, Id;
    StutterIsPlain(s, c);
  }

  // ---------- update ----------

  lemma ClaimMembersIsPlain(s: State, c: Claim)
    ensures Plain(s, U.ClaimMembers(s, c), c)
  {
    hide Owned, AdvanceExecution, FailExecution, DeferExecution, CompleteExecution, HeartbeatExecution, Id;
    hide U.PolicyOf, U.Unsettled, U.ExpectedNames, U.Reconciled;
    StutterIsPlain(s, c);
  }

  lemma ReadMembersIsPlain(s: State, c: Claim)
    ensures Plain(s, U.ReadMembers(s, c), c)
  {
    hide Owned, AdvanceExecution, FailExecution, DeferExecution, CompleteExecution, HeartbeatExecution, Id;
    hide U.PolicyOf, U.Unsettled, U.ExpectedNames, U.Reconciled;
    StutterIsPlain(s, c);
  }

  lemma AcceptPolicyIsPlain(s: State, c: Claim)
    ensures Plain(s, U.AcceptPolicy(s, c), c)
  {
    hide Owned, AdvanceExecution, FailExecution, DeferExecution, CompleteExecution, HeartbeatExecution, Id;
    hide U.PolicyOf, U.Unsettled, U.ExpectedNames, U.Reconciled;
    StutterIsPlain(s, c);
  }

  lemma FinishPolicyIsPlain(s: State, c: Claim, name: string)
    ensures Plain(s, U.FinishPolicy(s, c, name), c)
  {
    hide Owned, AdvanceExecution, FailExecution, DeferExecution, CompleteExecution, HeartbeatExecution, Id;
    StutterIsPlain(s, c);
  }

  lemma DeferPolicyIsPlain(s: State, c: Claim)
    ensures Plain(s, U.DeferPolicy(s, c), c)
  {
    hide Owned, AdvanceExecution, FailExecution, DeferExecution, CompleteExecution, HeartbeatExecution, Id;
    hide U.Held, U.Claimed;
    StutterIsPlain(s, c);
  }

  lemma FailMembersIsPlain(s: State, c: Claim)
    ensures Plain(s, U.FailMembers(s, c), c)
  {
    hide Owned, AdvanceExecution, FailExecution, DeferExecution, CompleteExecution, HeartbeatExecution, Id;
    hide U.Held, U.Claimed;
    StutterIsPlain(s, c);
  }

  lemma ClaimCleanupIsPlain(s: State, c: Claim)
    ensures Plain(s, U.ClaimCleanup(s, c), c)
  {
    hide Owned, AdvanceExecution, FailExecution, DeferExecution, CompleteExecution, HeartbeatExecution, Id;
    hide U.PolicyOf, U.Unsettled, U.ExpectedNames, U.Reconciled;
    StutterIsPlain(s, c);
  }

  lemma DeleteAccountIsPlain(s: State, c: Claim, username: string, now: int)
    ensures Plain(s, U.DeleteAccount(s, c, username, now), c)
  {
    hide Owned, AdvanceExecution, FailExecution, DeferExecution, CompleteExecution, HeartbeatExecution, Id;
    StutterIsPlain(s, c);
  }

  lemma FinishCleanupIsPlain(s: State, c: Claim)
    ensures Plain(s, U.FinishCleanup(s, c), c)
  {
    hide Owned, AdvanceExecution, FailExecution, DeferExecution, CompleteExecution, HeartbeatExecution, Id;
    hide U.PolicyOf, U.Unsettled, U.ExpectedNames, U.Reconciled;
    StutterIsPlain(s, c);
  }

  // ---------- teardown ----------

  lemma FinishStopWorkspacesIsPlain(s: State, c: Claim)
    ensures Plain(s, D.FinishStopWorkspaces(s, c), c)
  {
    hide Owned, AdvanceExecution, FailExecution, DeferExecution, CompleteExecution, HeartbeatExecution, Id;
    StutterIsPlain(s, c);
  }

  lemma ConfirmAbsentIsPlain(s: State, c: Claim)
    ensures Plain(s, D.ConfirmAbsent(s, c), c)
  {
    hide Owned, AdvanceExecution, FailExecution, DeferExecution, CompleteExecution, HeartbeatExecution, Id;
    StutterIsPlain(s, c);
  }

  lemma FinishStopIsPlain(s: State, c: Claim)
    ensures Plain(s, D.FinishStop(s, c), c)
  {
    hide Owned, AdvanceExecution, FailExecution, DeferExecution, CompleteExecution, HeartbeatExecution, Id;
    StutterIsPlain(s, c);
  }

  lemma RestoreApplicationIsPlain(s: State, c: Claim, name: Option<string>)
    ensures Plain(s, D.RestoreApplication(s, c, name), c)
  {
    hide Owned, AdvanceExecution, FailExecution, DeferExecution, CompleteExecution, HeartbeatExecution, Id;
    StutterIsPlain(s, c);
  }

  lemma ConfirmWorkspacesIsPlain(s: State, c: Claim)
    ensures Plain(s, D.ConfirmWorkspaces(s, c), c)
  {
    hide Owned, AdvanceExecution, FailExecution, DeferExecution, CompleteExecution, HeartbeatExecution, Id;
    StutterIsPlain(s, c);
  }

  lemma FinishRemoveWorkspacesIsPlain(s: State, c: Claim)
    ensures Plain(s, D.FinishRemoveWorkspaces(s, c), c)
  {
    hide Owned, AdvanceExecution, FailExecution, DeferExecution, CompleteExecution, HeartbeatExecution, Id;
    StutterIsPlain(s, c);
  }

  lemma FinishRemoveInstanceIsPlain(s: State, c: Claim)
    ensures Plain(s, D.FinishRemoveInstance(s, c), c)
  {
    hide Owned, AdvanceExecution, FailExecution, DeferExecution, CompleteExecution, HeartbeatExecution, Id;
    StutterIsPlain(s, c);
  }

  lemma DropSchemaIsPlain(s: State, c: Claim)
    ensures Plain(s, D.DropSchema(s, c), c)
  {
    hide Owned, AdvanceExecution, FailExecution, DeferExecution, CompleteExecution, HeartbeatExecution, Id;
    StutterIsPlain(s, c);
  }

  lemma FinishRemoveSchemaIsPlain(s: State, c: Claim)
    ensures Plain(s, D.FinishRemoveSchema(s, c), c)
  {
    hide Owned, AdvanceExecution, FailExecution, DeferExecution, CompleteExecution, HeartbeatExecution, Id;
    StutterIsPlain(s, c);
  }

  // ---------- template ----------

  lemma ReadTargetsIsPlain(s: State, c: Claim, targets: seq<nat>)
    ensures Plain(s, T.ReadTargets(s, c, targets), c)
  {
    StutterIsPlain(s, c);
    if At(s, c, Step.SyncTemplate) && s.workers[c] == Started && Id(c) in s.templates && T.AreTargets(s, Id(c), targets) {
      LocalIsPlain(s, c, TargetsRead(targets));
    } else if At(s, c, Step.CreateTemplate) && s.workers[c] == Started && Id(c) in s.assignments {
      LocalIsPlain(s, c, TargetsRead([Id(c)]));
    }
    hide Plain, SetLocal, T.AreTargets;
  }

  lemma FetchSourceIsPlain(s: State, c: Claim, commit: string)
    ensures Plain(s, T.FetchSource(s, c, commit), c)
  {
    hide Owned, AdvanceExecution, FailExecution, DeferExecution, CompleteExecution, HeartbeatExecution, Id;
    StutterIsPlain(s, c);
  }

  lemma SkippedIsPlain(s: State, c: Claim, ok: bool)
    requires T.Publishes(s, c) && T.HasNext(s.workers[c])
    requires ok ==> Settled(s, T.Current(s.workers[c]), s.workers[c].commit, s.workers[c].revision)
                    || (s.workers[c].open && !Deployed(s, T.Current(s.workers[c])))
    ensures Plain(s, SetLocal(s, c, T.Handled(s.workers[c], ok)), c)
  {
    hide T.Applied;
    LocalIsPlain(s, c, T.Handled(s.workers[c], ok));
  }

  lemma OpenedIsPlain(s: State, c: Claim, d: Deployment)
    requires T.Publishes(s, c) && T.HasNext(s.workers[c]) && T.OwnsTarget(s, c, T.Current(s.workers[c]))
    requires d == T.Stored(s.assignments[T.Current(s.workers[c])])
    ensures Plain(s, SetLocal(T.SetDeployment(s, T.Current(s.workers[c]), T.Retarget(d, s.workers[c].commit, s.workers[c].revision)),
                              c, s.workers[c].(open := true)), c)
  {
    hide T.OwnsTarget, Owned;
    DeploymentIsPlain(s, c, T.Retarget(d, s.workers[c].commit, s.workers[c].revision), s.workers[c].(open := true));
  }

  lemma OpenTargetIsPlain(s: State, c: Claim)
    ensures Plain(s, T.OpenTarget(s, c), c)
  {
    StutterIsPlain(s, c);
    if T.Publishes(s, c) && T.HasNext(s.workers[c]) {
      var l, a := s.workers[c], T.Current(s.workers[c]);
      SkippedIsPlain(s, c, false);
      if T.OwnsTarget(s, c, a) {
        if T.Applied(T.Stored(s.assignments[a]), l.commit, l.revision) { SkippedIsPlain(s, c, true); }
        OpenedIsPlain(s, c, T.Stored(s.assignments[a]));
      }
    }
    hide Plain, SetLocal, T.OwnsTarget, T.JobMatchesClaim, T.TargetExists, T.Applied, T.Retarget, T.InstanceReady, T.Handled, T.SetDeployment;
    hide T.Stored;
  }

  lemma StoreRemoteIdsIsPlain(s: State, c: Claim, templateId: Option<nat>, versionId: Option<nat>)
    ensures Plain(s, T.StoreRemoteIds(s, c, templateId, versionId), c)
  {
    hide Owned, AdvanceExecution, FailExecution, DeferExecution, CompleteExecution, HeartbeatExecution, Id;
    hide T.OwnsTarget, T.TargetExists, T.JobMatchesClaim, T.InstanceReady, T.Applied;
    StutterIsPlain(s, c);
  }

  lemma ClosedIsPlain(s: State, c: Claim, success: bool)
    requires T.Open(s, c) && T.OwnsTarget(s, c, T.Current(s.workers[c])) && (success ==> s.workers[c].known)
    requires s.assignments[T.Current(s.workers[c])].deployment.Some?
    ensures var l := s.workers[c];
            var d := s.assignments[T.Current(l)].deployment.value;
            var d' := if success then d.(status := Success, appliedCommit := Some(l.commit), appliedRevision := Some(l.revision))
                      else d.(status := Error);
            Plain(s, SetLocal(T.SetDeployment(s, T.Current(l), d'), c, T.Handled(l, success)), c)
  {
    var l := s.workers[c];
    var d := s.assignments[T.Current(l)].deployment.value;
    hide Plain, T.OwnsTarget;
    DeploymentIsPlain(s, c, if success then d.(status := Success, appliedCommit := Some(l.commit), appliedRevision := Some(l.revision))
                            else d.(status := Error), T.Handled(l, success));
  }

  lemma CloseTargetIsPlain(s: State, c: Claim, success: bool)
    ensures Plain(s, T.CloseTarget(s, c, success), c)
  {
    hide Plain, SetLocal, T.Handled, T.SetDeployment;
    StutterIsPlain(s, c);
    if T.Open(s, c) && T.OwnsTarget(s, c, T.Current(s.workers[c])) && (success ==> s.workers[c].known) {
      hide T.OwnsTarget;
      if s.assignments[T.Current(s.workers[c])].deployment.None? {
        SkippedIsPlain(s, c, success);
      } else {
        ClosedIsPlain(s, c, success);
      }
    }
  }

  lemma FinishPublicationIsPlain(s: State, c: Claim)
    ensures Plain(s, T.FinishPublication(s, c), c)
  {
    hide Owned, AdvanceExecution, FailExecution, DeferExecution, CompleteExecution, HeartbeatExecution, Id;
    StutterIsPlain(s, c);
  }

  lemma ReadRemovalIsPlain(s: State, c: Claim)
    ensures Plain(s, T.ReadRemoval(s, c), c)
  {
    hide Owned, AdvanceExecution, FailExecution, DeferExecution, CompleteExecution, HeartbeatExecution, Id;
    StutterIsPlain(s, c);
  }

  lemma ConfirmRemovalIsPlain(s: State, c: Claim)
    ensures Plain(s, T.ConfirmRemoval(s, c), c)
  {
    hide Owned, AdvanceExecution, FailExecution, DeferExecution, CompleteExecution, HeartbeatExecution, Id;
    StutterIsPlain(s, c);
  }

  // ---------- workspace ----------

  lemma ReadWorkspaceIsPlain(s: State, c: Claim)
    ensures Plain(s, W.ReadWorkspace(s, c), c)
  {
    hide Owned, AdvanceExecution, FailExecution, DeferExecution, CompleteExecution, HeartbeatExecution, Id;
    hide W.Restrict;
    StutterIsPlain(s, c);
  }

  lemma ChosenForCreateIsPlain(s: State, c: Claim, remote: Option<W.Remote>, freshId: nat, newBuild: nat)
    requires At(s, c, Step.CreateWorkspace) && s.workers[c].WorkspaceRead?
    ensures Plain(s, SetLocal(s, c, W.ChooseForCreate(s.workers[c], remote, freshId, newBuild)), c)
  {
    hide Plain;
    LocalIsPlain(s, c, W.ChooseForCreate(s.workers[c], remote, freshId, newBuild));
  }

  lemma ChosenForUpdateIsPlain(s: State, c: Claim, remote: W.Remote, newBuild: nat)
    requires At(s, c, Step.UpdateWorkspace) && s.workers[c].WorkspaceRead?
    ensures Plain(s, SetLocal(s, c, W.ChooseForUpdate(s.workers[c], remote, newBuild)), c)
  {
    hide Plain;
    LocalIsPlain(s, c, W.ChooseForUpdate(s.workers[c], remote, newBuild));
  }

  lemma ChooseBuildIsPlain(s: State, c: Claim, remote: Option<W.Remote>, freshId: nat, newBuild: nat)
    ensures Plain(s, W.ChooseBuild(s, c, remote, freshId, newBuild), c)
  {
    hide Plain, SetLocal, W.ChooseForCreate, W.ChooseForUpdate;
    StutterIsPlain(s, c);
    if At(s, c, Step.CreateWorkspace) && s.workers[c].WorkspaceRead? {
      ChosenForCreateIsPlain(s, c, remote, freshId, newBuild);
    } else if At(s, c, Step.UpdateWorkspace) && s.workers[c].WorkspaceRead? && remote.Some? {
      ChosenForUpdateIsPlain(s, c, remote.value, newBuild);
    }
  }

  lemma StoreBuildIsPlain(s: State, c: Claim)
    ensures Plain(s, W.StoreBuild(s, c), c)
  {
    hide Owned, AdvanceExecution, FailExecution, DeferExecution, CompleteExecution, HeartbeatExecution, Id;
    StutterIsPlain(s, c);
  }

  lemma ObserveRunningIsPlain(s: State, c: Claim)
    ensures Plain(s, W.ObserveRunning(s, c), c)
  {
    hide Owned, AdvanceExecution, FailExecution, DeferExecution, CompleteExecution, HeartbeatExecution, Id;
    StutterIsPlain(s, c);
  }

  lemma FinishWorkspaceIsPlain(s: State, c: Claim)
    ensures Plain(s, W.FinishWorkspace(s, c), c)
  {
    hide Owned, AdvanceExecution, FailExecution, DeferExecution, CompleteExecution, HeartbeatExecution, Id;
    StutterIsPlain(s, c);
  }

  lemma StoreDeleteBuildIsPlain(s: State, c: Claim, remoteId: nat, buildId: nat)
    ensures Plain(s, W.StoreDeleteBuild(s, c, remoteId, buildId), c)
  {
    hide Owned, AdvanceExecution, FailExecution, DeferExecution, CompleteExecution, HeartbeatExecution, Id;
    StutterIsPlain(s, c);
  }

  lemma ObserveDeletedIsPlain(s: State, c: Claim)
    ensures Plain(s, W.ObserveDeleted(s, c), c)
  {
    hide Owned, AdvanceExecution, FailExecution, DeferExecution, CompleteExecution, HeartbeatExecution, Id;
    StutterIsPlain(s, c);
  }

  // ---------- every step ----------

  /** The four transactions that delete rows. */
  predicate Deletes(act: Act) {
    || (act.Update? && act.update.FinalizeUpdate?)
    || (act.Teardown? && act.teardown.RemoveLocal?)
    || (act.OfTemplate? && act.template.RemoveAssignment?)
    || (act.OfWorkspace? && act.workspace.FinishDeleteWorkspace?)
  }

  lemma CommonWorkIsPlain(s: State, c: Claim, act: CommonAct)
    ensures Plain(s, OnCommon(s, c, act), c)
  {
    hide Plain, WorkerSteps.Heartbeat, WorkerSteps.Fail, WorkerSteps.Defer, WorkerSteps.FinishDatabaseSync;
    match act
    case Heartbeat(now) => HeartbeatIsPlain(s, c, now);
    case Fail => FailIsPlain(s, c);
    case Defer => DeferIsPlain(s, c);
    case FinishDatabaseSync => FinishDatabaseSyncIsPlain(s, c);
  }

  lemma CreateWorkIsPlain(s: State, c: Claim, act: CreateAct)
    ensures Plain(s, OnCreate(s, c, act), c)
  {
    hide Plain, C.FinishSchema, C.FinishApplication, C.PrepareBootstrap, C.SendBootstrap, C.FinishBootstrap;
    match act
    case FinishSchema => FinishSchemaIsPlain(s, c);
    case FinishApplication(name) => FinishApplicationIsPlain(s, c, name);
    case PrepareBootstrap(drawn) => PrepareBootstrapIsPlain(s, c, drawn);
    case SendBootstrap => SendBootstrapIsPlain(s, c);
    case FinishBootstrap => FinishBootstrapIsPlain(s, c);
  }

  lemma UpdateWorkIsPlain(s: State, c: Claim, act: UpdateAct)
    requires !act.FinalizeUpdate?
    ensures Plain(s, OnUpdate(s, c, act), c)
  {
    hide Plain, U.ClaimMembers, U.ReadMembers, U.AcceptPolicy, U.FinishPolicy, U.DeferPolicy, U.FailMembers, U.ClaimCleanup, U.DeleteAccount, U.FinishCleanup;
    match act
    case ClaimMembers => ClaimMembersIsPlain(s, c);
    case ReadMembers => ReadMembersIsPlain(s, c);
    case AcceptPolicy => AcceptPolicyIsPlain(s, c);
    case FinishPolicy(name) => FinishPolicyIsPlain(s, c, name);
    case DeferPolicy => DeferPolicyIsPlain(s, c);
    case FailMembers => FailMembersIsPlain(s, c);
    case ClaimCleanup => ClaimCleanupIsPlain(s, c);
    case DeleteAccount(username, now) => DeleteAccountIsPlain(s, c, username, now);
    case FinishCleanup => FinishCleanupIsPlain(s, c);
  }

  lemma TeardownWorkIsPlain(s: State, c: Claim, act: TeardownAct)
    requires !act.RemoveLocal?
    ensures Plain(s, OnTeardown(s, c, act), c)
  {
    hide Plain, D.FinishStopWorkspaces, D.ConfirmAbsent, D.FinishStop, D.RestoreApplication, D.ConfirmWorkspaces, D.FinishRemoveWorkspaces, D.FinishRemoveInstance, D.DropSchema, D.FinishRemoveSchema;
    match act
    case FinishStopWorkspaces => FinishStopWorkspacesIsPlain(s, c);
    case ConfirmAbsent => ConfirmAbsentIsPlain(s, c);
    case FinishStop => FinishStopIsPlain(s, c);
    case RestoreApplication(name) => RestoreApplicationIsPlain(s, c, name);
    case ConfirmWorkspaces => ConfirmWorkspacesIsPlain(s, c);
    case FinishRemoveWorkspaces => FinishRemoveWorkspacesIsPlain(s, c);
    case FinishRemoveInstance => FinishRemoveInstanceIsPlain(s, c);
    case DropSchema => DropSchemaIsPlain(s, c);
    case FinishRemoveSchema => FinishRemoveSchemaIsPlain(s, c);
  }

  lemma TemplateWorkIsPlain(s: State, c: Claim, act: TemplateAct)
    requires !act.RemoveAssignment?
    ensures Plain(s, OnTemplate(s, c, act), c)
  {
    hide Plain, T.ReadTargets, T.FetchSource, T.OpenTarget, T.StoreRemoteIds, T.CloseTarget, T.FinishPublication, T.ReadRemoval, T.ConfirmRemoval;
    match act
    case ReadTargets(targets) => ReadTargetsIsPlain(s, c, targets);
    case FetchSource(commit) => FetchSourceIsPlain(s, c, commit);
    case OpenTarget => OpenTargetIsPlain(s, c);
    case StoreRemoteIds(templateId, versionId) => StoreRemoteIdsIsPlain(s, c, templateId, versionId);
    case CloseTarget(success) => CloseTargetIsPlain(s, c, success);
    case FinishPublication => FinishPublicationIsPlain(s, c);
    case ReadRemoval => ReadRemovalIsPlain(s, c);
    case ConfirmRemoval => ConfirmRemovalIsPlain(s, c);
  }

  lemma WorkspaceWorkIsPlain(s: State, c: Claim, act: WorkspaceAct)
    requires !act.FinishDeleteWorkspace?
    ensures Plain(s, OnWorkspace(s, c, act), c)
  {
    hide Plain, W.ReadWorkspace, W.ChooseBuild, W.StoreBuild, W.ObserveRunning, W.FinishWorkspace, W.StoreDeleteBuild, W.ObserveDeleted;
    match act
    case ReadWorkspace => ReadWorkspaceIsPlain(s, c);
    case ChooseBuild(remote, freshId, newBuild) => ChooseBuildIsPlain(s, c, remote, freshId, newBuild);
    case StoreBuild => StoreBuildIsPlain(s, c);
    case ObserveRunning => ObserveRunningIsPlain(s, c);
    case FinishWorkspace => FinishWorkspaceIsPlain(s, c);
    case StoreDeleteBuild(remoteId, buildId) => StoreDeleteBuildIsPlain(s, c, remoteId, buildId);
    case ObserveDeleted => ObserveDeletedIsPlain(s, c);
  }

  lemma WorkIsPlain(s: State, c: Claim, act: Act)
    requires !Deletes(act)
    ensures Plain(s, DoWork(s, c, act), c)
  {
    hide Plain, OnCommon, OnCreate, OnUpdate, OnTeardown, OnTemplate, OnWorkspace;
    match act
    case Common(a) => CommonWorkIsPlain(s, c, a);
    case Create(a) => CreateWorkIsPlain(s, c, a);
    case Update(a) => UpdateWorkIsPlain(s, c, a);
    case Teardown(a) => TeardownWorkIsPlain(s, c, a);
    case OfTemplate(a) => TemplateWorkIsPlain(s, c, a);
    case OfWorkspace(a) => WorkspaceWorkIsPlain(s, c, a);
  }
}
