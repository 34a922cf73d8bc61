/** What the transactions of the instance steps write, and what their workers take along. */
module StepLaws {
  import opened Records
  import opened Execution
  import opened Store
  import opened ProtocolLaws
  import K = WorkerSteps
  import C = CreateSteps
  import U = UpdateSteps
  import D = TeardownSteps

  /** The owned attempt of an instance step stands at the point `l` of its body. */
  predicate Stands(s: State, c: Claim, step: Step, l: Local) {
    && c in s.workers && c.step == step && c.task == step && s.workers[c] == l && Owned(s.core, c)
    && c.resource == Some(InstanceRow(Id(c))) && s.core.jobs[c.job].resource == c.resource && Id(c) in s.instances
  }

  /** The job and its row wait at the next step. */
  predicate MovedOn(core: Core, core': Core, c: Claim, next: Step) {
    var k := InstanceRow(Id(c));
    && k in core.life && Stood(core, core', c, k, core.life[k].action, Pending, Some(next))
    && c.job in core'.jobs && core'.jobs[c.job].step == next && core'.jobs[c.job].task == next
  }

  /** The job is finished and its row at rest. */
  predicate Ended(core: Core, core': Core, c: Claim) {
    InstanceRow(Id(c)) in core.life
    && Stood(core, core', c, InstanceRow(Id(c)), core.life[InstanceRow(Id(c))].action, Success, None)
  }

  /** The failure is recorded at the step where it happened. */
  predicate Failed(core: Core, core': Core, c: Claim) {
    var k := InstanceRow(Id(c));
    && k in core.life && Stood(core, core', c, k, core.life[k].action, Error, Some(c.step))
    && c.job in core'.jobs && core'.jobs[c.job].step == c.step && core'.jobs[c.job].task == c.step
  }

  predicate Succeeded(core: Core, c: Claim) {
    c.job in core.jobs && core.jobs[c.job].status == Success && core.jobs[c.job].claimedAt == None
  }

  /** Argo CD was busy: only the steps that talk to it without having claimed members return to wait. */
  lemma DeferralWaits(s: State, c: Claim)
    requires c in s.workers
    ensures K.Defer(s, c) == if c.step == CreateInstance || c.step == StartInstance || c.step == RemoveWorkspaces
                                || c.step == RemoveInstance || c.step == StopInstance
                             then s.(core := DeferExecution(s.core, c)) else s
    ensures K.Fail(s, c) == s.(core := FailExecution(s.core, c))
  {
    hide DeferExecution, FailExecution;
  }

  /** A worker that has lost its claim changes no row of an instance and ends nothing. */
  lemma StaleStepsWriteNothing(s: State, c: Claim, name: string, drawn: string, restored: Option<string>, username: string, now: int)
    requires !Owned(s.core, c)
    ensures C.FinishSchema(s, c) == s && C.FinishApplication(s, c, name) == s
    ensures C.PrepareBootstrap(s, c, drawn) == s && C.FinishBootstrap(s, c) == s
    ensures U.FinishPolicy(s, c, name) == s && U.DeferPolicy(s, c) == s && U.FailMembers(s, c) == s
    ensures U.DeleteAccount(s, c, username, now) == s && U.FinalizeUpdate(s, c) == s
    ensures D.FinishStopWorkspaces(s, c) == s && D.FinishStop(s, c) == s && D.RestoreApplication(s, c, restored) == s
    ensures D.FinishRemoveWorkspaces(s, c) == s && D.FinishRemoveInstance(s, c) == s && D.FinishRemoveSchema(s, c) == s
    ensures D.RemoveLocal(s, c) == s
  {
    hide Owned, Id;
  }

  /** A delivery starts an attempt exactly when its job can be claimed under the Celery task it names. */
  lemma DeliveryStarts(s: State, id: nat, task: Step, now: int)
    ensures var s' := K.Deliver(s, id, task, now);
            if Claimable(s.core, id, task) then
              s' == s.(core := ClaimExecution(s.core, id, task, now), workers := s.workers[
                       Claim(id, task, s.core.jobs[id].step, s.core.jobs[id].attempt + 1, s.core.jobs[id].resource) := Started])
            else s' == s
  {
    hide ClaimExecution;
  }

  lemma DatabaseSyncEnds(s: State, c: Claim)
    requires c in s.workers && c.step == SyncDatabase && Owned(s.core, c)
    ensures var s' := K.FinishDatabaseSync(s, c);
            s' == s.(core := s'.core) && c.job in s'.core.jobs && s'.core.jobs[c.job].status == Success && s'.core.jobs[c.job].claimedAt == None
  {
    hide Owned, CompleteExecution;
    CompleteFinishes(s.core, c, None);
  }

  // ---------- creation ----------

  /** Without an allocation the schema step cannot go on. */
  lemma SchemaCreated(s: State, c: Claim, l: Local)
    requires Stands(s, c, CreateSchema, l)
    ensures var s' := C.FinishSchema(s, c);
            if Id(c) in s.allocations then s' == s.(core := s'.core) && MovedOn(s.core, s'.core, c, CreateInstance) else s' == s
  {
    hide Owned, AdvanceExecution, Stood, Id;
    AdvancedRow(s.core, c, InstanceRow(Id(c)), CreateInstance);
  }

  lemma ApplicationCreated(s: State, c: Claim, l: Local, name: string)
    requires Stands(s, c, CreateInstance, l)
    ensures var s', i := C.FinishApplication(s, c, name), Id(c);
            if i in s.allocations then
              && s' == s.(core := s'.core, instances := s'.instances) && MovedOn(s.core, s'.core, c, BootstrapAdmin)
              && s'.instances == s.instances[i := s.instances[i].(argoName := Some(name), started := true)]
            else s' == s
  {
    hide Owned, AdvanceExecution, Stood, Id;
    AdvancedRow(s.core, c, InstanceRow(Id(c)), BootstrapAdmin);
  }

  /** A candidate is drawn once, before it is sent; later attempts send the one that was drawn; an instance
      with a password sends none. */
  lemma BootstrapPrepared(s: State, c: Claim, drawn: string)
    requires Stands(s, c, BootstrapAdmin, Started)
    ensures var s', i := C.PrepareBootstrap(s, c, drawn), Id(c); var instance := s.instances[i];
            && s' == s.(instances := s'.instances, workers := s'.workers, secrets := s'.secrets)
            && (instance.password.Some? ==>
                  s'.instances == s.instances && s'.workers == s.workers[c := BootstrapRead(None)])
            && (instance.password.None? && instance.candidate.Some? ==>
                  s'.instances == s.instances && s'.workers == s.workers[c := BootstrapRead(instance.candidate)])
            && (instance.password.None? && instance.candidate.None? ==>
                  && s'.instances == s.instances[i := instance.(candidate := Some(drawn))]
                  && s'.workers == s.workers[c := BootstrapRead(Some(drawn))])
  {
    hide Owned, Id;
    assert s.instances[Id(c) := s.instances[Id(c)]] == s.instances;
  }

  lemma BootstrapSent(s: State, c: Claim, password: Option<string>)
    requires Stands(s, c, BootstrapAdmin, BootstrapRead(password))
    ensures C.SendBootstrap(s, c) ==
            s.(workers := s.workers[c := BootstrapDone],
               log := if password.Some? then s.log + [SentBootstrap(Id(c), password.value)] else s.log)
  {
    hide Owned, Id;
  }

  /** The verified candidate becomes the password in the transaction that completes the creation. */
  lemma PasswordPromoted(s: State, c: Claim)
    requires Stands(s, c, BootstrapAdmin, BootstrapDone) && s.core.jobs[c.job].name == InstanceCreate
    ensures var s', i := C.FinishBootstrap(s, c), Id(c); var instance := s.instances[i];
            if instance.password.None? && instance.candidate.None? then s' == s
            else
              && s' == s.(core := s'.core, instances := s'.instances) && Ended(s.core, s'.core, c)
              && s'.instances == s.instances[i := instance.(
                   password := if instance.password.Some? then instance.password else instance.candidate, candidate := None)]
  {
    hide Owned, CompleteExecution, Stood, AdvanceExecution, Id;
    CompletedRow(s.core, c, InstanceRow(Id(c)), None);
  }

  // ---------- update and start ----------

  /** The policy names each member that is not leaving, with the role, and nobody else. */
  predicate PolicyOfMembers(members: map<nat, Member>, i: nat, policy: set<(string, Role)>) {
    && (forall m <- members :: members[m].instance == i && members[m].action != Deleting ==>
          (members[m].username, members[m].role) in policy)
    && (forall e <- policy :: exists m <- members ::
          members[m].instance == i && members[m].action != Deleting && e == (members[m].username, members[m].role))
  }

  /** The members of one instance that satisfy a test are running; all others are as before. */
  predicate Took(members: map<nat, Member>, members': map<nat, Member>, taken: set<nat>) {
    && members'.Keys == members.Keys
    && forall m <- members :: members'[m] == if m in taken then members[m].(status := Running) else members[m]
  }

  /** An update takes every member of its instance that is not settled, whether or not the attempt is still
      current. */
  lemma MembersTaken(s: State, c: Claim)
    requires c in s.workers && c.step == UpdateInstance && s.workers[c] == Started && Id(c) in s.instances
    ensures var s', i := U.ClaimMembers(s, c), Id(c);
            && s' == s.(members := s'.members, workers := s'.workers)
            && c in s'.workers && s'.workers == s.workers[c := s'.workers[c]] && s'.workers[c].PolicyRead?
            && (forall m :: m in s'.workers[c].claimed <==>
                  m in s.members && s.members[m].instance == i && s.members[m].status != Success)
            && Took(s.members, s'.members, s'.workers[c].claimed)
            && PolicyOfMembers(s.members, i, s'.workers[c].policy)
  {
    hide Id;
  }

  /** A start reads the same policy, takes nobody, and needs the admin password. */
  lemma MembersRead(s: State, c: Claim)
    requires c in s.workers && c.step == StartInstance && s.workers[c] == Started && Id(c) in s.instances
    ensures var s', i := U.ReadMembers(s, c), Id(c);
            if s.instances[i].password.None? then s' == s
            else
              && s' == s.(workers := s'.workers) && c in s'.workers && s'.workers == s.workers[c := s'.workers[c]]
              && s'.workers[c].PolicyRead? && s'.workers[c].claimed == {} && PolicyOfMembers(s.members, i, s'.workers[c].policy)
  {
    hide Id;
  }

  lemma PolicyRecorded(s: State, c: Claim, claimed: set<nat>, policy: set<(string, Role)>)
    requires c in s.workers && s.workers[c] == PolicyRead(claimed, policy) && (c.step == UpdateInstance || c.step == StartInstance)
    ensures U.AcceptPolicy(s, c) ==
            if Id(c) in s.allocations
            then s.(workers := s.workers[c := PolicyAccepted(claimed, policy)], log := s.log + [AcceptedPolicy(c.job, policy)]) else s
  {
    hide Id;
  }

  lemma PolicyFinished(s: State, c: Claim, l: Local, name: string)
    requires (Stands(s, c, UpdateInstance, l) || Stands(s, c, StartInstance, l)) && l.PolicyAccepted?
    ensures var s', i := U.FinishPolicy(s, c, name), Id(c);
            && s' == s.(core := s'.core, instances := s'.instances) && MovedOn(s.core, s'.core, c, CleanupUsers)
            && s'.instances == s.instances[i := s.instances[i].(argoName := Some(name), started := true)]
  {
    hide Owned, AdvanceExecution, Stood, Id;
    AdvancedRow(s.core, c, InstanceRow(Id(c)), CleanupUsers);
  }

  /** The members that the attempt took and nobody settled since get a status; all others keep theirs. */
  predicate PutBack(members: map<nat, Member>, members': map<nat, Member>, claimed: set<nat>, status: Status) {
    && members'.Keys == members.Keys
    && forall m <- members :: members'[m] ==
         if m in claimed && members[m].status == Running then members[m].(status := status) else members[m]
  }

  /** Busy Argo CD: the job waits on the same step and the members it took wait with it. */
  lemma PolicyDeferred(s: State, c: Claim, claimed: set<nat>, policy: set<(string, Role)>)
    requires Stands(s, c, UpdateInstance, PolicyRead(claimed, policy))
    ensures var s' := U.DeferPolicy(s, c);
            && s' == s.(core := s'.core, members := s'.members) && MovedOn(s.core, s'.core, c, UpdateInstance)
            && PutBack(s.members, s'.members, claimed, Pending)
  {
    hide Owned, DeferExecution, Stood, Id;
    ReleasedRow(s.core, c, InstanceRow(Id(c)));
  }

  /** A failure of the policy or of the cleanup is recorded on the job, its row and the members it took. */
  lemma MembersFailed(s: State, c: Claim, l: Local)
    requires (Stands(s, c, UpdateInstance, l) && l.PolicyRead?) || (Stands(s, c, CleanupUsers, l) && l.CleanupRead?)
    ensures var s' := U.FailMembers(s, c);
            && s' == s.(core := s'.core, members := s'.members) && PutBack(s.members, s'.members, l.claimed, Error)
            && Failed(s.core, s'.core, c)
  {
    hide Owned, FailExecution, Stood, Id;
    ReleasedRow(s.core, c, InstanceRow(Id(c)));
  }

  /** The cleanup takes the members that were reconciled or failed, and expects the account of every member
      but of those it took that are leaving. */
  lemma CleanupTaken(s: State, c: Claim)
    requires c in s.workers && c.step == CleanupUsers && s.workers[c] == Started && Id(c) in s.instances
    ensures var s', i := U.ClaimCleanup(s, c), Id(c);
            if s.instances[i].argoName.None? then s' == s
            else
              && s' == s.(members := s'.members, workers := s'.workers)
              && c in s'.workers && s'.workers == s.workers[c := s'.workers[c]] && s'.workers[c].CleanupRead?
              && s'.workers[c].argoName == s.instances[i].argoName.value
              && (forall m :: m in s'.workers[c].claimed <==>
                    m in s.members && s.members[m].instance == i && (s.members[m].status == Running || s.members[m].status == Error))
              && Took(s.members, s'.members, s'.workers[c].claimed)
              && (forall name :: name in s'.workers[c].expected <==>
                    exists m <- s.members ::
                      && s.members[m].instance == i && s.members[m].username == name
                      && !(s.members[m].action == Deleting && (s.members[m].status == Running || s.members[m].status == Error)))
  {
    hide Id;
  }

  /** Every account that is not expected can be deleted, and no other; the deletion proves the claim current. */
  lemma AccountDeleted(s: State, c: Claim, claimed: set<nat>, expected: set<string>, argoName: string, username: string, now: int)
    requires Stands(s, c, CleanupUsers, CleanupRead(claimed, expected, argoName)) && s.instances[Id(c)].password.Some?
    ensures var s' := U.DeleteAccount(s, c, username, now);
            if username in expected then s' == s
            else
              && s' == s.(core := s'.core, log := s.log + [DeletedAccount(c.job, username)])
              && c.job in s'.core.jobs && s'.core.jobs[c.job].claimedAt == Some(now)
  {
    hide Owned, HeartbeatExecution, Id;
    HeartbeatRefreshes(s.core, c, now);
  }

  lemma CleanupFinished(s: State, c: Claim, claimed: set<nat>, expected: set<string>, argoName: string)
    requires c in s.workers && c.step == CleanupUsers && s.workers[c] == CleanupRead(claimed, expected, argoName)
    requires Id(c) in s.instances && s.instances[Id(c)].password.Some?
    ensures U.FinishCleanup(s, c) == s.(workers := s.workers[c := CleanupDone(claimed, argoName)])
  {
    hide Id;
  }

  /** The end of an update: departures that it took are gone, the other members it took are settled, nobody
      else changes, and a change that is waiting hands the instance to a fresh update. */
  lemma UpdateEnds(s: State, c: Claim, claimed: set<nat>, argoName: string)
    requires Stands(s, c, CleanupUsers, CleanupDone(claimed, argoName)) && c.job < s.core.nextId
    requires forall w <- s.workspaces :: s.workspaces[w].member in s.members && s.members[s.workspaces[w].member].action != Deleting
    ensures var s', i := U.FinalizeUpdate(s, c), Id(c);
            && s' == s.(core := s'.core, instances := s'.instances, members := s'.members)
            && s'.instances == s.instances[i := s.instances[i].(argoName := Some(argoName))]
            && (forall m :: m in s'.members <==>
                  m in s.members && !(m in claimed && s.members[m].instance == i && s.members[m].status == Running
                                      && s.members[m].action == Deleting))
            && (forall m <- s'.members :: s'.members[m] ==
                  if m in claimed && s.members[m].instance == i && s.members[m].status == Running
                  then s.members[m].(status := Success) else s.members[m])
            && Succeeded(s'.core, c)
            && (if exists m <- s'.members :: s'.members[m].instance == i && s'.members[m].status == Pending
                then RestartedUpdate(s.core, s'.core, i) else Ended(s.core, s'.core, c))
  {
    SettledExactly(s.members, Id(c), claimed);
    UpdateCloses(s, c, claimed, argoName);
    hide U.FinalizeUpdate, U.Settle, Stands, Id, Ended, RestartedUpdate;
  }

  lemma SettledExactly(members: map<nat, Member>, i: nat, claimed: set<nat>)
    ensures var members' := U.Settle(members, i, claimed);
            && (forall m :: m in members' <==>
                  m in members && !(m in claimed && members[m].instance == i && members[m].status == Running && members[m].action == Deleting))
            && (forall m <- members' :: members'[m] ==
                  if m in claimed && members[m].instance == i && members[m].status == Running
                  then members[m].(status := Success) else members[m])
  {}

  lemma UpdateCloses(s: State, c: Claim, claimed: set<nat>, argoName: string)
    requires Stands(s, c, CleanupUsers, CleanupDone(claimed, argoName)) && c.job < s.core.nextId
    requires forall w <- s.workspaces :: s.workspaces[w].member in s.members && s.members[s.workspaces[w].member].action != Deleting
    ensures var s', i := U.FinalizeUpdate(s, c), Id(c);
            && s' == s.(core := s'.core, instances := s'.instances, members := U.Settle(s.members, i, claimed))
            && s'.instances == s.instances[i := s.instances[i].(argoName := Some(argoName))]
            && Succeeded(s'.core, c)
            && (if exists m <- s'.members :: s'.members[m].instance == i && s'.members[m].status == Pending
                then RestartedUpdate(s.core, s'.core, i) else Ended(s.core, s'.core, c))
  {
    var i := Id(c);
    var members := U.Settle(s.members, i, claimed);
    var done := CompleteExecution(s.core, c, None);
    CompletedRow(s.core, c, InstanceRow(Id(c)), None);
    StayingOwners(s, i, claimed);
    NobodyOrphaned(s, members);
    assert done.life - {} == done.life && K.WorkspaceRows({}) == {};
    hide Owned, CompleteExecution, Id, U.Orphans, U.Settle, K.WorkspaceRows;
  }

  lemma StayingOwners(s: State, i: nat, claimed: set<nat>)
    requires forall w <- s.workspaces :: s.workspaces[w].member in s.members && s.members[s.workspaces[w].member].action != Deleting
    ensures forall w <- s.workspaces :: s.workspaces[w].member in U.Settle(s.members, i, claimed)
  {}

  lemma NobodyOrphaned(s: State, members: map<nat, Member>)
    requires forall w <- s.workspaces :: s.workspaces[w].member in members
    ensures U.Orphans(s, members) == {} && s.workspaces - {} == s.workspaces
  {}

  predicate RestartedUpdate(core: Core, core': Core, i: nat) {
    var j := core.nextId;
    && core'.nextId == j + 1 && j in core'.jobs
    && core'.jobs[j] == Job(InstanceUpdate, UpdateInstance, Some(InstanceRow(i)), UpdateInstance, Pending, 0, None)
    && InstanceRow(i) in core'.life && core'.life[InstanceRow(i)] == Life(Updating, Pending, Some(j), Some(UpdateInstance))
  }

  // ---------- stop ----------

  lemma WorkspacesStopped(s: State, c: Claim, l: Local)
    requires Stands(s, c, StopWorkspaces, l)
    ensures var s' := D.FinishStopWorkspaces(s, c); s' == s.(core := s'.core) && MovedOn(s.core, s'.core, c, StopInstance)
  {
    hide Owned, AdvanceExecution, Stood, Id;
    AdvancedRow(s.core, c, InstanceRow(Id(c)), StopInstance);
  }

  lemma AbsenceObserved(s: State, c: Claim)
    requires c in s.workers && s.workers[c] == Started && (c.step == StopInstance || c.step == RemoveInstance)
    ensures D.ConfirmAbsent(s, c) == s.(workers := s.workers[c := Confirmed], log := s.log + [ApplicationAbsent(c.job)])
  {}

  /** A stop ends with the instance recorded as stopped. */
  lemma InstanceStopped(s: State, c: Claim)
    requires Stands(s, c, StopInstance, Confirmed)
    ensures var s', i := D.FinishStop(s, c), Id(c);
            && s' == s.(core := s'.core, instances := s'.instances) && Ended(s.core, s'.core, c)
            && i in s'.instances && !s'.instances[i].started
            && s'.instances == s.instances[i := s.instances[i].(started := false)]
  {
    hide Owned, CompleteExecution, Stood, Id;
    CompletedRow(s.core, c, InstanceRow(Id(c)), None);
  }

  // ---------- deletion ----------

  lemma ApplicationRestoredFirst(s: State, c: Claim, name: Option<string>)
    requires Stands(s, c, RemoveWorkspaces, Started)
    ensures var s', i := D.RestoreApplication(s, c, name), Id(c);
            if s.instances[i].password.None? then s' == s
            else
              && s' == s.(instances := s'.instances, workers := s.workers[c := ApplicationRestored])
              && s'.instances == s.instances[i := s.instances[i].(
                   argoName := if name.Some? then name else s.instances[i].argoName, started := true)]
  {
    hide Owned, Id;
  }

  lemma WorkspacesGone(s: State, c: Claim)
    requires c in s.workers && s.workers[c] == ApplicationRestored && c.step == RemoveWorkspaces
    ensures D.ConfirmWorkspaces(s, c) == s.(workers := s.workers[c := Confirmed], log := s.log + [WorkspacesRemoved(c.job)])
  {}

  lemma RemovalMovesOn(s: State, c: Claim)
    requires Stands(s, c, RemoveWorkspaces, Confirmed)
    ensures var s' := D.FinishRemoveWorkspaces(s, c); s' == s.(core := s'.core) && MovedOn(s.core, s'.core, c, RemoveInstance)
  {
    hide Owned, AdvanceExecution, Stood, Id;
    AdvancedRow(s.core, c, InstanceRow(Id(c)), RemoveInstance);
  }

  lemma InstanceRemoved(s: State, c: Claim)
    requires Stands(s, c, RemoveInstance, Confirmed)
    ensures var s', i := D.FinishRemoveInstance(s, c), Id(c);
            && s' == s.(core := s'.core, instances := s'.instances) && MovedOn(s.core, s'.core, c, RemoveSchema)
            && s'.instances == s.instances[i := s.instances[i].(started := false)]
  {
    hide Owned, AdvanceExecution, Stood, Id;
    AdvancedRow(s.core, c, InstanceRow(Id(c)), RemoveSchema);
  }

  lemma SchemaGone(s: State, c: Claim)
    requires c in s.workers && s.workers[c] == Started && c.step == RemoveSchema
    ensures D.DropSchema(s, c) == s.(workers := s.workers[c := Confirmed],
                                     log := if Id(c) in s.allocations then s.log + [SchemaDropped(c.job)] else s.log)
  {
    hide Id;
  }

  lemma SchemaMovesOn(s: State, c: Claim)
    requires Stands(s, c, RemoveSchema, Confirmed)
    ensures var s' := D.FinishRemoveSchema(s, c); s' == s.(core := s'.core) && MovedOn(s.core, s'.core, c, RemoveLocalConfiguration)
  {
    hide Owned, AdvanceExecution, Stood, Id;
    AdvancedRow(s.core, c, InstanceRow(Id(c)), RemoveLocalConfiguration);
  }

  /** None of these steps goes on before its observation. */
  lemma NothingGoesOnUnconfirmed(s: State, c: Claim)
    requires c in s.workers && s.workers[c] != Confirmed
    ensures D.FinishStop(s, c) == s && D.FinishRemoveWorkspaces(s, c) == s
    ensures D.FinishRemoveInstance(s, c) == s && D.FinishRemoveSchema(s, c) == s
  {}

  /** The rows of one instance, and only those, disappear with it. */
  lemma InstanceErased(s: State, c: Claim, l: Local)
    requires Stands(s, c, RemoveLocalConfiguration, l)
    ensures var s', i := D.RemoveLocal(s, c), Id(c);
            && s' == s.(core := s'.core, instances := s'.instances, allocations := s'.allocations, members := s'.members,
                        workspaces := s'.workspaces, assignments := s'.assignments)
            && s'.instances == s.instances - {i} && s'.allocations == s.allocations - {i}
            && (forall m :: m in s'.members <==> m in s.members && s.members[m].instance != i)
            && (forall m <- s'.members :: s'.members[m] == s.members[m])
            && (forall w :: w in s'.workspaces <==> w in s.workspaces && s.workspaces[w].instance != i)
            && (forall w <- s'.workspaces :: s'.workspaces[w] == s.workspaces[w])
            && (forall a :: a in s'.assignments <==> a in s.assignments && s.assignments[a].instance != i)
            && (forall a <- s'.assignments :: s'.assignments[a] == s.assignments[a])
            && c.job in s'.core.jobs && s'.core.jobs[c.job].status == Success && InstanceRow(i) !in s'.core.life
            && (forall w <- s.workspaces :: s.workspaces[w].instance == i ==> WorkspaceRow(w) !in s'.core.life)
            && (forall a <- s.assignments :: s.assignments[a].instance == i ==> AssignmentRow(a) !in s'.core.life)
  {
    hide Owned, CompleteAndDelete, Id;
    CompleteAndDeleteErases(s.core, c);
  }
}
