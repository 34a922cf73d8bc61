/** An instance outside its creation and the abandonment of a failed creation has its administrator
    password and Argo CD name stored, so a current attempt never meets a missing prerequisite. */
module Readiness {
  import opened Records
  import opened Execution
  import opened Store
  import opened Events
  import opened Fencing
  import opened Frames
  import opened Soundness
  import opened Tables
  import opened Asks
  import Protocol
  import Placement
  import Interlock
  import Homes
  import WorkerSteps
  import U = UpdateSteps
  import D = TeardownSteps
  import T = TemplateSteps
  import W = WorkspaceSteps
  import IR = InstanceRequests
  import TR = TemplateRequests

  predicate Ready(instance: Instance) {
    instance.password.Some? && instance.argoName.Some?
  }

  /** The instance is ready, is still being created, or its failed creation is being abandoned. */
  predicate RowReady(row: Life, instance: Instance) {
    && (row.action == Deleting ==> Unfinished(row.status))
    && (|| Ready(instance)
        || (row.action == Creating && Unfinished(row.status))
        || (row.action == Deleting && row.step.Some?
            && (row.step.value == RemoveInstance || row.step.value == RemoveSchema || row.step.value == RemoveLocalConfiguration)))
    && (row.action == Creating && row.step == Some(BootstrapAdmin) ==> instance.argoName.Some?)
    && (row.action == Creating && Unfinished(row.status) ==> instance.password.None?)
  }

  ghost predicate Prepared(life: map<Resource, Life>, instances: map<nat, Instance>) {
    forall i <- instances :: InstanceRow(i) in life ==> RowReady(life[InstanceRow(i)], instances[i])
  }

  /** Only ready instances have assignments. */
  ghost predicate AssignedReady(as_: map<nat, Assignment>, instances: map<nat, Instance>) {
    forall a <- as_ :: as_[a].instance in instances ==> Ready(instances[as_[a].instance])
  }

  // ---------- the steps ----------

  lemma OwnRowStaysReady(s: State, s': State, c: Claim, name: JobName, row: Life, row': Life, a: Instance, b: Instance)
    requires InWorkflow(name, c.step) && OnInstance(c.step)
    requires row.action == ActionOf(name).value && row.status == Running && row.step == Some(c.step)
    requires row' == row || RowMoves(s, s', c, row, row')
    requires InstanceKept(a, b) && (b.password != a.password ==> row'.status == Success)
    requires c in s.workers && Gate(s, s', c) ==>
               && (c.step == Step.CreateInstance ==> b.argoName.Some?)
               && (c.step == BootstrapAdmin ==> b.password.Some?)
    requires RowReady(row, a)
    ensures RowReady(row', b)
  {
    hide Gate;
  }

  lemma CompletedIsSuccess(s: State, s': State, c: Claim)
    requires Sound(s) && c in s.workers && Owned(s.core, c) && c.resource.Some? && s'.core == CompleteExecution(s.core, c, None)
    ensures c.resource.value in s'.core.life && s'.core.life[c.resource.value].status == Success
  {
    OwnedRow(s.core, c);
    hide Protocol.Inv;
  }

  lemma OwnInstanceStaysReady(s: State, s': State, c: Claim)
    requires Sound(s) && c in s.workers && Plain(s, s', c) && Owned(s.core, c) && OnInstance(c.step)
    requires LifeMoves(s, s', c) && Id(c) in s.instances && Id(c) in s'.instances
    requires InstanceRow(Id(c)) in s.core.life && InstanceRow(Id(c)) in s'.core.life
    requires RowReady(s.core.life[InstanceRow(Id(c))], s.instances[Id(c)])
    ensures RowReady(s'.core.life[InstanceRow(Id(c))], s'.instances[Id(c)])
  {
    OwnedResource(s.core, c);
    var k, a, b := InstanceRow(Id(c)), s.instances[Id(c)], s'.instances[Id(c)];
    assert b.password != a.password ==> s'.core.life[k].status == Success by {
      if b.password != a.password {
        assert CredentialsMove(s, s', c, a, b);
        assert s.core.jobs[c.job].name == InstanceCreate;
        CompletedIsSuccess(s, s', c);
      }
    }
    assert Gate(s, s', c) ==> (c.step == Step.CreateInstance ==> b.argoName.Some?) && (c.step == BootstrapAdmin ==> b.password.Some?);
    assert InstanceKept(a, b);
    hide Sound, Plain, Gate, Owned, RowMoves;
    OwnRowStaysReady(s, s', c, s.core.jobs[c.job].name, s.core.life[k], s'.core.life[k], a, b);
  }

  lemma OtherInstancesStay(s: State, s': State, c: Claim, i: nat)
    requires Sound(s) && c in s.workers && LifeMoves(s, s', c) && InstancesTouched(s, s', c)
    requires !Owned(s.core, c) || !OnInstance(c.step) || i != Id(c)
    ensures i in s'.instances <==> i in s.instances
    ensures i in s.instances ==> s'.instances[i] == s.instances[i]
    ensures InstanceRow(i) in s'.core.life <==> InstanceRow(i) in s.core.life
    ensures InstanceRow(i) in s.core.life ==> s'.core.life[InstanceRow(i)] == s.core.life[InstanceRow(i)]
  {
    if Owned(s.core, c) { OwnedResource(s.core, c); }
    hide Sound, Owned, RowMoves, InstanceKept, CredentialsMove;
  }

  lemma PlainKeepsPrepared(s: State, s': State, c: Claim)
    requires Sound(s) && c in s.workers && Plain(s, s', c) && Prepared(s.core.life, s.instances)
    ensures Prepared(s'.core.life, s'.instances)
  {
    StepMovesLife(s, s', c);
    PlainSameRows(s, s', c);
    assert InstancesTouched(s, s', c) && SameInstances(s.instances, s'.instances) && SameKeys(s.core.life, s'.core.life);
    forall i <- s'.instances | InstanceRow(i) in s'.core.life ensures RowReady(s'.core.life[InstanceRow(i)], s'.instances[i]) {
      hide Sound, Plain, LifeMoves, InstancesTouched, RowReady, SameRows, Owned, Id;
      if Owned(s.core, c) && OnInstance(c.step) && i == Id(c) {
        OwnInstanceStaysReady(s, s', c);
      } else {
        OtherInstancesStay(s, s', c, i);
      }
    }
  }

  lemma PlainKeepsAssigned(s: State, s': State, c: Claim)
    requires InstancesTouched(s, s', c) && SameAssignments(s.assignments, s'.assignments) && AssignedReady(s.assignments, s.instances)
    ensures AssignedReady(s'.assignments, s'.instances)
  {
    hide Owned, CredentialsMove, Id;
  }

  /** Rows may disappear and instances keep their credentials. */
  lemma FewerStayReady(s: State, s': State)
    requires forall i <- s'.instances :: i in s.instances && InstanceKept(s.instances[i], s'.instances[i])
    requires forall a <- s'.assignments :: a in s.assignments && SamePair(s'.assignments[a], s.assignments[a])
    requires AssignedReady(s.assignments, s.instances)
    requires forall a <- s.assignments :: s.assignments[a].instance in s.instances
    ensures AssignedReady(s'.assignments, s'.instances)
  {}

  lemma RedeliveryKeepsReady(s: State, s': State)
    requires Prepared(s.core.life, s.instances) && Redelivers(s, s')
    ensures Prepared(s'.core.life, s'.instances)
  {
    assert StatusesMove(s.core.life, s'.core.life);
    hide Redelivers;
  }

  lemma ErasureKeepsPrepared(s: State, s': State, c: Claim)
    requires Calm(s.core, s'.core, c.resource) && Prepared(s.core.life, s.instances)
    requires forall i <- s'.instances :: i in s.instances
    requires forall i <- s'.instances ::
               s'.instances[i] == s.instances[i] && (c.resource == Some(InstanceRow(i)) ==> InstanceRow(i) !in s'.core.life)
    ensures Prepared(s'.core.life, s'.instances)
  {
    hide RowReady, Busy;
  }

  lemma InstanceErasureKeepsReady(s: State, s': State, c: Claim, i: nat, as_: set<nat>)
    requires Fenced(s.core, s'.core, c) && c.resource == Some(InstanceRow(i)) && Linked(s)
    requires s'.instances == s.instances - {i} && s'.assignments == s.assignments - as_
    requires Prepared(s.core.life, s.instances) && AssignedReady(s.assignments, s.instances)
    ensures Prepared(s'.core.life, s'.instances) && AssignedReady(s'.assignments, s'.instances)
  {
    hide Protocol.Inv, Protocol.Evolves, Prepared, AssignedReady, Owned;
    ErasureKeepsPrepared(s, s', c);
    FewerStayReady(s, s');
  }

  lemma RemoveLocalKeepsReady(s: State, c: Claim)
    requires Sound(s) && c in s.workers && Linked(s) && Prepared(s.core.life, s.instances) && AssignedReady(s.assignments, s.instances)
    ensures var s' := D.RemoveLocal(s, c); Prepared(s'.core.life, s'.instances) && AssignedReady(s'.assignments, s'.instances)
  {
    var s' := D.RemoveLocal(s, c);
    if s' != s {
      RemoveLocalFenced(s, c);
      RemoveLocalErases(s, c);
      RemoveLocalMoves(s, c);
      hide D.RemoveLocal, Sound, Linked, Prepared, AssignedReady, Owned, DeleteRows, CompleteAndDelete, Fenced, Erases, Id;
      hide D.AssignmentsOf, D.WorkspacesOf, D.MembersOf;
      InstanceErasureKeepsReady(s, s', c, Id(c), D.AssignmentsOf(s, Id(c)));
    }
  }

  lemma SmallErasureKeepsReady(s: State, s': State, c: Claim, as_: set<nat>)
    requires Fenced(s.core, s'.core, c) && (c.resource.Some? ==> !c.resource.value.InstanceRow?) && Linked(s)
    requires s'.instances == s.instances && s'.assignments == s.assignments - as_
    requires Prepared(s.core.life, s.instances) && AssignedReady(s.assignments, s.instances)
    ensures Prepared(s'.core.life, s'.instances) && AssignedReady(s'.assignments, s'.instances)
  {
    hide Protocol.Inv, Protocol.Evolves, Prepared, AssignedReady, Owned;
    ErasureKeepsPrepared(s, s', c);
    FewerStayReady(s, s');
  }

  lemma RemoveAssignmentKeepsReady(s: State, c: Claim)
    requires Sound(s) && c in s.workers && Linked(s) && Prepared(s.core.life, s.instances) && AssignedReady(s.assignments, s.instances)
    ensures var s' := T.RemoveAssignment(s, c); Prepared(s'.core.life, s'.instances) && AssignedReady(s'.assignments, s'.instances)
  {
    var s' := T.RemoveAssignment(s, c);
    if s' != s {
      RemoveAssignmentFenced(s, c);
      RemoveAssignmentErases(s, c);
      RemoveAssignmentMoves(s, c);
      hide T.RemoveAssignment, Sound, Linked, Prepared, AssignedReady, Owned, DeleteRows, CompleteAndDelete, Fenced, Erases, Id;
      SmallErasureKeepsReady(s, s', c, {Id(c)});
    }
  }

  lemma FinishDeleteWorkspaceKeepsReady(s: State, c: Claim)
    requires Sound(s) && c in s.workers && Linked(s) && Prepared(s.core.life, s.instances) && AssignedReady(s.assignments, s.instances)
    ensures var s' := W.FinishDeleteWorkspace(s, c); Prepared(s'.core.life, s'.instances) && AssignedReady(s'.assignments, s'.instances)
  {
    var s' := W.FinishDeleteWorkspace(s, c);
    if s' != s {
      FinishDeleteWorkspaceFenced(s, c);
      FinishDeleteWorkspaceErases(s, c);
      FinishDeleteWorkspaceMoves(s, c);
      assert s.assignments - {} == s.assignments;
      hide W.FinishDeleteWorkspace, Sound, Linked, Prepared, AssignedReady, Owned, DeleteRows, CompleteAndDelete, Fenced, Erases, Id;
      SmallErasureKeepsReady(s, s', c, {});
    }
  }

  lemma FinalizedStaysReady(s: State, c: Claim, row: Life, row': Life, a: Instance, b: Instance)
    requires row.action == Updating || row.action == Starting
    requires row' == Life(row.action, Success, row.job, None) || row' == Life(Updating, Pending, row'.job, Some(Step.UpdateInstance))
    requires RowReady(row, a) && b == a.(argoName := b.argoName) && b.argoName.Some?
    ensures RowReady(row', b)
  {}

  lemma FinalizeInstance(s: State, c: Claim)
    requires U.FinalizeUpdate(s, c) != s
    ensures Id(c) in s.instances && Id(c) in U.FinalizeUpdate(s, c).instances
    ensures var s' := U.FinalizeUpdate(s, c);
            && s'.instances == s.instances[Id(c) := s'.instances[Id(c)]]
            && s'.instances[Id(c)] == s.instances[Id(c)].(argoName := s'.instances[Id(c)].argoName)
            && s'.instances[Id(c)].argoName.Some?
            && s'.assignments == s.assignments
  {
    hide U.Settle, U.Orphans, Owned, DeleteRows, CompleteExecution, RequestJob, Id;
  }

  lemma FinalizedPrepared(s: State, s': State, i: nat, ks: set<Resource>)
    requires Prepared(s.core.life, s.instances) && i in s.instances && i in s'.instances
    requires InstanceRow(i) in s'.core.life && s'.core.life == s.core.life[InstanceRow(i) := s'.core.life[InstanceRow(i)]] - ks
    requires s'.instances == s.instances[i := s'.instances[i]]
    requires RowReady(s'.core.life[InstanceRow(i)], s'.instances[i])
    ensures Prepared(s'.core.life, s'.instances)
  {
    hide RowReady;
  }

  lemma CleanupRow(core: Core, c: Claim)
    requires Protocol.Inv(core) && c in core.claims && Owned(core, c) && c.step == CleanupUsers
    ensures InstanceRow(Id(c)) in core.life
    ensures core.life[InstanceRow(Id(c))].action == Updating || core.life[InstanceRow(Id(c))].action == Starting
  {
    OwnedResource(core, c);
    hide Protocol.Inv, Owned;
  }

  lemma FinalizedRow(s: State, s': State, c: Claim, i: nat)
    requires Sound(s) && c in s.workers && Keyed(s) && Prepared(s.core.life, s.instances) && U.FinalizeUpdate(s, c) != s
    requires s' == U.FinalizeUpdate(s, c) && i == Id(c)
    ensures i in s'.instances && InstanceRow(i) in s'.core.life && RowReady(s'.core.life[InstanceRow(i)], s'.instances[i])
  {
    FinalizeLife(s, c);
    FinalizeInstance(s, c);
    CleanupRow(s.core, c);
    hide U.FinalizeUpdate, Sound, Keyed, Owned, U.Orphans, U.Settle, Id, RowReady, WorkerSteps.WorkspaceRows;
    FinalizedStaysReady(s, c, s.core.life[InstanceRow(i)], s'.core.life[InstanceRow(i)], s.instances[i], s'.instances[i]);
  }

  lemma FinalizeKeepsPrepared(s: State, c: Claim)
    requires Sound(s) && c in s.workers && Keyed(s) && Prepared(s.core.life, s.instances)
    ensures Prepared(U.FinalizeUpdate(s, c).core.life, U.FinalizeUpdate(s, c).instances)
  {
    var s', i := U.FinalizeUpdate(s, c), Id(c);
    if s' != s {
      FinalizeLife(s, c);
      FinalizeInstance(s, c);
      FinalizedRow(s, s', c, i);
      var ks := WorkerSteps.WorkspaceRows(U.Orphans(s, U.Settle(s.members, i, s.workers[c].claimed)));
      hide U.FinalizeUpdate, Sound, Keyed, Owned, U.Orphans, U.Settle, Id, RowReady, WorkerSteps.WorkspaceRows, Prepared;
      FinalizedPrepared(s, s', i, ks);
    }
  }

  lemma FinalizeKeepsAssigned(s: State, c: Claim)
    requires Linked(s) && AssignedReady(s.assignments, s.instances)
    ensures AssignedReady(U.FinalizeUpdate(s, c).assignments, U.FinalizeUpdate(s, c).instances)
  {
    if U.FinalizeUpdate(s, c) != s { FinalizeInstance(s, c); }
    hide U.FinalizeUpdate, Id;
  }

  lemma FinalizeKeepsReady(s: State, c: Claim)
    requires Sound(s) && c in s.workers && Keyed(s) && Linked(s) && Prepared(s.core.life, s.instances) && AssignedReady(s.assignments, s.instances)
    ensures var s' := U.FinalizeUpdate(s, c); Prepared(s'.core.life, s'.instances) && AssignedReady(s'.assignments, s'.instances)
  {
    hide *;
    FinalizeKeepsPrepared(s, c);
    FinalizeKeepsAssigned(s, c);
  }

  // ---------- requests ----------

  /** The row a request on an instance leaves behind is ready too. */
  lemma AskedStaysReady(s: State, s': State, i: nat)
    requires InstanceAsk(s, s', i) && Prepared(s.core.life, s.instances)
    requires i in s'.instances && InstanceRow(i) in s'.core.life ==> RowReady(s'.core.life[InstanceRow(i)], s'.instances[i])
    ensures Prepared(s'.core.life, s'.instances)
  {
    hide RowReady, Protocol.Inv, Protocol.Evolves;
  }

  lemma AskedKeepsAssigned(s: State, s': State, i: nat)
    requires InstanceAsk(s, s', i) && AssignedReady(s.assignments, s.instances) && Linked(s)
    ensures AssignedReady(s'.assignments, s'.instances)
  {
    assert forall a <- s.assignments :: s.assignments[a].instance in s.instances;
    hide Asked, Linked;
  }

  predicate RowOk(s: State, i: nat) {
    i in s.instances && InstanceRow(i) in s.core.life ==> RowReady(s.core.life[InstanceRow(i)], s.instances[i])
  }

  lemma AddInstanceReady(s: State, unique: bool)
    requires RowOk(s, s.core.nextId)
    ensures RowOk(IR.CreateInstance(s, unique).0, s.core.nextId)
  {
    hide Placement.Place;
  }

  /** Deletion is accepted only for a ready instance or for a failed creation without a password. */
  lemma DropInstanceReady(s: State, i: nat)
    requires RowOk(s, i)
    ensures RowOk(IR.RequestDeletion(s, i).0, i)
  {
    hide IR.HasActiveAssignment;
  }

  lemma SyncInstanceReady(s: State, i: nat)
    requires RowOk(s, i)
    ensures RowOk(IR.RequestSync(s, i).0, i)
  {
    hide IR.HasActiveAssignment, IR.RetryFailedMembers;
  }

  lemma PowerOnReady(s: State, i: nat)
    requires RowOk(s, i)
    ensures RowOk(IR.RequestStart(s, i).0, i)
  {
    hide IR.HasActiveAssignment;
  }

  lemma PowerOffReady(s: State, i: nat)
    requires RowOk(s, i)
    ensures RowOk(IR.RequestStop(s, i).0, i)
  {
    hide IR.HasActiveAssignment;
  }

  lemma UploadProviderReady(s: State, i: nat)
    requires RowOk(s, i)
    ensures RowOk(IR.UploadProvider(s, i).0, i)
  {}

  lemma ObserveStateReady(s: State, i: nat, started: bool)
    requires RowOk(s, i)
    ensures RowOk(IR.ObserveState(s, i, started), i)
  {}

  lemma AddMemberReady(s: State, i: nat, username: string, role: Role)
    requires RowOk(s, i)
    ensures RowOk(IR.CreateMember(s, i, username, role).0, i)
  {
    hide IR.HasActiveAssignment, IR.UsernameTaken;
  }

  lemma SetRoleReady(s: State, i: nat, m: nat, role: Role)
    requires RowOk(s, i)
    ensures RowOk(IR.UpdateRole(s, i, m, role).0, i)
  {
    hide IR.HasActiveAssignment;
  }

  lemma DropMemberReady(s: State, i: nat, m: nat, protected: set<string>)
    requires RowOk(s, i)
    ensures RowOk(IR.DeleteMember(s, i, m, protected).0, i)
  {
    hide IR.HasActiveAssignment;
  }

  lemma InstanceRequestReady(s: State, r: InstanceRequest)
    requires RowOk(s, InstanceOf(s, r))
    ensures RowOk(AnswerInstance(s, r).0, InstanceOf(s, r))
  {
    hide RowOk, IR.CreateInstance, IR.RequestDeletion, IR.RequestSync, IR.RequestStart, IR.RequestStop;
    hide IR.UploadProvider, IR.ObserveState, IR.CreateMember, IR.UpdateRole, IR.DeleteMember;
    match r
    case AddInstance(unique) => AddInstanceReady(s, unique);
    case DropInstance(i) => DropInstanceReady(s, i);
    case SyncInstance(i) => SyncInstanceReady(s, i);
    case PowerOn(i) => PowerOnReady(s, i);
    case PowerOff(i) => PowerOffReady(s, i);
    case UploadProvider(i) => UploadProviderReady(s, i);
    case ObserveState(i, started) => ObserveStateReady(s, i, started);
    case AddMember(i, username, role) => AddMemberReady(s, i, username, role);
    case SetRole(i, m, role) => SetRoleReady(s, i, m, role);
    case DropMember(i, m, protected) => DropMemberReady(s, i, m, protected);
  }

  lemma InstanceRequestKeepsReady(s: State, r: InstanceRequest)
    requires Sound(s) && Keyed(s) && Linked(s) && Prepared(s.core.life, s.instances) && AssignedReady(s.assignments, s.instances)
    ensures var s' := AnswerInstance(s, r).0; Prepared(s'.core.life, s'.instances) && AssignedReady(s'.assignments, s'.instances)
  {
    assert s.core.nextId !in s.instances;
    var s', i := AnswerInstance(s, r).0, InstanceOf(s, r);
    InstanceRequestAsks(s, r);
    assert RowOk(s, i);
    InstanceRequestReady(s, r);
    hide AnswerInstance, InstanceAsk, Sound, Keyed, Linked, Prepared, AssignedReady, RowReady;
    AskedStaysReady(s, s', i);
    AskedKeepsAssigned(s, s', i);
  }

  lemma OtherRequestKeepsPrepared(s: State, s': State, k: Option<Resource>)
    requires Asked(s.core, s'.core, k) && (k.Some? ==> !k.value.InstanceRow?) && s'.instances == s.instances
    requires Prepared(s.core.life, s.instances)
    ensures Prepared(s'.core.life, s'.instances)
  {
    hide Protocol.Inv, Protocol.Evolves, RowReady;
  }

  /** Only a started instance at rest is assigned a template, so it is ready. */
  lemma PutAssignmentReady(s: State, i: nat, t: nat)
    requires Prepared(s.core.life, s.instances)
    ensures var s' := TR.PutAssignment(s, i, t).0;
            s' == s || (i in s.instances && Ready(s.instances[i])
                        && s'.assignments == s.assignments[s.core.nextId := Assignment(t, i, None)])
  {
    hide TR.FindAssignment, TR.ConsistentJob;
  }

  lemma PutAssignmentKeepsAssigned(s: State, i: nat, t: nat)
    requires Prepared(s.core.life, s.instances) && AssignedReady(s.assignments, s.instances)
    ensures AssignedReady(TR.PutAssignment(s, i, t).0.assignments, s.instances)
  {
    PutAssignmentReady(s, i, t);
    hide TR.PutAssignment, Prepared, Ready;
  }

  lemma TemplateRequestKeepsAssigned(s: State, r: TemplateRequest)
    requires Sound(s) && Keyed(s) && Prepared(s.core.life, s.instances) && AssignedReady(s.assignments, s.instances)
    ensures AssignedReady(AnswerTemplate(s, r).0.assignments, s.instances)
  {
    hide AssignedReady, Prepared;
    if r.PutAssignment? {
      hide TR.PutAssignment;
      PutAssignmentKeepsAssigned(s, r.i, r.t);
    } else if r.DropAssignment? {
      hide TR.DeleteAssignment, TR.FindAssignment;
      Interlock.DropAssignmentWaits(s, r.i, r.t);
    } else {
      assert TemplateRow(s.core.nextId) !in s.core.life;
      hide AnswerTemplate, Asked, Keyed;
      TemplateRequestAsks(s, r);
      hide Sound;
    }
  }

  lemma TemplateRequestKeepsReady(s: State, r: TemplateRequest)
    requires Sound(s) && Keyed(s) && Prepared(s.core.life, s.instances) && AssignedReady(s.assignments, s.instances)
    ensures var s' := AnswerTemplate(s, r).0; Prepared(s'.core.life, s'.instances) && AssignedReady(s'.assignments, s'.instances)
  {
    assert TemplateRow(s.core.nextId) !in s.core.life;
    hide AnswerTemplate, Asked, Keyed, Prepared, AssignedReady, TemplateTarget;
    TemplateRequestAsks(s, r);
    TemplateTargetKind(s, r);
    TemplateRequestKeepsAssigned(s, r);
    OtherRequestKeepsPrepared(s, AnswerTemplate(s, r).0, TemplateTarget(s, r));
  }

  lemma TemplateTargetKind(s: State, r: TemplateRequest)
    ensures TemplateTarget(s, r).Some? ==> !TemplateTarget(s, r).value.InstanceRow?
  {
    hide TR.FindAssignment;
  }

  lemma WorkspaceRequestKeepsReady(s: State, r: WorkspaceRequest)
    requires Sound(s) && Prepared(s.core.life, s.instances) && AssignedReady(s.assignments, s.instances)
    ensures var s' := AnswerWorkspace(s, r).0; Prepared(s'.core.life, s'.instances) && AssignedReady(s'.assignments, s'.instances)
  {
    WorkspaceRequestAsks(s, r);
    hide AnswerWorkspace, Asked, Sound, Prepared;
    OtherRequestKeepsPrepared(s, AnswerWorkspace(s, r).0, WorkspaceTarget(s, r));
  }

  // ---------- what the invariant gives ----------

  predicate NeedsReadyInstance(step: Step) {
    || step == Step.UpdateInstance || step == Step.StartInstance || step == CleanupUsers
    || step == StopWorkspaces || step == Step.StopInstance || step == RemoveWorkspaces
  }

  lemma OwnedInstance(s: State, c: Claim)
    requires Sound(s) && Keyed(s) && c in s.workers && Owned(s.core, c) && OnInstance(c.step)
    ensures Id(c) in s.instances && Id(c) in s.allocations && InstanceRow(Id(c)) in s.core.life
  {
    OwnedResource(s.core, c);
    hide Protocol.Inv, Owned, Id;
  }

  lemma OwnedInstanceRow(core: Core, c: Claim, instance: Instance)
    requires Protocol.Inv(core) && c in core.claims && Owned(core, c) && OnInstance(c.step) && InstanceRow(Id(c)) in core.life
    requires RowReady(core.life[InstanceRow(Id(c))], instance)
    ensures NeedsReadyInstance(c.step) ==> Ready(instance)
    ensures c.step == BootstrapAdmin ==> instance.argoName.Some?
  {
    OwnedResource(core, c);
    hide Protocol.Inv, Owned, Id;
  }

  /** A current attempt on an instance finds the instance, its allocation, and everything its step
      reads from them. */
  lemma InstancePrerequisites(s: State, c: Claim)
    requires Sound(s) && Keyed(s) && Prepared(s.core.life, s.instances)
    requires c in s.workers && Owned(s.core, c) && OnInstance(c.step)
    ensures Id(c) in s.instances && Id(c) in s.allocations
    ensures NeedsReadyInstance(c.step) ==> Ready(s.instances[Id(c)])
    ensures c.step == BootstrapAdmin ==> s.instances[Id(c)].argoName.Some?
  {
    OwnedInstance(s, c);
    hide Protocol.Inv, Owned, Id, Keyed, RowReady, Ready, NeedsReadyInstance, OnInstance;
    OwnedInstanceRow(s.core, c, s.instances[Id(c)]);
  }

  lemma HousedIsReady(s: State, w: nat)
    requires Linked(s) && Homes.Homely(s) && AssignedReady(s.assignments, s.instances) && w in s.workspaces
    ensures W.RemoteReady(s, w)
  {
    var row := s.workspaces[w];
    var a :| Homes.IsHome(s.core.life, s.assignments, a, row);
    assert row.template in s.templates && row.instance in s.instances && row.member in s.members;
    assert a in s.assignments && s.assignments[a].instance == row.instance && s.assignments[a].template == row.template
           && s.assignments[a].deployment.Some? && s.assignments[a].deployment.value.templateId.Some?;
  }

  lemma OwnedWorkspace(s: State, c: Claim)
    requires Sound(s) && Keyed(s) && c in s.workers && Owned(s.core, c) && W.IsWorkspaceStep(c.step)
    ensures Id(c) in s.workspaces
  {
    OwnedResource(s.core, c);
    hide Protocol.Inv, Owned, Id;
  }

  /** A current attempt on a workspace finds a stored password, the owner, the template and a known
      remote template. */
  lemma WorkspacePrerequisites(s: State, c: Claim)
    requires Sound(s) && Keyed(s) && Linked(s) && Homes.Homely(s) && AssignedReady(s.assignments, s.instances)
    requires c in s.workers && Owned(s.core, c) && W.IsWorkspaceStep(c.step)
    ensures W.RemoteReady(s, Id(c))
  {
    hide *;
    OwnedWorkspace(s, c);
    HousedIsReady(s, Id(c));
  }

  /** A current publication finds its template, and the password of every instance it may reach. */
  lemma TemplatePrerequisites(s: State, c: Claim, a: nat)
    requires Sound(s) && Keyed(s) && Linked(s) && AssignedReady(s.assignments, s.instances)
    requires c in s.workers && Owned(s.core, c)
    ensures c.step == Step.SyncTemplate ==> Id(c) in s.templates
    ensures c.step == Step.CreateTemplate || c.step == Step.DeleteTemplate ==> Id(c) in s.assignments
    ensures a in s.assignments ==>
              T.TargetExists(s, a) && s.instances[s.assignments[a].instance].password.Some?
  {
    OwnedResource(s.core, c);
    hide Protocol.Inv, Owned, Id;
  }
}
