/** What API requests touch: at most one row of the protocol, and never a worker. */
module Asks {
  import opened Records
  import opened Execution
  import opened Protocol
  import opened Store
  import opened Events
  import opened Frames
  import IR = InstanceRequests
  import TR = TemplateRequests
  import WR = WorkspaceRequests
  import Parameters
  import Placement

  /** A sound move of the protocol that rewrites at most the row `k`. */
  ghost predicate Asked(core: Core, core': Core, k: Option<Resource>) {
    && Inv(core') && Evolves(core, core') && core'.claims == core.claims
    && (forall id :: id in core'.jobs ==>
          if id < core.nextId then id in core.jobs && core'.jobs[id] == core.jobs[id]
          else IsEntry(core'.jobs[id].name, core'.jobs[id].step) && core'.jobs[id].resource == k)
    && (forall k' :: k != Some(k') ==>
          (k' in core'.life <==> k' in core.life) && (k' in core.life ==> core'.life[k'] == core.life[k']))
  }

  lemma SelfAsked(core: Core, k: Option<Resource>)
    requires Inv(core)
    ensures Asked(core, core, k)
  {
    SelfEvolves(core);
  }

  lemma DrawAsked(core: Core, k: Option<Resource>)
    requires Inv(core)
    ensures Asked(core, DrawId(core), k)
  {
    DrawKeeps(core);
  }

  lemma AskedTransitive(a: Core, b: Core, c: Core, k: Option<Resource>)
    requires Asked(a, b, k) && Asked(b, c, k)
    ensures Asked(a, c, k)
  {
    EvolvesTransitive(a, b, c);
    hide Inv, Evolves;
  }

  lemma RequestAsked(core: Core, k: Resource, name: JobName, step: Step)
    requires Inv(core) && FitsResource(name, Some(k)) && IsEntry(name, step)
    ensures Asked(core, RequestJob(core, k, name, step), Some(k))
  {
    RequestKeeps(core, k, name, step);
    hide Inv, Evolves;
  }

  /** A staged job rewrites its own row, which may carry an identifier drawn just before it. */
  lemma StageAsked(core: Core, k: Resource, name: JobName, step: Step)
    requires Inv(core) && FitsResource(name, Some(k)) && IsEntry(name, step)
    ensures Asked(core, RequestJob(core, k, name, step), Some(k))
    ensures Asked(core, RequestJob(DrawId(core), k, name, step), Some(k))
  {
    DrawAsked(core, Some(k));
    assert Inv(DrawId(core));
    hide Inv, Asked, DrawId;
    RequestAsked(core, k, name, step);
    RequestAsked(DrawId(core), k, name, step);
    AskedTransitive(core, DrawId(core), RequestJob(DrawId(core), k, name, step), Some(k));
  }

  lemma DiscardedAsked(core: Core, k: Resource)
    requires Inv(core) && k in core.life && core.life[k].status == Success
    ensures Asked(core, DiscardJob(core, k, Updated), Some(k))
  {
    DiscardKeeps(core, k, Updated);
    hide Inv, Evolves;
  }

  lemma DeletedAsked(core: Core, k: Resource)
    requires Inv(core)
    ensures Asked(core, DeleteRows(core, {k}), Some(k))
  {
    DeleteKeeps(core, {k});
    hide Inv, Evolves;
  }

  lemma DiscardAsked(core: Core, k: Resource)
    requires Inv(core) && k in core.life && core.life[k].status == Success
    ensures var core1 := DiscardJob(core, k, Updated);
            && Asked(core, core1, Some(k)) && Asked(core, DeleteRows(core1, {k}), Some(k))
            && (k.TemplateRow? ==> Asked(core, RequestJob(core1, k, TemplateSync, Step.SyncTemplate), Some(k)))
  {
    var core1 := DiscardJob(core, k, Updated);
    DiscardedAsked(core, k);
    hide Inv, Evolves, DiscardJob, DeleteRows, RequestJob;
    assert Inv(core1);
    hide Asked;
    DeletedAsked(core1, k);
    AskedTransitive(core, core1, DeleteRows(core1, {k}), Some(k));
    if k.TemplateRow? {
      RequestAsked(core1, k, TemplateSync, Step.SyncTemplate);
      AskedTransitive(core, core1, RequestJob(core1, k, TemplateSync, Step.SyncTemplate), Some(k));
    }
  }

  lemma InsertAsked(core: Core, k: Resource)
    requires Inv(core) && k !in core.life
    ensures Asked(core, InsertIdle(DrawId(core), k, Created), Some(k))
  {
    DrawAsked(core, Some(k));
    InsertKeeps(DrawId(core), k, Created);
    hide Inv, Evolves;
  }

  lemma SystemAsked(core: Core)
    requires Inv(core)
    ensures Asked(core, SystemJob(core), None)
  {
    SystemJobKeeps(core);
  }

  // ---------- requests on instances ----------

  /** A request on an instance leaves alone stored credentials and everything outside the instance
      and its members. */
  ghost predicate InstanceAsk(s: State, s': State, i: nat) {
    && Asked(s.core, s'.core, Some(InstanceRow(i)))
    && s'.templates == s.templates && s'.assignments == s.assignments && s'.workspaces == s.workspaces
    && s'.databases == s.databases && s'.workers == s.workers && s'.secrets == s.secrets
    && (i in s.instances ==> s'.allocations == s.allocations)
    && (s'.instances == s.instances
        || (i in s'.instances && s'.instances == s.instances[i := s'.instances[i]]
            && (i in s.instances ==>
                  s'.instances[i] == s.instances[i].(started := s'.instances[i].started, provider := s'.instances[i].provider))))
  }

  lemma StutterAskInstance(s: State, i: nat)
    requires Inv(s.core)
    ensures InstanceAsk(s, s, i)
  {
    SelfAsked(s.core, Some(InstanceRow(i)));
  }

  lemma AddInstanceAsks(s: State, unique: bool)
    requires Inv(s.core) && s.core.nextId !in s.instances
    ensures InstanceAsk(s, IR.CreateInstance(s, unique).0, s.core.nextId)
  {
    StutterAskInstance(s, s.core.nextId);
    StageAsked(s.core, InstanceRow(s.core.nextId), InstanceCreate, Step.CreateSchema);
    hide Inv, Asked, Evolves, RequestJob, DrawId, DiscardJob, DeleteRows, InsertIdle, SystemJob, Placement.Place;
  }

  lemma DropInstanceAsks(s: State, i: nat)
    requires Inv(s.core)
    ensures InstanceAsk(s, IR.RequestDeletion(s, i).0, i)
  {
    StutterAskInstance(s, i);
    StageAsked(s.core, InstanceRow(i), InstanceDelete, RemoveInstance);
    StageAsked(s.core, InstanceRow(i), InstanceDelete, RemoveWorkspaces);
    DropInstanceWrites(s, i);
    hide IR.RequestDeletion, Inv, Asked, RequestJob;
  }

  lemma DropInstanceWrites(s: State, i: nat)
    ensures var s' := IR.RequestDeletion(s, i).0;
            || s' == s
            || s' == s.(core := RequestJob(s.core, InstanceRow(i), InstanceDelete, RemoveInstance), log := s'.log)
            || s' == s.(core := RequestJob(s.core, InstanceRow(i), InstanceDelete, RemoveWorkspaces), log := s'.log)
  {
    hide RequestJob, IR.HasActiveAssignment;
  }

  lemma SyncInstanceAsks(s: State, i: nat)
    requires Inv(s.core)
    ensures InstanceAsk(s, IR.RequestSync(s, i).0, i)
  {
    StutterAskInstance(s, i);
    StageAsked(s.core, InstanceRow(i), InstanceUpdate, Step.UpdateInstance);
    hide Inv, Asked, Evolves, RequestJob, DrawId, DiscardJob, DeleteRows, InsertIdle, SystemJob, IR.LifecycleRefusal, IR.RetryFailedMembers;
  }

  lemma PowerOnAsks(s: State, i: nat)
    requires Inv(s.core)
    ensures InstanceAsk(s, IR.RequestStart(s, i).0, i)
  {
    StutterAskInstance(s, i);
    StageAsked(s.core, InstanceRow(i), InstanceStart, Step.StartInstance);
    hide Inv, Asked, Evolves, RequestJob, DrawId, DiscardJob, DeleteRows, InsertIdle, SystemJob, IR.LifecycleRefusal;
  }

  lemma PowerOffAsks(s: State, i: nat)
    requires Inv(s.core)
    ensures InstanceAsk(s, IR.RequestStop(s, i).0, i)
  {
    StutterAskInstance(s, i);
    StageAsked(s.core, InstanceRow(i), InstanceStop, StopWorkspaces);
    hide Inv, Asked, Evolves, RequestJob, DrawId, DiscardJob, DeleteRows, InsertIdle, SystemJob, IR.LifecycleRefusal;
  }

  lemma UploadProviderAsks(s: State, i: nat)
    requires Inv(s.core)
    ensures InstanceAsk(s, IR.UploadProvider(s, i).0, i)
  {
    StutterAskInstance(s, i);
    StageAsked(s.core, InstanceRow(i), InstanceUpdate, Step.UpdateInstance);
    hide Inv, Asked, Evolves, RequestJob, DrawId, DiscardJob, DeleteRows, InsertIdle, SystemJob;
  }

  lemma AddMemberAsks(s: State, i: nat, username: string, role: Role)
    requires Inv(s.core)
    ensures InstanceAsk(s, IR.CreateMember(s, i, username, role).0, i)
  {
    DrawAsked(s.core, Some(InstanceRow(i)));
    StutterAskInstance(s, i);
    StageAsked(s.core, InstanceRow(i), InstanceUpdate, Step.UpdateInstance);
    hide Inv, Asked, Evolves, RequestJob, DrawId, DiscardJob, DeleteRows, InsertIdle, SystemJob, IR.MemberRefusal, IR.Coalesces, IR.UsernameTaken, IR.StagedJob;
  }

  lemma SetRoleAsks(s: State, i: nat, m: nat, role: Role)
    requires Inv(s.core)
    ensures InstanceAsk(s, IR.UpdateRole(s, i, m, role).0, i)
  {
    StutterAskInstance(s, i);
    StageAsked(s.core, InstanceRow(i), InstanceUpdate, Step.UpdateInstance);
    hide Inv, Asked, Evolves, RequestJob, DrawId, DiscardJob, DeleteRows, InsertIdle, SystemJob, IR.MemberRefusal, IR.Coalesces, IR.UsernameTaken, IR.StagedJob;
  }

  lemma DropMemberAsks(s: State, i: nat, m: nat, protected: set<string>)
    requires Inv(s.core)
    ensures InstanceAsk(s, IR.DeleteMember(s, i, m, protected).0, i)
  {
    StutterAskInstance(s, i);
    StageAsked(s.core, InstanceRow(i), InstanceUpdate, Step.UpdateInstance);
    hide Inv, Asked, Evolves, RequestJob, DrawId, DiscardJob, DeleteRows, InsertIdle, SystemJob, IR.MemberRefusal, IR.Coalesces, IR.UsernameTaken, IR.StagedJob;
  }

  lemma ObserveStateAsks(s: State, i: nat, started: bool)
    requires Inv(s.core)
    ensures InstanceAsk(s, IR.ObserveState(s, i, started), i)
  {
    StutterAskInstance(s, i);
    hide Inv, Asked;
  }
  // ---------- requests on templates and assignments ----------

  /** A request on a template or an assignment writes those two tables only. */
  ghost predicate TemplateAsk(s: State, s': State, k: Option<Resource>) {
    && Asked(s.core, s'.core, k)
    && (k.Some? && k.value.AssignmentRow? ==> s'.templates == s.templates)
    && (k.None? || k.value.TemplateRow? ==> s'.assignments == s.assignments)
    && s'.instances == s.instances && s'.members == s.members && s'.workspaces == s.workspaces
    && s'.databases == s.databases && s'.allocations == s.allocations
    && s'.workers == s.workers && s'.secrets == s.secrets && s'.log == s.log
  }

  lemma StutterAskTemplate(s: State, k: Option<Resource>)
    requires Inv(s.core)
    ensures TemplateAsk(s, s, k)
  {
    SelfAsked(s.core, k);
  }

  ghost function AssignmentTarget(s: State, i: nat, t: nat): Resource {
    AssignmentRow(if TR.FindAssignment(s, i, t).Some? then TR.FindAssignment(s, i, t).value else s.core.nextId)
  }

  lemma AddTemplateAsks(s: State, source: Source, unique: bool)
    requires Inv(s.core) && TemplateRow(s.core.nextId) !in s.core.life
    ensures TemplateAsk(s, TR.CreateTemplate(s, source, unique).0, Some(TemplateRow(s.core.nextId)))
  {
    StutterAskTemplate(s, Some(TemplateRow(s.core.nextId)));
    InsertAsked(s.core, TemplateRow(s.core.nextId));
    hide Inv, Asked, Evolves, RequestJob, DrawId, DiscardJob, DeleteRows, InsertIdle, SystemJob;
  }

  lemma SetSourceAsks(s: State, t: nat, source: Source, changedModules: bool, compatible: bool)
    requires Inv(s.core)
    ensures TemplateAsk(s, TR.UpdateTemplate(s, t, source, changedModules, compatible).0, Some(TemplateRow(t)))
  {
    StutterAskTemplate(s, Some(TemplateRow(t)));
    if TemplateRow(t) in s.core.life && s.core.life[TemplateRow(t)].status == Success { DiscardAsked(s.core, TemplateRow(t)); }
    hide Inv, Asked, Evolves, RequestJob, DrawId, DiscardJob, DeleteRows, InsertIdle, SystemJob, TR.ActiveAssignments, TR.ActiveWorkspaces;
  }

  lemma DropTemplateAsks(s: State, t: nat)
    requires Inv(s.core)
    ensures TemplateAsk(s, TR.DeleteTemplate(s, t).0, Some(TemplateRow(t)))
  {
    StutterAskTemplate(s, Some(TemplateRow(t)));
    if TemplateRow(t) in s.core.life && s.core.life[TemplateRow(t)].status == Success { DiscardAsked(s.core, TemplateRow(t)); }
    DropTemplateWrites(s, t);
    hide TR.DeleteTemplate, Inv, Asked, DiscardJob, DeleteRows;
  }

  lemma DropTemplateWrites(s: State, t: nat)
    ensures var s' := TR.DeleteTemplate(s, t).0;
            || s' == s
            || (&& TemplateRow(t) in s.core.life && s.core.life[TemplateRow(t)].status == Success
                && s' == s.(core := DeleteRows(DiscardJob(s.core, TemplateRow(t), Updated), {TemplateRow(t)}),
                            templates := s'.templates))
  {
    hide DiscardJob, DeleteRows;
  }

  lemma ResyncTemplateAsks(s: State, t: nat)
    requires Inv(s.core)
    ensures TemplateAsk(s, TR.RequestSync(s, t).0, Some(TemplateRow(t)))
  {
    StutterAskTemplate(s, Some(TemplateRow(t)));
    if TemplateRow(t) in s.core.life && s.core.life[TemplateRow(t)].status == Success { DiscardAsked(s.core, TemplateRow(t)); }
    hide Inv, Asked, Evolves, RequestJob, DrawId, DiscardJob, DeleteRows, InsertIdle, SystemJob, TR.ActiveAssignments, TR.ActiveWorkspaces;
  }

  lemma AddParameterAsks(s: State, t: nat, payload: TR.Payload)
    requires Inv(s.core)
    ensures TemplateAsk(s, TR.CreateParameter(s, t, payload).0, None)
  {
    StutterAskTemplate(s, None);
    hide Inv, Asked, Evolves, RequestJob, DrawId, DiscardJob, DeleteRows, InsertIdle, SystemJob, TR.ActiveAssignments, TR.Defined, TR.PayloadName;
  }

  lemma SetParameterAsks(s: State, t: nat, payload: TR.Payload)
    requires Inv(s.core)
    ensures TemplateAsk(s, TR.UpdateParameter(s, t, payload).0, None)
  {
    StutterAskTemplate(s, None);
    hide Inv, Asked, Evolves, RequestJob, DrawId, DiscardJob, DeleteRows, InsertIdle, SystemJob, TR.ActiveAssignments, TR.Defined, TR.PayloadName;
  }

  lemma DropParameterAsks(s: State, t: nat, name: string)
    requires Inv(s.core)
    ensures TemplateAsk(s, TR.DeleteParameter(s, t, name).0, None)
  {
    StutterAskTemplate(s, None);
    hide Inv, Asked, Evolves, RequestJob, DrawId, DiscardJob, DeleteRows, InsertIdle, SystemJob, TR.ActiveAssignments, TR.Defined, TR.PayloadName;
  }

  lemma PutAssignmentAsks(s: State, i: nat, t: nat)
    requires Inv(s.core)
    ensures TemplateAsk(s, TR.PutAssignment(s, i, t).0, Some(AssignmentTarget(s, i, t)))
  {
    StutterAskTemplate(s, Some(AssignmentTarget(s, i, t)));
    StageAsked(s.core, AssignmentTarget(s, i, t), AssignmentCreate, Step.CreateTemplate);
    PutAssignmentWrites(s, i, t);
    hide TR.PutAssignment, AssignmentTarget, Inv, Asked, RequestJob, DrawId;
  }

  lemma PutAssignmentWrites(s: State, i: nat, t: nat)
    ensures var s' := TR.PutAssignment(s, i, t).0;
            || s' == s
            || s' == s.(core := RequestJob(DrawId(s.core), AssignmentTarget(s, i, t), AssignmentCreate, Step.CreateTemplate),
                        assignments := s'.assignments)
    ensures AssignmentTarget(s, i, t).AssignmentRow?
  {
    hide RequestJob, DrawId, TR.FindAssignment, TR.ConsistentJob, TR.MutationRefusal, TR.BusyPair, TR.ParentRefusal;
  }

  lemma DropAssignmentAsks(s: State, i: nat, t: nat)
    requires Inv(s.core)
    ensures TemplateAsk(s, TR.DeleteAssignment(s, i, t).0, Some(AssignmentTarget(s, i, t)))
  {
    StutterAskTemplate(s, Some(AssignmentTarget(s, i, t)));
    StageAsked(s.core, AssignmentTarget(s, i, t), AssignmentDelete, Step.DeleteTemplate);
    DropAssignmentWrites(s, i, t);
    hide TR.DeleteAssignment, AssignmentTarget, Inv, Asked, RequestJob;
  }

  lemma DropAssignmentWrites(s: State, i: nat, t: nat)
    ensures var s' := TR.DeleteAssignment(s, i, t).0;
            s' == s || s' == s.(core := RequestJob(s.core, AssignmentTarget(s, i, t), AssignmentDelete, Step.DeleteTemplate))
  {
    hide RequestJob, TR.FindAssignment, TR.ConsistentJob, TR.MutationRefusal, TR.BusyPair, TR.ParentRefusal;
  }

  // ---------- requests on workspaces and databases ----------

  ghost predicate WorkspaceAsk(s: State, s': State, k: Option<Resource>) {
    && Asked(s.core, s'.core, k)
    && (if k.Some? then s'.databases == s.databases else s'.workspaces == s.workspaces)
    && s'.instances == s.instances && s'.members == s.members && s'.templates == s.templates
    && s'.assignments == s.assignments && s'.allocations == s.allocations
    && s'.workers == s.workers && s'.secrets == s.secrets && s'.log == s.log
  }

  lemma StutterAskWorkspace(s: State, k: Option<Resource>)
    requires Inv(s.core)
    ensures WorkspaceAsk(s, s, k)
  {
    SelfAsked(s.core, k);
  }

  lemma AddWorkspaceAsks(s: State, i: nat, t: nat, m: nat, name: string, supplied: map<string, string>, valid: bool)
    requires Inv(s.core)
    ensures WorkspaceAsk(s, WR.CreateWorkspace(s, i, t, m, name, supplied, valid).0, Some(WorkspaceRow(s.core.nextId)))
  {
    StutterAskWorkspace(s, Some(WorkspaceRow(s.core.nextId)));
    StageAsked(s.core, WorkspaceRow(s.core.nextId), WorkspaceCreate, Step.CreateWorkspace);
    hide Inv, Asked, Evolves, RequestJob, DrawId, DiscardJob, DeleteRows, InsertIdle, SystemJob, WR.InstanceRefusal, WR.Deployed, WR.Definitions, WR.WorkspaceRefusal, Parameters.Resolve;
  }

  lemma SetWorkspaceAsks(s: State, w: nat, name: string, supplied: map<string, string>, changed: bool, valid: bool)
    requires Inv(s.core)
    ensures WorkspaceAsk(s, WR.UpdateWorkspace(s, w, name, supplied, changed, valid).0, Some(WorkspaceRow(w)))
  {
    StutterAskWorkspace(s, Some(WorkspaceRow(w)));
    StageAsked(s.core, WorkspaceRow(w), WorkspaceUpdate, Step.UpdateWorkspace);
    hide Inv, Asked, Evolves, RequestJob, DrawId, DiscardJob, DeleteRows, InsertIdle, SystemJob, WR.InstanceRefusal, WR.Deployed, WR.Definitions, WR.WorkspaceRefusal, Parameters.Resolve;
  }

  lemma DropWorkspaceAsks(s: State, w: nat)
    requires Inv(s.core)
    ensures WorkspaceAsk(s, WR.DeleteWorkspace(s, w).0, Some(WorkspaceRow(w)))
  {
    StutterAskWorkspace(s, Some(WorkspaceRow(w)));
    StageAsked(s.core, WorkspaceRow(w), WorkspaceDelete, Step.DeleteWorkspace);
    hide Inv, Asked, Evolves, RequestJob, DrawId, DiscardJob, DeleteRows, InsertIdle, SystemJob, WR.InstanceRefusal, WR.Deployed, WR.Definitions, WR.WorkspaceRefusal, Parameters.Resolve;
  }

  lemma AddDatabaseAsks(s: State, capacity: nat, rank: nat)
    requires Inv(s.core)
    ensures WorkspaceAsk(s, WR.CreateDatabase(s, capacity, rank).0, None)
  {
    StutterAskWorkspace(s, None);
    DrawAsked(s.core, None);
    hide Inv, Asked, Evolves, RequestJob, DrawId, DiscardJob, DeleteRows, InsertIdle, SystemJob, WR.RankTaken;
  }

  lemma SetDatabaseAsks(s: State, d: nat, capacity: nat, rank: nat)
    requires Inv(s.core)
    ensures WorkspaceAsk(s, WR.UpdateDatabase(s, d, capacity, rank).0, None)
  {
    StutterAskWorkspace(s, None);
    hide Inv, Asked, Evolves, RequestJob, DrawId, DiscardJob, DeleteRows, InsertIdle, SystemJob, WR.RankTaken;
  }

  lemma DropDatabaseAsks(s: State, d: nat)
    requires Inv(s.core)
    ensures WorkspaceAsk(s, WR.DeleteDatabase(s, d).0, None)
  {
    StutterAskWorkspace(s, None);
    hide Inv, Asked, Evolves, RequestJob, DrawId, DiscardJob, DeleteRows, InsertIdle, SystemJob, WR.RankTaken;
  }

  lemma SyncDatabasesAsks(s: State)
    requires Inv(s.core)
    ensures WorkspaceAsk(s, WR.RequestDatabaseSync(s).0, None)
  {
    StutterAskWorkspace(s, None);
    SystemAsked(s.core);
    hide Inv, Asked, Evolves, RequestJob, DrawId, DiscardJob, DeleteRows, InsertIdle, SystemJob, WR.RankTaken;
  }

  // ---------- every request ----------

  function InstanceOf(s: State, r: InstanceRequest): nat {
    match r
    case AddInstance(_) => s.core.nextId
    case DropInstance(i) => i
    case SyncInstance(i) => i
    case PowerOn(i) => i
    case PowerOff(i) => i
    case UploadProvider(i) => i
    case ObserveState(i, _) => i
    case AddMember(i, _, _) => i
    case SetRole(i, _, _) => i
    case DropMember(i, _, _) => i
  }

  ghost function TemplateTarget(s: State, r: TemplateRequest): Option<Resource> {
    match r
    case AddTemplate(_, _) => Some(TemplateRow(s.core.nextId))
    case SetSource(t, _, _, _) => Some(TemplateRow(t))
    case DropTemplate(t) => Some(TemplateRow(t))
    case ResyncTemplate(t) => Some(TemplateRow(t))
    case PutAssignment(i, t) => Some(AssignmentTarget(s, i, t))
    case DropAssignment(i, t) => Some(AssignmentTarget(s, i, t))
    case _ => None
  }

  function WorkspaceTarget(s: State, r: WorkspaceRequest): Option<Resource> {
    match r
    case AddWorkspace(_, _, _, _, _, _) => Some(WorkspaceRow(s.core.nextId))
    case SetWorkspace(w, _, _, _, _) => Some(WorkspaceRow(w))
    case DropWorkspace(w) => Some(WorkspaceRow(w))
    case _ => None
  }

  lemma InstanceRequestAsks(s: State, r: InstanceRequest)
    requires Inv(s.core) && s.core.nextId !in s.instances
    ensures InstanceAsk(s, AnswerInstance(s, r).0, InstanceOf(s, r))
  {
    hide InstanceAsk, Inv, IR.CreateInstance, IR.RequestDeletion, IR.RequestSync, IR.RequestStart, IR.RequestStop;
    hide IR.UploadProvider, IR.ObserveState, IR.CreateMember, IR.UpdateRole, IR.DeleteMember;
    match r
    case AddInstance(unique) => AddInstanceAsks(s, unique);
    case DropInstance(i) => DropInstanceAsks(s, i);
    case SyncInstance(i) => SyncInstanceAsks(s, i);
    case PowerOn(i) => PowerOnAsks(s, i);
    case PowerOff(i) => PowerOffAsks(s, i);
    case UploadProvider(i) => UploadProviderAsks(s, i);
    case ObserveState(i, started) => ObserveStateAsks(s, i, started);
    case AddMember(i, username, role) => AddMemberAsks(s, i, username, role);
    case SetRole(i, m, role) => SetRoleAsks(s, i, m, role);
    case DropMember(i, m, protected) => DropMemberAsks(s, i, m, protected);
  }

  lemma TemplateRequestAsks(s: State, r: TemplateRequest)
    requires Inv(s.core) && TemplateRow(s.core.nextId) !in s.core.life
    ensures TemplateAsk(s, AnswerTemplate(s, r).0, TemplateTarget(s, r))
  {
    hide TemplateAsk, Inv, AssignmentTarget, TR.CreateTemplate, TR.UpdateTemplate, TR.DeleteTemplate, TR.RequestSync;
    hide TR.CreateParameter, TR.UpdateParameter, TR.DeleteParameter, TR.PutAssignment, TR.DeleteAssignment;
    match r
    case AddTemplate(source, unique) => AddTemplateAsks(s, source, unique);
    case SetSource(t, source, changedModules, compatible) => SetSourceAsks(s, t, source, changedModules, compatible);
    case DropTemplate(t) => DropTemplateAsks(s, t);
    case ResyncTemplate(t) => ResyncTemplateAsks(s, t);
    case AddParameter(t, payload) => AddParameterAsks(s, t, payload);
    case SetParameter(t, payload) => SetParameterAsks(s, t, payload);
    case DropParameter(t, name) => DropParameterAsks(s, t, name);
    case PutAssignment(i, t) => PutAssignmentAsks(s, i, t);
    case DropAssignment(i, t) => DropAssignmentAsks(s, i, t);
  }

  lemma WorkspaceRequestAsks(s: State, r: WorkspaceRequest)
    requires Inv(s.core)
    ensures WorkspaceAsk(s, AnswerWorkspace(s, r).0, WorkspaceTarget(s, r))
  {
    hide WorkspaceAsk, Inv, WR.CreateWorkspace, WR.UpdateWorkspace, WR.DeleteWorkspace;
    hide WR.CreateDatabase, WR.UpdateDatabase, WR.DeleteDatabase, WR.RequestDatabaseSync;
    match r
    case AddWorkspace(i, t, m, name, supplied, valid) => AddWorkspaceAsks(s, i, t, m, name, supplied, valid);
    case SetWorkspace(w, name, supplied, changed, valid) => SetWorkspaceAsks(s, w, name, supplied, changed, valid);
    case DropWorkspace(w) => DropWorkspaceAsks(s, w);
    case AddDatabase(capacity, rank) => AddDatabaseAsks(s, capacity, rank);
    case SetDatabase(d, capacity, rank) => SetDatabaseAsks(s, d, capacity, rank);
    case DropDatabase(d) => DropDatabaseAsks(s, d);
    case SyncDatabases => SyncDatabasesAsks(s);
  }
}
