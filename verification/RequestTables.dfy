/** Every request keeps the tables in order. */
module RequestTables {
  import opened Records
  import opened Execution
  import opened Store
  import opened Events
  import opened Asks
  import opened Tables
  import opened Frames
  import Protocol
  import Parameters
  import Placement
  import IR = InstanceRequests
  import TR = TemplateRequests
  import WR = WorkspaceRequests

  lemma StutterShape(s: State)
    ensures SameShape(s, s)
  {}

  lemma DropInstanceShape(s: State, i: nat)
    ensures SameShape(s, IR.RequestDeletion(s, i).0)
  {
    StutterShape(s);
    hide IR.HasActiveAssignment;
  }

  lemma SyncInstanceShape(s: State, i: nat)
    ensures SameShape(s, IR.RequestSync(s, i).0)
  {
    StutterShape(s);
    hide IR.HasActiveAssignment;
  }

  lemma PowerOnShape(s: State, i: nat)
    ensures SameShape(s, IR.RequestStart(s, i).0)
  {
    StutterShape(s);
    hide IR.HasActiveAssignment;
  }

  lemma PowerOffShape(s: State, i: nat)
    ensures SameShape(s, IR.RequestStop(s, i).0)
  {
    StutterShape(s);
    hide IR.HasActiveAssignment;
  }

  lemma UploadProviderShape(s: State, i: nat)
    ensures SameShape(s, IR.UploadProvider(s, i).0)
  {
    StutterShape(s);
  }

  lemma ObserveStateShape(s: State, i: nat, started: bool)
    ensures SameShape(s, IR.ObserveState(s, i, started))
  {
    StutterShape(s);
  }

  lemma SetRoleShape(s: State, i: nat, m: nat, role: Role)
    ensures SameShape(s, IR.UpdateRole(s, i, m, role).0)
  {
    StutterShape(s);
    hide IR.HasActiveAssignment;
  }

  lemma DropMemberShape(s: State, i: nat, m: nat, protected: set<string>)
    ensures SameShape(s, IR.DeleteMember(s, i, m, protected).0)
  {
    StutterShape(s);
    hide IR.HasActiveAssignment;
  }

  lemma SetSourceShape(s: State, t: nat, source: Source, changedModules: bool, compatible: bool)
    ensures SameShape(s, TR.UpdateTemplate(s, t, source, changedModules, compatible).0)
  {
    StutterShape(s);
    hide TR.ActiveAssignments, TR.ActiveWorkspaces;
  }

  lemma ResyncTemplateShape(s: State, t: nat)
    ensures SameShape(s, TR.RequestSync(s, t).0)
  {
    StutterShape(s);
    hide TR.ActiveAssignments, TR.ActiveWorkspaces;
  }

  lemma AddParameterShape(s: State, t: nat, payload: TR.Payload)
    ensures SameShape(s, TR.CreateParameter(s, t, payload).0)
  {
    StutterShape(s);
    hide TR.ActiveAssignments, TR.PayloadName, TR.Defined;
  }

  lemma SetParameterShape(s: State, t: nat, payload: TR.Payload)
    ensures SameShape(s, TR.UpdateParameter(s, t, payload).0)
  {
    StutterShape(s);
    hide TR.ActiveAssignments, TR.PayloadName, TR.Defined;
  }

  lemma DropParameterShape(s: State, t: nat, name: string)
    ensures SameShape(s, TR.DeleteParameter(s, t, name).0)
  {
    StutterShape(s);
    hide TR.ActiveAssignments, TR.PayloadName;
  }

  lemma DropAssignmentShape(s: State, i: nat, t: nat)
    ensures SameShape(s, TR.DeleteAssignment(s, i, t).0)
  {
    StutterShape(s);
    hide TR.FindAssignment, TR.ConsistentJob, TR.MutationRefusal, TR.BusyPair;
  }

  lemma SetWorkspaceShape(s: State, w: nat, name: string, supplied: map<string, string>, changed: bool, valid: bool)
    ensures SameShape(s, WR.UpdateWorkspace(s, w, name, supplied, changed, valid).0)
  {
    StutterShape(s);
    hide WR.Deployed, WR.Definitions, WR.InstanceRefusal, Parameters.Resolve;
  }

  lemma DropWorkspaceShape(s: State, w: nat)
    ensures SameShape(s, WR.DeleteWorkspace(s, w).0)
  {
    StutterShape(s);
    hide WR.Deployed, WR.Definitions, WR.InstanceRefusal, Parameters.Resolve;
  }

  lemma SetDatabaseShape(s: State, d: nat, capacity: nat, rank: nat)
    ensures SameShape(s, WR.UpdateDatabase(s, d, capacity, rank).0)
  {
    StutterShape(s);
    hide WR.RankTaken, Placement.Count;
  }

  lemma SyncDatabasesShape(s: State)
    ensures SameShape(s, WR.RequestDatabaseSync(s).0)
  {
    StutterShape(s);
  }

  // ---------- requests that insert or delete rows ----------

  /** Exactly one row is inserted, under the next identifier. */
  predicate Inserts(s: State, s': State, k: Resource) {
    && k.id == s.core.nextId && s'.core.nextId > k.id
    && k in s'.core.life && s'.core.life == s.core.life[k := s'.core.life[k]]
    && (if k.InstanceRow? then
          && k.id in s'.instances && s'.instances == s.instances[k.id := s'.instances[k.id]]
          && k.id in s'.allocations && s'.allocations == s.allocations[k.id := s'.allocations[k.id]]
        else s'.instances == s.instances && s'.allocations == s.allocations)
    && (if k.TemplateRow? then k.id in s'.templates && s'.templates == s.templates[k.id := s'.templates[k.id]]
        else s'.templates == s.templates)
    && (if k.AssignmentRow? then k.id in s'.assignments && s'.assignments == s.assignments[k.id := s'.assignments[k.id]]
        else s'.assignments == s.assignments)
    && (if k.WorkspaceRow? then k.id in s'.workspaces && s'.workspaces == s.workspaces[k.id := s'.workspaces[k.id]]
        else s'.workspaces == s.workspaces)
    && s'.members == s.members && s'.databases == s.databases && s'.secrets == s.secrets
  }

  lemma InsertedKeyed(s: State, s': State, k: Resource)
    requires Keyed(s) && Inserts(s, s', k)
    ensures Keyed(s')
  {}

  predicate Housed(s: State, w: Workspace) {
    && w.template in s.templates && w.instance in s.instances
    && w.member in s.members && s.members[w.member].instance == w.instance
  }

  lemma InsertedLinked(s: State, s': State, k: Resource)
    requires Keyed(s) && Linked(s) && Inserts(s, s', k)
    requires k.InstanceRow? ==> s'.allocations[k.id] in s.databases
    requires k.AssignmentRow? ==>
               && s'.assignments[k.id].template in s.templates && s'.assignments[k.id].instance in s.instances
               && !exists b <- s.assignments :: SamePair(s.assignments[b], s'.assignments[k.id])
    requires k.WorkspaceRow? ==> Housed(s, s'.workspaces[k.id])
    ensures Linked(s')
  {
    InsertedAssignment(s, s', k);
    InsertedPair(s, s', k);
    InsertedWorkspace(s, s', k);
    hide Keyed, AssignmentsLinked, UniquePairs, WorkspacesLinked, Housed, SamePair;
  }

  lemma InsertedAssignment(s: State, s': State, k: Resource)
    requires AssignmentsLinked(s.assignments, s.templates, s.instances) && Inserts(s, s', k)
    requires k.AssignmentRow? ==> s'.assignments[k.id].template in s.templates && s'.assignments[k.id].instance in s.instances
    ensures AssignmentsLinked(s'.assignments, s'.templates, s'.instances)
  {}

  lemma InsertedPair(s: State, s': State, k: Resource)
    requires UniquePairs(s.assignments) && Inserts(s, s', k)
    requires k.AssignmentRow? ==> !exists b <- s.assignments :: SamePair(s.assignments[b], s'.assignments[k.id])
    ensures UniquePairs(s'.assignments)
  {}

  lemma InsertedWorkspace(s: State, s': State, k: Resource)
    requires WorkspacesLinked(s.workspaces, s.templates, s.instances, s.members) && Inserts(s, s', k)
    requires k.WorkspaceRow? ==> Housed(s, s'.workspaces[k.id])
    ensures WorkspacesLinked(s'.workspaces, s'.templates, s'.instances, s'.members)
  {}

  lemma AddInstanceInserts(s: State, unique: bool)
    ensures var s' := IR.CreateInstance(s, unique).0;
            s' == s || (Inserts(s, s', InstanceRow(s.core.nextId)) && s'.allocations[s.core.nextId] in s.databases)
  {
    hide Placement.Before;
  }

  lemma AddTemplateInserts(s: State, source: Source, unique: bool)
    ensures var s' := TR.CreateTemplate(s, source, unique).0; s' == s || Inserts(s, s', TemplateRow(s.core.nextId))
  {}

  lemma PutAssignmentInserts(s: State, i: nat, t: nat)
    ensures var s' := TR.PutAssignment(s, i, t).0;
            s' == s || (&& Inserts(s, s', AssignmentRow(s.core.nextId))
                        && s'.assignments[s.core.nextId] == Assignment(t, i, None)
                        && i in s.instances && t in s.templates && TR.FindAssignment(s, i, t).None?)
  {
    hide TR.MutationRefusal, TR.ConsistentJob, TR.FindAssignment;
  }

  lemma AddWorkspaceInserts(s: State, i: nat, t: nat, m: nat, name: string, supplied: map<string, string>, valid: bool)
    ensures var s' := WR.CreateWorkspace(s, i, t, m, name, supplied, valid).0;
            s' == s || (&& Inserts(s, s', WorkspaceRow(s.core.nextId))
                        && Housed(s, s'.workspaces[s.core.nextId]))
  {
    hide WR.Deployed, WR.Definitions, Parameters.Resolve;
  }

  /** Every request that inserts a resource keeps the tables in order. */
  lemma InsertionKeepsTables(s: State, s': State, k: Resource)
    requires Keyed(s) && Linked(s)
    requires s' == s || Inserts(s, s', k)
    requires s' != s && k.InstanceRow? ==> s'.allocations[k.id] in s.databases
    requires s' != s && k.AssignmentRow? ==>
               && s'.assignments[k.id].template in s.templates && s'.assignments[k.id].instance in s.instances
               && !exists b <- s.assignments :: SamePair(s.assignments[b], s'.assignments[k.id])
    requires s' != s && k.WorkspaceRow? ==> Housed(s, s'.workspaces[k.id])
    ensures Keyed(s') && Linked(s')
  {
    hide Keyed, Linked;
    if s' != s {
      InsertedKeyed(s, s', k);
      InsertedLinked(s, s', k);
    }
  }

  /** Without `gone`, if it is a template's row. */
  lemma RowsStay(life: map<Resource, Life>, life': map<Resource, Life>, s: State, gone: set<nat>)
    requires InstanceRows(life, s.instances) && TemplateRows(life, s.templates)
    requires AssignmentRows(life, s.assignments) && WorkspaceRows(life, s.workspaces)
    requires forall k :: k in life' <==> k in life && !(k.TemplateRow? && k.id in gone)
    ensures InstanceRows(life', s.instances) && TemplateRows(life', s.templates - gone)
    ensures AssignmentRows(life', s.assignments) && WorkspaceRows(life', s.workspaces)
  {}

  lemma MemberKeyed(s: State, s': State)
    requires Keyed(s) && SameKeys(s.core.life, s'.core.life) && s'.core.nextId > s.core.nextId
    requires s'.members.Keys == s.members.Keys + {s.core.nextId}
    requires s' == s.(core := s'.core, members := s'.members)
    ensures Keyed(s')
  {
    RowsStay(s.core.life, s'.core.life, s, {});
    assert s.templates - {} == s.templates;
    hide InstanceRows, TemplateRows, AssignmentRows, WorkspaceRows, Below, Used, SameKeys;
    StillBelow(s.core.life, s'.core.life, s.core.nextId, s'.core.nextId);
    OneMoreUsed(s.members.Keys, s.databases.Keys, s.secrets.Keys, s'.members.Keys, s.core.nextId, s'.core.nextId);
  }

  lemma StillBelow(life: map<Resource, Life>, life': map<Resource, Life>, n: nat, n': nat)
    requires Below(life, n) && SameKeys(life, life') && n <= n'
    ensures Below(life', n')
  {}

  lemma OneMoreUsed(a: set<nat>, b: set<nat>, c: set<nat>, a': set<nat>, n: nat, n': nat)
    requires Used(a + b + c, n) && a' == a + {n} && n < n'
    ensures Used(a' + b + c, n')
  {
    forall x | x in a' + b + c ensures x < n' { if x != n { assert x in a + b + c; } }
  }

  lemma MemberLinked(s: State, s': State)
    requires Keyed(s) && Linked(s)
    requires s.core.nextId in s'.members && s'.members[s.core.nextId].instance in s.instances
    requires s'.members == s.members[s.core.nextId := s'.members[s.core.nextId]]
    requires s' == s.(core := s'.core, members := s'.members)
    ensures Linked(s')
  {
    assert s.core.nextId !in s.members;
    hide Keyed, AssignmentsLinked, AllocationsLinked, UniquePairs;
  }

  lemma AddMemberTables(s: State, i: nat, username: string, role: Role)
    requires Keyed(s) && Linked(s)
    ensures Keyed(IR.CreateMember(s, i, username, role).0) && Linked(IR.CreateMember(s, i, username, role).0)
  {
    hide Keyed, Linked, IR.UsernameTaken, IR.HasActiveAssignment;
    if IR.MemberRefusal(s, i).None? && !IR.UsernameTaken(s.members, i, username) {
      assert SameKeys(s.core.life, IR.StageUpdate(DrawId(s.core), i).life);
      hide SameKeys, IR.MemberRefusal, RequestJob;
      MemberKeyed(s, IR.CreateMember(s, i, username, role).0);
      MemberLinked(s, IR.CreateMember(s, i, username, role).0);
    }
  }

  lemma TemplateUnlinked(s: State, t: nat)
    requires Linked(s)
    requires !exists a <- s.assignments :: s.assignments[a].template == t
    requires !exists w <- s.workspaces :: s.workspaces[w].template == t
    ensures AssignmentsLinked(s.assignments, s.templates - {t}, s.instances)
    ensures WorkspacesLinked(s.workspaces, s.templates - {t}, s.instances, s.members)
  {}

  lemma TemplateDeleted(s: State, s': State, core: Core, t: nat)
    requires Keyed(s) && Linked(s)
    requires core.life == s.core.life - {TemplateRow(t)} && core.nextId == s.core.nextId
    requires !exists a <- s.assignments :: s.assignments[a].template == t
    requires !exists w <- s.workspaces :: s.workspaces[w].template == t
    requires s' == s.(core := core, templates := s.templates - {t})
    ensures Keyed(s') && Linked(s')
  {
    TemplateUnlinked(s, t);
    RowsStay(s.core.life, s'.core.life, s, {t});
    assert Below(s'.core.life, s'.core.nextId);
    hide InstanceRows, TemplateRows, AssignmentRows, WorkspaceRows, Below, Allocated, Used;
    hide UniquePairs, MembersLinked, AllocationsLinked, AssignmentsLinked, WorkspacesLinked;
  }

  lemma DiscardedAndDeleted(core: Core, k: Resource)
    requires k in core.life
    ensures DeleteRows(DiscardJob(core, k, Updated), {k}).life == core.life - {k}
  {}

  lemma DropTemplateTables(s: State, t: nat)
    requires Keyed(s) && Linked(s)
    ensures Keyed(TR.DeleteTemplate(s, t).0) && Linked(TR.DeleteTemplate(s, t).0)
  {
    hide Keyed, Linked;
    if t in s.templates && TemplateRow(t) in s.core.life {
      var core := DeleteRows(DiscardJob(s.core, TemplateRow(t), Updated), {TemplateRow(t)});
      DiscardedAndDeleted(s.core, TemplateRow(t));
      if (!exists a <- s.assignments :: s.assignments[a].template == t) && (!exists w <- s.workspaces :: s.workspaces[w].template == t) {
        TemplateDeleted(s, s.(core := core, templates := s.templates - {t}), core, t);
      }
      hide DeleteRows, DiscardJob;
    }
  }

  lemma AddDatabaseTables(s: State, capacity: nat, rank: nat)
    requires Keyed(s) && Linked(s)
    ensures Keyed(WR.CreateDatabase(s, capacity, rank).0) && Linked(WR.CreateDatabase(s, capacity, rank).0)
  {
    DatabaseAdded(s, Database(capacity, rank));
    hide WR.RankTaken, Keyed, Linked, DrawId;
  }

  lemma DatabaseAdded(s: State, database: Database)
    requires Keyed(s) && Linked(s)
    ensures var s' := s.(core := DrawId(s.core), databases := s.databases[s.core.nextId := database]);
            Keyed(s') && Linked(s')
  {
    hide InstanceRows, TemplateRows, AssignmentRows, WorkspaceRows, Allocated;
    hide AssignmentsLinked, WorkspacesLinked, MembersLinked, UniquePairs;
  }

  lemma DropDatabaseTables(s: State, d: nat)
    requires Keyed(s) && Linked(s)
    ensures Keyed(WR.DeleteDatabase(s, d).0) && Linked(WR.DeleteDatabase(s, d).0)
  {
    if d in s.databases && !exists i <- s.allocations :: s.allocations[i] == d { DatabaseDeleted(s, d); }
    hide Keyed, Linked;
  }

  lemma DatabaseDeleted(s: State, d: nat)
    requires Keyed(s) && Linked(s) && !exists i <- s.allocations :: s.allocations[i] == d
    ensures Keyed(s.(databases := s.databases - {d})) && Linked(s.(databases := s.databases - {d}))
  {
    assert (s.databases - {d}).Keys <= s.databases.Keys;
    hide Below, InstanceRows, TemplateRows, AssignmentRows, WorkspaceRows, Allocated;
    hide AssignmentsLinked, WorkspacesLinked, MembersLinked;
  }

  // ---------- every request ----------

  lemma ShapeKeepsTables(s: State, s': State)
    requires Keyed(s) && Linked(s) && SameShape(s, s') && s.core.nextId <= s'.core.nextId && s'.secrets == s.secrets
    ensures Keyed(s') && Linked(s')
  {
    hide Keyed, Linked, SameShape;
    ShapeKeyed(s, s');
    ShapeLinked(s, s');
  }

  lemma FreshRows(s: State)
    requires Keyed(s)
    ensures s.core.nextId !in s.instances && s.core.nextId !in s.members && TemplateRow(s.core.nextId) !in s.core.life
  {}

  lemma InstanceRequestKeepsTables(s: State, r: InstanceRequest)
    requires Protocol.Inv(s.core) && Keyed(s) && Linked(s)
    ensures Keyed(AnswerInstance(s, r).0) && Linked(AnswerInstance(s, r).0)
  {
    FreshRows(s);
    InstanceRequestAsks(s, r);
    var s' := AnswerInstance(s, r).0;
    assert s.core.nextId <= s'.core.nextId && s'.secrets == s.secrets;
    hide InstanceAsk, Protocol.Inv, Keyed, Linked, SameShape, Inserts, IR.CreateInstance, IR.RequestDeletion, IR.RequestSync;
    hide IR.RequestStart, IR.RequestStop, IR.UploadProvider, IR.ObserveState, IR.CreateMember, IR.UpdateRole, IR.DeleteMember;
    match r
    case AddInstance(unique) => AddInstanceInserts(s, unique); InsertionKeepsTables(s, s', InstanceRow(s.core.nextId));
    case DropInstance(i) => DropInstanceShape(s, i); ShapeKeepsTables(s, s');
    case SyncInstance(i) => SyncInstanceShape(s, i); ShapeKeepsTables(s, s');
    case PowerOn(i) => PowerOnShape(s, i); ShapeKeepsTables(s, s');
    case PowerOff(i) => PowerOffShape(s, i); ShapeKeepsTables(s, s');
    case UploadProvider(i) => UploadProviderShape(s, i); ShapeKeepsTables(s, s');
    case ObserveState(i, started) => ObserveStateShape(s, i, started); ShapeKeepsTables(s, s');
    case AddMember(i, username, role) => AddMemberTables(s, i, username, role);
    case SetRole(i, m, role) => SetRoleShape(s, i, m, role); ShapeKeepsTables(s, s');
    case DropMember(i, m, protected) => DropMemberShape(s, i, m, protected); ShapeKeepsTables(s, s');
  }

  lemma TemplateRequestKeepsTables(s: State, r: TemplateRequest)
    requires Protocol.Inv(s.core) && Keyed(s) && Linked(s)
    ensures Keyed(AnswerTemplate(s, r).0) && Linked(AnswerTemplate(s, r).0)
  {
    FreshRows(s);
    TemplateRequestAsks(s, r);
    var s' := AnswerTemplate(s, r).0;
    assert s.core.nextId <= s'.core.nextId && s'.secrets == s.secrets;
    hide TemplateAsk, Protocol.Inv, Keyed, Linked, SameShape, Inserts, TR.CreateTemplate, TR.UpdateTemplate, TR.DeleteTemplate;
    hide TR.RequestSync, TR.CreateParameter, TR.UpdateParameter, TR.DeleteParameter, TR.PutAssignment, TR.DeleteAssignment;
    match r
    case AddTemplate(source, unique) =>
      AddTemplateInserts(s, source, unique); InsertionKeepsTables(s, s', TemplateRow(s.core.nextId));
    case SetSource(t, source, changedModules, compatible) =>
      SetSourceShape(s, t, source, changedModules, compatible); ShapeKeepsTables(s, s');
    case DropTemplate(t) => DropTemplateTables(s, t);
    case ResyncTemplate(t) => ResyncTemplateShape(s, t); ShapeKeepsTables(s, s');
    case AddParameter(t, payload) => AddParameterShape(s, t, payload); ShapeKeepsTables(s, s');
    case SetParameter(t, payload) => SetParameterShape(s, t, payload); ShapeKeepsTables(s, s');
    case DropParameter(t, name) => DropParameterShape(s, t, name); ShapeKeepsTables(s, s');
    case PutAssignment(i, t) =>
      PutAssignmentInserts(s, i, t);
      if s' != s { NoSuchPair(s, i, t); }
      InsertionKeepsTables(s, s', AssignmentRow(s.core.nextId));
    case DropAssignment(i, t) => DropAssignmentShape(s, i, t); ShapeKeepsTables(s, s');
  }

  lemma NoSuchPair(s: State, i: nat, t: nat)
    requires TR.FindAssignment(s, i, t).None?
    ensures !exists b <- s.assignments :: SamePair(s.assignments[b], Assignment(t, i, None))
  {
    assert forall b <- s.assignments :: !TR.IsPair(s.assignments, b, i, t);
  }

  lemma WorkspaceRequestKeepsTables(s: State, r: WorkspaceRequest)
    requires Protocol.Inv(s.core) && Keyed(s) && Linked(s)
    ensures Keyed(AnswerWorkspace(s, r).0) && Linked(AnswerWorkspace(s, r).0)
  {
    WorkspaceRequestAsks(s, r);
    var s' := AnswerWorkspace(s, r).0;
    assert s.core.nextId <= s'.core.nextId && s'.secrets == s.secrets;
    hide WorkspaceAsk, Protocol.Inv, Keyed, Linked, SameShape, Inserts, Housed, WR.CreateWorkspace, WR.UpdateWorkspace, WR.DeleteWorkspace;
    hide WR.CreateDatabase, WR.UpdateDatabase, WR.DeleteDatabase, WR.RequestDatabaseSync;
    match r
    case AddWorkspace(i, t, m, name, supplied, valid) =>
      AddWorkspaceInserts(s, i, t, m, name, supplied, valid); InsertionKeepsTables(s, s', WorkspaceRow(s.core.nextId));
    case SetWorkspace(w, name, supplied, changed, valid) =>
      SetWorkspaceShape(s, w, name, supplied, changed, valid); ShapeKeepsTables(s, s');
    case DropWorkspace(w) => DropWorkspaceShape(s, w); ShapeKeepsTables(s, s');
    case AddDatabase(capacity, rank) => AddDatabaseTables(s, capacity, rank);
    case SetDatabase(d, capacity, rank) => SetDatabaseShape(s, d, capacity, rank); ShapeKeepsTables(s, s');
    case DropDatabase(d) => DropDatabaseTables(s, d);
    case SyncDatabases => SyncDatabasesShape(s); ShapeKeepsTables(s, s');
  }
}
