/** The template interlock: while a template synchronises none of its assignments or workspaces is
    unfinished, while an assignment is unfinished no workspace of its pair is, and meanwhile the
    template is frozen. */
module Interlock {
  import opened Records
  import opened Execution
  import opened Store
  import opened Events
  import opened Fencing
  import opened Frames
  import opened Tables
  import opened Asks
  import Protocol
  import Parameters
  import TR = TemplateRequests
  import WR = WorkspaceRequests

  /** No unfinished assignment or workspace belongs to an unfinished template, and no unfinished
      workspace to the pair of an unfinished assignment. */
  ghost predicate Interlocked(life: map<Resource, Life>, as_: map<nat, Assignment>, ws: map<nat, Workspace>) {
    AssignmentsWait(life, as_) && WorkspacesWait(life, ws) && PairsWait(life, as_, ws)
  }

  ghost predicate AssignmentsWait(life: map<Resource, Life>, as_: map<nat, Assignment>) {
    forall a <- as_ :: Busy(life, AssignmentRow(a)) ==> !Busy(life, TemplateRow(as_[a].template))
  }

  ghost predicate WorkspacesWait(life: map<Resource, Life>, ws: map<nat, Workspace>) {
    forall w <- ws :: Busy(life, WorkspaceRow(w)) ==> !Busy(life, TemplateRow(ws[w].template))
  }

  ghost predicate PairsWait(life: map<Resource, Life>, as_: map<nat, Assignment>, ws: map<nat, Workspace>) {
    forall a, w | a in as_ && w in ws && Pairs(as_[a], ws[w]) ::
      !(Busy(life, AssignmentRow(a)) && Busy(life, WorkspaceRow(w)))
  }

  predicate Pairs(a: Assignment, w: Workspace) {
    a.template == w.template && a.instance == w.instance
  }

  /** No template, assignment or workspace becomes unfinished, and assignments and workspaces keep their references or disappear. */
  ghost predicate Calms(s: State, s': State) {
    && (forall k: Resource :: !k.InstanceRow? && Busy(s'.core.life, k) ==> Busy(s.core.life, k))
    && (forall a <- s'.assignments :: a in s.assignments && SamePair(s'.assignments[a], s.assignments[a]))
    && (forall w <- s'.workspaces :: w in s.workspaces && SameHome(s'.workspaces[w], s.workspaces[w]))
  }

  lemma CalmKeeps(s: State, s': State)
    requires Interlocked(s.core.life, s.assignments, s.workspaces) && Calms(s, s')
    ensures Interlocked(s'.core.life, s'.assignments, s'.workspaces)
  {
    hide Busy;
  }

  lemma PlainKeeps(s: State, s': State, c: Claim)
    requires SameRows(s, s') && Fenced(s.core, s'.core, c)
    requires Interlocked(s.core.life, s.assignments, s.workspaces)
    ensures Interlocked(s'.core.life, s'.assignments, s'.workspaces)
  {
    hide Protocol.Inv, Protocol.Evolves, Busy, Owned, Interlocked;
    CalmKeeps(s, s');
  }

  lemma ErasureKeeps(s: State, s': State, c: Claim, is_: set<nat>, as_: set<nat>, ws: set<nat>, ms: set<nat>)
    requires Erases(s, s', is_, as_, ws, ms) && Fenced(s.core, s'.core, c)
    requires Interlocked(s.core.life, s.assignments, s.workspaces)
    ensures Interlocked(s'.core.life, s'.assignments, s'.workspaces)
  {
    hide Protocol.Inv, Protocol.Evolves, Busy, Owned, Interlocked, LifeWithout, InstancesWithout, MembersWithout;
    CalmKeeps(s, s');
  }

  // ---------- requests ----------

  lemma RisingInstance(s: State, s': State, i: nat)
    requires Asked(s.core, s'.core, Some(InstanceRow(i))) && s'.assignments == s.assignments && s'.workspaces == s.workspaces
    requires Interlocked(s.core.life, s.assignments, s.workspaces)
    ensures Interlocked(s'.core.life, s'.assignments, s'.workspaces)
  {
    hide Protocol.Inv, Protocol.Evolves, Interlocked;
    CalmKeeps(s, s');
  }

  lemma RisingTemplate(s: State, s': State, t: nat)
    requires Asked(s.core, s'.core, Some(TemplateRow(t))) && s'.assignments == s.assignments && s'.workspaces == s.workspaces
    requires Interlocked(s.core.life, s.assignments, s.workspaces)
    requires Busy(s'.core.life, TemplateRow(t)) ==> !TR.ActiveAssignments(s, t) && !TR.ActiveWorkspaces(s, t)
    ensures Interlocked(s'.core.life, s'.assignments, s'.workspaces)
  {
    hide Protocol.Inv, Protocol.Evolves;
    assert forall k :: k != TemplateRow(t) ==> Busy(s'.core.life, k) == Busy(s.core.life, k);
    hide Busy, Asked;
  }

  lemma IdleKeeps(s: State, s': State, k: Option<Resource>)
    requires Asked(s.core, s'.core, k) && (k.Some? ==> !Busy(s'.core.life, k.value))
    requires s'.assignments == s.assignments && s'.workspaces == s.workspaces
    requires Interlocked(s.core.life, s.assignments, s.workspaces)
    ensures Interlocked(s'.core.life, s'.assignments, s'.workspaces)
  {
    hide Protocol.Inv, Protocol.Evolves, Interlocked;
    CalmKeeps(s, s');
  }

  lemma RisingAssignment(s: State, s': State, a: nat)
    requires Asked(s.core, s'.core, Some(AssignmentRow(a))) && s'.workspaces == s.workspaces
    requires a in s'.assignments
    requires s'.assignments == s.assignments || (a !in s.assignments && s'.assignments == s.assignments[a := s'.assignments[a]])
    requires Interlocked(s.core.life, s.assignments, s.workspaces)
    requires !Busy(s.core.life, TemplateRow(s'.assignments[a].template))
    requires forall w <- s.workspaces :: Pairs(s'.assignments[a], s.workspaces[w]) ==> !Busy(s.core.life, WorkspaceRow(w))
    ensures Interlocked(s'.core.life, s'.assignments, s'.workspaces)
  {
    hide Protocol.Inv, Protocol.Evolves;
    assert forall k :: k != AssignmentRow(a) ==> Busy(s'.core.life, k) == Busy(s.core.life, k);
    hide Busy, Asked;
  }

  lemma RisingWorkspace(s: State, s': State, w: nat)
    requires Asked(s.core, s'.core, Some(WorkspaceRow(w))) && s'.assignments == s.assignments
    requires w in s'.workspaces && s'.workspaces == s.workspaces[w := s'.workspaces[w]]
    requires w in s.workspaces ==> SameHome(s'.workspaces[w], s.workspaces[w])
    requires Interlocked(s.core.life, s.assignments, s.workspaces)
    requires !Busy(s.core.life, TemplateRow(s'.workspaces[w].template))
    requires forall a <- s.assignments :: Pairs(s.assignments[a], s'.workspaces[w]) ==> !Busy(s.core.life, AssignmentRow(a))
    ensures Interlocked(s'.core.life, s'.assignments, s'.workspaces)
  {
    hide Protocol.Inv, Protocol.Evolves;
    assert forall k :: k != WorkspaceRow(w) ==> Busy(s'.core.life, k) == Busy(s.core.life, k);
    hide Busy, Asked;
  }

  // ---------- what the guards of the requests establish ----------

  /** A deployed pair has no unfinished template and, pairs being unique, no unfinished assignment. */
  lemma DeployedIsIdle(s: State, t: nat, i: nat)
    requires UniquePairs(s.assignments) && WR.Deployed(s, t, i)
    ensures !Busy(s.core.life, TemplateRow(t))
    ensures forall a <- s.assignments :: s.assignments[a].template == t && s.assignments[a].instance == i ==>
              !Busy(s.core.life, AssignmentRow(a))
  {
    var b :| b in s.assignments && WR.IsDeployed(s, b, t, i);
  }

  lemma SetSourceIdles(s: State, t: nat, source: Source, changedModules: bool, compatible: bool)
    ensures var s' := TR.UpdateTemplate(s, t, source, changedModules, compatible).0;
            s' == s || !Busy(s'.core.life, TemplateRow(t))
  {
    hide TR.TemplateRefusal;
  }

  lemma DropTemplateIdles(s: State, t: nat)
    ensures var s' := TR.DeleteTemplate(s, t).0; s' == s || !Busy(s'.core.life, TemplateRow(t))
  {}

  lemma AddTemplateIdles(s: State, source: Source, unique: bool)
    ensures var s' := TR.CreateTemplate(s, source, unique).0; s' == s || !Busy(s'.core.life, TemplateRow(s.core.nextId))
  {}

  lemma ResyncWaits(s: State, t: nat)
    ensures var s' := TR.RequestSync(s, t).0; s' == s || (!TR.ActiveAssignments(s, t) && !TR.ActiveWorkspaces(s, t))
  {
    hide TR.ActiveAssignments, TR.ActiveWorkspaces;
  }

  lemma PutAssignmentWaits(s: State, i: nat, t: nat)
    ensures var s', a := TR.PutAssignment(s, i, t).0, s.core.nextId;
            s' == s || (&& TR.FindAssignment(s, i, t).None? && !Busy(s.core.life, TemplateRow(t))
                        && s'.assignments == s.assignments[a := Assignment(t, i, None)])
  {
    hide TR.FindAssignment, TR.ConsistentJob;
  }

  lemma DropAssignmentWaits(s: State, i: nat, t: nat)
    ensures var s', found := TR.DeleteAssignment(s, i, t).0, TR.FindAssignment(s, i, t);
            s' == s || (&& found.Some? && TR.IsPair(s.assignments, found.value, i, t)
                        && !Busy(s.core.life, TemplateRow(t)) && !TR.BusyPair(s, i, t) && s'.assignments == s.assignments)
  {
    hide TR.BusyPair, TR.ConsistentJob;
  }

  lemma SetWorkspaceWaits(s: State, w: nat, name: string, supplied: map<string, string>, changed: bool, valid: bool)
    ensures var s' := WR.UpdateWorkspace(s, w, name, supplied, changed, valid).0;
            s' == s || (&& w in s.workspaces && w in s'.workspaces && WR.Deployed(s, s.workspaces[w].template, s.workspaces[w].instance)
                        && s'.workspaces == s.workspaces[w := s'.workspaces[w]] && SameHome(s'.workspaces[w], s.workspaces[w]))
  {
    hide WR.InstanceRefusal, WR.Deployed, WR.Definitions, Parameters.Resolve;
  }

  lemma AddWorkspaceWaits(s: State, i: nat, t: nat, m: nat, name: string, supplied: map<string, string>, valid: bool)
    ensures var s', w := WR.CreateWorkspace(s, i, t, m, name, supplied, valid).0, s.core.nextId;
            s' == s || (&& WR.Deployed(s, t, i) && w in s'.workspaces && s'.workspaces == s.workspaces[w := s'.workspaces[w]]
                        && s'.workspaces[w].template == t && s'.workspaces[w].instance == i && s'.workspaces[w].member == m
                        && m in s.members && s.members[m].status == Success)
  {
    hide WR.InstanceRefusal, WR.Deployed, WR.Definitions, Parameters.Resolve;
  }

  lemma DropWorkspaceWaits(s: State, w: nat)
    ensures var s' := WR.DeleteWorkspace(s, w).0;
            s' == s || (&& w in s.workspaces && WR.Deployed(s, s.workspaces[w].template, s.workspaces[w].instance)
                        && s'.workspaces == s.workspaces)
  {
    hide WR.InstanceRefusal, WR.Deployed;
  }

  // ---------- every request ----------

  ghost predicate EveryWorkspaceHasAPair(s: State) {
    forall w <- s.workspaces :: exists a <- s.assignments :: Pairs(s.assignments[a], s.workspaces[w])
  }

  lemma InstanceRequestKeeps(s: State, r: InstanceRequest)
    requires Protocol.Inv(s.core) && Keyed(s) && Interlocked(s.core.life, s.assignments, s.workspaces)
    ensures var s' := AnswerInstance(s, r).0; Interlocked(s'.core.life, s'.assignments, s'.workspaces)
  {
    assert s.core.nextId !in s.instances;
    InstanceRequestAsks(s, r);
    hide Protocol.Inv, Keyed, Interlocked, AnswerInstance, Asked;
    RisingInstance(s, AnswerInstance(s, r).0, InstanceOf(s, r));
  }

  lemma NewPairIsIdle(s: State, i: nat, t: nat)
    requires EveryWorkspaceHasAPair(s) && TR.FindAssignment(s, i, t).None?
    ensures forall w <- s.workspaces :: !Pairs(Assignment(t, i, None), s.workspaces[w])
  {
    assert forall b <- s.assignments :: !TR.IsPair(s.assignments, b, i, t);
  }

  lemma PutAssignmentKeeps(s: State, i: nat, t: nat)
    requires Protocol.Inv(s.core) && Keyed(s) && Interlocked(s.core.life, s.assignments, s.workspaces) && EveryWorkspaceHasAPair(s)
    ensures var s' := TR.PutAssignment(s, i, t).0; Interlocked(s'.core.life, s'.assignments, s'.workspaces)
  {
    var s', a := TR.PutAssignment(s, i, t).0, s.core.nextId;
    if s' != s {
      assert a !in s.assignments;
      hide Protocol.Inv, Keyed, Interlocked, TR.PutAssignment, Asked, TR.FindAssignment, EveryWorkspaceHasAPair, AssignmentTarget;
      PutAssignmentWaits(s, i, t);
      PutAssignmentAsks(s, i, t);
      NewPairIsIdle(s, i, t);
      TargetIsNew(s, i, t);
      RisingAssignment(s, s', a);
    }
  }

  lemma TargetIsNew(s: State, i: nat, t: nat)
    requires TR.FindAssignment(s, i, t).None?
    ensures AssignmentTarget(s, i, t) == AssignmentRow(s.core.nextId)
  {
    hide TR.FindAssignment;
  }

  lemma DropAssignmentKeeps(s: State, i: nat, t: nat)
    requires Protocol.Inv(s.core) && Interlocked(s.core.life, s.assignments, s.workspaces)
    ensures var s' := TR.DeleteAssignment(s, i, t).0; Interlocked(s'.core.life, s'.assignments, s'.workspaces)
  {
    var s' := TR.DeleteAssignment(s, i, t).0;
    DropAssignmentWaits(s, i, t);
    if s' != s {
      DropAssignmentAsks(s, i, t);
      hide Protocol.Inv, Interlocked, TR.DeleteAssignment, Asked, TR.FindAssignment;
      RisingAssignment(s, s', TR.FindAssignment(s, i, t).value);
    }
  }

  lemma TemplateRequestKeeps(s: State, r: TemplateRequest)
    requires Protocol.Inv(s.core) && Keyed(s) && Interlocked(s.core.life, s.assignments, s.workspaces) && EveryWorkspaceHasAPair(s)
    ensures var s' := AnswerTemplate(s, r).0; Interlocked(s'.core.life, s'.assignments, s'.workspaces)
  {
    assert TemplateRow(s.core.nextId) !in s.core.life;
    TemplateRequestAsks(s, r);
    hide Protocol.Inv, Keyed, Interlocked, Asked, TR.ActiveAssignments, TR.ActiveWorkspaces, AssignmentTarget;
    hide TR.CreateTemplate, TR.UpdateTemplate, TR.DeleteTemplate, TR.RequestSync, TR.PutAssignment, TR.DeleteAssignment;
    var s' := AnswerTemplate(s, r).0;
    match r
    case AddTemplate(source, unique) => AddTemplateIdles(s, source, unique); if s' != s { IdleKeeps(s, s', TemplateTarget(s, r)); }
    case SetSource(t, source, changedModules, compatible) =>
      SetSourceIdles(s, t, source, changedModules, compatible); if s' != s { IdleKeeps(s, s', TemplateTarget(s, r)); }
    case DropTemplate(t) => DropTemplateIdles(s, t); if s' != s { IdleKeeps(s, s', TemplateTarget(s, r)); }
    case ResyncTemplate(t) => ResyncWaits(s, t); if s' != s { RisingTemplate(s, s', t); }
    case AddParameter(t, payload) => IdleKeeps(s, s', None);
    case SetParameter(t, payload) => IdleKeeps(s, s', None);
    case DropParameter(t, name) => IdleKeeps(s, s', None);
    case PutAssignment(i, t) => PutAssignmentKeeps(s, i, t);
    case DropAssignment(i, t) => DropAssignmentKeeps(s, i, t);
  }

  lemma DeployedRises(s: State, s': State, w: nat)
    requires Asked(s.core, s'.core, Some(WorkspaceRow(w))) && s'.assignments == s.assignments
    requires w in s'.workspaces && s'.workspaces == s.workspaces[w := s'.workspaces[w]]
    requires w in s.workspaces ==> SameHome(s'.workspaces[w], s.workspaces[w])
    requires Interlocked(s.core.life, s.assignments, s.workspaces) && UniquePairs(s.assignments)
    requires WR.Deployed(s, s'.workspaces[w].template, s'.workspaces[w].instance)
    ensures Interlocked(s'.core.life, s'.assignments, s'.workspaces)
  {
    DeployedIsIdle(s, s'.workspaces[w].template, s'.workspaces[w].instance);
    hide Interlocked, Asked, WR.Deployed, UniquePairs;
    RisingWorkspace(s, s', w);
  }

  lemma AddWorkspaceKeeps(s: State, i: nat, t: nat, m: nat, name: string, supplied: map<string, string>, valid: bool)
    requires Protocol.Inv(s.core) && Keyed(s) && Interlocked(s.core.life, s.assignments, s.workspaces) && UniquePairs(s.assignments)
    ensures var s' := WR.CreateWorkspace(s, i, t, m, name, supplied, valid).0; Interlocked(s'.core.life, s'.assignments, s'.workspaces)
  {
    assert s.core.nextId !in s.workspaces;
    AddWorkspaceAsks(s, i, t, m, name, supplied, valid);
    AddWorkspaceWaits(s, i, t, m, name, supplied, valid);
    hide Protocol.Inv, Keyed, Interlocked, Asked, WR.CreateWorkspace, WR.Deployed, UniquePairs;
    var s' := WR.CreateWorkspace(s, i, t, m, name, supplied, valid).0;
    if s' != s { DeployedRises(s, s', s.core.nextId); }
  }

  lemma SetWorkspaceKeeps(s: State, w: nat, name: string, supplied: map<string, string>, changed: bool, valid: bool)
    requires Protocol.Inv(s.core) && Interlocked(s.core.life, s.assignments, s.workspaces) && UniquePairs(s.assignments)
    ensures var s' := WR.UpdateWorkspace(s, w, name, supplied, changed, valid).0; Interlocked(s'.core.life, s'.assignments, s'.workspaces)
  {
    SetWorkspaceAsks(s, w, name, supplied, changed, valid);
    SetWorkspaceWaits(s, w, name, supplied, changed, valid);
    hide Protocol.Inv, Interlocked, Asked, WR.UpdateWorkspace, WR.Deployed, UniquePairs;
    var s' := WR.UpdateWorkspace(s, w, name, supplied, changed, valid).0;
    if s' != s { DeployedRises(s, s', w); }
  }

  lemma DropWorkspaceKeeps(s: State, w: nat)
    requires Protocol.Inv(s.core) && Interlocked(s.core.life, s.assignments, s.workspaces) && UniquePairs(s.assignments)
    ensures var s' := WR.DeleteWorkspace(s, w).0; Interlocked(s'.core.life, s'.assignments, s'.workspaces)
  {
    DropWorkspaceAsks(s, w);
    DropWorkspaceWaits(s, w);
    hide Protocol.Inv, Interlocked, Asked, WR.DeleteWorkspace, WR.Deployed, UniquePairs;
    var s' := WR.DeleteWorkspace(s, w).0;
    if s' != s { DeployedRises(s, s', w); }
  }

  lemma DatabaseRequestKeeps(s: State, r: WorkspaceRequest)
    requires Protocol.Inv(s.core) && Interlocked(s.core.life, s.assignments, s.workspaces)
    requires r.AddDatabase? || r.SetDatabase? || r.DropDatabase? || r.SyncDatabases?
    ensures var s' := AnswerWorkspace(s, r).0; Interlocked(s'.core.life, s'.assignments, s'.workspaces)
  {
    WorkspaceRequestAsks(s, r);
    hide Protocol.Inv, Interlocked, Asked, AnswerWorkspace;
    IdleKeeps(s, AnswerWorkspace(s, r).0, None);
  }

  lemma WorkspaceRequestKeeps(s: State, r: WorkspaceRequest)
    requires Protocol.Inv(s.core) && Keyed(s) && Interlocked(s.core.life, s.assignments, s.workspaces) && UniquePairs(s.assignments)
    ensures var s' := AnswerWorkspace(s, r).0; Interlocked(s'.core.life, s'.assignments, s'.workspaces)
  {
    hide Protocol.Inv, Keyed, Interlocked, UniquePairs, WR.CreateWorkspace, WR.UpdateWorkspace, WR.DeleteWorkspace;
    match r
    case AddWorkspace(i, t, m, name, supplied, valid) => AddWorkspaceKeeps(s, i, t, m, name, supplied, valid);
    case SetWorkspace(w, name, supplied, changed, valid) => SetWorkspaceKeeps(s, w, name, supplied, changed, valid);
    case DropWorkspace(w) => DropWorkspaceKeeps(s, w);
    case _ => DatabaseRequestKeeps(s, r);
  }

  // ---------- what the interlock protects ----------

  /** A template changes only while it is at rest with all its assignments, and its source only while
      its workspaces are at rest too. */
  ghost predicate ChangedAtRest(s: State, s': State, t: nat) {
    t in s.templates && t in s'.templates && s'.templates[t] != s.templates[t] ==>
      && !Busy(s.core.life, TemplateRow(t)) && !TR.ActiveAssignments(s, t)
      && (s'.templates[t].source != s.templates[t].source ==> !TR.ActiveWorkspaces(s, t))
  }

  lemma SetSourceAtRest(s: State, t: nat, source: Source, changedModules: bool, compatible: bool, u: nat)
    ensures ChangedAtRest(s, TR.UpdateTemplate(s, t, source, changedModules, compatible).0, u)
  {
    hide TR.ActiveAssignments, TR.ActiveWorkspaces;
  }

  lemma AddParameterAtRest(s: State, t: nat, payload: TR.Payload, u: nat)
    ensures ChangedAtRest(s, TR.CreateParameter(s, t, payload).0, u)
  {
    hide TR.ActiveAssignments, TR.ActiveWorkspaces, TR.Defined, TR.PayloadName;
  }

  lemma SetParameterAtRest(s: State, t: nat, payload: TR.Payload, u: nat)
    ensures ChangedAtRest(s, TR.UpdateParameter(s, t, payload).0, u)
  {
    hide TR.ActiveAssignments, TR.ActiveWorkspaces, TR.Defined, TR.PayloadName;
  }

  lemma DropParameterAtRest(s: State, t: nat, name: string, u: nat)
    ensures ChangedAtRest(s, TR.DeleteParameter(s, t, name).0, u)
  {
    hide TR.ActiveAssignments, TR.ActiveWorkspaces, TR.Defined;
  }

  lemma AddTemplateAtRest(s: State, source: Source, unique: bool, u: nat)
    requires Keyed(s)
    ensures ChangedAtRest(s, TR.CreateTemplate(s, source, unique).0, u)
  {
    assert s.core.nextId !in s.templates;
    hide Keyed, TR.ActiveAssignments, TR.ActiveWorkspaces;
  }

  lemma DropTemplateAtRest(s: State, t: nat, u: nat)
    ensures ChangedAtRest(s, TR.DeleteTemplate(s, t).0, u)
  {
    hide TR.ActiveAssignments, TR.ActiveWorkspaces;
  }

  lemma ResyncAtRest(s: State, t: nat, u: nat)
    ensures ChangedAtRest(s, TR.RequestSync(s, t).0, u)
  {
    hide TR.TemplateRefusal, TR.ActiveAssignments, TR.ActiveWorkspaces;
  }

  lemma PutAssignmentAtRest(s: State, i: nat, t: nat, u: nat)
    ensures ChangedAtRest(s, TR.PutAssignment(s, i, t).0, u)
  {
    hide TR.FindAssignment, TR.ConsistentJob, TR.MutationRefusal, TR.ActiveAssignments, TR.ActiveWorkspaces;
  }

  lemma DropAssignmentAtRest(s: State, i: nat, t: nat, u: nat)
    ensures ChangedAtRest(s, TR.DeleteAssignment(s, i, t).0, u)
  {
    hide TR.FindAssignment, TR.ConsistentJob, TR.MutationRefusal, TR.BusyPair, TR.ActiveAssignments, TR.ActiveWorkspaces;
  }

  lemma RequestAtRest(s: State, r: TemplateRequest, u: nat)
    requires Protocol.Inv(s.core) && Keyed(s)
    ensures ChangedAtRest(s, AnswerTemplate(s, r).0, u)
  {
    hide ChangedAtRest, Protocol.Inv, Keyed, TR.CreateTemplate, TR.UpdateTemplate, TR.DeleteTemplate, TR.RequestSync;
    hide TR.CreateParameter, TR.UpdateParameter, TR.DeleteParameter, TR.PutAssignment, TR.DeleteAssignment;
    match r
    case SetSource(t, source, changedModules, compatible) => SetSourceAtRest(s, t, source, changedModules, compatible, u);
    case AddParameter(t, payload) => AddParameterAtRest(s, t, payload, u);
    case SetParameter(t, payload) => SetParameterAtRest(s, t, payload, u);
    case DropParameter(t, name) => DropParameterAtRest(s, t, name, u);
    case AddTemplate(source, unique) => AddTemplateAtRest(s, source, unique, u);
    case DropTemplate(t) => DropTemplateAtRest(s, t, u);
    case ResyncTemplate(t) => ResyncAtRest(s, t, u);
    case PutAssignment(i, t) => PutAssignmentAtRest(s, i, t, u);
    case DropAssignment(i, t) => DropAssignmentAtRest(s, i, t, u);
  }

  /** Over every event: a template changes only while no synchronisation of it and none of its
      assignments is unfinished, and its source only while none of its workspaces is. */
  lemma TemplateFrozen(s: State, e: Event, t: nat)
    requires Sound(s) && Keyed(s)
    ensures ChangedAtRest(s, Apply(s, e), t)
  {
    if Apply(s, e).templates != s.templates {
      OnlyRequestsWriteTemplates(s, e);
      hide ChangedAtRest, Keyed, Protocol.Inv, AnswerTemplate;
      RequestAtRest(s, e.request.template, t);
    }
  }

  lemma OnlyRequestsWriteTemplates(s: State, e: Event)
    requires Sound(s) && Keyed(s) && Apply(s, e).templates != s.templates
    ensures e.Ask? && e.request.ToTemplate?
  {
    assert s.core.nextId !in s.instances;
    if e.Work? {
      if Deletes(e.act) { DeletionsSpareTemplates(s, e.c, e.act); } else { WorkIsPlain(s, e.c, e.act); }
    } else if e.Ask? && e.request.ToInstance? {
      InstanceRequestAsks(s, e.request.instance);
    } else if e.Ask? && e.request.ToWorkspace? {
      WorkspaceRequestAsks(s, e.request.workspace);
    }
  }

  lemma DeletionsSpareTemplates(s: State, c: Claim, act: Act)
    requires Deletes(act)
    ensures DoWork(s, c, act).templates == s.templates
  {
    hide Owned, DeleteRows, CompleteAndDelete, CompleteExecution, RequestJob;
  }
}
