/** API requests on workspaces and on the database pool. */
module WorkspaceRequests {
  import opened Records
  import opened Execution
  import opened Store
  import Parameters
  import Placement
  import Text

  function InstanceRefusal(s: State, i: nat): Option<Refusal> {
    if i !in s.instances || InstanceRow(i) !in s.core.life then Some(NotFound)
    else if s.core.life[InstanceRow(i)].status != Success then Some(InstanceBusy)
    else None
  }

  /** `_require_remote_template`: a created, finished assignment with a known remote template, of a
      template that is not synchronising. */
  predicate IsDeployed(s: State, a: nat, t: nat, i: nat) {
    && a in s.assignments && s.assignments[a].template == t && s.assignments[a].instance == i
    && AssignmentRow(a) in s.core.life
    && s.core.life[AssignmentRow(a)].action == Created && s.core.life[AssignmentRow(a)].status == Success
    && TemplateRow(t) in s.core.life && s.core.life[TemplateRow(t)].status == Success
    && s.assignments[a].deployment.Some? && s.assignments[a].deployment.value.templateId.Some?
  }

  predicate Deployed(s: State, t: nat, i: nat) {
    exists a <- s.assignments :: IsDeployed(s, a, t, i)
  }

  /** The template's user parameters in the order of their names. */
  ghost function Definitions(template: Template): seq<Parameters.Definition> {
    var names := Text.Sorted(template.userParameters.Keys);
    seq(|names|, k requires 0 <= k < |names| =>
      if names[k] in template.userParameters then template.userParameters[names[k]]
      else Parameters.Definition(names[k], false, true, None))
  }

  /** `valid` stands for the checks of the image, the modules and the uniqueness of the name. */
  ghost function CreateWorkspace(
    s: State, i: nat, t: nat, m: nat, name: string, supplied: map<string, string>, valid: bool): (State, Reply)
  {
    if InstanceRefusal(s, i).Some? then (s, Refused(InstanceRefusal(s, i).value))
    else if t !in s.templates || TemplateRow(t) !in s.core.life then (s, Refused(NotFound))
    else if !Deployed(s, t, i) then (s, Refused(NotDeployed))
    else if m !in s.members then (s, Refused(NotFound))
    else if s.members[m].instance != i || s.members[m].status != Success then (s, Refused(OwnerUnavailable))
    else if !valid then (s, Refused(BadConfiguration))
    else match Parameters.Resolve(Definitions(s.templates[t]), supplied, None)
      case Rejected(fault) => (s, Refused(if fault.Immutable? then ImmutableParameter else BadConfiguration))
      case Resolved(values) =>
        var w := s.core.nextId;
        var core := DrawId(s.core);
        (s.(core := RequestJob(core, WorkspaceRow(w), WorkspaceCreate, Step.CreateWorkspace),
            workspaces := s.workspaces[w := Workspace(name, t, i, m, values, 0, None, None, None)]),
         Accepted(Some(core.nextId)))
  }

  function WorkspaceRefusal(s: State, w: nat): Option<Refusal> {
    if w !in s.workspaces || WorkspaceRow(w) !in s.core.life then Some(NotFound)
    else
      var row := s.core.life[WorkspaceRow(w)];
      if row.status == Pending || row.status == Running then Some(Refusal.WorkspaceBusy)
      else if InstanceRefusal(s, s.workspaces[w].instance).Some? then InstanceRefusal(s, s.workspaces[w].instance)
      else if s.workspaces[w].template !in s.templates || TemplateRow(s.workspaces[w].template) !in s.core.life then Some(NotFound)
      else if !Deployed(s, s.workspaces[w].template, s.workspaces[w].instance) then Some(NotDeployed)
      else None
  }

  /** `changed` says whether the image or the modules differ; `valid` as above. */
  ghost function UpdateWorkspace(
    s: State, w: nat, name: string, supplied: map<string, string>, changed: bool, valid: bool): (State, Reply)
  {
    var refusal := WorkspaceRefusal(s, w);
    if refusal.Some? then (s, Refused(refusal.value))
    else if !valid then (s, Refused(BadConfiguration))
    else
      var row := s.workspaces[w];
      match Parameters.Resolve(Definitions(s.templates[row.template]), supplied, Some(row.parameters))
      case Rejected(fault) => (s, Refused(if fault.Immutable? then ImmutableParameter else BadConfiguration))
      case Resolved(values) =>
        if row.name == name && !changed && row.parameters == values && s.core.life[WorkspaceRow(w)].status == Success
        then (s, Accepted(None))
        else
          var revision := if row.parameters != values then row.revision + 1 else row.revision;
          (s.(core := RequestJob(s.core, WorkspaceRow(w), WorkspaceUpdate, Step.UpdateWorkspace),
              workspaces := s.workspaces[w := row.(name := name, parameters := values, revision := revision)]),
           Accepted(Some(s.core.nextId)))
  }

  function DeleteWorkspace(s: State, w: nat): (State, Reply) {
    var refusal := WorkspaceRefusal(s, w);
    if refusal.Some? then (s, Refused(refusal.value))
    else (s.(core := RequestJob(s.core, WorkspaceRow(w), WorkspaceDelete, Step.DeleteWorkspace)),
          Accepted(Some(s.core.nextId)))
  }

  // ---------- the database pool ----------

  predicate RankTaken(databases: map<nat, Database>, d: nat, rank: nat) {
    exists e <- databases :: e != d && databases[e].rank == rank
  }

  function CreateDatabase(s: State, capacity: nat, rank: nat): (State, Reply) {
    if capacity == 0 then (s, Refused(BadConfiguration))
    else if RankTaken(s.databases, s.core.nextId, rank) then (s, Refused(AlreadyExists))
    else (s.(core := DrawId(s.core), databases := s.databases[s.core.nextId := Database(capacity, rank)]), Accepted(None))
  }

  function UpdateDatabase(s: State, d: nat, capacity: nat, rank: nat): (State, Reply) {
    if capacity == 0 then (s, Refused(BadConfiguration))
    else if d !in s.databases then (s, Refused(NotFound))
    else if capacity < Placement.Count(s.allocations, d) then (s, Refused(CapacityConflict))
    else if RankTaken(s.databases, d, rank) then (s, Refused(AlreadyExists))
    else (s.(databases := s.databases[d := Database(capacity, rank)]), Accepted(None))
  }

  function DeleteDatabase(s: State, d: nat): (State, Reply) {
    if d !in s.databases then (s, Refused(NotFound))
    else if exists i <- s.allocations :: s.allocations[i] == d then (s, Refused(InUse))
    else (s.(databases := s.databases - {d}), Accepted(None))
  }

  function RequestDatabaseSync(s: State): (State, Reply) {
    (s.(core := SystemJob(s.core)), Accepted(Some(s.core.nextId)))
  }
}
