/** The workspace and database-pool repositories, each request one transaction tied to its
    specification. */
module WorkspaceRepository {
  import opened Records
  import opened Execution
  import opened Store
  import opened Session
  import Parameters
  import Placement
  import WR = WorkspaceRequests

  method InstanceRefusal(db: Session, i: nat) returns (refusal: Option<Store.Refusal>)
    ensures refusal == WR.InstanceRefusal(db.View(), i)
  {
    if i !in db.instances || InstanceRow(i) !in db.rows.life { return Some(NotFound); }
    refusal := if db.rows.life[InstanceRow(i)].status != Success then Some(InstanceBusy) else None;
  }

  /** `_require_remote_template`. */
  method RequireRemoteTemplate(db: Session, t: nat, i: nat) returns (deployed: bool)
    ensures deployed == WR.Deployed(db.View(), t, i)
  {
    if TemplateRow(t) !in db.rows.life || db.rows.life[TemplateRow(t)].status != Success { return false; }
    deployed := false;
    var left := db.assignments.Keys;
    while left != {}
      invariant left <= db.assignments.Keys
      invariant deployed <==> exists a <- db.assignments :: a !in left && WR.IsDeployed(db.View(), a, t, i)
      decreases left
    {
      var a :| a in left;
      left := left - {a};
      var assignment := db.assignments[a];
      if && assignment.template == t && assignment.instance == i
         && AssignmentRow(a) in db.rows.life
         && db.rows.life[AssignmentRow(a)].action == Created && db.rows.life[AssignmentRow(a)].status == Success
         && assignment.deployment.Some? && assignment.deployment.value.templateId.Some? {
        deployed := true;
      }
    }
  }

  /** `create`; `defs` are the user parameters as the query orders them. */
  method Create(
    db: Session, i: nat, t: nat, m: nat, name: string, supplied: map<string, string>, valid: bool,
    defs: seq<Parameters.Definition>) returns (reply: Reply)
    requires t in db.templates ==> defs == WR.Definitions(db.templates[t])
    modifies db`workspaces, db.rows
    ensures (db.View(), reply) == WR.CreateWorkspace(old(db.View()), i, t, m, name, supplied, valid)
  {
    var refusal := InstanceRefusal(db, i);
    if refusal.Some? { return Refused(refusal.value); }
    if t !in db.templates || TemplateRow(t) !in db.rows.life { return Refused(NotFound); }
    var deployed := RequireRemoteTemplate(db, t, i);
    if !deployed { return Refused(NotDeployed); }
    if m !in db.members { return Refused(NotFound); }
    if db.members[m].instance != i || db.members[m].status != Success { return Refused(OwnerUnavailable); }
    if !valid { return Refused(BadConfiguration); }
    var r := Parameters.ResolveParameters(defs, supplied, None);
    if r.Rejected? { return Refused(if r.fault.Immutable? then ImmutableParameter else BadConfiguration); }
    var w := db.rows.Draw();
    db.workspaces := db.workspaces[w := Workspace(name, t, i, m, r.values, 0, None, None, None)];
    var job := db.rows.Stage(WorkspaceRow(w), WorkspaceCreate, Step.CreateWorkspace);
    reply := Accepted(Some(job));
  }

  method WorkspaceRefusal(db: Session, w: nat) returns (refusal: Option<Store.Refusal>)
    ensures refusal == WR.WorkspaceRefusal(db.View(), w)
    ensures refusal.None? ==> w in db.workspaces && WorkspaceRow(w) in db.rows.life
    ensures refusal.None? ==> db.workspaces[w].template in db.templates
  {
    if w !in db.workspaces || WorkspaceRow(w) !in db.rows.life { return Some(NotFound); }
    var status := db.rows.life[WorkspaceRow(w)].status;
    if status == Pending || status == Running { return Some(Refusal.WorkspaceBusy); }
    refusal := InstanceRefusal(db, db.workspaces[w].instance);
    if refusal.Some? { return; }
    var t := db.workspaces[w].template;
    if t !in db.templates || TemplateRow(t) !in db.rows.life { return Some(NotFound); }
    var deployed := RequireRemoteTemplate(db, t, db.workspaces[w].instance);
    refusal := if deployed then None else Some(NotDeployed);
  }

  /** `update`: changed parameters advance the revision, and an update that changes nothing on a
      settled workspace stages no job. */
  method Update(
    db: Session, w: nat, name: string, supplied: map<string, string>, changed: bool, valid: bool,
    defs: seq<Parameters.Definition>) returns (reply: Reply)
    requires w in db.workspaces && db.workspaces[w].template in db.templates ==>
               defs == WR.Definitions(db.templates[db.workspaces[w].template])
    modifies db`workspaces, db.rows
    ensures (db.View(), reply) == WR.UpdateWorkspace(old(db.View()), w, name, supplied, changed, valid)
  {
    hide WR.WorkspaceRefusal, Parameters.Resolve, WR.Definitions;
    var refusal := WorkspaceRefusal(db, w);
    if refusal.Some? { return Refused(refusal.value); }
    if !valid { return Refused(BadConfiguration); }
    var row := db.workspaces[w];
    var r := Parameters.ResolveParameters(defs, supplied, Some(row.parameters));
    if r.Rejected? { return Refused(if r.fault.Immutable? then ImmutableParameter else BadConfiguration); }
    if row.name == name && !changed && row.parameters == r.values && db.rows.life[WorkspaceRow(w)].status == Success {
      return Accepted(None);
    }
    if row.parameters != r.values { row := row.(revision := row.revision + 1); }
    row := row.(name := name);
    row := row.(parameters := r.values);
    db.workspaces := db.workspaces[w := row];
    var job := db.rows.Stage(WorkspaceRow(w), WorkspaceUpdate, Step.UpdateWorkspace);
    reply := Accepted(Some(job));
  }

  method RequestDeletion(db: Session, w: nat) returns (reply: Reply)
    modifies db.rows
    ensures (db.View(), reply) == WR.DeleteWorkspace(old(db.View()), w)
  {
    var refusal := WorkspaceRefusal(db, w);
    if refusal.Some? { return Refused(refusal.value); }
    var job := db.rows.Stage(WorkspaceRow(w), WorkspaceDelete, Step.DeleteWorkspace);
    reply := Accepted(Some(job));
  }

  // ---------- the database pool ----------

  method UpdateDatabase(db: Session, d: nat, capacity: nat, rank: nat) returns (reply: Reply)
    modifies db`databases
    ensures (db.View(), reply) == WR.UpdateDatabase(old(db.View()), d, capacity, rank)
  {
    if capacity == 0 { return Refused(BadConfiguration); }
    if d !in db.databases { return Refused(NotFound); }
    var used := Allocated(db, d);
    if capacity < used { return Refused(CapacityConflict); }
    if exists e <- db.databases :: e != d && db.databases[e].rank == rank { return Refused(AlreadyExists); }
    db.databases := db.databases[d := Database(capacity, rank)];
    reply := Accepted(None);
  }

  /** The number of instances a database holds. */
  method Allocated(db: Session, d: nat) returns (used: nat)
    ensures used == Placement.Count(db.allocations, d)
  {
    var users := set i | i in db.allocations && db.allocations[i] == d;
    assert users == Placement.Users(db.allocations, d);
    used := |users|;
  }

  method DeleteDatabase(db: Session, d: nat) returns (reply: Reply)
    modifies db`databases
    ensures (db.View(), reply) == WR.DeleteDatabase(old(db.View()), d)
  {
    if d !in db.databases { return Refused(NotFound); }
    if exists i <- db.allocations :: db.allocations[i] == d { return Refused(InUse); }
    db.databases := db.databases - {d};
    reply := Accepted(None);
  }
}
