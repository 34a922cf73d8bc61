/** The template, parameter and assignment repositories: each request is one transaction over the
    session's tables, tied to its specification. */
module TemplateRepository {
  import opened Records
  import opened Execution
  import opened Store
  import opened Session
  import TR = TemplateRequests
  import Tables

  // ---------- the catalogue ----------

  method Create(db: Session, source: Source, unique: bool) returns (reply: Reply)
    modifies db`templates, db.rows
    ensures (db.View(), reply) == TR.CreateTemplate(old(db.View()), source, unique)
  {
    if !unique { return Refused(AlreadyExists); }
    var t := db.rows.Draw();
    db.templates := db.templates[t := Template(source, 0, map[], map[])];
    db.rows.Insert(TemplateRow(t), Created);
    reply := Accepted(None);
  }

  /** `_ensure_no_active_assignments`. */
  method ActiveAssignments(db: Session, t: nat) returns (active: bool)
    ensures active == TR.ActiveAssignments(db.View(), t)
  {
    active := false;
    var left := db.assignments.Keys;
    while left != {}
      invariant left <= db.assignments.Keys
      invariant active <==> exists a <- db.assignments ::
                  a !in left && db.assignments[a].template == t && Busy(db.rows.life, AssignmentRow(a))
      decreases left
    {
      var a :| a in left;
      left := left - {a};
      if db.assignments[a].template == t && Busy(db.rows.life, AssignmentRow(a)) { active := true; }
    }
  }

  /** `_ensure_no_active_workspaces`. */
  method ActiveWorkspaces(db: Session, t: nat) returns (active: bool)
    ensures active == TR.ActiveWorkspaces(db.View(), t)
  {
    active := false;
    var left := db.workspaces.Keys;
    while left != {}
      invariant left <= db.workspaces.Keys
      invariant active <==> exists w <- db.workspaces ::
                  w !in left && db.workspaces[w].template == t && Busy(db.rows.life, WorkspaceRow(w))
      decreases left
    {
      var w :| w in left;
      left := left - {w};
      if db.workspaces[w].template == t && Busy(db.rows.life, WorkspaceRow(w)) { active := true; }
    }
  }

  method TemplateRefusal(db: Session, t: nat) returns (refusal: Option<Store.Refusal>)
    ensures refusal == TR.TemplateRefusal(db.View(), t)
  {
    if t !in db.templates || TemplateRow(t) !in db.rows.life { return Some(NotFound); }
    if Busy(db.rows.life, TemplateRow(t)) { return Some(SyncInProgress); }
    var assignments := ActiveAssignments(db, t);
    if assignments { return Some(AssignmentsInProgress); }
    var workspaces := ActiveWorkspaces(db, t);
    refusal := if workspaces then Some(WorkspacesInProgress) else None;
  }

  method Update(db: Session, t: nat, source: Source, changedModules: bool, compatible: bool) returns (reply: Reply)
    modifies db`templates, db.rows
    ensures (db.View(), reply) == TR.UpdateTemplate(old(db.View()), t, source, changedModules, compatible)
  {
    var refusal := TemplateRefusal(db, t);
    if refusal.Some? { return Refused(refusal.value); }
    if db.templates[t].source == source && !changedModules { return Accepted(None); }
    if !compatible { return Refused(BadConfiguration); }
    db.templates := db.templates[t := db.templates[t].(source := source)];
    db.rows.Discard(TemplateRow(t), Updated);
    reply := Accepted(None);
  }

  method Delete(db: Session, t: nat) returns (reply: Reply)
    modifies db`templates, db.rows
    ensures (db.View(), reply) == TR.DeleteTemplate(old(db.View()), t)
  {
    if t !in db.templates || TemplateRow(t) !in db.rows.life { return Refused(NotFound); }
    if Busy(db.rows.life, TemplateRow(t)) { return Refused(SyncInProgress); }
    if exists a <- db.assignments :: db.assignments[a].template == t { return Refused(HasAssignments); }
    if exists w <- db.workspaces :: db.workspaces[w].template == t { return Refused(Referenced); }
    db.rows.Discard(TemplateRow(t), Updated);
    db.rows.Remove({TemplateRow(t)});
    db.templates := db.templates - {t};
    reply := Accepted(None);
  }

  method RequestSync(db: Session, t: nat) returns (reply: Reply)
    modifies db.rows
    ensures (db.View(), reply) == TR.RequestSync(old(db.View()), t)
  {
    var refusal := TemplateRefusal(db, t);
    if refusal.Some? { return Refused(refusal.value); }
    db.rows.Discard(TemplateRow(t), Updated);
    var job := db.rows.Stage(TemplateRow(t), TemplateSync, SyncTemplate);
    reply := Accepted(Some(job));
  }

  // ---------- parameters ----------

  /** `_lock_template`. */
  method ParameterRefusal(db: Session, t: nat) returns (refusal: Option<Store.Refusal>)
    ensures refusal == TR.ParameterRefusal(db.View(), t)
  {
    if t !in db.templates || TemplateRow(t) !in db.rows.life { return Some(NotFound); }
    var active := ActiveAssignments(db, t);
    refusal := if Busy(db.rows.life, TemplateRow(t)) || active then Some(SyncInProgress) else None;
  }

  /** `_new_parameter`: a system value advances the revision. */
  method CreateParameter(db: Session, t: nat, p: TR.Payload) returns (reply: Reply)
    modifies db`templates
    ensures (db.View(), reply) == TR.CreateParameter(old(db.View()), t, p)
  {
    var refusal := ParameterRefusal(db, t);
    if refusal.Some? { return Refused(refusal.value); }
    var template := db.templates[t];
    if TR.Defined(template, TR.PayloadName(p)) { return Refused(AlreadyExists); }
    match p {
      case UserPayload(d) =>
        template := template.(userParameters := template.userParameters[d.name := d]);
      case SystemPayload(name, value) =>
        template := template.(systemValues := template.systemValues[name := if value.Some? then value.value else ""]);
        template := template.(revision := template.revision + 1);
    }
    db.templates := db.templates[t := template];
    reply := Accepted(None);
  }

  /** `_apply_update`. */
  method UpdateParameter(db: Session, t: nat, p: TR.Payload) returns (reply: Reply)
    modifies db`templates
    ensures (db.View(), reply) == TR.UpdateParameter(old(db.View()), t, p)
  {
    var refusal := ParameterRefusal(db, t);
    if refusal.Some? { return Refused(refusal.value); }
    var template := db.templates[t];
    if !TR.Defined(template, TR.PayloadName(p)) { return Refused(NotFound); }
    match p {
      case UserPayload(d) =>
        if d.name !in template.userParameters { return Refused(FieldImmutable); }
        template := template.(userParameters := template.userParameters[d.name := d]);
      case SystemPayload(name, value) =>
        if name !in template.systemValues { return Refused(FieldImmutable); }
        if value.None? || template.systemValues[name] == value.value { return Accepted(None); }
        template := template.(systemValues := template.systemValues[name := value.value]);
        template := template.(revision := template.revision + 1);
    }
    db.templates := db.templates[t := template];
    reply := Accepted(None);
  }

  method DeleteParameter(db: Session, t: nat, name: string) returns (reply: Reply)
    modifies db`templates
    ensures (db.View(), reply) == TR.DeleteParameter(old(db.View()), t, name)
  {
    var refusal := ParameterRefusal(db, t);
    if refusal.Some? { return Refused(refusal.value); }
    var template := db.templates[t];
    if !TR.Defined(template, name) { return Refused(NotFound); }
    if name in template.systemValues {
      template := template.(systemValues := template.systemValues - {name});
      template := template.(revision := template.revision + 1);
    } else {
      template := template.(userParameters := template.userParameters - {name});
    }
    db.templates := db.templates[t := template];
    reply := Accepted(None);
  }

  // ---------- assignments ----------

  method Find(db: Session, i: nat, t: nat) returns (found: Option<nat>)
    requires Tables.UniquePairs(db.assignments)
    ensures found == TR.FindAssignment(db.View(), i, t)
  {
    found := None;
    var left := db.assignments.Keys;
    while left != {}
      invariant left <= db.assignments.Keys
      invariant forall a <- db.assignments :: a !in left && TR.IsPair(db.assignments, a, i, t) ==> found == Some(a)
      invariant found.Some? ==> TR.IsPair(db.assignments, found.value, i, t)
      decreases left
    {
      var a :| a in left;
      left := left - {a};
      if db.assignments[a].instance == i && db.assignments[a].template == t { found := Some(a); }
    }
  }

  method MutationRefusal(db: Session, i: nat, t: nat) returns (refusal: Option<Store.Refusal>)
    requires TR.ParentRefusal(db.View(), i, t).None?
    ensures refusal == TR.MutationRefusal(db.View(), i, t)
  {
    if !(db.instances[i].started && db.rows.life[InstanceRow(i)].status == Success) { return Some(InstanceUnavailable); }
    refusal := if Busy(db.rows.life, TemplateRow(t)) then Some(SyncInProgress) else None;
  }

  /** `_require_consistent_job`. */
  method ConsistentJob(db: Session, a: nat, name: JobName, step: Step) returns (consistent: bool)
    requires AssignmentRow(a) in db.rows.life
    ensures consistent == TR.ConsistentJob(db.rows.Tables(), a, name, step)
  {
    hide TR.JobFits;
    var row := db.rows.life[AssignmentRow(a)];
    if row.job.None? || row.job.value !in db.rows.jobs { return false; }
    var job := db.rows.jobs[row.job.value];
    consistent := TR.JobFits(job, row, a, name, step);
  }

  method Put(db: Session, i: nat, t: nat) returns (reply: Reply)
    requires Tables.UniquePairs(db.assignments)
    modifies db`assignments, db.rows
    ensures (db.View(), reply) == TR.PutAssignment(old(db.View()), i, t)
  {
    if i !in db.instances || InstanceRow(i) !in db.rows.life { return Refused(NotFound); }
    if t !in db.templates || TemplateRow(t) !in db.rows.life { return Refused(NotFound); }
    var refusal := MutationRefusal(db, i, t);
    if refusal.Some? { return Refused(refusal.value); }
    var found := Find(db, i, t);
    if found.None? {
      var a := db.rows.Draw();
      db.assignments := db.assignments[a := Assignment(t, i, None)];
      var job := db.rows.Stage(AssignmentRow(a), AssignmentCreate, Step.CreateTemplate);
      return Accepted(Some(job));
    }
    if AssignmentRow(found.value) !in db.rows.life { return Refused(NotFound); }
    var row := db.rows.life[AssignmentRow(found.value)];
    if row.action == Created && row.status == Success { return Accepted(None); }
    if row.action == Creating && Unfinished(row.status) {
      var consistent := ConsistentJob(db, found.value, AssignmentCreate, Step.CreateTemplate);
      return if consistent then Accepted(row.job) else Refused(JobConflict);
    }
    reply := Refused(ActionConflict);
  }

  method RequestDeletion(db: Session, i: nat, t: nat) returns (reply: Reply)
    requires Tables.UniquePairs(db.assignments)
    modifies db.rows
    ensures (db.View(), reply) == TR.DeleteAssignment(old(db.View()), i, t)
  {
    if i !in db.instances || InstanceRow(i) !in db.rows.life { return Refused(NotFound); }
    if t !in db.templates || TemplateRow(t) !in db.rows.life { return Refused(NotFound); }
    var found := Find(db, i, t);
    if found.None? { return Accepted(None); }
    var refusal := MutationRefusal(db, i, t);
    if refusal.Some? { return Refused(refusal.value); }
    if AssignmentRow(found.value) !in db.rows.life { return Refused(NotFound); }
    var row := db.rows.life[AssignmentRow(found.value)];
    if row.action == Deleting && Unfinished(row.status) {
      var consistent := ConsistentJob(db, found.value, AssignmentDelete, Step.DeleteTemplate);
      return if consistent then Accepted(row.job) else Refused(JobConflict);
    }
    if !(row.action == Created && row.status == Success) { return Refused(ActionConflict); }
    if exists w <- db.workspaces ::
         db.workspaces[w].instance == i && db.workspaces[w].template == t && Busy(db.rows.life, WorkspaceRow(w)) {
      return Refused(WorkspacesBusy);
    }
    var job := db.rows.Stage(AssignmentRow(found.value), AssignmentDelete, Step.DeleteTemplate);
    reply := Accepted(Some(job));
  }
}
