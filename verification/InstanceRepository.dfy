/** The instance and member repositories, each request one transaction tied to its specification. */
module InstanceRepository {
  import opened Records
  import opened Execution
  import opened Store
  import opened Session
  import Placement
  import IR = InstanceRequests

  /** `_has_active_template_assignment`. */
  method HasActiveAssignment(db: Session, i: nat) returns (active: bool)
    ensures active == IR.HasActiveAssignment(db.View(), i)
  {
    active := false;
    var left := db.assignments.Keys;
    while left != {}
      invariant left <= db.assignments.Keys
      invariant active <==> exists a <- db.assignments ::
                  && a !in left && db.assignments[a].instance == i
                  && (Busy(db.rows.life, AssignmentRow(a)) || Busy(db.rows.life, TemplateRow(db.assignments[a].template)))
      decreases left
    {
      var a :| a in left;
      left := left - {a};
      if db.assignments[a].instance == i
         && (Busy(db.rows.life, AssignmentRow(a)) || Busy(db.rows.life, TemplateRow(db.assignments[a].template))) {
        active := true;
      }
    }
  }

  /** `create`: reserve a slot on the least utilised database, then stage the creation. `order` lists the
      databases as the query returns them. */
  method Create(db: Session, order: seq<nat>, unique: bool) returns (reply: Reply)
    requires Placement.PoolOk(db.databases) && (forall d :: d in order <==> d in db.databases)
    modifies db`instances, db`allocations, db.rows
    ensures (db.View(), reply) == IR.CreateInstance(old(db.View()), unique)
  {
    var place := Placement.Choose(db.databases, db.allocations, order);
    if place.None? { return Refused(NoCapacity); }
    if !unique { return Refused(AlreadyExists); }
    var i := db.rows.Draw();
    db.instances := db.instances[i := Instance(None, None, None, false, false)];
    db.allocations := db.allocations[i := place.value];
    var job := db.rows.Stage(InstanceRow(i), InstanceCreate, CreateSchema);
    reply := Accepted(Some(job));
  }

  method RequestDeletion(db: Session, i: nat) returns (reply: Reply)
    modifies db`log, db.rows
    ensures (db.View(), reply) == IR.RequestDeletion(old(db.View()), i)
  {
    if i !in db.instances || InstanceRow(i) !in db.rows.life { return Refused(NotFound); }
    var active := HasActiveAssignment(db, i);
    if active { return Refused(ActionConflict); }
    var row := db.rows.life[InstanceRow(i)];
    var failedCreation := row.action == Creating && row.status == Error;
    var reconciled :=
      && (row.action == Creating || row.action == Updating || row.action == Starting || row.action == Stopping)
      && row.status == Success;
    if !reconciled && !failedCreation { return Refused(ActionConflict); }
    var skip := failedCreation && db.instances[i].password.None?;
    var job := db.rows.Stage(InstanceRow(i), InstanceDelete, if skip then RemoveInstance else RemoveWorkspaces);
    if skip { db.log := db.log + [CreationAbandoned(job)]; }
    reply := Accepted(Some(job));
  }

  method LifecycleRefusal(db: Session, i: nat) returns (refusal: Option<Refusal>)
    ensures refusal == IR.LifecycleRefusal(db.View(), i)
  {
    if i !in db.instances || InstanceRow(i) !in db.rows.life { return Some(NotFound); }
    var row := db.rows.life[InstanceRow(i)];
    if (row.action == Creating && row.status != Success) || row.action == Deleting || row.status == Pending || row.status == Running {
      return Some(ActionConflict);
    }
    var active := HasActiveAssignment(db, i);
    refusal := if active then Some(ActionConflict) else None;
  }

  /** `request_sync`: the failed members of the instance are retried with it. */
  method RequestSync(db: Session, i: nat) returns (reply: Reply)
    modifies db`members, db.rows
    ensures (db.View(), reply) == IR.RequestSync(old(db.View()), i)
  {
    var refusal := LifecycleRefusal(db, i);
    if refusal.Some? { return Refused(refusal.value); }
    ghost var before := db.members;
    var left := db.members.Keys;
    while left != {}
      invariant left <= before.Keys && db.members.Keys == before.Keys
      invariant forall m <- before :: db.members[m] == if m in left then before[m] else Retried(before[m], i)
      decreases left
      modifies db`members
    {
      var m :| m in left;
      left := left - {m};
      if db.members[m].instance == i && db.members[m].status == Error {
        db.members := db.members[m := db.members[m].(status := Pending)];
      }
    }
    assert db.members == IR.RetryFailedMembers(before, i);
    var job := db.rows.Stage(InstanceRow(i), InstanceUpdate, UpdateInstance);
    reply := Accepted(Some(job));
  }

  function Retried(m: Member, i: nat): Member {
    if m.instance == i && m.status == Error then m.(status := Pending) else m
  }

  /** `_request_power_action`. */
  method RequestPower(db: Session, i: nat, start: bool) returns (reply: Reply)
    modifies db.rows
    ensures (db.View(), reply) == if start then IR.RequestStart(old(db.View()), i) else IR.RequestStop(old(db.View()), i)
  {
    var refusal := LifecycleRefusal(db, i);
    if refusal.Some? { return Refused(refusal.value); }
    var job;
    if start {
      job := db.rows.Stage(InstanceRow(i), InstanceStart, StartInstance);
    } else {
      job := db.rows.Stage(InstanceRow(i), InstanceStop, StopWorkspaces);
    }
    reply := Accepted(Some(job));
  }

  method UploadProvider(db: Session, i: nat) returns (reply: Reply)
    modifies db`instances, db.rows
    ensures (db.View(), reply) == IR.UploadProvider(old(db.View()), i)
  {
    if i !in db.instances || InstanceRow(i) !in db.rows.life { return Refused(NotFound); }
    if db.rows.life[InstanceRow(i)].status != Success { return Refused(ActionConflict); }
    if db.instances[i].provider { return Refused(AlreadyExists); }
    db.instances := db.instances[i := db.instances[i].(provider := true)];
    var job := db.rows.Stage(InstanceRow(i), InstanceUpdate, UpdateInstance);
    reply := Accepted(Some(job));
  }

  // ---------- members ----------

  /** `_lock_available_instance`. */
  method MemberRefusal(db: Session, i: nat) returns (refusal: Option<Refusal>)
    ensures refusal == IR.MemberRefusal(db.View(), i)
  {
    if i !in db.instances || InstanceRow(i) !in db.rows.life { return Some(NotFound); }
    var active := HasActiveAssignment(db, i);
    if active { return Some(InstanceBusy); }
    var row := db.rows.life[InstanceRow(i)];
    var updateInProgress :=
      row.action == Updating && row.step == Some(UpdateInstance) && (row.status == Pending || row.status == Running);
    refusal := if !updateInProgress && row.status != Success then Some(InstanceBusy) else None;
  }

  /** `_request_instance_update`: join the pending update or stage one. */
  method StageUpdate(db: Session, i: nat) returns (job: Option<nat>)
    modifies db.rows
    ensures db.rows.Tables() == IR.StageUpdate(old(db.rows.Tables()), i) && job == IR.StagedJob(old(db.rows.Tables()), i)
  {
    if InstanceRow(i) in db.rows.life && db.rows.life[InstanceRow(i)].action == Updating
       && (db.rows.life[InstanceRow(i)].status == Pending || db.rows.life[InstanceRow(i)].status == Running) {
      return None;
    }
    var id := db.rows.Stage(InstanceRow(i), InstanceUpdate, UpdateInstance);
    job := Some(id);
  }

  method UsernameTaken(db: Session, i: nat, username: string) returns (taken: bool)
    ensures taken == IR.UsernameTaken(db.members, i, username)
  {
    taken := false;
    var left := db.members.Keys;
    while left != {}
      invariant left <= db.members.Keys
      invariant taken <==> exists m <- db.members :: m !in left && db.members[m].instance == i && db.members[m].username == username
      decreases left
    {
      var m :| m in left;
      left := left - {m};
      if db.members[m].instance == i && db.members[m].username == username { taken := true; }
    }
  }

  method CreateMember(db: Session, i: nat, username: string, role: Role) returns (reply: Reply)
    modifies db`members, db.rows
    ensures (db.View(), reply) == IR.CreateMember(old(db.View()), i, username, role)
  {
    var refusal := MemberRefusal(db, i);
    if refusal.Some? { return Refused(refusal.value); }
    var taken := UsernameTaken(db, i, username);
    if taken { return Refused(AlreadyExists); }
    var m := db.rows.Draw();
    db.members := db.members[m := Member(i, username, role, Creating, Pending)];
    var job := StageUpdate(db, i);
    reply := Accepted(job);
  }

  method UpdateRole(db: Session, i: nat, m: nat, role: Role) returns (reply: Reply)
    modifies db`members, db.rows
    ensures (db.View(), reply) == IR.UpdateRole(old(db.View()), i, m, role)
  {
    var refusal := MemberRefusal(db, i);
    if refusal.Some? { return Refused(refusal.value); }
    if m !in db.members || db.members[m].instance != i { return Refused(NotFound); }
    if db.members[m].status != Success { return Refused(ActionConflict); }
    if db.members[m].role == role { return Accepted(None); }
    var member := db.members[m].(role := role);
    db.members := db.members[m := member.(action := Updating, status := Pending)];
    var job := StageUpdate(db, i);
    reply := Accepted(job);
  }

  method OwnsWorkspaces(db: Session, m: nat) returns (owns: bool)
    ensures owns == IR.OwnsWorkspaces(db.workspaces, m)
  {
    owns := false;
    var left := db.workspaces.Keys;
    while left != {}
      invariant left <= db.workspaces.Keys && (owns <==> exists w <- db.workspaces :: w !in left && db.workspaces[w].member == m)
      decreases left
    {
      var w :| w in left;
      left := left - {w};
      if db.workspaces[w].member == m { owns := true; }
    }
  }

  method RequestMemberDeletion(db: Session, i: nat, m: nat, protected: set<string>) returns (reply: Reply)
    modifies db`members, db.rows
    ensures (db.View(), reply) == IR.DeleteMember(old(db.View()), i, m, protected)
  {
    var refusal := MemberRefusal(db, i);
    if refusal.Some? { return Refused(refusal.value); }
    if m !in db.members || db.members[m].instance != i { return Refused(NotFound); }
    if db.members[m].username in protected { return Refused(Protected); }
    if db.members[m].status != Success { return Refused(ActionConflict); }
    var owns := OwnsWorkspaces(db, m);
    if owns { return Refused(HasWorkspaces); }
    db.members := db.members[m := db.members[m].(action := Deleting, status := Pending)];
    var job := StageUpdate(db, i);
    reply := Accepted(job);
  }
}
