/** API requests on instances, their provider and their members. A refused request leaves the state
    as it was. */
module InstanceRequests {
  import opened Records
  import opened Execution
  import opened Store
  import Placement

  /** Template convergence currently owns the instance. */
  predicate HasActiveAssignment(s: State, i: nat) {
    exists a <- s.assignments ::
      && s.assignments[a].instance == i
      && (Busy(s.core.life, AssignmentRow(a)) || Busy(s.core.life, TemplateRow(s.assignments[a].template)))
  }

  predicate CreationIsIncomplete(row: Life) {
    row.action == Creating && row.status != Success
  }

  /** `unique` says whether the application identifier is free. */
  ghost function CreateInstance(s: State, unique: bool): (State, Reply) {
    var place := Placement.Place(s.databases, s.allocations);
    if place.None? then (s, Refused(NoCapacity))
    else if !unique then (s, Refused(AlreadyExists))
    else
      var i := s.core.nextId;
      var core := DrawId(s.core);
      (s.(core := RequestJob(core, InstanceRow(i), InstanceCreate, CreateSchema),
          instances := s.instances[i := Instance(None, None, None, false, false)],
          allocations := s.allocations[i := place.value]),
       Accepted(Some(core.nextId)))
  }

  function RequestDeletion(s: State, i: nat): (State, Reply) {
    if i !in s.instances || InstanceRow(i) !in s.core.life then (s, Refused(NotFound))
    else if HasActiveAssignment(s, i) then (s, Refused(ActionConflict))
    else
      var row := s.core.life[InstanceRow(i)];
      var failedCreation := row.action == Creating && row.status == Error;
      var reconciled :=
        && (row.action == Creating || row.action == Updating || row.action == Starting || row.action == Stopping)
        && row.status == Success;
      if !reconciled && !failedCreation then (s, Refused(ActionConflict))
      else
        var skip := failedCreation && s.instances[i].password.None?;
        var step := if skip then RemoveInstance else RemoveWorkspaces;
        (s.(core := RequestJob(s.core, InstanceRow(i), InstanceDelete, step),
            log := if skip then s.log + [CreationAbandoned(s.core.nextId)] else s.log),
         Accepted(Some(s.core.nextId)))
  }

  /** The guard shared by manual synchronisation, start and stop. */
  function LifecycleRefusal(s: State, i: nat): Option<Refusal> {
    if i !in s.instances || InstanceRow(i) !in s.core.life then Some(NotFound)
    else
      var row := s.core.life[InstanceRow(i)];
      if || CreationIsIncomplete(row)
         || row.action == Deleting
         || row.status == Pending || row.status == Running
         || HasActiveAssignment(s, i)
      then Some(ActionConflict) else None
  }

  function RetryFailedMembers(members: map<nat, Member>, i: nat): map<nat, Member> {
    map m | m in members ::
      if members[m].instance == i && members[m].status == Error then members[m].(status := Pending) else members[m]
  }

  function RequestSync(s: State, i: nat): (State, Reply) {
    var refusal := LifecycleRefusal(s, i);
    if refusal.Some? then (s, Refused(refusal.value))
    else
      (s.(core := RequestJob(s.core, InstanceRow(i), InstanceUpdate, UpdateInstance),
          members := RetryFailedMembers(s.members, i)),
       Accepted(Some(s.core.nextId)))
  }

  function RequestStart(s: State, i: nat): (State, Reply) {
    var refusal := LifecycleRefusal(s, i);
    if refusal.Some? then (s, Refused(refusal.value))
    else (s.(core := RequestJob(s.core, InstanceRow(i), InstanceStart, StartInstance)),
          Accepted(Some(s.core.nextId)))
  }

  function RequestStop(s: State, i: nat): (State, Reply) {
    var refusal := LifecycleRefusal(s, i);
    if refusal.Some? then (s, Refused(refusal.value))
    else (s.(core := RequestJob(s.core, InstanceRow(i), InstanceStop, StopWorkspaces)),
          Accepted(Some(s.core.nextId)))
  }

  /** The provider upload does not look at template assignments. */
  function UploadProvider(s: State, i: nat): (State, Reply) {
    if i !in s.instances || InstanceRow(i) !in s.core.life then (s, Refused(NotFound))
    else if s.core.life[InstanceRow(i)].status != Success then (s, Refused(ActionConflict))
    else if s.instances[i].provider then (s, Refused(AlreadyExists))
    else
      (s.(core := RequestJob(s.core, InstanceRow(i), InstanceUpdate, UpdateInstance),
          instances := s.instances[i := s.instances[i].(provider := true)]),
       Accepted(Some(s.core.nextId)))
  }

  /** The hourly observation of one idle instance. */
  function ObserveState(s: State, i: nat, started: bool): State {
    if i !in s.instances || InstanceRow(i) !in s.core.life then s
    else if s.core.life[InstanceRow(i)].action == Deleting || s.core.life[InstanceRow(i)].status in {Pending, Running} then s
    else s.(instances := s.instances[i := s.instances[i].(started := started)])
  }

  // ---------- members ----------

  function MemberRefusal(s: State, i: nat): Option<Refusal> {
    if i !in s.instances || InstanceRow(i) !in s.core.life then Some(NotFound)
    else if HasActiveAssignment(s, i) then Some(InstanceBusy)
    else
      var row := s.core.life[InstanceRow(i)];
      var updateInProgress :=
        row.action == Updating && row.step == Some(UpdateInstance) && (row.status == Pending || row.status == Running);
      if !updateInProgress && row.status != Success then Some(InstanceBusy) else None
  }

  predicate Coalesces(core: Core, i: nat) {
    && InstanceRow(i) in core.life
    && core.life[InstanceRow(i)].action == Updating
    && (core.life[InstanceRow(i)].status == Pending || core.life[InstanceRow(i)].status == Running)
  }

  /** `_request_instance_update` and `_stage_instance_update_job`: a member change joins the pending
      update or stages a new one. */
  function StageUpdate(core: Core, i: nat): Core {
    if Coalesces(core, i) then core else RequestJob(core, InstanceRow(i), InstanceUpdate, UpdateInstance)
  }

  function StagedJob(core: Core, i: nat): Option<nat> {
    if Coalesces(core, i) then None else Some(core.nextId)
  }

  predicate UsernameTaken(members: map<nat, Member>, i: nat, username: string) {
    exists m <- members :: members[m].instance == i && members[m].username == username
  }

  function CreateMember(s: State, i: nat, username: string, role: Role): (State, Reply) {
    var refusal := MemberRefusal(s, i);
    if refusal.Some? then (s, Refused(refusal.value))
    else if UsernameTaken(s.members, i, username) then (s, Refused(AlreadyExists))
    else
      var core := DrawId(s.core);
      (s.(core := StageUpdate(core, i),
          members := s.members[s.core.nextId := Member(i, username, role, Creating, Pending)]),
       Accepted(StagedJob(core, i)))
  }

  function UpdateRole(s: State, i: nat, m: nat, role: Role): (State, Reply) {
    var refusal := MemberRefusal(s, i);
    if refusal.Some? then (s, Refused(refusal.value))
    else if m !in s.members || s.members[m].instance != i then (s, Refused(NotFound))
    else if s.members[m].status != Success then (s, Refused(ActionConflict))
    else if s.members[m].role == role then (s, Accepted(None))
    else
      (s.(core := StageUpdate(s.core, i),
          members := s.members[m := s.members[m].(role := role, action := Updating, status := Pending)]),
       Accepted(StagedJob(s.core, i)))
  }

  predicate OwnsWorkspaces(workspaces: map<nat, Workspace>, m: nat) {
    exists w <- workspaces :: workspaces[w].member == m
  }

  function DeleteMember(s: State, i: nat, m: nat, protected: set<string>): (State, Reply) {
    var refusal := MemberRefusal(s, i);
    if refusal.Some? then (s, Refused(refusal.value))
    else if m !in s.members || s.members[m].instance != i then (s, Refused(NotFound))
    else if s.members[m].username in protected then (s, Refused(Protected))
    else if s.members[m].status != Success then (s, Refused(ActionConflict))
    else if OwnsWorkspaces(s.workspaces, m) then (s, Refused(HasWorkspaces))
    else
      (s.(core := StageUpdate(s.core, i),
          members := s.members[m := s.members[m].(action := Deleting, status := Pending)]),
       Accepted(StagedJob(s.core, i)))
  }
}
