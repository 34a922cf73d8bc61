/** When the requests on instances and members are accepted, and what they change. */
module InstanceLaws {
  import opened Records
  import opened Execution
  import opened Store
  import opened ProtocolLaws
  import Placement
  import IR = InstanceRequests

  predicate Settled(life: map<Resource, Life>, k: Resource) {
    k in life ==> life[k].status == Success
  }

  /** No assignment of the instance, and no template behind one, is waiting, running or failed. */
  predicate Free(s: State, i: nat) {
    forall a <- s.assignments :: s.assignments[a].instance == i ==>
      Settled(s.core.life, AssignmentRow(a)) && Settled(s.core.life, TemplateRow(s.assignments[a].template))
  }

  predicate Known(s: State, i: nat) {
    i in s.instances && InstanceRow(i) in s.core.life
  }

  lemma FreeExactly(s: State, i: nat)
    ensures Free(s, i) <==> !IR.HasActiveAssignment(s, i)
  {}

  /** Without the instance every request on it is refused as not found. */
  lemma MissingInstance(s: State, i: nat, m: nat, username: string, role: Role, protected: set<string>, started: bool)
    requires !Known(s, i)
    ensures IR.RequestDeletion(s, i) == (s, Refused(NotFound)) && IR.RequestSync(s, i) == (s, Refused(NotFound))
    ensures IR.RequestStart(s, i) == (s, Refused(NotFound)) && IR.RequestStop(s, i) == (s, Refused(NotFound))
    ensures IR.UploadProvider(s, i) == (s, Refused(NotFound)) && IR.ObserveState(s, i, started) == s
    ensures IR.CreateMember(s, i, username, role) == (s, Refused(NotFound))
    ensures IR.UpdateRole(s, i, m, role) == (s, Refused(NotFound)) && IR.DeleteMember(s, i, m, protected) == (s, Refused(NotFound))
  {}

  // ---------- creation ----------

  /** A creation is refused for capacity exactly when every database is full, and otherwise only for a name
      in use. It takes a slot on the least utilised free database, the first by name among equals, and
      stages the first step for a bare instance. */
  lemma CreationReserves(s: State, unique: bool)
    requires Placement.PoolOk(s.databases)
    ensures var (s', reply) := IR.CreateInstance(s, unique); var i := s.core.nextId;
            && (reply == Refused(NoCapacity) <==> forall d <- s.databases :: Placement.Count(s.allocations, d) >= s.databases[d].capacity)
            && (reply.Refused? ==> s' == s && (reply.why == NoCapacity || (reply.why == AlreadyExists && !unique)))
            && (reply.Accepted? ==>
                  && unique && reply.job == Some(i + 1)
                  && Staged(s.core, s'.core, i + 1, InstanceRow(i), InstanceCreate, CreateSchema, Creating)
                  && s' == s.(core := s'.core, instances := s'.instances, allocations := s'.allocations)
                  && s'.instances == s.instances[i := Instance(None, None, None, false, false)]
                  && i in s'.allocations && s'.allocations == s.allocations[i := s'.allocations[i]]
                  && Placement.Least(s.databases, s.allocations, s'.allocations[i]))
  {
    Placement.PlaceIffFree(s.databases, s.allocations);
    if Placement.Place(s.databases, s.allocations).Some? { Placement.PlaceIsLeast(s.databases, s.allocations); }
    hide Placement.Place, Placement.Count, Placement.Least, Placement.PoolOk;
  }

  // ---------- deletion and power ----------

  /** A deletion is accepted exactly for an instance that is not held by an assignment and is either settled
      or failed to be created. Only a failed creation that never stored a password skips the removal of
      workspaces. */
  lemma DeletionAccepts(s: State, i: nat)
    requires Known(s, i)
    ensures var (s', reply) := IR.RequestDeletion(s, i); var row := s.core.life[InstanceRow(i)];
            var failed := row.action == Creating && row.status == Error;
            && (reply.Accepted? <==>
                  && Free(s, i)
                  && (failed || (row.status == Success && (row.action == Creating || row.action == Updating
                                                          || row.action == Starting || row.action == Stopping))))
            && (reply.Refused? ==> s' == s && reply.why == ActionConflict)
            && (reply.Accepted? ==>
                  && reply.job == Some(s.core.nextId) && s' == s.(core := s'.core, log := s'.log)
                  && s'.log == (if failed && s.instances[i].password.None? then s.log + [CreationAbandoned(s.core.nextId)] else s.log)
                  && Staged(s.core, s'.core, s.core.nextId, InstanceRow(i), InstanceDelete,
                            if failed && s.instances[i].password.None? then RemoveInstance else RemoveWorkspaces, Deleting))
  {
    FreeExactly(s, i);
    hide Free, IR.HasActiveAssignment;
  }

  /** What synchronisation, start and stop require. */
  predicate Idle(s: State, i: nat)
    requires Known(s, i)
  {
    var row := s.core.life[InstanceRow(i)];
    && row.action != Deleting
    && (row.status == Success || (row.status == Error && row.action != Creating))
    && Free(s, i)
  }

  lemma StartAccepts(s: State, i: nat)
    requires Known(s, i)
    ensures var (s', reply) := IR.RequestStart(s, i);
            && (reply.Accepted? <==> Idle(s, i)) && (reply.Refused? ==> s' == s && reply.why == ActionConflict)
            && (reply.Accepted? ==>
                  && reply.job == Some(s.core.nextId) && s' == s.(core := s'.core)
                  && Staged(s.core, s'.core, s.core.nextId, InstanceRow(i), InstanceStart, StartInstance, Starting))
  {
    FreeExactly(s, i);
    hide Free, IR.HasActiveAssignment;
  }

  lemma StopAccepts(s: State, i: nat)
    requires Known(s, i)
    ensures var (s', reply) := IR.RequestStop(s, i);
            && (reply.Accepted? <==> Idle(s, i)) && (reply.Refused? ==> s' == s && reply.why == ActionConflict)
            && (reply.Accepted? ==>
                  && reply.job == Some(s.core.nextId) && s' == s.(core := s'.core)
                  && Staged(s.core, s'.core, s.core.nextId, InstanceRow(i), InstanceStop, StopWorkspaces, Stopping))
  {
    FreeExactly(s, i);
    hide Free, IR.HasActiveAssignment;
  }

  /** A manual synchronisation also puts the failed members of the instance back in line, and only those. */
  lemma SyncAccepts(s: State, i: nat)
    requires Known(s, i)
    ensures var (s', reply) := IR.RequestSync(s, i);
            && (reply.Accepted? <==> Idle(s, i)) && (reply.Refused? ==> s' == s && reply.why == ActionConflict)
            && (reply.Accepted? ==>
                  && reply.job == Some(s.core.nextId) && s' == s.(core := s'.core, members := s'.members)
                  && Staged(s.core, s'.core, s.core.nextId, InstanceRow(i), InstanceUpdate, UpdateInstance, Updating)
                  && s'.members.Keys == s.members.Keys
                  && (forall m <- s.members :: s'.members[m] ==
                        if s.members[m].instance == i && s.members[m].status == Error
                        then s.members[m].(status := Pending) else s.members[m]))
  {
    FreeExactly(s, i);
    hide Free, IR.HasActiveAssignment;
  }

  lemma ProviderAccepts(s: State, i: nat)
    requires Known(s, i)
    ensures var (s', reply) := IR.UploadProvider(s, i);
            && (reply.Accepted? <==> s.core.life[InstanceRow(i)].status == Success && !s.instances[i].provider)
            && (reply.Refused? ==>
                  s' == s && reply.why == if s.core.life[InstanceRow(i)].status == Success then AlreadyExists else ActionConflict)
            && (reply.Accepted? ==>
                  && reply.job == Some(s.core.nextId) && s' == s.(core := s'.core, instances := s'.instances)
                  && s'.instances == s.instances[i := s.instances[i].(provider := true)]
                  && Staged(s.core, s'.core, s.core.nextId, InstanceRow(i), InstanceUpdate, UpdateInstance, Updating))
  {}

  /** The hourly observation touches only the state of instances that are idle, failed ones included, and are
      not being deleted. */
  lemma ObservationStores(s: State, i: nat, started: bool)
    requires Known(s, i)
    ensures IR.ObserveState(s, i, started) ==
            if (s.core.life[InstanceRow(i)].status == Success || s.core.life[InstanceRow(i)].status == Error)
               && s.core.life[InstanceRow(i)].action != Deleting
            then s.(instances := s.instances[i := s.instances[i].(started := started)]) else s
  {}

  // ---------- members ----------

  /** Members may change while the instance is settled or its update has not got past the policy. */
  predicate Open(s: State, i: nat)
    requires Known(s, i)
  {
    var row := s.core.life[InstanceRow(i)];
    && Free(s, i)
    && (|| row.status == Success
        || (row.action == Updating && row.step == Some(UpdateInstance) && (row.status == Pending || row.status == Running)))
  }

  /** The change is reported to an update that is under way, or stages a fresh one. */
  predicate Reported(core: Core, core': Core, i: nat, next: nat, job: Option<nat>)
    requires InstanceRow(i) in core.life
  {
    var row := core.life[InstanceRow(i)];
    if row.action == Updating && (row.status == Pending || row.status == Running)
    then job == None && core' == core.(nextId := next)
    else job == Some(next) && core.nextId <= next
         && Staged(core, core', next, InstanceRow(i), InstanceUpdate, UpdateInstance, Updating)
  }

  lemma MemberAdded(s: State, i: nat, username: string, role: Role)
    requires Known(s, i)
    ensures var (s', reply) := IR.CreateMember(s, i, username, role); var m := s.core.nextId;
            && (reply.Accepted? <==>
                  Open(s, i) && forall n <- s.members :: s.members[n].instance == i ==> s.members[n].username != username)
            && (reply.Refused? ==> s' == s && reply.why == if Open(s, i) then AlreadyExists else InstanceBusy)
            && (reply.Accepted? ==>
                  && s' == s.(core := s'.core, members := s'.members)
                  && s'.members == s.members[m := Member(i, username, role, Creating, Pending)]
                  && Reported(s.core, s'.core, i, m + 1, reply.job))
  {
    FreeExactly(s, i);
    hide Free, IR.HasActiveAssignment;
  }

  /** A changed role waits for the next policy; an unchanged one changes nothing and stages nothing. */
  lemma RoleChanged(s: State, i: nat, m: nat, role: Role)
    requires Known(s, i)
    ensures var (s', reply) := IR.UpdateRole(s, i, m, role);
            && (reply.Accepted? <==>
                  Open(s, i) && m in s.members && s.members[m].instance == i && s.members[m].status == Success)
            && (reply.Refused? ==>
                  s' == s && reply.why == (if !Open(s, i) then InstanceBusy
                                           else if m !in s.members || s.members[m].instance != i then NotFound else ActionConflict))
            && (reply.Accepted? && s.members[m].role == role ==> s' == s && reply.job == None)
            && (reply.Accepted? && s.members[m].role != role ==>
                  && s' == s.(core := s'.core, members := s'.members)
                  && s'.members == s.members[m := s.members[m].(role := role, action := Updating, status := Pending)]
                  && Reported(s.core, s'.core, i, s.core.nextId, reply.job))
  {
    FreeExactly(s, i);
    hide Free, IR.HasActiveAssignment;
  }

  /** A member may leave unless the name is protected or the member owns a workspace. */
  lemma MemberDropped(s: State, i: nat, m: nat, protected: set<string>)
    requires Known(s, i)
    ensures var (s', reply) := IR.DeleteMember(s, i, m, protected);
            && (reply.Accepted? <==>
                  && Open(s, i) && m in s.members && s.members[m].instance == i && s.members[m].username !in protected
                  && s.members[m].status == Success && forall w <- s.workspaces :: s.workspaces[w].member != m)
            && (reply.Refused? ==>
                  s' == s && reply.why == (if !Open(s, i) then InstanceBusy
                                           else if m !in s.members || s.members[m].instance != i then NotFound
                                           else if s.members[m].username in protected then Protected
                                           else if s.members[m].status != Success then ActionConflict else HasWorkspaces))
            && (reply.Accepted? ==>
                  && s' == s.(core := s'.core, members := s'.members)
                  && s'.members == s.members[m := s.members[m].(action := Deleting, status := Pending)]
                  && Reported(s.core, s'.core, i, s.core.nextId, reply.job))
  {
    FreeExactly(s, i);
    hide Free, IR.HasActiveAssignment;
  }
}
