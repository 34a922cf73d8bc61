/** The steps of instance stop and deletion. */
module TeardownSteps {
  import opened Records
  import opened Execution
  import opened Store
  import opened WorkerSteps

  // ---------- stop ----------

  function FinishStopWorkspaces(s: State, c: Claim): State {
    if At(s, c, StopWorkspaces) && Owned(s.core, c)
    then s.(core := AdvanceExecution(s.core, c, StopInstance)) else s
  }

  /** Argo CD answered that the Application is absent. */
  function ConfirmAbsent(s: State, c: Claim): State {
    if (At(s, c, StopInstance) || At(s, c, RemoveInstance)) && s.workers[c] == Started
    then SetLocal(s.(log := s.log + [ApplicationAbsent(c.job)]), c, Confirmed) else s
  }

  function FinishStop(s: State, c: Claim): State {
    if At(s, c, StopInstance) && s.workers[c] == Confirmed && Id(c) in s.instances && Owned(s.core, c)
    then s.(core := CompleteExecution(s.core, c, None),
            instances := s.instances[Id(c) := s.instances[Id(c)].(started := false)])
    else s
  }

  // ---------- delete ----------

  /** `_store_started_application`, reached only with stored credentials. */
  function RestoreApplication(s: State, c: Claim, name: Option<string>): State {
    var i := Id(c);
    if At(s, c, RemoveWorkspaces) && s.workers[c] == Started && i in s.instances
       && s.instances[i].password.Some? && Owned(s.core, c)
    then
      var argoName := if name.Some? then name else s.instances[i].argoName;
      SetLocal(s.(instances := s.instances[i := s.instances[i].(argoName := argoName, started := true)]), c, ApplicationRestored)
    else s
  }

  /** `delete_all_workspaces` returned. */
  function ConfirmWorkspaces(s: State, c: Claim): State {
    if At(s, c, RemoveWorkspaces) && s.workers[c] == ApplicationRestored
    then SetLocal(s.(log := s.log + [WorkspacesRemoved(c.job)]), c, Confirmed) else s
  }

  function FinishRemoveWorkspaces(s: State, c: Claim): State {
    if At(s, c, RemoveWorkspaces) && s.workers[c] == Confirmed && Owned(s.core, c)
    then s.(core := AdvanceExecution(s.core, c, RemoveInstance)) else s
  }

  function FinishRemoveInstance(s: State, c: Claim): State {
    if At(s, c, RemoveInstance) && s.workers[c] == Confirmed && Id(c) in s.instances
    then AdvanceInstance(s, c, RemoveSchema, s.instances[Id(c)].(started := false)) else s
  }

  /** Without an allocation there is nothing to drop. */
  function DropSchema(s: State, c: Claim): State {
    if At(s, c, RemoveSchema) && s.workers[c] == Started
    then SetLocal(s.(log := if Id(c) in s.allocations then s.log + [SchemaDropped(c.job)] else s.log), c, Confirmed)
    else s
  }

  function FinishRemoveSchema(s: State, c: Claim): State {
    if At(s, c, RemoveSchema) && s.workers[c] == Confirmed && Owned(s.core, c)
    then s.(core := AdvanceExecution(s.core, c, RemoveLocalConfiguration)) else s
  }

  function AssignmentsOf(s: State, i: nat): set<nat> {
    set a | a in s.assignments && s.assignments[a].instance == i
  }

  function WorkspacesOf(s: State, i: nat): set<nat> {
    set w | w in s.workspaces && s.workspaces[w].instance == i
  }

  function MembersOf(s: State, i: nat): set<nat> {
    set m | m in s.members && s.members[m].instance == i
  }

  /** The final transaction; the assignments go with the instance by cascade. */
  function RemoveLocal(s: State, c: Claim): State {
    var i := Id(c);
    if At(s, c, RemoveLocalConfiguration) && i in s.instances && Owned(s.core, c) then
      s.(core := DeleteRows(CompleteAndDelete(s.core, c), WorkspaceRows(WorkspacesOf(s, i)) + AssignmentRows(AssignmentsOf(s, i))),
         instances := s.instances - {i},
         allocations := s.allocations - {i},
         members := s.members - MembersOf(s, i),
         workspaces := s.workspaces - WorkspacesOf(s, i),
         assignments := s.assignments - AssignmentsOf(s, i))
    else s
  }
}
