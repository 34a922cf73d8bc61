/** The bodies of the workspace steps. */
module WorkspaceSteps {
  import opened Records
  import opened Execution
  import opened Store
  import opened WorkerSteps

  /** The remote workspace that Coder answered: its latest build, whether that build is a start build,
      whether its status allows waiting for it, and the values it carries. */
  datatype Remote = Remote(remoteId: nat, buildId: nat, starts: bool, usable: bool, carried: map<string, string>)

  predicate IsWorkspaceStep(step: Step) {
    step == CreateWorkspace || step == UpdateWorkspace || step == DeleteWorkspace
  }

  function Restrict(values: map<string, string>, names: set<string>): map<string, string> {
    map n | n in values && n in names :: values[n]
  }

  /** Everything `workspace_remote_snapshot` needs besides the row. */
  predicate RemoteReady(s: State, w: nat) {
    && w in s.workspaces
    && var row := s.workspaces[w];
       && row.instance in s.instances && s.instances[row.instance].password.Some?
       && row.member in s.members
       && row.template in s.templates
       && exists a <- s.assignments ::
            && s.assignments[a].instance == row.instance && s.assignments[a].template == row.template
            && s.assignments[a].deployment.Some? && s.assignments[a].deployment.value.templateId.Some?
  }

  function ReadWorkspace(s: State, c: Claim): State {
    var w := Id(c);
    if c in s.workers && IsWorkspaceStep(c.step) && s.workers[c] == Started && RemoteReady(s, w) then
      var row := s.workspaces[w];
      var names := s.templates[row.template].userParameters.Keys;
      SetLocal(s, c, WorkspaceRead(Restrict(row.parameters, names), names, row.revision, row.applied))
    else s
  }

  /** The create step: create the workspace, adopt its latest build, or start a new one. A latest
      build that is not a start build is taken to carry no values. `newBuild` is the identifier a newly
      submitted build gets. */
  function ChooseForCreate(l: Local, remote: Option<Remote>, freshId: nat, newBuild: nat): Local
    requires l.WorkspaceRead?
  {
    if remote.None? then BuildChosen(l.names, l.values, true, freshId, newBuild)
    else
      var r := remote.value;
      var current := if r.starts then r.carried else map[];
      if current != l.values || !r.usable then BuildChosen(l.names, l.values, true, r.remoteId, newBuild)
      else BuildChosen(l.names, r.carried, r.starts, r.remoteId, r.buildId)
  }

  /** The update step: nothing to build when the revisions agree, else reuse or rebuild. */
  function ChooseForUpdate(l: Local, r: Remote, newBuild: nat): Local
    requires l.WorkspaceRead?
  {
    if l.applied == Some(l.desired) then BuildSkipped(r.remoteId)
    else if r.starts && r.usable && r.carried == l.values then BuildChosen(l.names, r.carried, true, r.remoteId, r.buildId)
    else BuildChosen(l.names, l.values, true, r.remoteId, newBuild)
  }

  /** A missing remote workspace makes the update step fail. */
  function ChooseBuild(s: State, c: Claim, remote: Option<Remote>, freshId: nat, newBuild: nat): State {
    if At(s, c, CreateWorkspace) && s.workers[c].WorkspaceRead?
    then SetLocal(s, c, ChooseForCreate(s.workers[c], remote, freshId, newBuild))
    else if At(s, c, UpdateWorkspace) && s.workers[c].WorkspaceRead? && remote.Some?
    then SetLocal(s, c, ChooseForUpdate(s.workers[c], remote.value, newBuild))
    else s
  }

  /** `store_remote_ids`. */
  function StoreBuild(s: State, c: Claim): State {
    if && (At(s, c, CreateWorkspace) || At(s, c, UpdateWorkspace))
       && s.workers[c].BuildChosen? && Id(c) in s.workspaces && Owned(s.core, c)
    then
      var l := s.workers[c];
      SetLocal(s.(workspaces := s.workspaces[Id(c) :=
                    s.workspaces[Id(c)].(remoteId := Some(l.remoteId), buildId := Some(l.buildId))]),
               c, BuildStored(l.names, l.carried, l.starts, l.remoteId, l.buildId))
    else s
  }

  /** `wait_workspace_build` returned: Coder reports the build as running, which only a start build
      can be. */
  function ObserveRunning(s: State, c: Claim): State {
    if (At(s, c, CreateWorkspace) || At(s, c, UpdateWorkspace)) && s.workers[c].BuildStored? && s.workers[c].starts
    then
      var l := s.workers[c];
      SetLocal(s, c, BuildRunning(l.names, l.carried, l.remoteId, l.buildId))
    else s
  }

  /** `complete_workspace` of the create and update steps. */
  function FinishWorkspace(s: State, c: Claim): State {
    var w := Id(c);
    if && (At(s, c, CreateWorkspace) || At(s, c, UpdateWorkspace))
       && (s.workers[c].BuildRunning? || s.workers[c].BuildSkipped?)
       && w in s.workspaces && Owned(s.core, c)
    then
      var row := s.workspaces[w].(remoteId := Some(s.workers[c].remoteId));
      var row' := if s.workers[c].BuildRunning?
                  then row.(buildId := Some(s.workers[c].buildId), applied := Some(row.revision)) else row;
      s.(core := CompleteExecution(s.core, c, None), workspaces := s.workspaces[w := row'])
    else s
  }

  function StoreDeleteBuild(s: State, c: Claim, remoteId: nat, buildId: nat): State {
    if At(s, c, DeleteWorkspace) && s.workers[c].WorkspaceRead? && Id(c) in s.workspaces && Owned(s.core, c)
    then s.(workspaces := s.workspaces[Id(c) := s.workspaces[Id(c)].(remoteId := Some(remoteId), buildId := Some(buildId))])
    else s
  }

  /** The remote workspace is absent or its delete build reached deleted. */
  function ObserveDeleted(s: State, c: Claim): State {
    if At(s, c, DeleteWorkspace) && s.workers[c].WorkspaceRead? then SetLocal(s, c, RemoteGone) else s
  }

  function FinishDeleteWorkspace(s: State, c: Claim): State {
    if At(s, c, DeleteWorkspace) && s.workers[c] == RemoteGone && Owned(s.core, c)
    then s.(core := CompleteAndDelete(s.core, c), workspaces := s.workspaces - {Id(c)}) else s
  }
}
