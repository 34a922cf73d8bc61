/** What the transactions of the workspace steps write, and which build their workers choose. */
module WorkspaceStepLaws {
  import opened Records
  import opened Execution
  import opened Store
  import opened ProtocolLaws
  import W = WorkspaceSteps

  /** Everything the snapshot needs: the credentials of the instance, the owner, and a known remote template. */
  predicate Prepared(s: State, w: nat) {
    && w in s.workspaces && s.workspaces[w].instance in s.instances && s.instances[s.workspaces[w].instance].password.Some?
    && s.workspaces[w].member in s.members && s.workspaces[w].template in s.templates
    && exists a <- s.assignments ::
         && s.assignments[a].instance == s.workspaces[w].instance && s.assignments[a].template == s.workspaces[w].template
         && s.assignments[a].deployment.Some? && s.assignments[a].deployment.value.templateId.Some?
  }

  /** The worker takes along the stored values of the parameters that are defined now, and the revision they
      belong to. */
  lemma SnapshotTaken(s: State, c: Claim)
    requires c in s.workers && s.workers[c] == Started
    requires c.step == CreateWorkspace || c.step == UpdateWorkspace || c.step == DeleteWorkspace
    ensures var s', w := W.ReadWorkspace(s, c), Id(c);
            if !Prepared(s, w) then s' == s
            else
              && c in s'.workers && s' == s.(workers := s.workers[c := s'.workers[c]]) && s'.workers[c].WorkspaceRead?
              && var l, row := s'.workers[c], s.workspaces[w];
                 && l.desired == row.revision && l.applied == row.applied
                 && (forall n :: n in l.names <==> n in s.templates[row.template].userParameters)
                 && (forall n :: n in l.values <==> n in row.parameters && n in s.templates[row.template].userParameters)
                 && (forall n <- l.values :: l.values[n] == row.parameters[n])
  {
    hide Id;
  }

  /** Creating: a missing workspace is created with the values; an existing one keeps its latest build when
      that is usable and carries just the values, and gets a new one otherwise. */
  lemma CreationChooses(s: State, c: Claim, remote: Option<W.Remote>, freshId: nat, newBuild: nat)
    requires c in s.workers && c.step == CreateWorkspace && s.workers[c].WorkspaceRead?
    ensures var l := s.workers[c]; var s' := W.ChooseBuild(s, c, remote, freshId, newBuild);
            && s' == s.(workers := s'.workers)
            && (remote.None? ==>
                  s'.workers == s.workers[c := BuildChosen(l.names, l.values, true, freshId, newBuild)])
            && (remote.Some? && remote.value.usable && remote.value.starts && remote.value.carried == l.values ==>
                  s'.workers == s.workers[c := BuildChosen(l.names, l.values, true, remote.value.remoteId, remote.value.buildId)])
            && (remote.Some? && remote.value.usable && !remote.value.starts && l.values == map[] ==>
                  c in s'.workers && s'.workers[c].BuildChosen? && s'.workers[c].buildId == remote.value.buildId && !s'.workers[c].starts)
            && (remote.Some? && (!remote.value.usable || (if remote.value.starts then remote.value.carried else map[]) != l.values) ==>
                  s'.workers == s.workers[c := BuildChosen(l.names, l.values, true, remote.value.remoteId, newBuild)])
  {}

  /** Updating: nothing to build for an applied revision; a usable start build that carries just the values is
      adopted; otherwise a new one starts. A missing remote workspace is an error. */
  lemma UpdateChooses(s: State, c: Claim, remote: Option<W.Remote>, freshId: nat, newBuild: nat)
    requires c in s.workers && c.step == UpdateWorkspace && s.workers[c].WorkspaceRead?
    ensures var l := s.workers[c]; var s' := W.ChooseBuild(s, c, remote, freshId, newBuild);
            match remote
            case None => s' == s
            case Some(r) =>
              s' == s.(workers := s.workers[c :=
                if l.applied == Some(l.desired) then BuildSkipped(r.remoteId)
                else BuildChosen(l.names, l.values, true, r.remoteId,
                                 if r.starts && r.usable && r.carried == l.values then r.buildId else newBuild)])
  {}

  predicate OnRow(s: State, c: Claim) {
    && c in s.workers && Owned(s.core, c) && Id(c) in s.workspaces
    && c.resource == Some(WorkspaceRow(Id(c))) && s.core.jobs[c.job].resource == c.resource
  }

  lemma BuildRecorded(s: State, c: Claim)
    requires OnRow(s, c) && (c.step == CreateWorkspace || c.step == UpdateWorkspace) && s.workers[c].BuildChosen?
    ensures var s', w, l := W.StoreBuild(s, c), Id(c), s.workers[c];
            && s' == s.(workspaces := s'.workspaces, workers := s'.workers)
            && s'.workspaces == s.workspaces[w := s.workspaces[w].(remoteId := Some(l.remoteId), buildId := Some(l.buildId))]
            && s'.workers == s.workers[c := BuildStored(l.names, l.carried, l.starts, l.remoteId, l.buildId)]
  {
    hide Owned, Id;
  }

  lemma RunningObserved(s: State, c: Claim)
    requires c in s.workers && (c.step == CreateWorkspace || c.step == UpdateWorkspace) && s.workers[c].BuildStored?
    ensures var l := s.workers[c];
            W.ObserveRunning(s, c) ==
              if l.starts then s.(workers := s.workers[c := BuildRunning(l.names, l.carried, l.remoteId, l.buildId)]) else s
  {}

  predicate Closed(core: Core, core': Core, c: Claim, w: nat) {
    WorkspaceRow(w) in core.life && Stood(core, core', c, WorkspaceRow(w), core.life[WorkspaceRow(w)].action, Success, None)
  }

  /** A build that was seen running applies the current revision. */
  lemma WorkspaceBuilt(s: State, c: Claim)
    requires OnRow(s, c) && (c.step == CreateWorkspace || c.step == UpdateWorkspace) && s.workers[c].BuildRunning?
    ensures var s', w, l := W.FinishWorkspace(s, c), Id(c), s.workers[c]; var row := s.workspaces[w];
            && s' == s.(core := s'.core, workspaces := s'.workspaces) && Closed(s.core, s'.core, c, w)
            && s'.workspaces == s.workspaces[w := row.(remoteId := Some(l.remoteId), buildId := Some(l.buildId), applied := Some(row.revision))]
  {
    hide Owned, CompleteExecution, Stood, Id;
    CompletedRow(s.core, c, WorkspaceRow(Id(c)), None);
  }

  /** Without a build the revisions stay as they are; before either nothing ends. */
  lemma WorkspaceUnchanged(s: State, c: Claim)
    requires OnRow(s, c) && (c.step == CreateWorkspace || c.step == UpdateWorkspace) && !s.workers[c].BuildRunning?
    ensures var s', w, l := W.FinishWorkspace(s, c), Id(c), s.workers[c];
            if l.BuildSkipped? then
              && s' == s.(core := s'.core, workspaces := s'.workspaces) && Closed(s.core, s'.core, c, w)
              && s'.workspaces == s.workspaces[w := s.workspaces[w].(remoteId := Some(l.remoteId))]
            else s' == s
  {
    hide Owned, CompleteExecution, Stood, Id;
    CompletedRow(s.core, c, WorkspaceRow(Id(c)), None);
  }

  lemma DeleteBuildStored(s: State, c: Claim, remoteId: nat, buildId: nat)
    requires OnRow(s, c) && c.step == DeleteWorkspace && s.workers[c].WorkspaceRead?
    ensures W.StoreDeleteBuild(s, c, remoteId, buildId) ==
            s.(workspaces := s.workspaces[Id(c) := s.workspaces[Id(c)].(remoteId := Some(remoteId), buildId := Some(buildId))])
  {
    hide Owned, Id;
  }

  /** The row goes only once the remote workspace is gone. */
  lemma WorkspaceErased(s: State, c: Claim)
    requires OnRow(s, c) && c.step == DeleteWorkspace
    ensures var s', w := W.FinishDeleteWorkspace(s, c), Id(c);
            if s.workers[c] == RemoteGone then
              && s' == s.(core := s'.core, workspaces := s.workspaces - {w})
              && c.job in s'.core.jobs && s'.core.jobs[c.job].status == Success && WorkspaceRow(w) !in s'.core.life
            else s' == s
  {
    hide Owned, CompleteAndDelete, Id;
    CompleteAndDeleteErases(s.core, c);
  }

  lemma DeletionObserved(s: State, c: Claim)
    requires c in s.workers && c.step == DeleteWorkspace && s.workers[c].WorkspaceRead?
    ensures W.ObserveDeleted(s, c) == s.(workers := s.workers[c := RemoteGone])
  {}

  lemma StaleStepsWriteNothing(s: State, c: Claim, remoteId: nat, buildId: nat)
    requires !Owned(s.core, c)
    ensures W.StoreBuild(s, c) == s && W.FinishWorkspace(s, c) == s
    ensures W.StoreDeleteBuild(s, c, remoteId, buildId) == s && W.FinishDeleteWorkspace(s, c) == s
  {
    hide Owned, Id;
  }
}
