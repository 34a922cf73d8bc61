/** The transactions of the workspace steps and of the assignment removal as the workers run them. */
module WorkspaceTasks {
  import opened Records
  import opened Execution
  import opened Store
  import opened WorkerSteps
  import opened Session
  import WS = WorkspaceSteps
  import TS = TemplateSteps

  /** `store_remote_ids`. */
  method StoreRemoteIds(db: Session, c: Claim, remoteId: nat, buildId: nat) returns (ok: bool)
    requires c in db.workers && (c.step == CreateWorkspace || c.step == UpdateWorkspace) && Id(c) in db.workspaces
    requires db.workers[c].BuildChosen? && db.workers[c].remoteId == remoteId && db.workers[c].buildId == buildId
    modifies db`workspaces, db`workers
    ensures db.View() == WS.StoreBuild(old(db.View()), c)
    ensures ok == Owned(db.rows.Tables(), c)
  {
    ok := db.rows.OwnedExecution(c);
    if !ok { return; }
    var row := db.workspaces[Id(c)].(remoteId := Some(remoteId));
    db.workspaces := db.workspaces[Id(c) := row.(buildId := Some(buildId))];
    ghost var l := db.workers[c];
    db.workers := db.workers[c := BuildStored(l.names, l.carried, l.starts, l.remoteId, l.buildId)];
  }

  /** `complete_workspace`: `build` is the build that was awaited, if one was needed. */
  method CompleteWorkspace(db: Session, c: Claim, remoteId: nat, build: Option<nat>) returns (ok: bool)
    requires c in db.workers && (c.step == CreateWorkspace || c.step == UpdateWorkspace) && Id(c) in db.workspaces
    requires match db.workers[c]
             case BuildRunning(_, _, r, b) => r == remoteId && build == Some(b)
             case BuildSkipped(r) => r == remoteId && build == None
             case _ => false
    modifies db`workspaces, db.rows
    ensures db.View() == WS.FinishWorkspace(old(db.View()), c)
    ensures ok == Owned(old(db.rows.Tables()), c)
  {
    ok := db.rows.CompleteExecution(c, None, false);
    if !ok { return; }
    var row := db.workspaces[Id(c)].(remoteId := Some(remoteId));
    if build.Some? {
      row := row.(buildId := build);
      row := row.(applied := Some(row.revision));
    }
    db.workspaces := db.workspaces[Id(c) := row];
  }

  /** The completion of a workspace deletion. */
  method FinishDelete(db: Session, c: Claim) returns (ok: bool)
    requires c in db.workers && c.step == DeleteWorkspace && db.workers[c] == RemoteGone
    modifies db`workspaces, db.rows
    ensures db.View() == WS.FinishDeleteWorkspace(old(db.View()), c)
    ensures ok == Owned(old(db.rows.Tables()), c)
  {
    ok := db.rows.CompleteExecution(c, None, true);
    if ok { db.workspaces := db.workspaces - {Id(c)}; }
  }

  /** `_remove_local_assignment`. */
  method RemoveLocalAssignment(db: Session, c: Claim, t: nat, i: nat) returns (ok: bool)
    requires c in db.workers && c.step == DeleteTemplate && db.workers[c] == RemovalDone(t, i)
    modifies db`workspaces, db`assignments, db.rows
    ensures db.View() == TS.RemoveAssignment(old(db.View()), c)
    ensures ok == Owned(old(db.rows.Tables()), c)
  {
    hide Owned, CompleteAndDelete, DeleteRows, WorkspaceRows;
    ok := db.rows.OwnedExecution(c);
    if !ok { return; }
    var workspaces := set w | w in db.workspaces && db.workspaces[w].instance == i && db.workspaces[w].template == t;
    assert workspaces == TS.PairWorkspaces(old(db.View()), i, t);
    db.workspaces := db.workspaces - workspaces;
    ok := db.rows.CompleteExecution(c, None, true);
    db.rows.Remove(WorkspaceRows(workspaces));
    db.assignments := db.assignments - {Id(c)};
  }
}
