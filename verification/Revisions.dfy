/** Workspace revisions: the applied revision never runs ahead, and whenever a completion sets it, the
    build observed running carried the parameters stored at that revision, restricted to the names
    defined when the attempt read them. */
module Revisions {
  import opened Records
  import opened Execution
  import opened Store
  import opened Events
  import opened Fencing
  import opened Frames
  import opened Soundness
  import opened Tables
  import opened Asks
  import opened Campaigns
  import Protocol
  import Runs
  import Parameters
  import W = WorkspaceSteps
  import WR = WorkspaceRequests

  ghost predicate AppliedBelow(ws: map<nat, Workspace>) {
    forall w <- ws :: ws[w].applied.Some? ==> ws[w].applied.value <= ws[w].revision
  }

  /** What a worker holds agrees with the row of its workspace. */
  predicate BuildFits(row: Workspace, l: Local) {
    match l
    case WorkspaceRead(values, names, desired, applied) => ReadOf(row, values, names, desired, applied)
    case BuildChosen(names, carried, starts, _, _) => starts ==> carried == W.Restrict(row.parameters, names)
    case BuildStored(names, carried, starts, _, _) => starts ==> carried == W.Restrict(row.parameters, names)
    case BuildRunning(names, carried, _, _) => carried == W.Restrict(row.parameters, names)
    case BuildSkipped(_) => row.applied == Some(row.revision)
    case _ => true
  }

  ghost predicate BuildsFit(s: State) {
    forall c <- s.workers | Owned(s.core, c) && Id(c) in s.workspaces && W.IsWorkspaceStep(c.step) ::
      BuildFits(s.workspaces[Id(c)], s.workers[c])
  }

  // ---------- the steps ----------

  lemma PlainKeepsApplied(s: State, s': State, c: Claim)
    requires WorkspacesTouched(s, s', c) && AppliedBelow(s.workspaces)
    ensures AppliedBelow(s'.workspaces)
  {
    hide Owned, Id, CompleteExecution;
  }

  lemma CompletedIsLost(core: Core, c: Claim)
    requires Owned(core, c)
    ensures !Owned(CompleteExecution(core, c, None), c)
  {}

  lemma OwnBuildFits(s: State, s': State, c: Claim)
    requires c in s.workers && c in s'.workers && LocalMoves(s, s', c) && WorkspacesTouched(s, s', c)
    requires Owned(s.core, c) && Owned(s'.core, c) && W.IsWorkspaceStep(c.step)
    requires Id(c) in s.workspaces && Id(c) in s'.workspaces && BuildFits(s.workspaces[Id(c)], s.workers[c])
    ensures BuildFits(s'.workspaces[Id(c)], s'.workers[c])
  {
    CompletedIsLost(s.core, c);
    var row, row' := s.workspaces[Id(c)], s'.workspaces[Id(c)];
    assert row'.applied == row.applied && row'.parameters == row.parameters && row'.revision == row.revision;
    hide Owned, CompleteExecution, WorkspacesTouched, W.Restrict, Id;
  }

  lemma OtherWorkspaceStays(s: State, s': State, c: Claim, d: Claim)
    requires Sound(s) && c in s.workers && d in s.workers && c != d && Owned(s.core, c) && W.IsWorkspaceStep(c.step)
    requires WorkspacesTouched(s, s', d) && Id(c) in s.workspaces
    ensures Id(c) in s'.workspaces && s'.workspaces[Id(c)] == s.workspaces[Id(c)]
  {
    OwnedIsBusy(s.core, c);
    if Owned(s.core, d) {
      OwnedIsBusy(s.core, d);
      if c.resource == d.resource { OneOwner(s.core, c, d); }
    }
    hide Sound, Owned, Id, CompleteExecution, WorkspaceKept, Busy;
  }

  lemma PlainKeepsBuilds(s: State, s': State, d: Claim)
    requires Sound(s) && d in s.workers && Plain(s, s', d) && BuildsFit(s)
    ensures BuildsFit(s')
  {
    PlainFenced(s, s', d);
    PlainSameRows(s, s', d);
    assert OnlyWorker(s, s', d) && LocalMoves(s, s', d) && WorkspacesTouched(s, s', d) && Protocol.Evolves(s.core, s'.core);
    forall c | c in s'.workers && Owned(s'.core, c) && Id(c) in s'.workspaces && W.IsWorkspaceStep(c.step)
      ensures BuildFits(s'.workspaces[Id(c)], s'.workers[c])
    {
      assert c in s.workers && Id(c) in s.workspaces;
      Runs.OwnershipIsNotRegained(s.core, s'.core, c);
      assert BuildFits(s.workspaces[Id(c)], s.workers[c]);
      hide Sound, Owned, Plain, LocalMoves, WorkspacesTouched, Fenced, Protocol.Evolves, Id, BuildFits, BuildsFit, SameRows;
      if c == d { OwnBuildFits(s, s', c); } else { OtherWorkspaceStays(s, s', c, d); }
    }
  }

  /** Whoever keeps its attempt keeps its row. */
  lemma StillFits(s: State, s': State)
    requires Sound(s) && Sound(s') && Protocol.Evolves(s.core, s'.core) && BuildsFit(s)
    requires forall c <- s'.workers :: if c in s.workers then s'.workers[c] == s.workers[c] else s'.workers[c].Started?
    requires forall c <- s.workers | Owned(s.core, c) && W.IsWorkspaceStep(c.step) && Id(c) in s'.workspaces ::
               Id(c) in s.workspaces && s'.workspaces[Id(c)] == s.workspaces[Id(c)]
    ensures BuildsFit(s')
  {
    forall c | c in s'.workers && Owned(s'.core, c) && Id(c) in s'.workspaces && W.IsWorkspaceStep(c.step)
      ensures BuildFits(s'.workspaces[Id(c)], s'.workers[c])
    {
      if c in s.workers {
        Runs.OwnershipIsNotRegained(s.core, s'.core, c);
        assert Id(c) in s.workspaces && s'.workspaces[Id(c)] == s.workspaces[Id(c)];
        assert BuildFits(s.workspaces[Id(c)], s.workers[c]);
      }
      hide Sound, Owned, Protocol.Evolves, Id;
    }
  }

  /** A workspace is rewritten only while no attempt on it is current. */
  lemma SetWorkspaceIsIdle(s: State, w: nat, name: string, supplied: map<string, string>, changed: bool, valid: bool)
    ensures var s' := WR.UpdateWorkspace(s, w, name, supplied, changed, valid).0;
            s' == s || (&& w in s.workspaces && WorkspaceRow(w) in s.core.life && s.core.life[WorkspaceRow(w)].status != Running
                        && w in s'.workspaces && s'.workspaces == s.workspaces[w := s'.workspaces[w]]
                        && s'.workspaces[w].applied == s.workspaces[w].applied
                        && (if s'.workspaces[w].parameters == s.workspaces[w].parameters
                            then s'.workspaces[w].revision == s.workspaces[w].revision
                            else s'.workspaces[w].revision == s.workspaces[w].revision + 1))
  {
    hide WR.InstanceRefusal, WR.Deployed, WR.Definitions, Parameters.Resolve;
  }

  lemma AddWorkspaceIsNew(s: State, i: nat, t: nat, m: nat, name: string, supplied: map<string, string>, valid: bool)
    ensures var s', w := WR.CreateWorkspace(s, i, t, m, name, supplied, valid).0, s.core.nextId;
            s' == s || (w in s'.workspaces && s'.workspaces == s.workspaces[w := s'.workspaces[w]] && s'.workspaces[w].applied.None?)
  {
    hide WR.InstanceRefusal, WR.Deployed, WR.Definitions, Parameters.Resolve;
  }

  lemma DropWorkspaceKeepsRow(s: State, w: nat)
    ensures WR.DeleteWorkspace(s, w).0.workspaces == s.workspaces
  {
    hide WR.InstanceRefusal, WR.Deployed;
  }

  /** How a request rewrites workspaces. */
  ghost predicate Rewrites(s: State, s': State) {
    forall w <- s'.workspaces ::
      if w !in s.workspaces then w >= s.core.nextId && s'.workspaces[w].applied.None?
      else
        || s'.workspaces[w] == s.workspaces[w]
        || (&& WorkspaceRow(w) in s.core.life && s.core.life[WorkspaceRow(w)].status != Running
            && s'.workspaces[w].applied == s.workspaces[w].applied
            && (if s'.workspaces[w].parameters == s.workspaces[w].parameters
                then s'.workspaces[w].revision == s.workspaces[w].revision
                else s'.workspaces[w].revision == s.workspaces[w].revision + 1))
  }

  lemma SameRewrites(s: State, s': State)
    requires s'.workspaces == s.workspaces
    ensures Rewrites(s, s')
  {}

  lemma AddWorkspaceRewrites(s: State, i: nat, t: nat, m: nat, name: string, supplied: map<string, string>, valid: bool)
    requires s.core.nextId !in s.workspaces
    ensures Rewrites(s, WR.CreateWorkspace(s, i, t, m, name, supplied, valid).0)
  {
    hide WR.CreateWorkspace;
    AddWorkspaceIsNew(s, i, t, m, name, supplied, valid);
  }

  lemma SetWorkspaceRewrites(s: State, w: nat, name: string, supplied: map<string, string>, changed: bool, valid: bool)
    ensures Rewrites(s, WR.UpdateWorkspace(s, w, name, supplied, changed, valid).0)
  {
    hide WR.UpdateWorkspace;
    SetWorkspaceIsIdle(s, w, name, supplied, changed, valid);
  }

  lemma DatabaseRequestRewrites(s: State, r: WorkspaceRequest)
    requires Protocol.Inv(s.core) && !r.AddWorkspace? && !r.SetWorkspace? && !r.DropWorkspace?
    ensures Rewrites(s, AnswerWorkspace(s, r).0)
  {
    hide AnswerWorkspace, Protocol.Inv, Asked;
    WorkspaceRequestAsks(s, r);
    SameRewrites(s, AnswerWorkspace(s, r).0);
  }

  lemma WorkspaceRequestRewrites(s: State, r: WorkspaceRequest)
    requires Sound(s) && Keyed(s)
    ensures Rewrites(s, AnswerWorkspace(s, r).0)
  {
    assert s.core.nextId !in s.workspaces;
    hide Keyed, Rewrites, WR.CreateWorkspace, WR.UpdateWorkspace, WR.DeleteWorkspace;
    match r
    case AddWorkspace(i, t, m, name, supplied, valid) => AddWorkspaceRewrites(s, i, t, m, name, supplied, valid);
    case SetWorkspace(w, name, supplied, changed, valid) => SetWorkspaceRewrites(s, w, name, supplied, changed, valid);
    case DropWorkspace(w) => DropWorkspaceKeepsRow(s, w); SameRewrites(s, AnswerWorkspace(s, r).0);
    case _ => hide Protocol.Inv; DatabaseRequestRewrites(s, r);
  }

  lemma RewritesKeepApplied(s: State, s': State)
    requires Rewrites(s, s') && AppliedBelow(s.workspaces)
    ensures AppliedBelow(s'.workspaces)
  {}

  lemma OwnedWorkspaceRow(s: State, c: Claim)
    requires Sound(s) && Keyed(s) && c in s.workers && Owned(s.core, c) && W.IsWorkspaceStep(c.step)
    ensures Id(c) in s.workspaces && WorkspaceRow(Id(c)) in s.core.life && s.core.life[WorkspaceRow(Id(c))].status == Running
  {
    OwnedResource(s.core, c);
    hide Protocol.Inv, Owned, Id;
  }

  lemma WorkspaceRequestKeepsBuilds(s: State, r: WorkspaceRequest)
    requires Sound(s) && Keyed(s) && BuildsFit(s)
    ensures BuildsFit(AnswerWorkspace(s, r).0)
  {
    var s' := AnswerWorkspace(s, r).0;
    WorkspaceRequestAsks(s, r);
    WorkspaceRequestRewrites(s, r);
    assert Sound(s') && Protocol.Evolves(s.core, s'.core);
    hide AnswerWorkspace, Asked, Sound, Keyed, BuildsFit, Protocol.Evolves, Owned, Id;
    forall c | c in s.workers && Owned(s.core, c) && W.IsWorkspaceStep(c.step) && Id(c) in s'.workspaces
      ensures Id(c) in s.workspaces && s'.workspaces[Id(c)] == s.workspaces[Id(c)]
    {
      OwnedWorkspaceRow(s, c);
    }
    StillFits(s, s');
  }

  // ---------- what the invariant gives ----------

  /** A completed creation or update has applied the workspace's current revision; when this attempt
      applied it, the build it saw running carried exactly the parameters stored at that revision,
      restricted to the names it had read. */
  lemma CompletionApplies(s: State, c: Claim)
    requires BuildsFit(s) && c in s.workers && W.FinishWorkspace(s, c) != s
    ensures var s', w := W.FinishWorkspace(s, c), Id(c);
            && w in s.workspaces && w in s'.workspaces
            && s'.workspaces[w].applied == Some(s'.workspaces[w].revision)
            && s'.workspaces[w].revision == s.workspaces[w].revision
            && s'.workspaces[w].parameters == s.workspaces[w].parameters
            && (s'.workspaces[w].applied != s.workspaces[w].applied ==>
                  s.workers[c].BuildRunning?
                  && s.workers[c].carried == W.Restrict(s'.workspaces[w].parameters, s.workers[c].names))
  {
    assert Owned(s.core, c) && Id(c) in s.workspaces && W.IsWorkspaceStep(c.step);
    assert BuildFits(s.workspaces[Id(c)], s.workers[c]);
    hide Owned, CompleteExecution, W.Restrict, Id;
  }

  /** The revision tells the parameters apart: it only grows, and it grows whenever they change. */
  lemma RevisionTellsParameters(s: State, s': State, w: nat)
    requires Rewrites(s, s') && w in s.workspaces && w in s'.workspaces
    ensures s.workspaces[w].revision <= s'.workspaces[w].revision
    ensures s'.workspaces[w].revision == s.workspaces[w].revision <==> s'.workspaces[w].parameters == s.workspaces[w].parameters
  {}
}
