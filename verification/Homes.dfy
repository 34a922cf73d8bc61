/** Every workspace has a home: a created or departing assignment of its pair whose remote template is
    known, and an owner who is not being deleted. So settling members never takes a workspace away. */
module Homes {
  import opened Records
  import opened Execution
  import opened Store
  import opened Events
  import opened Fencing
  import opened Frames
  import opened Soundness
  import opened Tables
  import opened Asks
  import opened Interlock
  import Protocol
  import U = UpdateSteps
  import D = TeardownSteps
  import T = TemplateSteps
  import W = WorkspaceSteps
  import IR = InstanceRequests
  import TR = TemplateRequests
  import WR = WorkspaceRequests

  predicate IsHome(life: map<Resource, Life>, as_: map<nat, Assignment>, a: nat, w: Workspace) {
    && a in as_ && Pairs(as_[a], w) && TemplateKnown(as_[a])
    && AssignmentRow(a) in life && (life[AssignmentRow(a)].action == Created || life[AssignmentRow(a)].action == Deleting)
  }

  ghost predicate Housed(life: map<Resource, Life>, as_: map<nat, Assignment>, ws: map<nat, Workspace>) {
    forall w <- ws :: exists a :: IsHome(life, as_, a, ws[w])
  }

  ghost predicate OwnersStay(members: map<nat, Member>, ws: map<nat, Workspace>) {
    forall w <- ws :: ws[w].member in members && members[ws[w].member].action != Deleting
  }

  /** A member whose deletion is queued never counts as settled. */
  ghost predicate DeletionsPend(members: map<nat, Member>) {
    forall m <- members :: members[m].action == Deleting ==> members[m].status != Success
  }

  /** The pair a removal works on is the pair of the assignment its token names. */
  ghost predicate RemovalsMatch(workers: map<Claim, Local>, as_: map<nat, Assignment>, nextId: nat) {
    forall c <- workers :: (workers[c].RemovalRead? || workers[c].RemovalDone?) ==>
      && Id(c) < nextId
      && (Id(c) in as_ ==> RemovalIs(as_[Id(c)], workers[c]))
  }

  ghost predicate Homely(s: State) {
    && Housed(s.core.life, s.assignments, s.workspaces)
    && OwnersStay(s.members, s.workspaces)
    && DeletionsPend(s.members)
    && RemovalsMatch(s.workers, s.assignments, s.core.nextId)
  }

  // ---------- the steps ----------

  /** No created or departing assignment becomes anything else. */
  ghost predicate ActionsStay(life: map<Resource, Life>, life': map<Resource, Life>) {
    forall a: nat ::
      AssignmentRow(a) in life && AssignmentRow(a) in life'
      && (life[AssignmentRow(a)].action == Created || life[AssignmentRow(a)].action == Deleting) ==>
        life'[AssignmentRow(a)].action == Created || life'[AssignmentRow(a)].action == Deleting
  }

  lemma MovesKeepActions(s: State, s': State, c: Claim)
    requires LifeMoves(s, s', c)
    ensures ActionsStay(s.core.life, s'.core.life)
  {
    hide Owned, Gate;
  }

  lemma RowsKeepHomes(s: State, s': State)
    requires Housed(s.core.life, s.assignments, s.workspaces) && SameRows(s, s') && ActionsStay(s.core.life, s'.core.life)
    ensures Housed(s'.core.life, s'.assignments, s'.workspaces)
  {
    hide SameInstances, SameMembers;
    forall w <- s'.workspaces ensures exists a :: IsHome(s'.core.life, s'.assignments, a, s'.workspaces[w]) {
      var a :| IsHome(s.core.life, s.assignments, a, s.workspaces[w]);
      assert IsHome(s'.core.life, s'.assignments, a, s'.workspaces[w]);
    }
  }

  lemma RowsKeepOwners(s: State, s': State)
    requires OwnersStay(s.members, s.workspaces) && DeletionsPend(s.members) && SameRows(s, s')
    ensures OwnersStay(s'.members, s'.workspaces) && DeletionsPend(s'.members)
  {
    hide SameKeys, SameInstances, SameAssignments;
  }

  lemma RemovalReached(s: State, s': State, c: Claim)
    requires LocalMoves(s, s', c) && c in s.workers && c in s'.workers && s'.workers[c] != s.workers[c]
    ensures s'.workers[c].RemovalRead? ==>
              Id(c) in s.assignments && RemovalIs(s.assignments[Id(c)], s'.workers[c])
    ensures s'.workers[c].RemovalDone? ==> s.workers[c] == RemovalRead(s'.workers[c].template, s'.workers[c].instance)
  {
    hide Id, Publishes;
  }

  predicate RemovalIs(a: Assignment, l: Local)
    requires l.RemovalRead? || l.RemovalDone?
  {
    a.template == l.template && a.instance == l.instance
  }

  lemma AssignmentsBelow(s: State)
    requires Keyed(s)
    ensures forall a <- s.assignments :: a < s.core.nextId
  {
    forall a <- s.assignments ensures a < s.core.nextId { assert AssignmentRow(a) in s.core.life; }
  }

  lemma PlainKeepsRemovals(s: State, s': State, c: Claim)
    requires c in s.workers && Keyed(s) && OnlyWorker(s, s', c) && LocalMoves(s, s', c)
    requires RemovalsMatch(s.workers, s.assignments, s.core.nextId)
    requires SameAssignments(s.assignments, s'.assignments) && s.core.nextId <= s'.core.nextId
    ensures RemovalsMatch(s'.workers, s'.assignments, s'.core.nextId)
  {
    AssignmentsBelow(s);
    if s'.workers[c] != s.workers[c] { RemovalReached(s, s', c); }
    hide Keyed, LocalMoves, Id;
  }

  lemma PlainKeepsHomes(s: State, s': State, c: Claim)
    requires Sound(s) && c in s.workers && Keyed(s) && Plain(s, s', c) && Homely(s)
    ensures Homely(s')
  {
    PlainFenced(s, s', c);
    assert s.core.nextId <= s'.core.nextId;
    StepMovesLife(s, s', c);
    PlainSameRows(s, s', c);
    assert SameAssignments(s.assignments, s'.assignments) && OnlyWorker(s, s', c) && LocalMoves(s, s', c);
    hide OnlyWorker, LocalMoves, Fenced, LifeMoves, SameRows, Housed, OwnersStay, DeletionsPend, RemovalsMatch, ActionsStay, Sound, Keyed, Plain;
    MovesKeepActions(s, s', c);
    RowsKeepHomes(s, s');
    RowsKeepOwners(s, s');
    PlainKeepsRemovals(s, s', c);
  }

  lemma RedeliveryKeepsHomes(s: State, s': State)
    requires Homely(s) && Redelivers(s, s')
    ensures Homely(s')
  {
    assert ActionsStay(s.core.life, s'.core.life) && s.core.nextId <= s'.core.nextId;
    forall w <- s'.workspaces ensures exists a :: IsHome(s'.core.life, s'.assignments, a, s'.workspaces[w]) {
      var a :| IsHome(s.core.life, s.assignments, a, s.workspaces[w]);
      assert IsHome(s'.core.life, s'.assignments, a, s'.workspaces[w]);
    }
    hide Protocol.Inv, Protocol.Evolves, Housed, StatusesMove, StepsStay, Begins, OwnersStay, DeletionsPend, Id;
  }

  // ---------- the transactions that delete rows ----------

  lemma CalmKeepsActions(core: Core, core': Core, k: Option<Resource>)
    requires Calm(core, core', k) && (k.Some? && k.value.AssignmentRow? ==> k.value !in core'.life)
    ensures ActionsStay(core.life, core'.life)
  {
    hide Busy;
  }

  /** Where an assignment goes, the workspaces of its pair go with it. */
  ghost predicate PairsGo(s: State, as_: set<nat>, ws: set<nat>) {
    forall a, w | a in as_ && a in s.assignments && w in s.workspaces && Pairs(s.assignments[a], s.workspaces[w]) :: w in ws
  }

  lemma ErasureKeepsHoused(s: State, s': State, is_: set<nat>, as_: set<nat>, ws: set<nat>, ms: set<nat>)
    requires Erases(s, s', is_, as_, ws, ms) && ActionsStay(s.core.life, s'.core.life) && PairsGo(s, as_, ws)
    requires Housed(s.core.life, s.assignments, s.workspaces)
    ensures Housed(s'.core.life, s'.assignments, s'.workspaces)
  {
    forall w <- s'.workspaces ensures exists a :: IsHome(s'.core.life, s'.assignments, a, s'.workspaces[w]) {
      var a :| IsHome(s.core.life, s.assignments, a, s.workspaces[w]);
      hide InstancesWithout, MembersWithout;
      assert IsHome(s'.core.life, s'.assignments, a, s'.workspaces[w]);
    }
  }

  lemma ErasureKeepsOwners(s: State, s': State, is_: set<nat>, as_: set<nat>, ws: set<nat>, ms: set<nat>)
    requires Erases(s, s', is_, as_, ws, ms) && Closed(s, is_, as_, ws, ms) && OwnersStay(s.members, s.workspaces)
    ensures OwnersStay(s'.members, s'.workspaces)
  {
    hide LifeWithout, InstancesWithout;
  }

  lemma ErasureKeepsRemovals(s: State, s': State, as_: set<nat>)
    requires s'.assignments == s.assignments - as_ && s'.workers == s.workers && s.core.nextId <= s'.core.nextId
    requires RemovalsMatch(s.workers, s.assignments, s.core.nextId)
    ensures RemovalsMatch(s'.workers, s'.assignments, s'.core.nextId)
  {
    hide Id;
  }

  lemma ErasureKeepsHomes(s: State, s': State, c: Claim, is_: set<nat>, as_: set<nat>, ws: set<nat>, ms: set<nat>)
    requires Homely(s) && Erases(s, s', is_, as_, ws, ms) && Closed(s, is_, as_, ws, ms) && PairsGo(s, as_, ws)
    requires Fenced(s.core, s'.core, c) && s'.workers == s.workers
    requires c.resource.Some? && c.resource.value.AssignmentRow? ==> c.resource.value !in s'.core.life
    requires DeletionsPend(s'.members)
    ensures Homely(s')
  {
    assert s.core.nextId <= s'.core.nextId && Calm(s.core, s'.core, c.resource);
    hide Fenced, Calm, Closed, PairsGo, Housed, OwnersStay, DeletionsPend, RemovalsMatch, ActionsStay;
    CalmKeepsActions(s.core, s'.core, c.resource);
    ErasureKeepsHoused(s, s', is_, as_, ws, ms);
    ErasureKeepsOwners(s, s', is_, as_, ws, ms);
    hide LifeWithout, InstancesWithout, MembersWithout;
    ErasureKeepsRemovals(s, s', as_);
  }

  /** Settling members orphans no workspace. */
  lemma NoOrphans(s: State, i: nat, claimed: set<nat>)
    requires OwnersStay(s.members, s.workspaces)
    ensures U.Orphans(s, U.Settle(s.members, i, claimed)) == {}
  {}

  lemma SettledDeletionsPend(members: map<nat, Member>, i: nat, claimed: set<nat>)
    requires DeletionsPend(members)
    ensures DeletionsPend(U.Settle(members, i, claimed))
  {}

  lemma FinalizeKeepsHomes(s: State, c: Claim)
    requires Sound(s) && c in s.workers && Linked(s) && Homely(s)
    ensures Homely(U.FinalizeUpdate(s, c))
  {
    var s' := U.FinalizeUpdate(s, c);
    if s' != s {
      FinalizeFenced(s, c);
      FinalizeErases(s, c);
      FinalizeLife(s, c);
      FinalizeMoves(s, c);
      var claimed := s.workers[c].claimed;
      assert OwnersStay(s.members, s.workspaces) && DeletionsPend(s.members);
      SettledDeletionsPend(s.members, Id(c), claimed);
      DepartedClosed(s, Id(c), claimed);
      hide U.FinalizeUpdate, Sound, Linked, Homely, Erases, Closed, Fenced, U.Orphans, U.Settle, Departed, DeletionsPend, OwnersStay, Owned;
      hide DeleteRows, CompleteExecution, RequestJob;
      assert PairsGo(s, {}, U.Orphans(s, U.Settle(s.members, Id(c), claimed)));
      ErasureKeepsHomes(s, s', c, {}, {}, U.Orphans(s, U.Settle(s.members, Id(c), claimed)), Departed(s.members, Id(c), claimed));
    }
  }

  lemma RemoveLocalKeepsHomes(s: State, c: Claim)
    requires Sound(s) && c in s.workers && Linked(s) && Homely(s)
    ensures Homely(D.RemoveLocal(s, c))
  {
    var s', i := D.RemoveLocal(s, c), Id(c);
    if s' != s {
      RemoveLocalFenced(s, c);
      RemoveLocalErases(s, c);
      RemoveLocalMoves(s, c);
      InstanceClosed(s, i);
      assert DeletionsPend(s'.members);
      assert PairsGo(s, D.AssignmentsOf(s, i), D.WorkspacesOf(s, i));
      hide D.RemoveLocal, Sound, Linked, Homely, Erases, Closed, Fenced, DeletionsPend, Owned, PairsGo;
      hide DeleteRows, CompleteAndDelete, D.AssignmentsOf, D.WorkspacesOf, D.MembersOf;
      ErasureKeepsHomes(s, s', c, {i}, D.AssignmentsOf(s, i), D.WorkspacesOf(s, i), D.MembersOf(s, i));
    }
  }

  lemma RemovalPairsGo(s: State, c: Claim)
    requires c in s.workers && s.workers[c].RemovalDone? && RemovalsMatch(s.workers, s.assignments, s.core.nextId)
    ensures PairsGo(s, {Id(c)}, T.PairWorkspaces(s, s.workers[c].instance, s.workers[c].template))
  {
    hide Id;
  }

  lemma OwnGone(s: State, s': State, c: Claim, ws: set<nat>)
    requires LifeWithout(s.core.life, s'.core.life, {}, {Id(c)}, ws)
    ensures AssignmentRow(Id(c)) !in s'.core.life
  {
    hide Id;
  }

  lemma RemoveAssignmentKeepsHomes(s: State, c: Claim)
    requires Sound(s) && c in s.workers && Keyed(s) && Linked(s) && Homely(s)
    ensures Homely(T.RemoveAssignment(s, c))
  {
    var s' := T.RemoveAssignment(s, c);
    if s' != s {
      RemoveAssignmentFenced(s, c);
      RemoveAssignmentErases(s, c);
      RemoveAssignmentMoves(s, c);
      var ws := T.PairWorkspaces(s, s.workers[c].instance, s.workers[c].template);
      WorkspacesClosed(s, {Id(c)}, ws);
      RemovalPairsGo(s, c);
      assert DeletionsPend(s'.members);
      OwnGone(s, s', c, ws);
      hide T.RemoveAssignment, Sound, Keyed, Linked, Homely, Erases, Closed, Fenced, DeletionsPend, Owned, PairsGo;
      hide DeleteRows, CompleteAndDelete, T.PairWorkspaces, Id;
      ErasureKeepsHomes(s, s', c, {}, {Id(c)}, ws, {});
    }
  }

  lemma FinishDeleteWorkspaceKeepsHomes(s: State, c: Claim)
    requires Sound(s) && c in s.workers && Linked(s) && Homely(s)
    ensures Homely(W.FinishDeleteWorkspace(s, c))
  {
    var s' := W.FinishDeleteWorkspace(s, c);
    if s' != s {
      FinishDeleteWorkspaceFenced(s, c);
      FinishDeleteWorkspaceErases(s, c);
      FinishDeleteWorkspaceMoves(s, c);
      WorkspacesClosed(s, {}, {Id(c)});
      assert PairsGo(s, {}, {Id(c)});
      assert DeletionsPend(s'.members);
      hide W.FinishDeleteWorkspace, Sound, Linked, Homely, Erases, Closed, Fenced, DeletionsPend, Owned, PairsGo;
      hide DeleteRows, CompleteAndDelete, Id;
      ErasureKeepsHomes(s, s', c, {}, {}, {Id(c)}, {});
    }
  }

  // ---------- requests ----------

  ghost predicate MembersFit(members: map<nat, Member>, ws: map<nat, Workspace>) {
    OwnersStay(members, ws) && DeletionsPend(members)
  }

  lemma RetriedFit(members: map<nat, Member>, ws: map<nat, Workspace>, i: nat)
    requires MembersFit(members, ws)
    ensures MembersFit(IR.RetryFailedMembers(members, i), ws)
  {}

  lemma AddMemberFits(s: State, i: nat, username: string, role: Role)
    requires Keyed(s) && MembersFit(s.members, s.workspaces)
    ensures MembersFit(IR.CreateMember(s, i, username, role).0.members, s.workspaces)
  {
    assert s.core.nextId !in s.members;
    hide Keyed, IR.MemberRefusal, IR.UsernameTaken, IR.StageUpdate, IR.StagedJob;
  }

  lemma SetRoleFits(s: State, i: nat, m: nat, role: Role)
    requires MembersFit(s.members, s.workspaces)
    ensures MembersFit(IR.UpdateRole(s, i, m, role).0.members, s.workspaces)
  {
    hide IR.MemberRefusal, IR.StageUpdate, IR.StagedJob;
  }

  lemma DropMemberFits(s: State, i: nat, m: nat, protected: set<string>)
    requires MembersFit(s.members, s.workspaces)
    ensures MembersFit(IR.DeleteMember(s, i, m, protected).0.members, s.workspaces)
  {
    hide IR.MemberRefusal, IR.StageUpdate, IR.StagedJob;
  }

  lemma InstanceRequestFits(s: State, r: InstanceRequest)
    requires Keyed(s) && MembersFit(s.members, s.workspaces)
    ensures MembersFit(AnswerInstance(s, r).0.members, s.workspaces)
  {
    hide Keyed, MembersFit, IR.HasActiveAssignment, IR.RetryFailedMembers, RequestJob;
    hide IR.CreateMember, IR.UpdateRole, IR.DeleteMember;
    match r
    case SyncInstance(i) => RetriedFit(s.members, s.workspaces, i);
    case AddMember(i, username, role) => AddMemberFits(s, i, username, role);
    case SetRole(i, m, role) => SetRoleFits(s, i, m, role);
    case DropMember(i, m, protected) => DropMemberFits(s, i, m, protected);
    case _ =>
  }

  lemma InstanceRequestKeepsHomes(s: State, r: InstanceRequest)
    requires Sound(s) && Keyed(s) && Homely(s)
    ensures Homely(AnswerInstance(s, r).0)
  {
    assert s.core.nextId !in s.instances;
    assert MembersFit(s.members, s.workspaces);
    InstanceRequestAsks(s, r);
    InstanceRequestFits(s, r);
    var s' := AnswerInstance(s, r).0;
    assert s.core.nextId <= s'.core.nextId;
    hide AnswerInstance, Protocol.Inv, Protocol.Evolves, Keyed, DeletionsPend, OwnersStay;
    AskedKeepsHoused(s, s', Some(InstanceRow(InstanceOf(s, r))));
    hide Asked, Housed;
    ErasureKeepsRemovals(s, s', {}) by { assert s.assignments - {} == s.assignments; }
  }

  lemma AskedKeepsHoused(s: State, s': State, k: Option<Resource>)
    requires Asked(s.core, s'.core, k) && s'.assignments == s.assignments && s'.workspaces == s.workspaces
    requires k.Some? && k.value.AssignmentRow? ==> k.value in s'.core.life && s'.core.life[k.value].action == Deleting
    requires Housed(s.core.life, s.assignments, s.workspaces)
    ensures Housed(s'.core.life, s'.assignments, s'.workspaces)
  {
    forall w <- s'.workspaces ensures exists a :: IsHome(s'.core.life, s'.assignments, a, s'.workspaces[w]) {
      var a :| IsHome(s.core.life, s.assignments, a, s.workspaces[w]);
      hide Protocol.Inv, Protocol.Evolves;
      assert IsHome(s'.core.life, s'.assignments, a, s'.workspaces[w]);
    }
  }

  lemma DropAssignmentDeletes(s: State, i: nat, t: nat)
    ensures var s' := TR.DeleteAssignment(s, i, t).0;
            s' == s || (AssignmentTarget(s, i, t) in s'.core.life && s'.core.life[AssignmentTarget(s, i, t)].action == Deleting)
  {
    hide TR.FindAssignment, TR.ConsistentJob, TR.MutationRefusal, TR.BusyPair;
  }

  lemma InsertedKeepsHoused(s: State, s': State, n: nat)
    requires Asked(s.core, s'.core, Some(AssignmentRow(n))) && n !in s.assignments && n in s'.assignments
    requires s'.assignments == s.assignments[n := s'.assignments[n]] && s'.workspaces == s.workspaces
    requires Housed(s.core.life, s.assignments, s.workspaces)
    ensures Housed(s'.core.life, s'.assignments, s'.workspaces)
  {
    forall w <- s'.workspaces ensures exists a :: IsHome(s'.core.life, s'.assignments, a, s'.workspaces[w]) {
      var a :| IsHome(s.core.life, s.assignments, a, s.workspaces[w]);
      hide Protocol.Inv, Protocol.Evolves;
      assert IsHome(s'.core.life, s'.assignments, a, s'.workspaces[w]);
    }
  }

  lemma InsertedKeepsRemovals(s: State, s': State, n: nat)
    requires n >= s.core.nextId && n in s'.assignments && s'.assignments == s.assignments[n := s'.assignments[n]]
    requires s'.workers == s.workers && s.core.nextId <= s'.core.nextId
    requires RemovalsMatch(s.workers, s.assignments, s.core.nextId)
    ensures RemovalsMatch(s'.workers, s'.assignments, s'.core.nextId)
  {
    hide Id;
  }

  lemma PutAssignmentKeepsHomes(s: State, i: nat, t: nat)
    requires Sound(s) && Keyed(s) && Homely(s)
    ensures Homely(TR.PutAssignment(s, i, t).0)
  {
    var s', n := TR.PutAssignment(s, i, t).0, s.core.nextId;
    if s' != s {
      PutAssignmentWaits(s, i, t);
      PutAssignmentAsks(s, i, t);
      AssignmentsBelow(s);
      assert s.core.nextId <= s'.core.nextId;
      hide TR.PutAssignment, TR.FindAssignment, Protocol.Inv, Asked, Keyed, Housed, RemovalsMatch, OwnersStay, DeletionsPend;
      InsertedKeepsHoused(s, s', n);
      InsertedKeepsRemovals(s, s', n);
    }
  }

  /** A request that leaves assignments, workspaces, members and workers alone, and of the rows of
      assignments at most one, to be deleted. */
  lemma AskedKeepsHomes(s: State, s': State, k: Option<Resource>)
    requires Homely(s) && Asked(s.core, s'.core, k) && s'.assignments == s.assignments && s'.workspaces == s.workspaces
    requires s'.members == s.members && s'.workers == s.workers
    requires k.Some? && k.value.AssignmentRow? ==> k.value in s'.core.life && s'.core.life[k.value].action == Deleting
    ensures Homely(s')
  {
    AskedKeepsHoused(s, s', k);
    assert s.core.nextId <= s'.core.nextId;
    assert s.assignments - {} == s.assignments;
    hide Asked, Housed, Id, RemovalsMatch, DeletionsPend, OwnersStay;
    ErasureKeepsRemovals(s, s', {});
  }

  lemma TemplateRequestKeepsHomes(s: State, r: TemplateRequest)
    requires Sound(s) && Keyed(s) && Homely(s)
    ensures Homely(AnswerTemplate(s, r).0)
  {
    if r.PutAssignment? {
      PutAssignmentKeepsHomes(s, r.i, r.t);
    } else {
      hide TR.DeleteAssignment, TR.CreateTemplate, TR.UpdateTemplate, TR.DeleteTemplate, TR.RequestSync, TR.CreateParameter, TR.UpdateParameter;
      hide TR.DeleteParameter, TR.PutAssignment, Protocol.Inv, Keyed, Homely, TR.FindAssignment, Asked, AssignmentTarget;
      FreshTemplateRow(s);
      TemplateRequestAsks(s, r);
      if r.DropAssignment? { DropAssignmentDeletes(s, r.i, r.t); DropAssignmentWaits(s, r.i, r.t); } else { hide AnswerTemplate; }
      var s' := AnswerTemplate(s, r).0;
      if s' != s { AskedKeepsHomes(s, s', TemplateTarget(s, r)); }
    }
  }

  lemma FreshTemplateRow(s: State)
    requires Keyed(s)
    ensures TemplateRow(s.core.nextId) !in s.core.life
  {}

  /** The assignment that made a workspace request acceptable is a home. */
  lemma DeployedIsHome(s: State, w: Workspace)
    requires WR.Deployed(s, w.template, w.instance)
    ensures exists a :: IsHome(s.core.life, s.assignments, a, w)
  {
    var a :| a in s.assignments && WR.IsDeployed(s, a, w.template, w.instance);
    assert IsHome(s.core.life, s.assignments, a, w);
  }

  /** At most one workspace row is written; it is as housed and as owned as the old one, or newly so. */
  lemma WorkspaceWriteKeepsHomes(s: State, s': State, w: nat)
    requires WorkspaceAsk(s, s', Some(WorkspaceRow(w))) && Homely(s)
    requires w in s'.workspaces && s'.workspaces == s.workspaces[w := s'.workspaces[w]]
    requires WR.Deployed(s, s'.workspaces[w].template, s'.workspaces[w].instance)
    requires s'.workspaces[w].member in s.members && s.members[s'.workspaces[w].member].action != Deleting
    ensures Homely(s')
  {
    assert s.core.nextId <= s'.core.nextId;
    hide Protocol.Inv, Protocol.Evolves, WR.Deployed, DeletionsPend;
    forall v <- s'.workspaces ensures exists a :: IsHome(s'.core.life, s'.assignments, a, s'.workspaces[v]) {
      if v == w { DeployedIsHome(s, s'.workspaces[w]); }
      var a :| IsHome(s.core.life, s.assignments, a, s'.workspaces[v]);
      assert IsHome(s'.core.life, s'.assignments, a, s'.workspaces[v]);
    }
    hide Asked, Housed, Id;
  }

  lemma AddWorkspaceKeepsHomes(s: State, i: nat, t: nat, m: nat, name: string, supplied: map<string, string>, valid: bool)
    requires Sound(s) && Homely(s)
    ensures Homely(WR.CreateWorkspace(s, i, t, m, name, supplied, valid).0)
  {
    AddWorkspaceAsks(s, i, t, m, name, supplied, valid);
    AddWorkspaceWaits(s, i, t, m, name, supplied, valid);
    assert DeletionsPend(s.members);
    hide Sound, Homely, WR.CreateWorkspace, WR.Deployed, WorkspaceAsk;
    var s' := WR.CreateWorkspace(s, i, t, m, name, supplied, valid).0;
    if s' != s { WorkspaceWriteKeepsHomes(s, s', s.core.nextId); }
  }

  lemma SetWorkspaceKeepsHomes(s: State, w: nat, name: string, supplied: map<string, string>, changed: bool, valid: bool)
    requires Sound(s) && Homely(s)
    ensures Homely(WR.UpdateWorkspace(s, w, name, supplied, changed, valid).0)
  {
    SetWorkspaceAsks(s, w, name, supplied, changed, valid);
    SetWorkspaceWaits(s, w, name, supplied, changed, valid);
    assert OwnersStay(s.members, s.workspaces);
    hide Sound, Homely, WR.UpdateWorkspace, WR.Deployed, WorkspaceAsk;
    var s' := WR.UpdateWorkspace(s, w, name, supplied, changed, valid).0;
    if s' != s { WorkspaceWriteKeepsHomes(s, s', w); }
  }

  lemma DropWorkspaceKeepsHomes(s: State, w: nat)
    requires Sound(s) && Homely(s)
    ensures Homely(WR.DeleteWorkspace(s, w).0)
  {
    DropWorkspaceAsks(s, w);
    DropWorkspaceWaits(s, w);
    assert OwnersStay(s.members, s.workspaces);
    hide Sound, Homely, WR.DeleteWorkspace, WR.Deployed, WorkspaceAsk;
    var s' := WR.DeleteWorkspace(s, w).0;
    if s' != s {
      assert s'.workspaces == s.workspaces[w := s'.workspaces[w]];
      WorkspaceWriteKeepsHomes(s, s', w);
    }
  }

  lemma DatabaseRequestKeepsHomes(s: State, r: WorkspaceRequest)
    requires Sound(s) && Homely(s)
    requires r.AddDatabase? || r.SetDatabase? || r.DropDatabase? || r.SyncDatabases?
    ensures Homely(AnswerWorkspace(s, r).0)
  {
    WorkspaceRequestAsks(s, r);
    var s' := AnswerWorkspace(s, r).0;
    assert s.core.nextId <= s'.core.nextId && WorkspaceTarget(s, r).None?;
    hide AnswerWorkspace, Protocol.Inv, Protocol.Evolves, DeletionsPend, OwnersStay;
    AskedKeepsHoused(s, s', None);
    hide Asked, Housed;
    ErasureKeepsRemovals(s, s', {}) by { assert s.assignments - {} == s.assignments; }
  }

  lemma WorkspaceRequestKeepsHomes(s: State, r: WorkspaceRequest)
    requires Sound(s) && Homely(s)
    ensures Homely(AnswerWorkspace(s, r).0)
  {
    hide Sound, Homely, WR.CreateWorkspace, WR.UpdateWorkspace, WR.DeleteWorkspace;
    match r
    case AddWorkspace(i, t, m, name, supplied, valid) => AddWorkspaceKeepsHomes(s, i, t, m, name, supplied, valid);
    case SetWorkspace(w, name, supplied, changed, valid) => SetWorkspaceKeepsHomes(s, w, name, supplied, changed, valid);
    case DropWorkspace(w) => DropWorkspaceKeepsHomes(s, w);
    case _ => DatabaseRequestKeepsHomes(s, r);
  }

  // ---------- what the invariant gives ----------

  lemma HomesArePairs(s: State)
    requires Homely(s)
    ensures EveryWorkspaceHasAPair(s)
  {
    forall w <- s.workspaces ensures exists a <- s.assignments :: Pairs(s.assignments[a], s.workspaces[w]) {
      var a :| IsHome(s.core.life, s.assignments, a, s.workspaces[w]);
      assert a in s.assignments && Pairs(s.assignments[a], s.workspaces[w]);
    }
  }

  /** The end of an update deletes members but, whoever holds the token, no workspace. */
  lemma FinalizeKeepsWorkspaces(s: State, c: Claim)
    requires Homely(s)
    ensures U.FinalizeUpdate(s, c).workspaces == s.workspaces
  {
    if c in s.workers && s.workers[c].CleanupDone? {
      NoOrphans(s, Id(c), s.workers[c].claimed);
      hide U.Settle, U.Orphans, Homely, Owned, DeleteRows, CompleteExecution, RequestJob, Id;
      assert s.workspaces - {} == s.workspaces;
    }
  }

  /** The catalogue never has to refuse a template's deletion because of workspaces alone, so the
      deletion never reaches one. */
  lemma DropTemplateMeetsNoWorkspace(s: State, t: nat)
    requires Homely(s)
    ensures TR.DeleteTemplate(s, t).1 != Refused(Referenced)
    ensures TR.DeleteTemplate(s, t).1.Accepted? ==> forall w <- s.workspaces :: s.workspaces[w].template != t
  {
    HomesArePairs(s);
    hide Homely, DiscardJob, DeleteRows;
  }
}
