/** Every invariant of the system, over every run of requests, deliveries, reclaims, remote answers and
    workers that act arbitrarily late. */
module System {
  import opened Records
  import opened Execution
  import opened Store
  import opened Events
  import opened Fencing
  import opened Frames
  import opened Soundness
  import opened Tables
  import opened RequestTables
  import opened Asks
  import opened Interlock
  import opened Homes
  import opened Readiness
  import opened DeletionOrder
  import opened Bootstrap
  import opened Campaigns
  import opened Revisions
  import opened Coverage
  import opened Pools
  import Protocol
  import Runs
  import U = UpdateSteps
  import D = TeardownSteps
  import T = TemplateSteps
  import W = WorkspaceSteps
  import TR = TemplateRequests

  ghost predicate WaitOk(s: State) {
    Interlocked(s.core.life, s.assignments, s.workspaces)
  }

  ghost predicate ReadyOk(s: State) {
    Prepared(s.core.life, s.instances) && AssignedReady(s.assignments, s.instances)
  }

  ghost predicate DeletionsOk(s: State) {
    Ordered(s) && Abandoned(s)
  }

  ghost predicate PublishOk(s: State) {
    && Campaigning(s) && BusyLive(s.core.life, s.assignments)
    && SuccessKnown(s.assignments) && CreatedKnown(s.core.life, s.assignments)
  }

  ghost predicate BuildsOk(s: State) {
    AppliedBelow(s.workspaces) && BuildsFit(s)
  }

  ghost predicate PoolOk(s: State) {
    Pooled(s.databases, s.allocations)
  }

  /** Everything that holds in every reachable state. */
  ghost predicate Good(s: State) {
    && Sound(s) && LocalsFit(s.workers) && Keyed(s) && Linked(s)
    && WaitOk(s) && Homely(s) && ReadyOk(s) && DeletionsOk(s) && OnePassword(s) && PublishOk(s) && BuildsOk(s) && PoolOk(s)
  }

  // ---------- workers ----------

  lemma PlainLocalsFit(s: State, s': State, c: Claim)
    requires c in s.workers && OnlyWorker(s, s', c) && LocalMoves(s, s', c) && LocalsFit(s.workers)
    ensures LocalsFit(s'.workers)
  {
    hide Reaches;
  }

  lemma FitSteps(workers: map<Claim, Local>)
    requires LocalsFit(workers)
    ensures CampaignSteps(workers)
  {
    forall c | c in workers && IsCampaign(workers[c]) ensures c.step == Step.SyncTemplate || c.step == Step.CreateTemplate {
      assert Fits(c.step, workers[c]);
    }
  }

  lemma PlainWaits(s: State, s': State, c: Claim)
    requires Sound(s) && c in s.workers && Plain(s, s', c) && WaitOk(s)
    ensures WaitOk(s')
  {
    hide Sound, Plain, Interlocked, Fenced, SameRows;
    PlainFenced(s, s', c);
    PlainSameRows(s, s', c);
    Interlock.PlainKeeps(s, s', c);
  }

  lemma PlainReadies(s: State, s': State, c: Claim)
    requires Sound(s) && c in s.workers && Plain(s, s', c) && ReadyOk(s)
    ensures ReadyOk(s')
  {
    PlainSameRows(s, s', c);
    assert InstancesTouched(s, s', c) && SameAssignments(s.assignments, s'.assignments);
    hide Sound, Plain, Prepared, AssignedReady, InstancesTouched, SameAssignments;
    PlainKeepsPrepared(s, s', c);
    PlainKeepsAssigned(s, s', c);
  }

  lemma PlainPublishes(s: State, s': State, c: Claim)
    requires Sound(s) && Keyed(s) && Linked(s) && LocalsFit(s.workers) && WaitOk(s)
    requires c in s.workers && Plain(s, s', c) && PublishOk(s)
    ensures PublishOk(s')
  {
    assert AssignmentsTouched(s, s', c);
    assert AssignmentsWait(s.core.life, s.assignments);
    PlainFenced(s, s', c);
    hide Sound, Keyed, Linked, LocalsFit, Plain, Campaigning, BusyLive, SuccessKnown, CreatedKnown, CampaignSteps, AssignmentsTouched, Fenced;
    hide AssignmentsWait, Interlocked, Lives;
    FitSteps(s.workers);
    MovesLive(s, s', c);
    PlainKeepsCampaigns(s, s', c);
    PlainKeepsBusyLive(s, s', c);
    PlainKeepsSuccess(s, s', c);
    PlainKeepsCreated(s, s', c);
  }

  lemma PlainBuilds(s: State, s': State, c: Claim)
    requires Sound(s) && c in s.workers && Plain(s, s', c) && BuildsOk(s)
    ensures BuildsOk(s')
  {
    assert WorkspacesTouched(s, s', c);
    hide Sound, Plain, AppliedBelow, BuildsFit, WorkspacesTouched;
    PlainKeepsApplied(s, s', c);
    PlainKeepsBuilds(s, s', c);
  }

  lemma PlainKeepsGood(s: State, s': State, c: Claim)
    requires Good(s) && c in s.workers && Plain(s, s', c)
    ensures Good(s')
  {
    assert OnlyWorker(s, s', c) && LocalMoves(s, s', c) && s'.databases == s.databases && s'.allocations == s.allocations;
    hide Plain, OnlyWorker, LocalMoves, Sound, LocalsFit, Keyed, Linked, WaitOk, Homely, ReadyOk, Ordered, Abandoned, OnePassword;
    hide PublishOk, BuildsOk, Pooled, SecretsStay;
    PlainSound(s, s', c);
    PlainLocalsFit(s, s', c);
    PlainKeepsTables(s, s', c);
    PlainWaits(s, s', c);
    PlainKeepsHomes(s, s', c);
    PlainReadies(s, s', c);
    PlainKeepsOrder(s, s', c);
    PlainKeepsAbandoned(s, s', c);
    PlainKeepsPassword(s, s', c);
    PlainPublishes(s, s', c);
    PlainBuilds(s, s', c);
  }

  // ---------- the transactions that delete rows ----------

  lemma FencedSound(s: State, s': State, c: Claim)
    requires Sound(s) && WorkFenced(s, s', c) && s'.workers == s.workers
    ensures Sound(s') && Protocol.Evolves(s.core, s'.core)
  {}

  lemma FewerBuilds(s: State, s': State, c: Claim, ws: set<nat>)
    requires Sound(s) && WorkFenced(s, s', c) && s'.workers == s.workers && s'.workspaces == s.workspaces - ws && BuildsOk(s)
    ensures BuildsOk(s')
  {
    FencedSound(s, s', c);
    hide Sound, WorkFenced, BuildsFit, Owned, Id, Protocol.Evolves;
    StillFits(s, s');
  }

  lemma DeletionKeepsKnown(s: State, s': State, d: Claim, as_: set<nat>)
    requires WorkFenced(s, s', d) && s'.assignments == s.assignments - as_ && PublishOk(s)
    requires d.resource.Some? && d.resource.value.AssignmentRow? ==> d.resource.value !in s'.core.life
    ensures SuccessKnown(s'.assignments) && CreatedKnown(s'.core.life, s'.assignments)
  {
    hide Fenced, SuccessKnown, CreatedKnown, KnownStays, Campaigning, BusyLive, OnlyWorker;
    DeletionStays(s, s', d, as_);
    StayingKnown(s, s');
  }

  lemma RemoveLocalPublishes(s: State, c: Claim)
    requires Sound(s) && Keyed(s) && c in s.workers && PublishOk(s)
    ensures PublishOk(D.RemoveLocal(s, c))
  {
    var s' := D.RemoveLocal(s, c);
    hide Sound, Keyed, WorkFenced, Erases, D.RemoveLocal, Campaigning, BusyLive, SuccessKnown, CreatedKnown, Id, D.AssignmentsOf, D.WorkspacesOf, D.MembersOf;
    RemoveLocalKeepsCampaigns(s, c);
    RemoveLocalKeepsBusyLive(s, c);
    if s' != s {
      RemoveLocalFenced(s, c);
      RemoveLocalErases(s, c);
      RemoveLocalMoves(s, c);
      hide PublishOk;
      DeletionKeepsKnown(s, s', c, D.AssignmentsOf(s, Id(c)));
    }
  }

  lemma RemoveLocalRest(s: State, c: Claim)
    requires Good(s) && c in s.workers && D.RemoveLocal(s, c) != s
    ensures Sound(D.RemoveLocal(s, c)) && WaitOk(D.RemoveLocal(s, c)) && BuildsOk(D.RemoveLocal(s, c))
  {
    var s' := D.RemoveLocal(s, c);
    assert WorkFenced(s, s', c) by { RemoveLocalFenced(s, c); }
    assert Fenced(s.core, s'.core, c);
    hide Sound, Keyed, Linked, Homely, ReadyOk, DeletionsOk, OnePassword, PublishOk, BuildsOk, PoolOk, WorkFenced, Fenced, Erases, Interlocked;
    hide D.RemoveLocal, D.AssignmentsOf, D.WorkspacesOf, D.MembersOf, Id, Owned, DeleteRows, CompleteAndDelete, LocalsFit;
    RemoveLocalErases(s, c);
    RemoveLocalMoves(s, c);
    FencedSound(s, s', c);
    Interlock.ErasureKeeps(s, s', c, {Id(c)}, D.AssignmentsOf(s, Id(c)), D.WorkspacesOf(s, Id(c)), D.MembersOf(s, Id(c)));
    FewerBuilds(s, s', c, D.WorkspacesOf(s, Id(c)));
  }

  lemma RemoveLocalQuiet(s: State, c: Claim)
    requires OnePassword(s)
    ensures OnePassword(D.RemoveLocal(s, c))
  {
    hide D.RemoveLocal, OnePassword, Quiet, SecretsStay;
    RemoveLocalIsQuiet(s, c);
    QuietKeepsPassword(s, D.RemoveLocal(s, c));
  }

  lemma RemoveLocalWorkers(s: State, c: Claim)
    ensures D.RemoveLocal(s, c).workers == s.workers
  {
    RemoveLocalMoves(s, c);
    hide D.RemoveLocal, D.AssignmentsOf, D.WorkspacesOf, D.MembersOf, Id, Owned, DeleteRows, CompleteAndDelete;
  }

  lemma RemoveLocalKeepsGood(s: State, c: Claim)
    requires Good(s) && c in s.workers
    ensures Good(D.RemoveLocal(s, c))
  {
    hide D.RemoveLocal;
    if D.RemoveLocal(s, c) != s {
      RemoveLocalRest(s, c);
      RemoveLocalWorkers(s, c);
      hide Sound, LocalsFit, Keyed, Linked, WaitOk, Homely, Prepared, AssignedReady, Ordered, Abandoned, OnePassword, PublishOk, BuildsOk, Pooled;
      RemoveLocalKeepsTables(s, c);
      RemoveLocalKeepsHomes(s, c);
      RemoveLocalKeepsReady(s, c);
      RemoveLocalKeepsOrder(s, c);
      RemoveLocalKeepsAbandoned(s, c);
      RemoveLocalQuiet(s, c);
      RemoveLocalPublishes(s, c);
      RemoveLocalKeepsPool(s, c);
    }
  }

  lemma RemoveAssignmentFields(s: State, c: Claim)
    ensures var s' := T.RemoveAssignment(s, c);
            s'.workers == s.workers && s'.databases == s.databases && s'.allocations == s.allocations && s'.instances == s.instances
  {
    hide T.PairWorkspaces, Id, Owned, DeleteRows, CompleteAndDelete;
  }

  lemma RemoveAssignmentRest(s: State, c: Claim)
    requires Sound(s) && WaitOk(s) && BuildsOk(s) && c in s.workers && T.RemoveAssignment(s, c) != s
    ensures Sound(T.RemoveAssignment(s, c)) && WaitOk(T.RemoveAssignment(s, c)) && BuildsOk(T.RemoveAssignment(s, c))
  {
    var s' := T.RemoveAssignment(s, c);
    hide T.RemoveAssignment, T.PairWorkspaces, Id, Owned, DeleteRows, CompleteAndDelete, Sound, BuildsOk, Erases, Interlocked, Fenced;
    RemoveAssignmentFenced(s, c);
    RemoveAssignmentErases(s, c);
    RemoveAssignmentMoves(s, c);
    var ws := T.PairWorkspaces(s, s.workers[c].instance, s.workers[c].template);
    Interlock.ErasureKeeps(s, s', c, {}, {Id(c)}, ws, {});
    hide WorkFenced;
    FencedSound(s, s', c);
    FewerBuilds(s, s', c, ws);
  }

  lemma RemoveAssignmentPublishes(s: State, c: Claim)
    requires Sound(s) && Keyed(s) && LocalsFit(s.workers) && WaitOk(s) && c in s.workers && PublishOk(s)
    ensures PublishOk(T.RemoveAssignment(s, c))
  {
    var s' := T.RemoveAssignment(s, c);
    assert AssignmentsWait(s.core.life, s.assignments);
    hide Sound, Keyed, LocalsFit, WorkFenced, T.RemoveAssignment, Campaigning, BusyLive, SuccessKnown, CreatedKnown, Id, T.PairWorkspaces;
    hide AssignmentsWait, Interlocked, CampaignSteps, Owned, DeleteRows, CompleteAndDelete;
    FitSteps(s.workers);
    RemoveAssignmentKeepsCampaigns(s, c);
    RemoveAssignmentKeepsBusyLive(s, c);
    if s' != s {
      RemoveAssignmentFenced(s, c);
      RemoveAssignmentMoves(s, c);
      OwnRowGone(s, c);
      hide PublishOk;
      DeletionKeepsKnown(s, s', c, {Id(c)});
    }
  }

  lemma OwnRowGone(s: State, c: Claim)
    requires Sound(s) && c in s.workers && T.RemoveAssignment(s, c) != s
    ensures c.resource == Some(AssignmentRow(Id(c))) && AssignmentRow(Id(c)) !in T.RemoveAssignment(s, c).core.life
  {
    RemoveAssignmentErases(s, c);
    hide T.RemoveAssignment, Id, Sound, Owned, T.PairWorkspaces;
  }

  lemma RemoveAssignmentQuiet(s: State, c: Claim)
    requires OnePassword(s)
    ensures OnePassword(T.RemoveAssignment(s, c))
  {
    hide T.RemoveAssignment, OnePassword, Quiet, SecretsStay;
    RemoveAssignmentIsQuiet(s, c);
    QuietKeepsPassword(s, T.RemoveAssignment(s, c));
  }

  lemma RemoveAssignmentKeepsGood(s: State, c: Claim)
    requires Good(s) && c in s.workers
    ensures Good(T.RemoveAssignment(s, c))
  {
    hide T.RemoveAssignment;
    if T.RemoveAssignment(s, c) != s {
      hide Sound, LocalsFit, Keyed, Linked, WaitOk, Homely, Prepared, AssignedReady, Ordered, Abandoned, OnePassword, PublishOk, BuildsOk, Pooled;
      RemoveAssignmentRest(s, c);
      RemoveAssignmentFields(s, c);
      RemoveAssignmentKeepsTables(s, c);
      RemoveAssignmentKeepsHomes(s, c);
      RemoveAssignmentKeepsReady(s, c);
      RemoveAssignmentKeepsOrder(s, c);
      RemoveAssignmentKeepsAbandoned(s, c);
      RemoveAssignmentQuiet(s, c);
      RemoveAssignmentPublishes(s, c);
    }
  }

  lemma FinishDeleteWorkspaceFields(s: State, c: Claim)
    ensures var s' := W.FinishDeleteWorkspace(s, c);
            && s'.workers == s.workers && s'.databases == s.databases && s'.allocations == s.allocations
            && s'.assignments == s.assignments
  {
    hide Id, Owned, CompleteAndDelete;
  }

  lemma FinishDeleteWorkspaceRest(s: State, c: Claim)
    requires Sound(s) && WaitOk(s) && BuildsOk(s) && c in s.workers && W.FinishDeleteWorkspace(s, c) != s
    ensures Sound(W.FinishDeleteWorkspace(s, c)) && WaitOk(W.FinishDeleteWorkspace(s, c)) && BuildsOk(W.FinishDeleteWorkspace(s, c))
  {
    var s' := W.FinishDeleteWorkspace(s, c);
    hide W.FinishDeleteWorkspace, Id, Owned, CompleteAndDelete, Sound, BuildsOk, Erases, Interlocked, Fenced;
    FinishDeleteWorkspaceFenced(s, c);
    FinishDeleteWorkspaceErases(s, c);
    FinishDeleteWorkspaceMoves(s, c);
    Interlock.ErasureKeeps(s, s', c, {}, {}, {Id(c)}, {});
    hide WorkFenced;
    FencedSound(s, s', c);
    FewerBuilds(s, s', c, {Id(c)});
  }

  lemma FinishDeleteWorkspacePublishes(s: State, c: Claim)
    requires Sound(s) && Keyed(s) && c in s.workers && PublishOk(s)
    ensures PublishOk(W.FinishDeleteWorkspace(s, c))
  {
    var s' := W.FinishDeleteWorkspace(s, c);
    hide Sound, Keyed, WorkFenced, W.FinishDeleteWorkspace, Campaigning, BusyLive, SuccessKnown, CreatedKnown, Id, Owned, CompleteAndDelete, Erases;
    FinishDeleteWorkspaceKeepsCampaigns(s, c);
    if s' != s {
      FinishDeleteWorkspaceFenced(s, c);
      FinishDeleteWorkspaceErases(s, c);
      FinishDeleteWorkspaceFields(s, c);
      NoAssignmentGoes(s.assignments);
      hide PublishOk;
      DeletionKeepsKnown(s, s', c, {});
    }
  }

  lemma NoAssignmentGoes(as_: map<nat, Assignment>)
    ensures as_ - {} == as_
  {}

  lemma FinishDeleteWorkspaceQuiet(s: State, c: Claim)
    requires OnePassword(s)
    ensures OnePassword(W.FinishDeleteWorkspace(s, c))
  {
    hide W.FinishDeleteWorkspace, OnePassword, Quiet, SecretsStay;
    FinishDeleteWorkspaceIsQuiet(s, c);
    QuietKeepsPassword(s, W.FinishDeleteWorkspace(s, c));
  }

  lemma FinishDeleteWorkspaceKeepsGood(s: State, c: Claim)
    requires Good(s) && c in s.workers
    ensures Good(W.FinishDeleteWorkspace(s, c))
  {
    hide W.FinishDeleteWorkspace;
    if W.FinishDeleteWorkspace(s, c) != s {
      hide Sound, LocalsFit, Keyed, Linked, WaitOk, Homely, Prepared, AssignedReady, Ordered, Abandoned, OnePassword, PublishOk, BuildsOk, Pooled;
      FinishDeleteWorkspaceRest(s, c);
      FinishDeleteWorkspaceFields(s, c);
      FinishDeleteWorkspaceKeepsTables(s, c);
      FinishDeleteWorkspaceKeepsHomes(s, c);
      FinishDeleteWorkspaceKeepsReady(s, c);
      FinishDeleteWorkspaceKeepsOrder(s, c);
      FinishDeleteWorkspaceKeepsAbandoned(s, c);
      FinishDeleteWorkspaceQuiet(s, c);
      FinishDeleteWorkspacePublishes(s, c);
    }
  }

  lemma FinalizeFields(s: State, c: Claim)
    ensures var s' := U.FinalizeUpdate(s, c);
            && s'.workers == s.workers && s'.databases == s.databases && s'.allocations == s.allocations
            && s'.assignments == s.assignments
  {
    hide U.Orphans, U.Settle, Owned, DeleteRows, CompleteExecution, RequestJob, Id;
  }

  lemma FinalizeRest(s: State, c: Claim)
    requires Sound(s) && WaitOk(s) && BuildsOk(s) && Homely(s) && c in s.workers && U.FinalizeUpdate(s, c) != s
    ensures Sound(U.FinalizeUpdate(s, c)) && WaitOk(U.FinalizeUpdate(s, c)) && BuildsOk(U.FinalizeUpdate(s, c))
  {
    var s' := U.FinalizeUpdate(s, c);
    hide U.FinalizeUpdate, Id, Owned, Sound, BuildsOk, Erases, Interlocked, Fenced, Homely, U.Orphans, U.Settle, Departed;
    FinalizeFenced(s, c);
    FinalizeErases(s, c);
    FinalizeFields(s, c);
    FinalizeKeepsWorkspaces(s, c);
    var claimed := s.workers[c].claimed;
    Interlock.ErasureKeeps(s, s', c, {}, {}, U.Orphans(s, U.Settle(s.members, Id(c), claimed)), Departed(s.members, Id(c), claimed));
    hide WorkFenced;
    FencedSound(s, s', c);
    NoWorkspaceGoes(s.workspaces);
    FewerBuilds(s, s', c, {});
  }

  lemma NoWorkspaceGoes(ws: map<nat, Workspace>)
    ensures ws - {} == ws
  {}

  lemma FinalizePublishes(s: State, c: Claim)
    requires Sound(s) && Keyed(s) && c in s.workers && PublishOk(s)
    ensures PublishOk(U.FinalizeUpdate(s, c))
  {
    var s' := U.FinalizeUpdate(s, c);
    hide Sound, Keyed, WorkFenced, U.FinalizeUpdate, Campaigning, BusyLive, SuccessKnown, CreatedKnown, Id, Owned;
    FinalizeKeepsCampaigns(s, c);
    if s' != s {
      FinalizeFenced(s, c);
      FinalizeFields(s, c);
      FinalizeOwnRow(s, c);
      NoAssignmentGoes(s.assignments);
      hide PublishOk;
      DeletionKeepsKnown(s, s', c, {});
    }
  }

  lemma FinalizeOwnRow(s: State, c: Claim)
    requires Sound(s) && c in s.workers && U.FinalizeUpdate(s, c) != s
    ensures c.resource == Some(InstanceRow(Id(c)))
  {
    FinalizeLife(s, c);
  }

  lemma FinalizeQuiet(s: State, c: Claim)
    requires OnePassword(s)
    ensures OnePassword(U.FinalizeUpdate(s, c))
  {
    hide U.FinalizeUpdate, OnePassword, Quiet, SecretsStay;
    FinalizeIsQuiet(s, c);
    QuietKeepsPassword(s, U.FinalizeUpdate(s, c));
  }

  lemma FinalizeKeepsGood(s: State, c: Claim)
    requires Good(s) && c in s.workers
    ensures Good(U.FinalizeUpdate(s, c))
  {
    hide U.FinalizeUpdate;
    if U.FinalizeUpdate(s, c) != s {
      hide Sound, LocalsFit, Keyed, Linked, WaitOk, Homely, Prepared, AssignedReady, Ordered, Abandoned, OnePassword, PublishOk, BuildsOk, Pooled;
      FinalizeRest(s, c);
      FinalizeFields(s, c);
      FinalizeKeepsTables(s, c);
      FinalizeKeepsHomes(s, c);
      FinalizeKeepsReady(s, c);
      FinalizeKeepsOrder(s, c);
      FinalizeKeepsAbandoned(s, c);
      FinalizeQuiet(s, c);
      FinalizePublishes(s, c);
    }
  }

  // ---------- deliveries and reclaims ----------

  lemma RedeliveryShape(s: State, s': State)
    requires Redelivers(s, s')
    ensures SameShape(s, s') && s.core.nextId <= s'.core.nextId
  {
    assert SameKeys(s.core.life, s'.core.life) by { assert StatusesMove(s.core.life, s'.core.life); }
    assert s.core.nextId <= s'.core.nextId;
    hide CoreRedelivers, Begins, SameKeys;
  }

  lemma RedeliveryKeepsTables(s: State, s': State)
    requires Redelivers(s, s') && Keyed(s) && Linked(s)
    ensures Keyed(s') && Linked(s')
  {
    hide Redelivers, Keyed, Linked, SameShape;
    RedeliveryShape(s, s');
    RedeliveryKeepsSecrets(s, s');
    ShapeKeepsTables(s, s');
  }

  lemma RedeliveryKeepsSecrets(s: State, s': State)
    requires Redelivers(s, s')
    ensures s'.secrets == s.secrets && s'.workspaces == s.workspaces && s'.assignments == s.assignments && s'.instances == s.instances
    ensures s'.databases == s.databases && s'.allocations == s.allocations
  {
    hide CoreRedelivers;
  }

  lemma RedeliveryWaits(s: State, s': State)
    requires Redelivers(s, s') && WaitOk(s)
    ensures WaitOk(s')
  {
    assert Calms(s, s') by { assert StatusesMove(s.core.life, s'.core.life); }
    hide Redelivers, Interlocked, Calms;
    CalmKeeps(s, s');
  }

  lemma RedeliveryFits(s: State, s': State)
    requires Redelivers(s, s') && LocalsFit(s.workers)
    ensures LocalsFit(s'.workers)
  {
    hide CoreRedelivers, Begins;
  }

  lemma RedeliveryBuilds(s: State, s': State)
    requires Sound(s) && Redelivers(s, s') && BuildsOk(s)
    ensures BuildsOk(s')
  {
    RedeliveredSound(s, s');
    assert Protocol.Evolves(s.core, s'.core);
    hide Sound, CoreRedelivers, Begins, BuildsFit, Owned, Id, Protocol.Evolves;
    StillFits(s, s');
  }

  lemma RedeliveryPublishes(s: State, s': State)
    requires Sound(s) && Redelivers(s, s') && PublishOk(s)
    ensures PublishOk(s')
  {
    hide Sound, Redelivers, Campaigning, BusyLive, SuccessKnown, CreatedKnown, KnownStays;
    RedeliveryKeepsCampaigns(s, s');
    RedeliveryKeepsBusyLive(s, s');
    RedeliveryStays(s, s');
    StayingKnown(s, s');
  }

  lemma RedeliveryKeepsGood(s: State, s': State)
    requires Good(s) && Redelivers(s, s')
    ensures Good(s')
  {
    hide Redelivers, Quiet, SecretsStay;
    hide Sound, LocalsFit, Keyed, Linked, WaitOk, Homely, Prepared, AssignedReady, Ordered, Abandoned, OnePassword, PublishOk, BuildsOk, Pooled;
    RedeliveredSound(s, s');
    RedeliveryKeepsSecrets(s, s');
    RedeliveryFits(s, s');
    RedeliveryKeepsTables(s, s');
    RedeliveryWaits(s, s');
    RedeliveryKeepsHomes(s, s');
    RedeliveryKeepsReady(s, s');
    RedeliveryKeepsOrder(s, s');
    RedeliveryKeepsAbandoned(s, s');
    RedeliveryIsQuiet(s, s');
    QuietKeepsPassword(s, s');
    RedeliveryPublishes(s, s');
    RedeliveryBuilds(s, s');
  }

  // ---------- requests ----------

  lemma AskedSound(s: State, s': State, k: Option<Resource>)
    requires Sound(s) && Asked(s.core, s'.core, k) && s'.workers == s.workers
    ensures Sound(s') && Protocol.Evolves(s.core, s'.core)
  {}

  lemma SameBuilds(s: State, s': State, k: Option<Resource>)
    requires Sound(s) && Asked(s.core, s'.core, k) && s'.workers == s.workers && s'.workspaces == s.workspaces && BuildsOk(s)
    ensures BuildsOk(s')
  {
    AskedSound(s, s', k);
    hide Sound, Asked, BuildsFit, Owned, Id, Protocol.Evolves;
    if s'.workspaces == s.workspaces { SameBuildsFit(s, s'); }
  }

  lemma SameBuildsFit(s: State, s': State)
    requires Sound(s) && Sound(s') && Protocol.Evolves(s.core, s'.core) && s'.workers == s.workers && s'.workspaces == s.workspaces
    requires BuildsFit(s)
    ensures BuildsFit(s')
  {
    forall c | c in s'.workers && Owned(s'.core, c) && Id(c) in s'.workspaces && W.IsWorkspaceStep(c.step)
      ensures BuildFits(s'.workspaces[Id(c)], s'.workers[c])
    {
      Runs.OwnershipIsNotRegained(s.core, s'.core, c);
      hide Sound, Owned, Id, Protocol.Evolves, BuildFits;
    }
  }

  lemma InstanceRequestFields(s: State, r: InstanceRequest)
    requires Sound(s) && Keyed(s)
    ensures var s' := AnswerInstance(s, r).0;
            && s'.workers == s.workers && s'.workspaces == s.workspaces && s'.assignments == s.assignments
            && Asked(s.core, s'.core, Some(InstanceRow(InstanceOf(s, r))))
  {
    assert s.core.nextId !in s.instances;
    hide AnswerInstance, Asked, Keyed;
    InstanceRequestAsks(s, r);
  }

  lemma InstanceRequestPublishes(s: State, r: InstanceRequest)
    requires Sound(s) && Keyed(s) && LocalsFit(s.workers) && PublishOk(s)
    ensures PublishOk(AnswerInstance(s, r).0)
  {
    hide AnswerInstance, Sound, Keyed, LocalsFit, CampaignSteps, Campaigning, BusyLive, SuccessKnown, CreatedKnown, KnownStays, Asked;
    FitSteps(s.workers);
    InstanceRequestFields(s, r);
    InstanceRequestKeepsCampaigns(s, r);
    InstanceRequestKeepsBusyLive(s, r);
    AskedStays(s, AnswerInstance(s, r).0, Some(InstanceRow(InstanceOf(s, r))));
    StayingKnown(s, AnswerInstance(s, r).0);
  }

  lemma InstanceRequestQuiet(s: State, r: InstanceRequest)
    requires Sound(s) && Keyed(s) && OnePassword(s)
    ensures OnePassword(AnswerInstance(s, r).0)
  {
    hide AnswerInstance, Sound, Keyed, OnePassword, Quiet, SecretsStay;
    InstanceRequestIsQuiet(s, r);
    QuietKeepsPassword(s, AnswerInstance(s, r).0);
  }

  lemma InstanceRequestWaits(s: State, r: InstanceRequest)
    requires Sound(s) && Keyed(s) && WaitOk(s)
    ensures WaitOk(AnswerInstance(s, r).0)
  {
    hide AnswerInstance, Keyed, Interlocked;
    Interlock.InstanceRequestKeeps(s, r);
  }

  lemma InstanceRequestKeepsGood(s: State, r: InstanceRequest)
    requires Good(s)
    ensures Good(AnswerInstance(s, r).0)
  {
    hide AnswerInstance, Asked;
    SoundInv(s);
    hide Sound, LocalsFit, Keyed, Linked, WaitOk, Homely, Prepared, AssignedReady, Ordered, Abandoned, OnePassword, PublishOk, BuildsOk, Pooled;
    var s' := AnswerInstance(s, r).0;
    InstanceRequestFields(s, r);
    AskedSound(s, s', Some(InstanceRow(InstanceOf(s, r))));
    InstanceRequestKeepsTables(s, r);
    InstanceRequestWaits(s, r);
    InstanceRequestKeepsHomes(s, r);
    InstanceRequestKeepsReady(s, r);
    InstanceRequestKeepsOrder(s, r);
    InstanceRequestKeepsAbandoned(s, r);
    InstanceRequestQuiet(s, r);
    InstanceRequestPublishes(s, r);
    SameBuilds(s, s', Some(InstanceRow(InstanceOf(s, r))));
    InstanceRequestKeepsPool(s, r);
  }

  lemma TemplateRequestFields(s: State, r: TemplateRequest)
    requires Sound(s) && Keyed(s)
    ensures var s' := AnswerTemplate(s, r).0;
            && s'.workers == s.workers && s'.workspaces == s.workspaces && s'.instances == s.instances && s'.members == s.members
            && s'.log == s.log && s'.databases == s.databases && s'.allocations == s.allocations
            && Asked(s.core, s'.core, TemplateTarget(s, r)) && (TemplateTarget(s, r).Some? ==> !TemplateTarget(s, r).value.InstanceRow?)
            && (!r.PutAssignment? && !r.DropAssignment? ==>
                  s'.assignments == s.assignments && (TemplateTarget(s, r).Some? ==> !TemplateTarget(s, r).value.AssignmentRow?))
  {
    assert TemplateRow(s.core.nextId) !in s.core.life;
    hide AnswerTemplate, Asked, Keyed;
    TemplateRequestAsks(s, r);
    TemplateTargetKind(s, r);
  }

  lemma TemplateRequestPublishes(s: State, r: TemplateRequest)
    requires Sound(s) && Keyed(s) && Linked(s) && LocalsFit(s.workers) && PublishOk(s) && ReadyOk(s)
    ensures PublishOk(AnswerTemplate(s, r).0)
  {
    hide Sound, Keyed, Linked, LocalsFit, CampaignSteps, Campaigning, BusyLive, SuccessKnown, CreatedKnown, KnownStays, Asked;
    hide Prepared, AssignedReady, TR.PutAssignment, TR.DeleteAssignment, TemplateTarget;
    SoundInv(s);
    FitSteps(s.workers);
    TemplateRequestFields(s, r);
    TemplateRequestKeepsCampaigns(s, r);
    TemplateRequestKeepsBusyLive(s, r);
    if r.PutAssignment? { PutAssignmentStays(s, r.i, r.t); }
    else if r.DropAssignment? { DropAssignmentStays(s, r.i, r.t); }
    else { hide AnswerTemplate; AskedStays(s, AnswerTemplate(s, r).0, TemplateTarget(s, r)); }
    StayingKnown(s, AnswerTemplate(s, r).0);
  }

  lemma TemplateRequestQuiet(s: State, r: TemplateRequest)
    requires Sound(s) && Keyed(s) && OnePassword(s)
    ensures OnePassword(AnswerTemplate(s, r).0)
  {
    hide AnswerTemplate, Sound, Keyed, OnePassword, Quiet, SecretsStay;
    TemplateRequestIsQuiet(s, r);
    QuietKeepsPassword(s, AnswerTemplate(s, r).0);
  }

  lemma TemplateRequestWaits(s: State, r: TemplateRequest)
    requires Sound(s) && Keyed(s) && WaitOk(s) && Homely(s)
    ensures WaitOk(AnswerTemplate(s, r).0)
  {
    hide AnswerTemplate, Keyed, Interlocked, Homely, EveryWorkspaceHasAPair;
    HomesArePairs(s);
    Interlock.TemplateRequestKeeps(s, r);
  }

  lemma TemplateRequestOrders(s: State, r: TemplateRequest)
    requires Sound(s) && Keyed(s) && DeletionsOk(s)
    ensures DeletionsOk(AnswerTemplate(s, r).0)
  {
    assert InstanceRows(s.core.life, s.instances);
    hide AnswerTemplate, Sound, Keyed, Ordered, Abandoned, Asked, TemplateTarget, InstanceRows;
    TemplateRequestFields(s, r);
    DeletionOrder.OtherRequestKeepsOrder(s, AnswerTemplate(s, r).0, TemplateTarget(s, r));
    DeletionOrder.OtherRequestKeepsAbandoned(s, AnswerTemplate(s, r).0, TemplateTarget(s, r));
  }

  lemma TemplateRequestKeepsGood(s: State, r: TemplateRequest)
    requires Good(s)
    ensures Good(AnswerTemplate(s, r).0)
  {
    hide AnswerTemplate, Asked, TemplateTarget, DeletionsOk;
    SoundInv(s);
    hide Sound, LocalsFit, Keyed, Linked, WaitOk, Homely, Prepared, AssignedReady, Ordered, Abandoned, OnePassword, PublishOk, BuildsOk, Pooled;
    var s' := AnswerTemplate(s, r).0;
    TemplateRequestFields(s, r);
    AskedSound(s, s', TemplateTarget(s, r));
    TemplateRequestKeepsTables(s, r);
    TemplateRequestWaits(s, r);
    TemplateRequestKeepsHomes(s, r);
    TemplateRequestKeepsReady(s, r);
    TemplateRequestOrders(s, r);
    TemplateRequestQuiet(s, r);
    TemplateRequestPublishes(s, r);
    SameBuilds(s, s', TemplateTarget(s, r));
  }

  lemma WorkspaceRequestFields(s: State, r: WorkspaceRequest)
    requires Sound(s)
    ensures var s' := AnswerWorkspace(s, r).0;
            && s'.workers == s.workers && s'.instances == s.instances && s'.members == s.members && s'.assignments == s.assignments
            && s'.log == s.log
            && Asked(s.core, s'.core, WorkspaceTarget(s, r))
            && (WorkspaceTarget(s, r).Some? ==> WorkspaceTarget(s, r).value.WorkspaceRow?)
  {
    hide AnswerWorkspace, Asked;
    WorkspaceRequestAsks(s, r);
  }

  lemma WorkspaceRequestPublishes(s: State, r: WorkspaceRequest)
    requires Sound(s) && Keyed(s) && PublishOk(s)
    ensures PublishOk(AnswerWorkspace(s, r).0)
  {
    hide AnswerWorkspace, Sound, Keyed, Campaigning, BusyLive, SuccessKnown, CreatedKnown, KnownStays, Asked, WorkspaceTarget;
    SoundInv(s);
    WorkspaceRequestFields(s, r);
    WorkspaceRequestKeepsCampaigns(s, r);
    WorkspaceRequestKeepsBusyLive(s, r);
    AskedStays(s, AnswerWorkspace(s, r).0, WorkspaceTarget(s, r));
    StayingKnown(s, AnswerWorkspace(s, r).0);
  }

  lemma WorkspaceRequestQuiet(s: State, r: WorkspaceRequest)
    requires Sound(s) && OnePassword(s)
    ensures OnePassword(AnswerWorkspace(s, r).0)
  {
    hide AnswerWorkspace, Sound, OnePassword, Quiet, SecretsStay;
    WorkspaceRequestIsQuiet(s, r);
    QuietKeepsPassword(s, AnswerWorkspace(s, r).0);
  }

  lemma WorkspaceRequestWaits(s: State, r: WorkspaceRequest)
    requires Sound(s) && Keyed(s) && Linked(s) && WaitOk(s)
    ensures WaitOk(AnswerWorkspace(s, r).0)
  {
    assert UniquePairs(s.assignments);
    hide AnswerWorkspace, Keyed, Linked, Interlocked, UniquePairs;
    Interlock.WorkspaceRequestKeeps(s, r);
  }

  lemma WorkspaceRequestOrders(s: State, r: WorkspaceRequest)
    requires Sound(s) && Keyed(s) && DeletionsOk(s)
    ensures DeletionsOk(AnswerWorkspace(s, r).0)
  {
    assert InstanceRows(s.core.life, s.instances);
    hide AnswerWorkspace, Sound, Keyed, Ordered, Abandoned, Asked, WorkspaceTarget, InstanceRows;
    WorkspaceRequestFields(s, r);
    DeletionOrder.OtherRequestKeepsOrder(s, AnswerWorkspace(s, r).0, WorkspaceTarget(s, r));
    DeletionOrder.OtherRequestKeepsAbandoned(s, AnswerWorkspace(s, r).0, WorkspaceTarget(s, r));
  }

  lemma WorkspaceRequestBuilds(s: State, r: WorkspaceRequest)
    requires Sound(s) && Keyed(s) && BuildsOk(s)
    ensures BuildsOk(AnswerWorkspace(s, r).0)
  {
    hide AnswerWorkspace, Sound, Keyed, AppliedBelow, BuildsFit, Rewrites;
    WorkspaceRequestKeepsBuilds(s, r);
    WorkspaceRequestRewrites(s, r);
    RewritesKeepApplied(s, AnswerWorkspace(s, r).0);
  }

  lemma WorkspaceRequestKeepsGood(s: State, r: WorkspaceRequest)
    requires Good(s)
    ensures Good(AnswerWorkspace(s, r).0)
  {
    hide AnswerWorkspace, Asked, WorkspaceTarget, DeletionsOk;
    SoundInv(s);
    hide Sound, LocalsFit, Keyed, Linked, WaitOk, Homely, Prepared, AssignedReady, Ordered, Abandoned, OnePassword, PublishOk, BuildsOk, Pooled;
    var s' := AnswerWorkspace(s, r).0;
    WorkspaceRequestFields(s, r);
    AskedSound(s, s', WorkspaceTarget(s, r));
    WorkspaceRequestKeepsTables(s, r);
    WorkspaceRequestWaits(s, r);
    WorkspaceRequestKeepsHomes(s, r);
    WorkspaceRequestKeepsReady(s, r);
    WorkspaceRequestOrders(s, r);
    WorkspaceRequestQuiet(s, r);
    WorkspaceRequestPublishes(s, r);
    WorkspaceRequestBuilds(s, r);
    WorkspaceRequestKeepsPool(s, r);
  }

  // ---------- every event, every run ----------

  lemma WorkKeepsGood(s: State, c: Claim, act: Act)
    requires Good(s)
    ensures Good(DoWork(s, c, act))
  {
    hide Good, Plain, U.FinalizeUpdate, D.RemoveLocal, T.RemoveAssignment, W.FinishDeleteWorkspace, OnCommon, OnCreate;
    if c !in s.workers {
      StrangersStutter(s, c, act);
    } else if !Deletes(act) {
      WorkIsPlain(s, c, act);
      PlainKeepsGood(s, DoWork(s, c, act), c);
    } else if act.Update? {
      FinalizeKeepsGood(s, c);
    } else if act.Teardown? {
      RemoveLocalKeepsGood(s, c);
    } else if act.OfTemplate? {
      RemoveAssignmentKeepsGood(s, c);
    } else {
      FinishDeleteWorkspaceKeepsGood(s, c);
    }
  }

  lemma GoodSound(s: State)
    requires Good(s)
    ensures Sound(s) && Keyed(s) && Linked(s) && LocalsFit(s.workers)
  {}

  lemma ApplyKeepsGood(s: State, e: Event)
    requires Good(s)
    ensures Good(Apply(s, e))
  {
    hide Good, Sound, DoWork, AnswerInstance, AnswerTemplate, AnswerWorkspace, WorkerSteps.Deliver, WorkerSteps.Reclaim, Redelivers;
    GoodSound(s);
    match e
    case Deliver(id, task, now) =>
      DeliverRedelivers(s, id, task, now);
      RedeliveryKeepsGood(s, WorkerSteps.Deliver(s, id, task, now));
    case Reclaim(id, staleBefore) =>
      ReclaimRedelivers(s, id, staleBefore);
      RedeliveryKeepsGood(s, WorkerSteps.Reclaim(s, id, staleBefore));
    case Work(c, act) => WorkKeepsGood(s, c, act);
    case Ask(request) =>
      match request
      case ToInstance(r) => InstanceRequestKeepsGood(s, r);
      case ToTemplate(r) => TemplateRequestKeepsGood(s, r);
      case ToWorkspace(r) => WorkspaceRequestKeepsGood(s, r);
  }

  lemma {:induction false} RunKeepsGood(s: State, events: seq<Event>)
    requires Good(s)
    ensures Good(Run(s, events))
    decreases |events|
  {
    hide Good, Apply;
    if events != [] {
      ApplyKeepsGood(s, events[0]);
      RunKeepsGood(Apply(s, events[0]), events[1..]);
    }
  }

  lemma StartIsSound()
    ensures Sound(START) && LocalsFit(START.workers) && Keyed(START) && Linked(START)
  {}

  lemma StartIsGood()
    ensures Good(START)
  {
    StartIsSound();
    hide Sound, LocalsFit, Keyed, Linked;
  }

  /** Every reachable state is good. */
  lemma ReachableIsGood(events: seq<Event>)
    ensures Good(Run(START, events))
  {
    StartIsGood();
    hide Good, Run;
    RunKeepsGood(START, events);
  }

  // ---------- evolution ----------

  lemma WorkEvolves(s: State, c: Claim, act: Act)
    requires Sound(s)
    ensures Protocol.Evolves(s.core, DoWork(s, c, act).core)
  {
    hide Protocol.Inv, DoWork;
    if c in s.workers { WorkIsFenced(s, c, act); } else { StrangersStutter(s, c, act); Protocol.SelfEvolves(s.core); }
  }

  lemma AnswerEvolves(s: State, request: Request)
    requires Sound(s) && Keyed(s)
    ensures Protocol.Evolves(s.core, Answer(s, request).0.core)
  {
    FreshRows(s);
    hide Keyed, AnswerInstance, AnswerTemplate, AnswerWorkspace, Protocol.Inv, Protocol.Evolves;
    match request
    case ToInstance(r) => InstanceRequestAsks(s, r);
    case ToTemplate(r) => TemplateRequestAsks(s, r);
    case ToWorkspace(r) => WorkspaceRequestAsks(s, r);
  }

  lemma ApplyEvolves(s: State, e: Event)
    requires Good(s)
    ensures Protocol.Evolves(s.core, Apply(s, e).core)
  {
    GoodSound(s);
    hide Good, Sound, Keyed, Linked, LocalsFit, DoWork, Answer, WorkerSteps.Deliver, WorkerSteps.Reclaim, Protocol.Evolves;
    match e
    case Deliver(id, task, now) => DeliverRedelivers(s, id, task, now);
    case Reclaim(id, staleBefore) => ReclaimRedelivers(s, id, staleBefore);
    case Work(c, act) => WorkEvolves(s, c, act);
    case Ask(request) => AnswerEvolves(s, request);
  }

  lemma {:induction false} RunEvolves(s: State, events: seq<Event>)
    requires Good(s)
    ensures Protocol.Evolves(s.core, Run(s, events).core)
    decreases |events|
  {
    hide Good, Apply;
    if events != [] {
      ApplyEvolves(s, events[0]);
      ApplyKeepsGood(s, events[0]);
      RunEvolves(Apply(s, events[0]), events[1..]);
      Protocol.EvolvesTransitive(s.core, Apply(s, events[0]).core, Run(s, events).core);
    } else {
      Protocol.SelfEvolves(s.core);
    }
  }
}
