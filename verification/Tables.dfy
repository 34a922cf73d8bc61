/** The tables and their references, kept by every event: each resource has its lifecycle row, every
    reference has its target, and no identifier is reused. */
module Tables {
  import opened Records
  import opened Execution
  import opened Store
  import opened Events
  import opened Fencing
  import opened Frames
  import opened Soundness
  import opened Asks
  import K = WorkerSteps
  import Protocol
  import U = UpdateSteps
  import D = TeardownSteps
  import T = TemplateSteps
  import W = WorkspaceSteps

  /** Every resource has its lifecycle row and every instance its allocation; identifiers in use are
      below the next one. */
  ghost predicate Keyed(s: State) {
    && Below(s.core.life, s.core.nextId)
    && InstanceRows(s.core.life, s.instances) && TemplateRows(s.core.life, s.templates)
    && AssignmentRows(s.core.life, s.assignments) && WorkspaceRows(s.core.life, s.workspaces)
    && Allocated(s.instances, s.allocations)
    && Used(s.members.Keys + s.databases.Keys + s.secrets.Keys, s.core.nextId)
  }

  ghost predicate Used(ids: set<nat>, nextId: nat) {
    forall n <- ids :: n < nextId
  }

  ghost predicate Below(life: map<Resource, Life>, nextId: nat) {
    forall k <- life :: k.id < nextId
  }

  ghost predicate InstanceRows(life: map<Resource, Life>, xs: map<nat, Instance>) {
    forall i: nat :: i in xs <==> InstanceRow(i) in life
  }

  ghost predicate TemplateRows(life: map<Resource, Life>, xs: map<nat, Template>) {
    forall t: nat :: t in xs <==> TemplateRow(t) in life
  }

  ghost predicate AssignmentRows(life: map<Resource, Life>, xs: map<nat, Assignment>) {
    forall a: nat :: a in xs <==> AssignmentRow(a) in life
  }

  ghost predicate WorkspaceRows(life: map<Resource, Life>, xs: map<nat, Workspace>) {
    forall w: nat :: w in xs <==> WorkspaceRow(w) in life
  }

  ghost predicate Allocated(xs: map<nat, Instance>, allocations: map<nat, nat>) {
    forall i: nat :: i in allocations <==> i in xs
  }

  predicate SamePair(a: Assignment, b: Assignment) {
    a.template == b.template && a.instance == b.instance
  }

  /** Every reference has its target, and no pair is assigned twice. */
  ghost predicate Linked(s: State) {
    && AssignmentsLinked(s.assignments, s.templates, s.instances)
    && WorkspacesLinked(s.workspaces, s.templates, s.instances, s.members)
    && MembersLinked(s.members, s.instances)
    && AllocationsLinked(s.allocations, s.databases)
    && UniquePairs(s.assignments)
  }

  ghost predicate AssignmentsLinked(xs: map<nat, Assignment>, templates: map<nat, Template>, instances: map<nat, Instance>) {
    forall a <- xs :: xs[a].template in templates && xs[a].instance in instances
  }

  ghost predicate WorkspacesLinked(xs: map<nat, Workspace>, templates: map<nat, Template>, instances: map<nat, Instance>,
                                   members: map<nat, Member>) {
    forall w <- xs ::
      && xs[w].template in templates && xs[w].instance in instances
      && xs[w].member in members && members[xs[w].member].instance == xs[w].instance
  }

  ghost predicate MembersLinked(xs: map<nat, Member>, instances: map<nat, Instance>) {
    forall m <- xs :: xs[m].instance in instances
  }

  ghost predicate AllocationsLinked(xs: map<nat, nat>, databases: map<nat, Database>) {
    forall i <- xs :: xs[i] in databases
  }

  ghost predicate UniquePairs(xs: map<nat, Assignment>) {
    forall a, b :: a in xs && b in xs && SamePair(xs[a], xs[b]) ==> a == b
  }

  // ---------- the steps ----------

  ghost predicate SameKeys(life: map<Resource, Life>, life': map<Resource, Life>) {
    forall k :: k in life' <==> k in life
  }

  ghost predicate SameInstances(xs: map<nat, Instance>, xs': map<nat, Instance>) {
    forall i :: i in xs' <==> i in xs
  }

  ghost predicate SameAssignments(xs: map<nat, Assignment>, xs': map<nat, Assignment>) {
    forall a :: (a in xs' <==> a in xs) && (a in xs ==> AssignmentKept(xs[a], xs'[a]))
  }

  ghost predicate SameWorkspaces(xs: map<nat, Workspace>, xs': map<nat, Workspace>) {
    forall w :: (w in xs' <==> w in xs) && (w in xs ==> WorkspaceKept(xs[w], xs'[w]))
  }

  ghost predicate SameMembers(xs: map<nat, Member>, xs': map<nat, Member>) {
    forall m :: (m in xs' <==> m in xs) && (m in xs ==> Reopened(xs[m], xs'[m]))
  }

  /** The same rows, with the same immutable columns. */
  ghost predicate SameRows(s: State, s': State) {
    && SameKeys(s.core.life, s'.core.life) && SameInstances(s.instances, s'.instances)
    && SameAssignments(s.assignments, s'.assignments) && SameWorkspaces(s.workspaces, s'.workspaces)
    && SameMembers(s.members, s'.members)
    && s'.templates == s.templates && s'.databases == s.databases && s'.allocations == s.allocations
  }

  lemma LifeKeys(s: State, s': State, c: Claim)
    requires LifeMoves(s, s', c)
    ensures SameKeys(s.core.life, s'.core.life)
  {
    hide Owned, RowMoves;
  }

  lemma TouchedInstances(s: State, s': State, c: Claim)
    requires InstancesTouched(s, s', c)
    ensures SameInstances(s.instances, s'.instances)
  {
    hide Owned, Id, InstanceKept;
  }

  lemma TouchedAssignments(s: State, s': State, c: Claim)
    requires AssignmentsTouched(s, s', c)
    ensures SameAssignments(s.assignments, s'.assignments)
  {
    hide T.JobOwnsSyncResource, T.JobMatchesClaim;
  }

  lemma TouchedWorkspaces(s: State, s': State, c: Claim)
    requires WorkspacesTouched(s, s', c)
    ensures SameWorkspaces(s.workspaces, s'.workspaces)
  {
    hide Owned, Id;
  }

  lemma TouchedMembers(s: State, s': State, c: Claim)
    requires MembersTouched(s, s', c)
    ensures SameMembers(s.members, s'.members)
  {
    hide Owned, Id, U.Unsettled, U.Reconciled, U.Held, U.Claimed, DeferExecution, FailExecution;
  }

  lemma PlainSameRows(s: State, s': State, c: Claim)
    requires Sound(s) && c in s.workers && Plain(s, s', c)
    ensures SameRows(s, s')
  {
    hide Sound, CoreStep, LifeMoves, InstancesTouched, AssignmentsTouched, WorkspacesTouched, MembersTouched, LogMoves, LocalMoves, OnlyWorker;
    StepMovesLife(s, s', c);
    LifeKeys(s, s', c);
    TouchedInstances(s, s', c);
    TouchedAssignments(s, s', c);
    TouchedWorkspaces(s, s', c);
    TouchedMembers(s, s', c);
  }

  /** The same rows with the same references; the other columns may differ. */
  ghost predicate SameShape(s: State, s': State) {
    && SameKeys(s.core.life, s'.core.life) && SameInstances(s.instances, s'.instances)
    && (forall t :: t in s'.templates <==> t in s.templates)
    && (forall a :: (a in s'.assignments <==> a in s.assignments)
                    && (a in s.assignments ==> SamePair(s'.assignments[a], s.assignments[a])))
    && (forall w :: (w in s'.workspaces <==> w in s.workspaces)
                    && (w in s.workspaces ==> SameHome(s'.workspaces[w], s.workspaces[w])))
    && (forall m :: (m in s'.members <==> m in s.members)
                    && (m in s.members ==> s'.members[m].instance == s.members[m].instance))
    && (forall d :: d in s'.databases <==> d in s.databases)
    && s'.allocations == s.allocations
  }

  predicate SameHome(a: Workspace, b: Workspace) {
    a.template == b.template && a.instance == b.instance && a.member == b.member
  }

  lemma RowsShape(s: State, s': State)
    requires SameRows(s, s')
    ensures SameShape(s, s')
  {
    hide SameKeys, SameInstances;
  }

  lemma ShapeKeyed(s: State, s': State)
    requires Keyed(s) && SameShape(s, s') && s.core.nextId <= s'.core.nextId
    requires forall i <- s'.secrets :: i in s.secrets || i in s.instances
    ensures Keyed(s')
  {
    hide SamePair, SameHome, SameInstances;
    assert s'.members.Keys == s.members.Keys && s'.databases.Keys == s.databases.Keys;
    assert s'.instances.Keys == s.instances.Keys by { hide Keyed; InstancesShape(s, s'); }
  }

  lemma InstancesShape(s: State, s': State)
    requires SameInstances(s.instances, s'.instances)
    ensures s'.instances.Keys == s.instances.Keys
  {}

  lemma ShapeLinked(s: State, s': State)
    requires SameShape(s, s') && Linked(s)
    ensures Linked(s')
  {
    hide SameKeys;
  }

  // ---------- the transactions that delete rows ----------

  predicate Erased(k: Resource, is_: set<nat>, as_: set<nat>, ws: set<nat>) {
    match k
    case InstanceRow(i) => i in is_
    case AssignmentRow(a) => a in as_
    case WorkspaceRow(w) => w in ws
    case TemplateRow(_) => false
  }

  ghost predicate LifeWithout(life: map<Resource, Life>, life': map<Resource, Life>, is_: set<nat>, as_: set<nat>, ws: set<nat>) {
    forall k :: k in life' <==> k in life && !Erased(k, is_, as_, ws)
  }

  ghost predicate InstancesWithout(xs: map<nat, Instance>, xs': map<nat, Instance>, is_: set<nat>) {
    forall i :: i in xs' <==> i in xs && i !in is_
  }

  ghost predicate MembersWithout(xs: map<nat, Member>, xs': map<nat, Member>, ms: set<nat>) {
    forall m :: (m in xs' <==> m in xs && m !in ms) && (m in xs' ==> xs'[m] == xs[m].(status := xs'[m].status))
  }

  /** Exactly the given instances, assignments, workspaces and members disappear. */
  ghost predicate Erases(s: State, s': State, is_: set<nat>, as_: set<nat>, ws: set<nat>, ms: set<nat>) {
    && LifeWithout(s.core.life, s'.core.life, is_, as_, ws)
    && InstancesWithout(s.instances, s'.instances, is_)
    && s'.allocations == s.allocations - is_
    && s'.assignments == s.assignments - as_
    && s'.workspaces == s.workspaces - ws
    && MembersWithout(s.members, s'.members, ms)
    && s'.templates == s.templates && s'.databases == s.databases && s'.secrets == s.secrets
  }

  /** Nothing that stays refers to something that goes. */
  ghost predicate Closed(s: State, is_: set<nat>, as_: set<nat>, ws: set<nat>, ms: set<nat>) {
    && (forall a <- s.assignments :: s.assignments[a].instance in is_ ==> a in as_)
    && (forall w <- s.workspaces :: s.workspaces[w].instance in is_ || s.workspaces[w].member in ms ==> w in ws)
    && (forall m <- s.members :: s.members[m].instance in is_ ==> m in ms)
  }

  lemma ErasedRows(life: map<Resource, Life>, life': map<Resource, Life>, s: State, s': State,
                   is_: set<nat>, as_: set<nat>, ws: set<nat>)
    requires InstanceRows(life, s.instances) && TemplateRows(life, s.templates)
    requires AssignmentRows(life, s.assignments) && WorkspaceRows(life, s.workspaces)
    requires LifeWithout(life, life', is_, as_, ws) && InstancesWithout(s.instances, s'.instances, is_)
    requires s'.assignments == s.assignments - as_ && s'.workspaces == s.workspaces - ws && s'.templates == s.templates
    ensures InstanceRows(life', s'.instances) && TemplateRows(life', s'.templates)
    ensures AssignmentRows(life', s'.assignments) && WorkspaceRows(life', s'.workspaces)
  {}

  lemma ErasedKeyed(s: State, s': State, is_: set<nat>, as_: set<nat>, ws: set<nat>, ms: set<nat>)
    requires Keyed(s) && Erases(s, s', is_, as_, ws, ms) && s.core.nextId <= s'.core.nextId
    ensures Keyed(s')
  {
    ErasedRows(s.core.life, s'.core.life, s, s', is_, as_, ws);
    hide InstanceRows, TemplateRows, AssignmentRows, WorkspaceRows;
  }

  lemma ErasedLinked(s: State, s': State, is_: set<nat>, as_: set<nat>, ws: set<nat>, ms: set<nat>)
    requires Linked(s) && Erases(s, s', is_, as_, ws, ms) && Closed(s, is_, as_, ws, ms)
    ensures Linked(s')
  {}

  lemma CompletedAndDeletedLife(core: Core, c: Claim, ks: set<Resource>)
    requires Protocol.Inv(core) && c in core.claims && Owned(core, c) && c.resource.Some?
    ensures DeleteRows(CompleteAndDelete(core, c), ks).life == core.life - ({c.resource.value} + ks)
  {
    OwnedRow(core, c);
  }

  lemma DeletedLife(core: Core, c: Claim, ks: set<Resource>, is_: set<nat>, as_: set<nat>, ws: set<nat>)
    requires Protocol.Inv(core) && c in core.claims && Owned(core, c) && c.resource.Some?
    requires forall k :: k == c.resource.value || k in ks <==> Erased(k, is_, as_, ws)
    ensures LifeWithout(core.life, DeleteRows(CompleteAndDelete(core, c), ks).life, is_, as_, ws)
  {
    CompletedAndDeletedLife(core, c, ks);
    hide Protocol.Inv, Owned, DeleteRows, CompleteAndDelete, Erased;
  }

  lemma RemoveLocalMoves(s: State, c: Claim)
    ensures var s', i := D.RemoveLocal(s, c), Id(c);
            s' == s || (&& Owned(s.core, c) && c.step == RemoveLocalConfiguration
                        && s'.core == DeleteRows(CompleteAndDelete(s.core, c),
                                                 K.WorkspaceRows(D.WorkspacesOf(s, i)) + K.AssignmentRows(D.AssignmentsOf(s, i)))
                        && s'.instances == s.instances - {i} && s'.allocations == s.allocations - {i}
                        && s'.members == s.members - D.MembersOf(s, i) && s'.workspaces == s.workspaces - D.WorkspacesOf(s, i)
                        && s'.assignments == s.assignments - D.AssignmentsOf(s, i)
                        && s'.templates == s.templates && s'.databases == s.databases && s'.secrets == s.secrets && s'.log == s.log
                        && s'.workers == s.workers)
  {
    hide Owned, DeleteRows, CompleteAndDelete, D.WorkspacesOf, D.AssignmentsOf, D.MembersOf, Id, K.WorkspaceRows, K.AssignmentRows;
  }

  lemma RemoveLocalErases(s: State, c: Claim)
    requires Sound(s) && c in s.workers && D.RemoveLocal(s, c) != s
    ensures Owned(s.core, c) && c.resource == Some(InstanceRow(Id(c))) && c.step == RemoveLocalConfiguration
    ensures Erases(s, D.RemoveLocal(s, c), {Id(c)}, D.AssignmentsOf(s, Id(c)), D.WorkspacesOf(s, Id(c)), D.MembersOf(s, Id(c)))
  {
    RemoveLocalMoves(s, c);
    OwnedResource(s.core, c);
    var i := Id(c);
    hide D.RemoveLocal, Protocol.Inv, Owned, DeleteRows, CompleteAndDelete, LifeWithout, D.AssignmentsOf, D.WorkspacesOf, D.MembersOf;
    DeletedLife(s.core, c, K.WorkspaceRows(D.WorkspacesOf(s, i)) + K.AssignmentRows(D.AssignmentsOf(s, i)),
                {i}, D.AssignmentsOf(s, i), D.WorkspacesOf(s, i));
  }

  lemma InstanceClosed(s: State, i: nat)
    requires Linked(s)
    ensures Closed(s, {i}, D.AssignmentsOf(s, i), D.WorkspacesOf(s, i), D.MembersOf(s, i))
  {}

  lemma RemoveAssignmentMoves(s: State, c: Claim)
    requires c in s.workers && T.RemoveAssignment(s, c) != s
    ensures s.workers[c].RemovalDone? && Owned(s.core, c) && c.step == Step.DeleteTemplate
    ensures var s', ws := T.RemoveAssignment(s, c), T.PairWorkspaces(s, s.workers[c].instance, s.workers[c].template);
            && s'.core == DeleteRows(CompleteAndDelete(s.core, c), K.WorkspaceRows(ws))
            && s' == s.(core := s'.core, assignments := s.assignments - {Id(c)}, workspaces := s.workspaces - ws)
  {
    hide Owned, DeleteRows, CompleteAndDelete, T.PairWorkspaces, Id, K.WorkspaceRows;
  }

  lemma EraseNothing(s: State)
    ensures s.allocations - {} == s.allocations && s.assignments - {} == s.assignments
    ensures InstancesWithout(s.instances, s.instances, {}) && MembersWithout(s.members, s.members, {})
  {}

  lemma ErasedPair(a: nat, ws: set<nat>, k: Resource)
    ensures k == AssignmentRow(a) || k in K.WorkspaceRows(ws) <==> Erased(k, {}, {a}, ws)
  {}

  lemma RemoveAssignmentErases(s: State, c: Claim)
    requires Sound(s) && c in s.workers && T.RemoveAssignment(s, c) != s
    ensures Owned(s.core, c) && c.resource == Some(AssignmentRow(Id(c))) && c.step == Step.DeleteTemplate && s.workers[c].RemovalDone?
    ensures Erases(s, T.RemoveAssignment(s, c), {}, {Id(c)}, T.PairWorkspaces(s, s.workers[c].instance, s.workers[c].template), {})
  {
    RemoveAssignmentMoves(s, c);
    OwnedResource(s.core, c);
    EraseNothing(s);
    var ws := T.PairWorkspaces(s, s.workers[c].instance, s.workers[c].template);
    forall k ensures k == AssignmentRow(Id(c)) || k in K.WorkspaceRows(ws) <==> Erased(k, {}, {Id(c)}, ws) {
      ErasedPair(Id(c), ws, k);
    }
    hide T.RemoveAssignment, Protocol.Inv, Owned, DeleteRows, CompleteAndDelete, LifeWithout, T.PairWorkspaces;
    hide InstancesWithout, MembersWithout, Erased, K.WorkspaceRows, Id;
    DeletedLife(s.core, c, K.WorkspaceRows(ws), {}, {Id(c)}, ws);
  }

  lemma FinishDeleteWorkspaceMoves(s: State, c: Claim)
    requires c in s.workers && W.FinishDeleteWorkspace(s, c) != s
    ensures Owned(s.core, c) && c.step == Step.DeleteWorkspace
    ensures W.FinishDeleteWorkspace(s, c) == s.(core := CompleteAndDelete(s.core, c), workspaces := s.workspaces - {Id(c)})
  {
    hide Owned, CompleteAndDelete, Id;
  }

  lemma FinishDeleteWorkspaceErases(s: State, c: Claim)
    requires Sound(s) && c in s.workers && W.FinishDeleteWorkspace(s, c) != s
    ensures Owned(s.core, c) && c.resource == Some(WorkspaceRow(Id(c))) && c.step == Step.DeleteWorkspace
    ensures Erases(s, W.FinishDeleteWorkspace(s, c), {}, {}, {Id(c)}, {})
  {
    var s' := W.FinishDeleteWorkspace(s, c);
    FinishDeleteWorkspaceMoves(s, c);
    assert s' == s.(core := CompleteAndDelete(s.core, c), workspaces := s.workspaces - {Id(c)});
    OwnedResource(s.core, c);
    DeleteNothing(CompleteAndDelete(s.core, c));
    EraseNothing(s);
    assert forall k :: k == WorkspaceRow(Id(c)) || k in {} <==> Erased(k, {}, {}, {Id(c)});
    hide W.FinishDeleteWorkspace, Protocol.Inv, Owned, DeleteRows, CompleteAndDelete, LifeWithout;
    hide InstancesWithout, MembersWithout, Erased, Id;
    DeletedLife(s.core, c, {}, {}, {}, {Id(c)});
  }

  lemma WorkspacesClosed(s: State, a: set<nat>, ws: set<nat>)
    requires Linked(s)
    ensures Closed(s, {}, a, ws, {})
  {}

  // ---------- the end of an update ----------

  /** The members a finished update removes. */
  function Departed(members: map<nat, Member>, i: nat, claimed: set<nat>): set<nat> {
    set m | m in members && m !in U.Settle(members, i, claimed)
  }

  lemma CompletedLife(core: Core, c: Claim, ks: set<Resource>)
    requires Protocol.Inv(core) && c in core.claims && Owned(core, c) && c.resource.Some? && c.resource.value !in ks
    ensures var done := DeleteRows(CompleteExecution(core, c, None), ks);
            var k := c.resource.value;
            && k in done.life && k in core.life
            && done.life == core.life[k := Life(core.life[k].action, Success, core.life[k].job, None)] - ks
  {
    OwnedRow(core, c);
  }

  lemma FinalizeLife(s: State, c: Claim)
    requires Sound(s) && c in s.workers && U.FinalizeUpdate(s, c) != s
    ensures Owned(s.core, c) && c.resource == Some(InstanceRow(Id(c))) && c.step == CleanupUsers && s.workers[c].CleanupDone?
    ensures var s' := U.FinalizeUpdate(s, c);
            var k := InstanceRow(Id(c));
            var orphans := U.Orphans(s, U.Settle(s.members, Id(c), s.workers[c].claimed));
            && k in s.core.life && k in s'.core.life
            && s'.core.life == s.core.life[k := s'.core.life[k]] - K.WorkspaceRows(orphans)
            && (|| s'.core.life[k] == Life(s.core.life[k].action, Success, s.core.life[k].job, None)
                || s'.core.life[k] == Life(Updating, Pending, Some(s.core.nextId), Some(Step.UpdateInstance)))
  {
    FinalizeMoves(s, c);
    OwnedResource(s.core, c);
    var orphans := U.Orphans(s, U.Settle(s.members, Id(c), s.workers[c].claimed));
    CompletedLife(s.core, c, K.WorkspaceRows(orphans));
    hide Sound, Owned, U.FinalizeUpdate, U.Orphans, U.Settle, DeleteRows, CompleteExecution;
  }

  lemma SettledWithout(members: map<nat, Member>, i: nat, claimed: set<nat>)
    ensures MembersWithout(members, U.Settle(members, i, claimed), Departed(members, i, claimed))
  {}

  lemma FinalizeErases(s: State, c: Claim)
    requires Sound(s) && c in s.workers && U.FinalizeUpdate(s, c) != s
    ensures s.workers[c].CleanupDone?
    ensures var members := U.Settle(s.members, Id(c), s.workers[c].claimed);
            var departed := Departed(s.members, Id(c), s.workers[c].claimed);
            && Erases(s, U.FinalizeUpdate(s, c), {}, {}, U.Orphans(s, members), departed)
            && U.FinalizeUpdate(s, c).members == members
  {
    FinalizeLife(s, c);
    FinalizeWrites(s, c);
    EraseNothing(s);
    SettledWithout(s.members, Id(c), s.workers[c].claimed);
    hide Sound, U.Orphans, U.Settle, U.FinalizeUpdate, LifeWithout, MembersWithout, InstancesWithout, Departed, K.WorkspaceRows;
    var s', orphans := U.FinalizeUpdate(s, c), U.Orphans(s, U.Settle(s.members, Id(c), s.workers[c].claimed));
    RowsGone(s.core.life, s'.core.life, InstanceRow(Id(c)), orphans);
  }

  lemma RowsGone(life: map<Resource, Life>, life': map<Resource, Life>, k: Resource, ws: set<nat>)
    requires k.InstanceRow? && k in life && k in life' && life' == life[k := life'[k]] - K.WorkspaceRows(ws)
    ensures LifeWithout(life, life', {}, {}, ws)
  {}

  lemma FinalizeWrites(s: State, c: Claim)
    requires c in s.workers && U.FinalizeUpdate(s, c) != s
    ensures s.workers[c].CleanupDone?
    ensures var s', members := U.FinalizeUpdate(s, c), U.Settle(s.members, Id(c), s.workers[c].claimed);
            && s' == s.(core := s'.core, instances := s'.instances, members := members, workspaces := s.workspaces - U.Orphans(s, members))
            && InstancesWithout(s.instances, s'.instances, {})
  {
    hide Owned, RequestJob, CompleteExecution, DeleteRows, U.Orphans, U.Settle, U.PendingMember, K.WorkspaceRows;
  }

  lemma DepartedClosed(s: State, i: nat, claimed: set<nat>)
    requires Linked(s)
    ensures Closed(s, {}, {}, U.Orphans(s, U.Settle(s.members, i, claimed)), Departed(s.members, i, claimed))
  {
    hide U.Settle;
  }

  lemma ErasedKeeps(s: State, s': State, is_: set<nat>, as_: set<nat>, ws: set<nat>, ms: set<nat>)
    requires Keyed(s) && Linked(s) && Erases(s, s', is_, as_, ws, ms) && Closed(s, is_, as_, ws, ms)
    requires s.core.nextId <= s'.core.nextId
    ensures Keyed(s') && Linked(s')
  {
    ErasedKeyed(s, s', is_, as_, ws, ms);
    ErasedLinked(s, s', is_, as_, ws, ms);
  }

  lemma SecretsAreOfInstances(s: State, s': State, c: Claim)
    requires Plain(s, s', c)
    ensures forall i <- s'.secrets :: i in s.secrets || i in s.instances
  {}

  lemma PlainKeepsTables(s: State, s': State, c: Claim)
    requires Sound(s) && c in s.workers && Keyed(s) && Linked(s) && Plain(s, s', c)
    ensures Keyed(s') && Linked(s')
  {
    PlainFenced(s, s', c);
    assert s.core.nextId <= s'.core.nextId;
    SecretsAreOfInstances(s, s', c);
    PlainSameRows(s, s', c);
    hide Sound, Keyed, Linked, Plain, Fenced;
    RowsShape(s, s');
    ShapeKeyed(s, s');
    ShapeLinked(s, s');
  }

  lemma FinalizeKeepsTables(s: State, c: Claim)
    requires Sound(s) && c in s.workers && Keyed(s) && Linked(s)
    ensures Keyed(U.FinalizeUpdate(s, c)) && Linked(U.FinalizeUpdate(s, c))
  {
    var s' := U.FinalizeUpdate(s, c);
    FinalizeFenced(s, c);
    assert s.core.nextId <= s'.core.nextId;
    if s' != s {
      FinalizeErases(s, c);
      var claimed := s.workers[c].claimed;
      hide Fenced, WorkFenced, Sound, Keyed, Linked, Erases, Closed, U.FinalizeUpdate, U.Orphans, U.Settle, Departed;
      DepartedClosed(s, Id(c), claimed);
      ErasedKeeps(s, s', {}, {}, U.Orphans(s, U.Settle(s.members, Id(c), claimed)), Departed(s.members, Id(c), claimed));
    }
  }

  lemma RemoveLocalKeepsTables(s: State, c: Claim)
    requires Sound(s) && c in s.workers && Keyed(s) && Linked(s)
    ensures Keyed(D.RemoveLocal(s, c)) && Linked(D.RemoveLocal(s, c))
  {
    var s' := D.RemoveLocal(s, c);
    RemoveLocalFenced(s, c);
    assert s.core.nextId <= s'.core.nextId;
    if s' != s {
      hide Fenced, WorkFenced, Sound, Keyed, Linked, Erases, Closed, D.RemoveLocal;
      RemoveLocalErases(s, c);
      InstanceClosed(s, Id(c));
      ErasedKeeps(s, s', {Id(c)}, D.AssignmentsOf(s, Id(c)), D.WorkspacesOf(s, Id(c)), D.MembersOf(s, Id(c)));
    }
  }

  lemma RemoveAssignmentKeepsTables(s: State, c: Claim)
    requires Sound(s) && c in s.workers && Keyed(s) && Linked(s)
    ensures Keyed(T.RemoveAssignment(s, c)) && Linked(T.RemoveAssignment(s, c))
  {
    var s' := T.RemoveAssignment(s, c);
    RemoveAssignmentFenced(s, c);
    assert s.core.nextId <= s'.core.nextId;
    if s' != s {
      hide Fenced, WorkFenced, Sound, Keyed, Linked, Erases, Closed, T.RemoveAssignment;
      RemoveAssignmentErases(s, c);
      var ws := T.PairWorkspaces(s, s.workers[c].instance, s.workers[c].template);
      WorkspacesClosed(s, {Id(c)}, ws);
      ErasedKeeps(s, s', {}, {Id(c)}, ws, {});
    }
  }

  lemma FinishDeleteWorkspaceKeepsTables(s: State, c: Claim)
    requires Sound(s) && c in s.workers && Keyed(s) && Linked(s)
    ensures Keyed(W.FinishDeleteWorkspace(s, c)) && Linked(W.FinishDeleteWorkspace(s, c))
  {
    var s' := W.FinishDeleteWorkspace(s, c);
    FinishDeleteWorkspaceFenced(s, c);
    assert s.core.nextId <= s'.core.nextId;
    if s' != s {
      hide Fenced, WorkFenced, Sound, Keyed, Linked, Erases, Closed, W.FinishDeleteWorkspace;
      FinishDeleteWorkspaceErases(s, c);
      WorkspacesClosed(s, {}, {Id(c)});
      ErasedKeeps(s, s', {}, {}, {Id(c)}, {});
    }
  }
}
