/** The properties of every run, stated for the states and events that runs reach. */
module Theorems {
  import opened Records
  import opened Execution
  import opened Store
  import opened Events
  import opened Fencing
  import opened Frames
  import opened Soundness
  import opened Tables
  import opened RequestTables
  import opened Asks
  import opened Interlock
  import opened Homes
  import opened Readiness
  import opened DeletionOrder
  import opened Bootstrap
  import opened Campaigns
  import opened Revisions
  import opened Coverage
  import opened Pools
  import opened System
  import Protocol
  import Runs
  import Parameters
  import Placement
  import WorkerSteps
  import U = UpdateSteps
  import D = TeardownSteps
  import T = TemplateSteps
  import W = WorkspaceSteps
  import IR = InstanceRequests
  import TR = TemplateRequests
  import WR = WorkspaceRequests

  // ---------- jobs ----------

  /** In every reachable state an unfinished row agrees with one unfinished job of its own. */
  lemma JobsAgree(events: seq<Event>, k: Resource)
    requires k in Run(START, events).core.life
    ensures Protocol.Agrees(Run(START, events).core, k)
  {
    hide Good, Run, Protocol.Agrees;
    ReachableIsGood(events);
    GoodInv(Run(START, events));
  }

  lemma AgreesIsConsistent(core: Core, a: nat)
    requires Protocol.Inv(core) && AssignmentRow(a) in core.life && Unfinished(core.life[AssignmentRow(a)].status)
    ensures core.life[AssignmentRow(a)].action == Creating ==> TR.ConsistentJob(core, a, AssignmentCreate, Step.CreateTemplate)
    ensures core.life[AssignmentRow(a)].action == Deleting ==> TR.ConsistentJob(core, a, AssignmentDelete, Step.DeleteTemplate)
  {
    assert Protocol.Agrees(core, AssignmentRow(a));
    assert Protocol.JobOk(core, core.life[AssignmentRow(a)].job.value);
    hide Protocol.Inv;
  }

  lemma PutNeverConflicts(s: State, i: nat, t: nat)
    requires Protocol.Inv(s.core)
    ensures TR.PutAssignment(s, i, t).1 != Refused(JobConflict)
  {
    hide Protocol.Inv, TR.FindAssignment, TR.ConsistentJob, RequestJob, TR.MutationRefusal;
    var found := TR.FindAssignment(s, i, t);
    if found.Some? && AssignmentRow(found.value) in s.core.life && Unfinished(s.core.life[AssignmentRow(found.value)].status) {
      AgreesIsConsistent(s.core, found.value);
    }
    NoConflict(s, i, t);
  }

  lemma DropNeverConflicts(s: State, i: nat, t: nat)
    requires Protocol.Inv(s.core)
    ensures TR.DeleteAssignment(s, i, t).1 != Refused(JobConflict)
  {
    hide Protocol.Inv, TR.FindAssignment, TR.ConsistentJob, RequestJob, TR.MutationRefusal, TR.BusyPair;
    var found := TR.FindAssignment(s, i, t);
    if found.Some? && AssignmentRow(found.value) in s.core.life && Unfinished(s.core.life[AssignmentRow(found.value)].status) {
      AgreesIsConsistent(s.core, found.value);
    }
    NoConflict(s, i, t);
  }

  lemma NoConflict(s: State, i: nat, t: nat)
    ensures TR.ParentRefusal(s, i, t) != Some(JobConflict)
    ensures TR.ParentRefusal(s, i, t).None? ==> TR.MutationRefusal(s, i, t) != Some(JobConflict)
  {}

  /** `_require_consistent_job` never rejects a reachable assignment. */
  lemma JobsAreConsistent(events: seq<Event>, i: nat, t: nat)
    ensures TR.PutAssignment(Run(START, events), i, t).1 != Refused(JobConflict)
    ensures TR.DeleteAssignment(Run(START, events), i, t).1 != Refused(JobConflict)
  {
    hide Good, Run, TR.PutAssignment, TR.DeleteAssignment;
    ReachableIsGood(events);
    GoodInv(Run(START, events));
    PutNeverConflicts(Run(START, events), i, t);
    DropNeverConflicts(Run(START, events), i, t);
  }

  /** Fencing over whole runs: a token rejected once is rejected for ever. */
  lemma RejectedForEver(before: seq<Event>, after: seq<Event>, c: Claim)
    requires c in Run(START, before).core.claims && !Owned(Run(START, before).core, c)
    ensures !Owned(Run(Run(START, before), after).core, c)
  {
    hide Good, Owned, Run, Protocol.Evolves;
    var s := Run(START, before);
    ReachableIsGood(before);
    RunKeepsGood(s, after);
    RunEvolves(s, after);
    GoodInv(s);
    GoodInv(Run(s, after));
    if Owned(Run(s, after).core, c) { Runs.OwnershipIsNotRegained(s.core, Run(s, after).core, c); }
  }

  lemma GoodInv(s: State)
    requires Good(s)
    ensures Protocol.Inv(s.core)
  {}

  /** At most one worker passes the fence for one resource. */
  lemma AtMostOneOwner(events: seq<Event>, c: Claim, d: Claim)
    requires var s := Run(START, events);
             && c in s.core.claims && d in s.core.claims && c.resource.Some? && c.resource == d.resource
             && Owned(s.core, c) && Owned(s.core, d)
    ensures c == d
  {
    hide Good, Owned, Run;
    ReachableIsGood(events);
    GoodInv(Run(START, events));
    OneOwner(Run(START, events).core, c, d);
  }

  // ---------- the interlock ----------

  /** While a template synchronises, no assignment and no workspace of it is unfinished; while an
      assignment is unfinished, no workspace of its pair is. */
  lemma InterlockHolds(events: seq<Event>, t: nat, a: nat, w: nat)
    ensures var s := Run(START, events);
            && (a in s.assignments && s.assignments[a].template == t && Busy(s.core.life, AssignmentRow(a)) ==>
                  !Busy(s.core.life, TemplateRow(t)))
            && (w in s.workspaces && s.workspaces[w].template == t && Busy(s.core.life, WorkspaceRow(w)) ==>
                  !Busy(s.core.life, TemplateRow(t)))
            && (a in s.assignments && w in s.workspaces && Pairs(s.assignments[a], s.workspaces[w]) ==>
                  !(Busy(s.core.life, AssignmentRow(a)) && Busy(s.core.life, WorkspaceRow(w))))
  {
    hide Good, Run, Busy;
    ReachableIsGood(events);
    assert WaitOk(Run(START, events)) by { GoodWaits(Run(START, events)); }
  }

  lemma GoodWaits(s: State)
    requires Good(s)
    ensures WaitOk(s)
  {}

  // ---------- deletion ----------

  lemma WorkErasesInstances(s: State, c: Claim, act: Act, i: nat)
    requires Sound(s) && c in s.workers && i in s.instances && i !in DoWork(s, c, act).instances
    ensures act == Teardown(RemoveLocal) && D.RemoveLocal(s, c) != s && i == Id(c)
  {
    hide Sound, Plain, U.FinalizeUpdate, T.RemoveAssignment, W.FinishDeleteWorkspace, D.RemoveLocal, OnCommon, OnCreate, Id, SameRows;
    if !Deletes(act) {
      WorkIsPlain(s, c, act);
      PlainSameInstances(s, DoWork(s, c, act), c, i);
    } else if act.Update? {
      if U.FinalizeUpdate(s, c) != s { FinalizeInstance(s, c); }
    } else if act.Teardown? {
      RemoveLocalMoves(s, c);
      hide Owned, DeleteRows, CompleteAndDelete, D.AssignmentsOf, D.WorkspacesOf, D.MembersOf;
    } else if act.OfTemplate? {
      RemoveAssignmentFields(s, c);
    } else {
      FinishDeleteInstances(s, c);
    }
  }

  lemma FinishDeleteInstances(s: State, c: Claim)
    ensures W.FinishDeleteWorkspace(s, c).instances == s.instances
  {
    hide Id, Owned, CompleteAndDelete;
  }

  lemma PlainSameInstances(s: State, s': State, c: Claim, i: nat)
    requires Sound(s) && c in s.workers && Plain(s, s', c)
    ensures i in s'.instances <==> i in s.instances
  {
    hide Sound, Plain;
    PlainSameRows(s, s', c);
    hide SameKeys, SameAssignments, SameWorkspaces, SameMembers;
  }

  lemma RequestsSpareInstances(s: State, request: Request, i: nat)
    requires Sound(s) && Keyed(s) && i in s.instances
    ensures i in Answer(s, request).0.instances
  {
    FreshRows(s);
    hide Sound, Keyed, AnswerInstance, AnswerTemplate, AnswerWorkspace, Asked;
    SoundInv(s);
    match request
    case ToInstance(r) => InstanceRequestAsks(s, r);
    case ToTemplate(r) => TemplateRequestAsks(s, r);
    case ToWorkspace(r) => WorkspaceRequestAsks(s, r);
  }

  /** Only the last step of a current deletion takes an instance away. */
  lemma OnlyDeletionErases(s: State, e: Event, i: nat)
    requires Good(s) && i in s.instances && i !in Apply(s, e).instances
    ensures e.Work? && e.act == Teardown(RemoveLocal) && e.c in s.workers && D.RemoveLocal(s, e.c) != s && i == Id(e.c)
  {
    GoodSound(s);
    hide Good, Sound, Keyed, Linked, LocalsFit, DoWork, Answer, WorkerSteps.Deliver, WorkerSteps.Reclaim, Id, D.RemoveLocal, CoreRedelivers;
    match e
    case Deliver(id, task, now) => DeliverRedelivers(s, id, task, now);
    case Reclaim(id, staleBefore) => ReclaimRedelivers(s, id, staleBefore);
    case Work(c, act) => if c in s.workers { WorkErasesInstances(s, c, act, i); } else { StrangersStutter(s, c, act); }
    case Ask(request) => RequestsSpareInstances(s, request, i);
  }

  /** What the last step of a deletion finds. */
  lemma RemovalFinds(s: State, c: Claim)
    requires Sound(s) && Keyed(s) && Ordered(s) && c in s.workers && D.RemoveLocal(s, c) != s
    ensures var k := InstanceRow(Id(c));
            k in s.core.life && s.core.life[k].job == Some(c.job) && s.core.life[k].action == Deleting
    ensures Id(c) in s.allocations && InOrder(s.log, c.job)
  {
    hide D.RemoveLocal, Progress, InOrder, Erases, Id;
    RemoveLocalErases(s, c);
    RemovalRow(s, c);
    assert DeletionOrder.ClaimsReached(s.workers, s.log);
    assert 3 <= Progress(s.log, c.job);
    hide Protocol.Inv, Owned, Ordered, Sound, Keyed;
    ThirdMilestone(s.log, c.job);
  }

  lemma RemovalRow(s: State, c: Claim)
    requires Sound(s) && Keyed(s) && c in s.workers && Owned(s.core, c) && c.step == RemoveLocalConfiguration
    ensures var k := InstanceRow(Id(c));
            k in s.core.life && s.core.life[k].job == Some(c.job) && s.core.life[k].action == Deleting
    ensures Id(c) in s.allocations
  {
    OwnedResource(s.core, c);
    OwnedInstance(s, c);
    hide Protocol.Inv;
  }

  /** An instance disappears only after, in its deletion job and in this order, its workspaces were
      removed or its creation had never stored a password, Argo CD answered that the Application is
      absent, and its schema was dropped; its allocation is kept until then. */
  lemma DeletionInOrder(s: State, e: Event, i: nat)
    requires Good(s) && i in s.instances && i !in Apply(s, e).instances
    ensures i in s.allocations && InstanceRow(i) in s.core.life && s.core.life[InstanceRow(i)].job.Some?
    ensures s.core.life[InstanceRow(i)].action == Deleting
    ensures InOrder(s.log, s.core.life[InstanceRow(i)].job.value)
    ensures CreationAbandoned(s.core.life[InstanceRow(i)].job.value) in s.log ==> s.instances[i].password.None?
  {
    hide Good, Apply, D.RemoveLocal, Ordered, Abandoned, Sound, Keyed, Linked, LocalsFit, InOrder, Id;
    OnlyDeletionErases(s, e, i);
    GoodSound(s);
    GoodOrders(s);
    RemovalFinds(s, e.c);
    if CreationAbandoned(e.c.job) in s.log { AbandonedHasNoPassword(s, i, e.c.job); }
  }

  lemma GoodOrders(s: State)
    requires Good(s)
    ensures Ordered(s) && Abandoned(s)
  {}

  lemma AbandonedHasNoPassword(s: State, i: nat, j: nat)
    requires Abandoned(s) && CreationAbandoned(j) in s.log && i in s.instances
    requires InstanceRow(i) in s.core.life && s.core.life[InstanceRow(i)].job == Some(j)
    ensures s.instances[i].password.None?
  {
    assert Forsaken(s, i, j);
  }

  // ---------- accepted deletion is irrevocable ----------

  predicate Condemned(s: State, i: nat) {
    i in s.instances && InstanceRow(i) in s.core.life && s.core.life[InstanceRow(i)].action == Deleting
  }

  /** The requests that would change the instance, its members, or start work on it. */
  predicate Names(r: Request, i: nat) {
    match r
    case ToInstance(q) =>
      (match q
       case AddInstance(_) => false
       case ObserveState(_, _) => false
       case DropInstance(j) => j == i
       case SyncInstance(j) => j == i
       case PowerOn(j) => j == i
       case PowerOff(j) => j == i
       case UploadProvider(j) => j == i
       case AddMember(j, _, _) => j == i
       case SetRole(j, _, _) => j == i
       case DropMember(j, _, _) => j == i)
    case ToTemplate(q) => q.PutAssignment? && q.i == i
    case ToWorkspace(q) => q.AddWorkspace? && q.i == i
  }

  lemma CondemnedIsBusy(s: State, i: nat)
    requires ReadyOk(s) && Condemned(s, i)
    ensures Unfinished(s.core.life[InstanceRow(i)].status)
  {
    assert RowReady(s.core.life[InstanceRow(i)], s.instances[i]);
  }

  lemma CondemnedRefuses(s: State, q: InstanceRequest, i: nat)
    requires Condemned(s, i) && Unfinished(s.core.life[InstanceRow(i)].status) && Names(ToInstance(q), i)
    ensures AnswerInstance(s, q).1.Refused? && AnswerInstance(s, q).0 == s
  {
    hide IR.HasActiveAssignment, IR.UsernameTaken, IR.StageUpdate, IR.StagedJob, IR.RetryFailedMembers, RequestJob, IR.CreateInstance;
  }

  lemma CondemnedRefusesAssignments(s: State, i: nat, t: nat)
    requires Condemned(s, i) && Unfinished(s.core.life[InstanceRow(i)].status)
    ensures TR.PutAssignment(s, i, t).1.Refused? && TR.PutAssignment(s, i, t).0 == s
  {
    hide TR.FindAssignment, TR.ConsistentJob, RequestJob;
  }

  lemma CondemnedRefusesWorkspaces(s: State, i: nat, t: nat, m: nat, name: string, supplied: map<string, string>, valid: bool)
    requires Condemned(s, i) && Unfinished(s.core.life[InstanceRow(i)].status)
    ensures WR.CreateWorkspace(s, i, t, m, name, supplied, valid).1.Refused?
    ensures WR.CreateWorkspace(s, i, t, m, name, supplied, valid).0 == s
  {
    hide WR.Deployed, WR.Definitions, Parameters.Resolve, RequestJob;
  }

  /** Once deletion is accepted no later request on the instance is. */
  lemma DeletionRefuses(s: State, r: Request, i: nat)
    requires Good(s) && Condemned(s, i) && Names(r, i)
    ensures Answer(s, r).1.Refused? && Answer(s, r).0 == s
  {
    hide Good, ReadyOk, Condemned;
    GoodReady(s);
    CondemnedIsBusy(s, i);
    hide IR.RequestDeletion, IR.RequestSync, IR.RequestStart, IR.RequestStop, IR.UploadProvider;
    hide IR.CreateMember, IR.UpdateRole, IR.DeleteMember, TR.PutAssignment, WR.CreateWorkspace;
    match r
    case ToInstance(q) => CondemnedRefuses(s, q, i);
    case ToTemplate(q) => CondemnedRefusesAssignments(s, i, q.t);
    case ToWorkspace(q) => CondemnedRefusesWorkspaces(s, i, q.t, q.m, q.name, q.supplied, q.valid);
  }

  lemma GoodReady(s: State)
    requires Good(s)
    ensures ReadyOk(s)
  {}

  lemma InstanceHasRow(s: State, i: nat)
    requires Keyed(s) && i in s.instances
    ensures InstanceRow(i) in s.core.life
  {}

  lemma WorkKeepsCondemned(s: State, c: Claim, act: Act, i: nat)
    requires Good(s) && c in s.workers && Condemned(s, i) && i in DoWork(s, c, act).instances
    ensures Condemned(DoWork(s, c, act), i)
  {
    hide Good, Sound, Keyed, LocalsFit, Linked, Plain, OnCommon, OnCreate, U.FinalizeUpdate, D.RemoveLocal, T.RemoveAssignment, W.FinishDeleteWorkspace;
    var s' := DoWork(s, c, act);
    WorkKeepsGood(s, c, act);
    GoodSound(s);
    GoodSound(s');
    InstanceHasRow(s', i);
    if !Deletes(act) {
      WorkIsPlain(s, c, act);
      PlainKeepsCondemned(s, s', c, i);
    } else if act.Update? {
      FinalizeKeepsCondemned(s, c, i);
    } else if act.Teardown? {
      RemoveLocalKeepsCondemned(s, c, i);
    } else if act.OfTemplate? {
      RemoveAssignmentKeepsCondemned(s, c, i);
    } else {
      FinishDeleteWorkspaceKeepsCondemned(s, c, i);
    }
  }

  lemma PlainKeepsCondemned(s: State, s': State, c: Claim, i: nat)
    requires Sound(s) && c in s.workers && Plain(s, s', c) && Condemned(s, i) && InstanceRow(i) in s'.core.life
    ensures s'.core.life[InstanceRow(i)].action == Deleting
  {
    StepMovesLife(s, s', c);
    if Owned(s.core, c) { OwnedIsBusy(s.core, c); }
    hide Sound, Plain, Owned, Gate, Id, LifeMoves, Condemned, Busy, RowAt;
    MoveKeepsCondemned(s, s', c, i);
  }

  lemma MoveKeepsCondemned(s: State, s': State, c: Claim, i: nat)
    requires LifeMoves(s, s', c) && Condemned(s, i) && InstanceRow(i) in s'.core.life
    requires Owned(s.core, c) ==> c.resource == RowAt(c.step, Id(c))
    ensures s'.core.life[InstanceRow(i)].action == Deleting
  {
    hide Owned, Gate, Id;
  }

  lemma FinalizeKeepsCondemned(s: State, c: Claim, i: nat)
    requires Sound(s) && c in s.workers && Condemned(s, i)
    ensures var s' := U.FinalizeUpdate(s, c); InstanceRow(i) in s'.core.life && s'.core.life[InstanceRow(i)].action == Deleting
  {
    var s' := U.FinalizeUpdate(s, c);
    if s' != s {
      FinalizeLife(s, c);
      CleanupRow(s.core, c);
      hide Sound, U.FinalizeUpdate, Owned, U.Orphans, U.Settle, Id, WorkerSteps.WorkspaceRows;
    }
  }

  lemma CalmKeepsCondemned(s: State, s': State, c: Claim, i: nat)
    requires WorkFenced(s, s', c) && c.resource != Some(InstanceRow(i)) && Condemned(s, i) && InstanceRow(i) in s'.core.life
    ensures s'.core.life[InstanceRow(i)].action == Deleting
  {
    FencedIsCalm(s.core, s'.core, c);
    hide Fenced, OnlyWorker, Busy;
  }

  lemma RemoveLocalKeepsCondemned(s: State, c: Claim, i: nat)
    requires Sound(s) && c in s.workers && Condemned(s, i) && InstanceRow(i) in D.RemoveLocal(s, c).core.life
    ensures D.RemoveLocal(s, c).core.life[InstanceRow(i)].action == Deleting
  {
    var s' := D.RemoveLocal(s, c);
    if s' != s {
      hide D.RemoveLocal, Sound, WorkFenced, D.AssignmentsOf, D.WorkspacesOf, D.MembersOf, Owned, Condemned, LifeWithout, Id;
      RemoveLocalErases(s, c);
      RemoveLocalFenced(s, c);
      InstanceRowGone(s, s', c, D.AssignmentsOf(s, Id(c)), D.WorkspacesOf(s, Id(c)));
      CalmKeepsCondemned(s, s', c, i);
    }
  }

  lemma RemoveAssignmentKeepsCondemned(s: State, c: Claim, i: nat)
    requires Sound(s) && c in s.workers && Condemned(s, i) && InstanceRow(i) in T.RemoveAssignment(s, c).core.life
    ensures T.RemoveAssignment(s, c).core.life[InstanceRow(i)].action == Deleting
  {
    var s' := T.RemoveAssignment(s, c);
    if s' != s {
      hide T.RemoveAssignment, Sound, WorkFenced, T.PairWorkspaces, Owned, Condemned, Erases, Id;
      RemoveAssignmentErases(s, c);
      RemoveAssignmentFenced(s, c);
      CalmKeepsCondemned(s, s', c, i);
    }
  }

  lemma FinishDeleteWorkspaceKeepsCondemned(s: State, c: Claim, i: nat)
    requires Sound(s) && c in s.workers && Condemned(s, i) && InstanceRow(i) in W.FinishDeleteWorkspace(s, c).core.life
    ensures W.FinishDeleteWorkspace(s, c).core.life[InstanceRow(i)].action == Deleting
  {
    var s' := W.FinishDeleteWorkspace(s, c);
    if s' != s {
      hide W.FinishDeleteWorkspace, Sound, WorkFenced, Owned, Condemned, Erases, Id;
      FinishDeleteWorkspaceErases(s, c);
      FinishDeleteWorkspaceFenced(s, c);
      CalmKeepsCondemned(s, s', c, i);
    }
  }

  lemma FencedIsCalm(core: Core, core': Core, c: Claim)
    requires Fenced(core, core', c)
    ensures Calm(core, core', c.resource)
  {}

  lemma RequestKeepsCondemned(s: State, request: Request, i: nat)
    requires Good(s) && Condemned(s, i)
    ensures Condemned(Answer(s, request).0, i)
  {
    hide Good, Sound, Keyed, Linked, LocalsFit, AnswerInstance, AnswerTemplate, AnswerWorkspace, Protocol.Inv, Protocol.Evolves;
    GoodSound(s);
    SoundInv(s);
    FreshRows(s);
    if Names(request, i) {
      DeletionRefuses(s, request, i);
    } else {
      match request
      case ToInstance(r) => InstanceRequestAsks(s, r); if InstanceOf(s, r) == i { ObservationKeepsLife(s, r); }
      case ToTemplate(r) => TemplateRequestAsks(s, r); TemplateTargetKind(s, r);
      case ToWorkspace(r) => WorkspaceRequestAsks(s, r);
    }
  }

  lemma ObservationKeepsLife(s: State, r: InstanceRequest)
    requires r.ObserveState?
    ensures AnswerInstance(s, r).0.core == s.core && AnswerInstance(s, r).0.instances.Keys == s.instances.Keys
  {}

  /** Accepting a deletion is irrevocable: until the instance is gone it stays being deleted. */
  lemma CondemnedStays(s: State, e: Event, i: nat)
    requires Good(s) && Condemned(s, i) && i in Apply(s, e).instances
    ensures Condemned(Apply(s, e), i)
  {
    hide Good, Sound, Keyed, Linked, LocalsFit, DoWork, Answer, WorkerSteps.Deliver, WorkerSteps.Reclaim, Condemned, Redelivers;
    GoodSound(s);
    match e
    case Deliver(id, task, now) => DeliverRedelivers(s, id, task, now); RedeliveryKeepsCondemned(s, Apply(s, e), i);
    case Reclaim(id, staleBefore) => ReclaimRedelivers(s, id, staleBefore); RedeliveryKeepsCondemned(s, Apply(s, e), i);
    case Work(c, act) => if c in s.workers { WorkKeepsCondemned(s, c, act, i); } else { StrangersStutter(s, c, act); }
    case Ask(request) => RequestKeepsCondemned(s, request, i);
  }

  lemma RedeliveryKeepsCondemned(s: State, s': State, i: nat)
    requires Redelivers(s, s') && Condemned(s, i)
    ensures Condemned(s', i)
  {
    assert StatusesMove(s.core.life, s'.core.life);
    hide CoreRedelivers;
  }

  // ---------- the administrator's password ----------

  lemma AnswerIsQuiet(s: State, request: Request)
    requires Sound(s) && Keyed(s)
    ensures Quiet(s, Answer(s, request).0)
  {
    hide Sound, Keyed, Quiet, AnswerInstance, AnswerTemplate, AnswerWorkspace;
    match request
    case ToInstance(r) => InstanceRequestIsQuiet(s, r);
    case ToTemplate(r) => TemplateRequestIsQuiet(s, r);
    case ToWorkspace(r) => WorkspaceRequestIsQuiet(s, r);
  }

  lemma WorkKeepsPassword(s: State, c: Claim, act: Act, i: nat)
    requires OnePassword(s) && c in s.workers
    ensures SecretsStay(s.secrets, DoWork(s, c, act).secrets)
    ensures i in s.instances && i in DoWork(s, c, act).instances && s.instances[i].password.Some? ==>
              DoWork(s, c, act).instances[i].password == s.instances[i].password
  {
    hide OnePassword, SecretsStay, Plain, U.FinalizeUpdate, D.RemoveLocal, T.RemoveAssignment, W.FinishDeleteWorkspace, OnCommon, OnCreate;
    if !Deletes(act) {
      WorkIsPlain(s, c, act);
      PlainKeepsPassword(s, DoWork(s, c, act), c);
      PlainKeepsStored(s, DoWork(s, c, act), c, i);
    } else {
      if act.Update? { FinalizeIsQuiet(s, c); }
      else if act.Teardown? { RemoveLocalIsQuiet(s, c); }
      else if act.OfTemplate? { RemoveAssignmentIsQuiet(s, c); }
      else { FinishDeleteWorkspaceIsQuiet(s, c); }
      QuietKeepsPassword(s, DoWork(s, c, act));
      hide WorkersQuiet, LogQuiet;
    }
  }

  lemma PlainKeepsStored(s: State, s': State, c: Claim, i: nat)
    requires Plain(s, s', c)
    ensures i in s.instances && i in s'.instances && s.instances[i].password.Some? ==>
              s'.instances[i].password == s.instances[i].password
  {
    assert InstancesTouched(s, s', c);
    hide Plain, Owned, Id, CredentialsMove;
  }

  /** A stored password is never cleared and never changes. */
  lemma PasswordStays(s: State, e: Event, i: nat)
    requires Good(s) && i in s.instances && i in Apply(s, e).instances && s.instances[i].password.Some?
    ensures Apply(s, e).instances[i].password == s.instances[i].password
  {
    hide Good, Sound, Keyed, Linked, LocalsFit, DoWork, Answer, WorkerSteps.Deliver, WorkerSteps.Reclaim, OnePassword, WorkersQuiet, LogQuiet, Redelivers;
    GoodSound(s);
    GoodPassword(s);
    match e
    case Deliver(id, task, now) => DeliverRedelivers(s, id, task, now); RedeliveryIsQuiet(s, Apply(s, e));
    case Reclaim(id, staleBefore) => ReclaimRedelivers(s, id, staleBefore); RedeliveryIsQuiet(s, Apply(s, e));
    case Work(c, act) => if c in s.workers { WorkKeepsPassword(s, c, act, i); } else { StrangersStutter(s, c, act); }
    case Ask(request) => AnswerIsQuiet(s, request);
  }

  lemma GoodPassword(s: State)
    requires Good(s)
    ensures OnePassword(s)
  {}

  /** Across every crash, retry and stale worker, all bootstrap calls for one instance carried one
      password, and the password the instance stores is that one. */
  lemma OneBootstrapPassword(events: seq<Event>, i: nat, p: string, q: string)
    requires var s := Run(START, events); SentBootstrap(i, p) in s.log
    ensures SentBootstrap(i, q) in Run(START, events).log ==> q == p
    ensures var s := Run(START, events); i in s.instances && s.instances[i].password.Some? ==> s.instances[i].password.value == p
  {
    hide Good, Run, OnePassword;
    ReachableIsGood(events);
    GoodPassword(Run(START, events));
    BootstrapAgrees(Run(START, events), i, p, q);
  }

  // ---------- prerequisites, publication, revisions ----------

  /** A current attempt on an instance never misses the instance, its allocation or its credentials. */
  lemma InstanceAttemptHasAll(events: seq<Event>, c: Claim)
    requires var s := Run(START, events); c in s.workers && Owned(s.core, c) && OnInstance(c.step)
    ensures var s := Run(START, events);
            && Id(c) in s.instances && Id(c) in s.allocations
            && (NeedsReadyInstance(c.step) ==> Ready(s.instances[Id(c)]))
            && (c.step == BootstrapAdmin ==> s.instances[Id(c)].argoName.Some?)
  {
    hide Good, Run, Owned, Id, Sound, Keyed, Linked, LocalsFit, Prepared, AssignedReady, OnInstance, NeedsReadyInstance;
    ReachableIsGood(events);
    GoodSound(Run(START, events));
    GoodReady(Run(START, events));
    InstancePrerequisites(Run(START, events), c);
  }

  /** A current attempt on a workspace never misses what its snapshot reads. */
  lemma WorkspaceAttemptHasAll(events: seq<Event>, c: Claim)
    requires var s := Run(START, events); c in s.workers && Owned(s.core, c) && W.IsWorkspaceStep(c.step)
    ensures W.RemoteReady(Run(START, events), Id(c))
  {
    hide Good, Run, Owned, Id, Sound, Keyed, Linked, LocalsFit, Prepared, AssignedReady, Homely, W.RemoteReady;
    ReachableIsGood(events);
    GoodSound(Run(START, events));
    GoodReady(Run(START, events));
    GoodHomes(Run(START, events));
    WorkspacePrerequisites(Run(START, events), c);
  }

  /** A current attempt on a template or an assignment finds its row, and whatever assignment it
      reaches, the instance's password is stored. */
  lemma TemplateAttemptHasAll(events: seq<Event>, c: Claim, a: nat)
    requires var s := Run(START, events); c in s.workers && Owned(s.core, c)
    ensures var s := Run(START, events);
            && (c.step == Step.SyncTemplate ==> Id(c) in s.templates)
            && (c.step == Step.CreateTemplate || c.step == Step.DeleteTemplate ==> Id(c) in s.assignments)
            && (a in s.assignments ==> T.TargetExists(s, a) && s.instances[s.assignments[a].instance].password.Some?)
  {
    hide Good, Run, Owned, Id, Sound, Keyed, Linked, LocalsFit, Prepared, AssignedReady;
    ReachableIsGood(events);
    GoodSound(Run(START, events));
    GoodReady(Run(START, events));
    TemplatePrerequisites(Run(START, events), c, a);
  }

  lemma GoodHomes(s: State)
    requires Good(s)
    ensures Homely(s)
  {}

  lemma GoodPublishes(s: State)
    requires Good(s)
    ensures PublishOk(s)
  {}

  lemma GoodBuilds(s: State)
    requires Good(s)
    ensures BuildsOk(s)
  {}

  lemma GoodPool(s: State)
    requires Good(s)
    ensures Pooled(s.databases, s.allocations)
  {}

  /** When a synchronisation succeeds, every target it selected runs the fetched commit at the
      template's current revision. */
  lemma SynchronisedTargets(events: seq<Event>, c: Claim, a: nat)
    requires var s := Run(START, events); c in s.workers && T.FinishPublication(s, c) != s && a in s.workers[c].targets
    ensures var s := Run(START, events); var s' := T.FinishPublication(s, c); var t := T.TemplateOf(s, c);
            s.workers[c].Publishing? && t in s'.templates && Settled(s', a, s.workers[c].commit, s'.templates[t].revision)
  {
    hide Good, Run, T.FinishPublication, Campaigning, BusyLive, SuccessKnown, CreatedKnown;
    ReachableIsGood(events);
    GoodPublishes(Run(START, events));
    PublicationComplete(Run(START, events), c, a);
  }

  /** Every workspace has a created or departing assignment of its pair with a known remote template, and
      an owner who is not being deleted. */
  lemma WorkspacesAreHome(events: seq<Event>, w: nat)
    requires w in Run(START, events).workspaces
    ensures var s := Run(START, events);
            && (exists a :: IsHome(s.core.life, s.assignments, a, s.workspaces[w]))
            && s.workspaces[w].member in s.members && s.members[s.workspaces[w].member].action != Deleting
  {
    hide Good, Run, IsHome;
    ReachableIsGood(events);
    GoodHomes(Run(START, events));
  }

  /** No reachable end of an update and no reachable deletion of a template takes a workspace along. */
  lemma NothingCascades(events: seq<Event>, c: Claim, t: nat)
    ensures var s := Run(START, events);
            && U.FinalizeUpdate(s, c).workspaces == s.workspaces
            && TR.DeleteTemplate(s, t).0.workspaces == s.workspaces
            && TR.DeleteTemplate(s, t).1 != Refused(Referenced)
  {
    hide Good, Run, Homely, U.FinalizeUpdate, TR.DeleteTemplate;
    var s := Run(START, events);
    ReachableIsGood(events);
    GoodHomes(s);
    FinalizeKeepsWorkspaces(s, c);
    DropTemplateMeetsNoWorkspace(s, t);
    DropTemplateKeepsWorkspaces(s, t);
  }

  lemma DropTemplateKeepsWorkspaces(s: State, t: nat)
    ensures TR.DeleteTemplate(s, t).0.workspaces == s.workspaces
  {
    hide DiscardJob, DeleteRows;
  }

  /** A created assignment always has a known remote template. */
  lemma CreatedIsPublished(events: seq<Event>, a: nat)
    requires var s := Run(START, events);
             a in s.assignments && AssignmentRow(a) in s.core.life && s.core.life[AssignmentRow(a)].action == Created
    ensures TemplateKnown(Run(START, events).assignments[a])
  {
    hide Good, Run, Campaigning, BusyLive, SuccessKnown, TemplateKnown;
    ReachableIsGood(events);
    GoodPublishes(Run(START, events));
  }

  /** The applied revision never runs ahead, and a completed creation or update leaves the current
      revision applied, carried by a build this attempt saw running unless it already was. */
  lemma CompletedWorkspace(events: seq<Event>, c: Claim)
    requires var s := Run(START, events); c in s.workers && W.FinishWorkspace(s, c) != s
    ensures var s := Run(START, events); var s', w := W.FinishWorkspace(s, c), Id(c);
            && w in s.workspaces && w in s'.workspaces
            && s'.workspaces[w].applied == Some(s'.workspaces[w].revision)
            && s'.workspaces[w].parameters == s.workspaces[w].parameters
            && (s.workspaces[w].applied.Some? ==> s.workspaces[w].applied.value <= s.workspaces[w].revision)
            && (s'.workspaces[w].applied != s.workspaces[w].applied ==>
                  s.workers[c].BuildRunning?
                  && s.workers[c].carried == W.Restrict(s'.workspaces[w].parameters, s.workers[c].names))
  {
    hide Good, Run, W.FinishWorkspace, Id, BuildsFit, W.Restrict;
    ReachableIsGood(events);
    GoodBuilds(Run(START, events));
    CompletionApplies(Run(START, events), c);
  }

  /** Every capacity is respected in every run. */
  lemma PoolWithinCapacity(events: seq<Event>, unique: bool)
    ensures var s := Run(START, events);
            && Placement.WithinCapacity(s.databases, s.allocations)
            && (IR.CreateInstance(s, unique).1 == Refused(NoCapacity)
                <==> forall d <- s.databases :: Placement.Count(s.allocations, d) >= s.databases[d].capacity)
  {
    hide Good, Run, IR.CreateInstance, Placement.WithinCapacity, Placement.PoolOk, Placement.Count;
    ReachableIsGood(events);
    GoodPool(Run(START, events));
    RefusedIffFull(Run(START, events), unique);
  }

  // ---------- members ----------

  /** The one hypothesis on runs: members are taken for an update only where that is harmless. */
  ghost predicate CarefulEvent(s: State, e: Event) {
    e.Work? && e.act == Update(ClaimMembers) ==> Careful(s, e.c)
  }

  ghost predicate CarefulRun(s: State, events: seq<Event>)
    decreases |events|
  {
    events == [] || (CarefulEvent(s, events[0]) && CarefulRun(Apply(s, events[0]), events[1..]))
  }

  lemma CommonKeepsMembers(s: State, c: Claim, act: CommonAct)
    ensures OnCommon(s, c, act).members == s.members
  {
    hide FailExecution, DeferExecution, CompleteExecution, HeartbeatExecution, Owned;
  }

  lemma UpdateClaims(s: State, c: Claim, act: UpdateAct)
    requires c.step == Step.UpdateInstance && act != ClaimMembers
    ensures OnUpdate(s, c, act).members == s.members || Owned(s.core, c)
  {
    hide U.SetStatus, U.Held, U.Claimed, U.PolicyOf, U.Unsettled, U.ExpectedNames, U.Reconciled, U.Settle, U.Orphans, Id;
    hide Owned, FailExecution, DeferExecution, CompleteExecution, HeartbeatExecution, AdvanceExecution, DeleteRows, RequestJob;
  }

  /** Besides taking them, a step at the policy writes members only through the fence. */
  lemma OnlyClaimingClaims(s: State, c: Claim, act: Act)
    requires c.step == Step.UpdateInstance && act != Update(ClaimMembers)
    ensures DoWork(s, c, act).members == s.members || Owned(s.core, c)
  {
    hide OnCommon, OnCreate, OnUpdate, OnTeardown, OnTemplate, OnWorkspace, Owned;
    match act
    case Common(a) => CommonKeepsMembers(s, c, a);
    case Create(a) => CreateActsOnCreate(s, c, a);
    case Update(a) => UpdateClaims(s, c, a);
    case Teardown(a) => TeardownActsOnTeardown(s, c, a);
    case OfTemplate(a) => TemplateActsOnTemplates(s, c, a);
    case OfWorkspace(a) => WorkspaceActsOnWorkspaces(s, c, a);
  }

  lemma WorkKeepsCovered(s: State, c: Claim, act: Act)
    requires Good(s) && Covered(s) && CarefulEvent(s, Event.Work(c, act))
    ensures Covered(DoWork(s, c, act))
  {
    hide Good, Sound, Keyed, Linked, LocalsFit, Covered, Plain, OnCommon, OnCreate, U.FinalizeUpdate, D.RemoveLocal, T.RemoveAssignment;
    hide W.FinishDeleteWorkspace, Careful;
    GoodSound(s);
    if c !in s.workers {
      StrangersStutter(s, c, act);
    } else if act == Update(ClaimMembers) {
      ClaimKeepsCovered(s, c);
    } else if !Deletes(act) {
      WorkIsPlain(s, c, act);
      if c.step == Step.UpdateInstance { OnlyClaimingClaims(s, c, act); }
      PlainKeepsCoverage(s, DoWork(s, c, act), c);
    } else if act.Update? {
      Coverage.FinalizeKeepsCoverage(s, c);
    } else if act.Teardown? {
      RemoveLocalKeepsCoverage(s, c);
    } else if act.OfTemplate? {
      RemoveAssignmentKeepsCoverage(s, c);
    } else {
      FinishDeleteWorkspaceKeepsCoverage(s, c);
    }
  }

  lemma ClaimKeepsCovered(s: State, c: Claim)
    requires Good(s) && Covered(s) && Careful(s, c)
    ensures Covered(DoWork(s, c, Update(ClaimMembers)))
  {
    hide Good, Sound, Keyed, Linked, LocalsFit, Covered, Harmless, U.SetStatus, U.Unsettled, U.PolicyOf, Id;
    GoodSound(s);
    if Takes(s, c) { TakingCovers(s, c); }
  }

  lemma RequestKeepsCovered(s: State, request: Request)
    requires Good(s) && Covered(s)
    ensures Covered(Answer(s, request).0)
  {
    hide Good, Sound, Keyed, Linked, LocalsFit, Covered, AnswerInstance, AnswerTemplate, AnswerWorkspace, Asked, TemplateTarget, WorkspaceTarget;
    GoodSound(s);
    match request
    case ToInstance(r) => InstanceRequestKeepsCoverage(s, r);
    case ToTemplate(r) =>
      TemplateRequestFields(s, r);
      OtherRequestKeepsCoverage(s, AnswerTemplate(s, r).0, TemplateTarget(s, r));
    case ToWorkspace(r) =>
      WorkspaceRequestFields(s, r);
      OtherRequestKeepsCoverage(s, AnswerWorkspace(s, r).0, WorkspaceTarget(s, r));
  }

  lemma ApplyKeepsCovered(s: State, e: Event)
    requires Good(s) && Covered(s) && CarefulEvent(s, e)
    ensures Covered(Apply(s, e))
  {
    hide Good, Sound, Keyed, Linked, LocalsFit, Covered, DoWork, Answer, WorkerSteps.Deliver, WorkerSteps.Reclaim, Redelivers, CarefulEvent;
    GoodSound(s);
    match e
    case Deliver(id, task, now) => DeliverRedelivers(s, id, task, now); RedeliveryKeepsCoverage(s, Apply(s, e));
    case Reclaim(id, staleBefore) => ReclaimRedelivers(s, id, staleBefore); RedeliveryKeepsCoverage(s, Apply(s, e));
    case Work(c, act) => WorkKeepsCovered(s, c, act);
    case Ask(request) => RequestKeepsCovered(s, request);
  }

  lemma {:induction false} CarefulRunCovers(s: State, events: seq<Event>)
    requires Good(s) && Covered(s) && CarefulRun(s, events)
    ensures Good(Run(s, events)) && Covered(Run(s, events))
    decreases |events|
  {
    hide Good, Covered, Apply, CarefulEvent;
    if events != [] {
      ApplyKeepsGood(s, events[0]);
      ApplyKeepsCovered(s, events[0]);
      CarefulRunCovers(Apply(s, events[0]), events[1..]);
    }
  }

  lemma CarefulIsCovered(events: seq<Event>)
    requires CarefulRun(START, events)
    ensures Good(Run(START, events)) && Covered(Run(START, events))
  {
    StartIsGood();
    assert Covered(START);
    hide Good, Covered, Run, CarefulRun;
    CarefulRunCovers(START, events);
  }

  /** No accepted member change is lost. The end of an update settles only members whose current name
      and role were in a policy accepted in the same job, and it ends in success with every member
      settled or hands the instance to a fresh update in the same transaction. */
  lemma NoMemberChangeIsLost(events: seq<Event>, c: Claim, m: nat)
    requires CarefulRun(START, events)
    requires var s := Run(START, events); c in s.workers && U.FinalizeUpdate(s, c) != s
    ensures var s := Run(START, events); var s' := U.FinalizeUpdate(s, c);
            m in s.members && m in s'.members && s.members[m].status != Success && s'.members[m].status == Success ==>
              exists policy :: AcceptedPolicy(c.job, policy) in s.log && (s'.members[m].username, s'.members[m].role) in policy
    ensures var s := Run(START, events); var s', k := U.FinalizeUpdate(s, c), InstanceRow(Id(c));
            && k in s'.core.life
            && (|| (s'.core.life[k].status == Success && SettledMembers(s'.members, Id(c)))
                || s'.core.life[k] == Life(Updating, Pending, Some(s.core.nextId), Some(Step.UpdateInstance)))
  {
    hide Good, Covered, Run, CarefulRun, U.FinalizeUpdate, Id, SettledMembers, Sound, Keyed, Linked, LocalsFit;
    var s := Run(START, events);
    CarefulIsCovered(events);
    GoodSound(s);
    EndsSettledOrRestaged(s, c);
    var s' := U.FinalizeUpdate(s, c);
    if m in s.members && m in s'.members && s.members[m].status != Success && s'.members[m].status == Success {
      SettledWasAccepted(s, c, m);
    }
  }

  // ---------- only the end of an update settles members ----------

  ghost predicate NoneSettled(members: map<nat, Member>, members': map<nat, Member>) {
    forall m | m in members && m in members' :: members'[m].status == Success ==> members[m].status == Success
  }

  lemma InstanceRequestSettlesNone(s: State, r: InstanceRequest)
    ensures NoneSettled(s.members, AnswerInstance(s, r).0.members)
  {
    hide IR.MemberRefusal, IR.UsernameTaken, IR.StageUpdate, IR.StagedJob, IR.HasActiveAssignment, RequestJob, Placement.Place;
    hide IR.LifecycleRefusal;
  }

  lemma RequestSettlesNone(s: State, request: Request)
    requires Sound(s) && Keyed(s)
    ensures NoneSettled(s.members, Answer(s, request).0.members)
  {
    hide Sound, Keyed, AnswerInstance, AnswerTemplate, AnswerWorkspace, Asked, TemplateTarget, WorkspaceTarget;
    match request
    case ToInstance(r) => InstanceRequestSettlesNone(s, r);
    case ToTemplate(r) => TemplateRequestFields(s, r);
    case ToWorkspace(r) => WorkspaceRequestFields(s, r);
  }

  lemma WorkSettlesNone(s: State, c: Claim, act: Act)
    requires Sound(s) && c in s.workers && act != Update(FinalizeUpdate)
    ensures NoneSettled(s.members, DoWork(s, c, act).members)
  {
    hide Sound, Plain, D.RemoveLocal, T.RemoveAssignment, W.FinishDeleteWorkspace, OnCommon, OnCreate, SameRows, D.MembersOf, D.AssignmentsOf, D.WorkspacesOf;
    if !Deletes(act) {
      WorkIsPlain(s, c, act);
      PlainSettlesNone(s, DoWork(s, c, act), c);
    } else if act.Teardown? {
      RemoveLocalMoves(s, c);
    } else if act.OfTemplate? {
      RemovalKeepsMembers(s, c);
    } else {
      RemovalKeepsMembers(s, c);
    }
  }

  lemma RemovalKeepsMembers(s: State, c: Claim)
    ensures T.RemoveAssignment(s, c).members == s.members && W.FinishDeleteWorkspace(s, c).members == s.members
  {
    hide Owned, DeleteRows, CompleteAndDelete, T.PairWorkspaces, Id;
  }

  lemma PlainSettlesNone(s: State, s': State, c: Claim)
    requires Sound(s) && c in s.workers && Plain(s, s', c)
    ensures NoneSettled(s.members, s'.members)
  {
    hide Sound, Plain, SameKeys, SameInstances, SameAssignments, SameWorkspaces;
    PlainSameRows(s, s', c);
  }

  /** A member becomes settled by the end of an update and by nothing else. */
  lemma OnlyUpdatesSettle(s: State, e: Event, m: nat)
    requires Good(s) && m in s.members && m in Apply(s, e).members
    requires s.members[m].status != Success && Apply(s, e).members[m].status == Success
    ensures e.Work? && e.act == Update(FinalizeUpdate) && e.c in s.workers && U.FinalizeUpdate(s, e.c) != s
  {
    hide Good, Sound, Keyed, Linked, LocalsFit, DoWork, Answer, WorkerSteps.Deliver, WorkerSteps.Reclaim;
    GoodSound(s);
    match e
    case Deliver(id, task, now) => DeliverRedelivers(s, id, task, now);
    case Reclaim(id, staleBefore) => ReclaimRedelivers(s, id, staleBefore);
    case Work(c, act) =>
      if c !in s.workers { StrangersStutter(s, c, act); }
      else if act != Update(FinalizeUpdate) { WorkSettlesNone(s, c, act); }
      else { FinalizeIsTheAct(s, c); }
    case Ask(request) => RequestSettlesNone(s, request);
  }

  lemma FinalizeIsTheAct(s: State, c: Claim)
    ensures DoWork(s, c, Update(FinalizeUpdate)) == U.FinalizeUpdate(s, c)
  {
    hide U.FinalizeUpdate;
  }
}
