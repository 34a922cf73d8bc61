/** Every event of the system is a sound move of the protocol. */
module Soundness {
  import opened Records
  import opened Execution
  import opened Store
  import opened Events
  import opened Fencing
  import opened Frames
  import opened WorkerSteps
  import Protocol
  import U = UpdateSteps
  import D = TeardownSteps
  import T = TemplateSteps
  import W = WorkspaceSteps

  ghost predicate WorkFenced(s: State, s': State, c: Claim) {
    Fenced(s.core, s'.core, c) && OnlyWorker(s, s', c)
  }

  lemma AdvancesFenced(core: Core, core': Core, c: Claim)
    requires Protocol.Inv(core) && c in core.claims && Advances(core, core', c)
    ensures Fenced(core, core', c)
  {
    AdvanceFenced(core, c, NextStep(InstanceUpdate, c.step).value);
  }

  lemma StepFenced(s: State, s': State, c: Claim)
    requires Sound(s) && c in s.workers && CoreStep(s, s', c)
    ensures Fenced(s.core, s'.core, c)
  {
    hide Fenced, Protocol.Inv, Owned, Advances, Gate, AdvanceExecution, FailExecution, DeferExecution, CompleteExecution, HeartbeatExecution;
    if s'.core == s.core { StutterFenced(s.core, c); }
    else if s'.core == FailExecution(s.core, c) { WorkerFenced(s.core, c, Protocol.Fail(c)); }
    else if s'.core == DeferExecution(s.core, c) { WorkerFenced(s.core, c, Protocol.Defer(c)); }
    else if now :| s'.core == HeartbeatExecution(s.core, c, now) { HeartbeatFenced(s.core, c, now); }
    else if Advances(s.core, s'.core, c) { AdvancesFenced(s.core, s'.core, c); }
    else { WorkerFenced(s.core, c, Protocol.Complete(c, if c.step == Step.CreateTemplate then Some(Created) else None)); }
  }

  /** How a step that inserts and deletes nothing moves the row its token owns. */
  predicate RowMoves(s: State, s': State, c: Claim, row: Life, row': Life) {
    || (row'.status == Error && row' == row.(status := Error))
    || (row'.status == Pending && row' == row.(status := Pending))
    || (&& c in s.workers && Gate(s, s', c) && NextStep(InstanceUpdate, c.step).Some?
        && (c.step == BootstrapAdmin && c.job in s.core.jobs ==> s.core.jobs[c.job].name == InstanceUpdate)
        && row' == row.(status := Pending, step := NextStep(InstanceUpdate, c.step)))
    || (&& c in s.workers && Gate(s, s', c) && Completes(c.step)
        && row' == Life(if c.step == Step.CreateTemplate then Created else row.action, Success, row.job, None))
  }

  ghost predicate LifeMoves(s: State, s': State, c: Claim) {
    || s'.core.life == s.core.life
    || (&& Owned(s.core, c) && c.resource.Some? && c.resource.value in s.core.life && c.resource.value in s'.core.life
        && s'.core.life == s.core.life[c.resource.value := s'.core.life[c.resource.value]]
        && RowMoves(s, s', c, s.core.life[c.resource.value], s'.core.life[c.resource.value]))
  }

  lemma WriteMovesLife(core: Core, c: Claim, job: Job, action: Option<Action>, step: Option<Step>)
    requires Protocol.Inv(core) && c in core.claims && Owned(core, c) && job.resource == core.jobs[c.job].resource
    ensures var core' := Write(core, c.job, job, action, step);
            if c.resource.None? then core'.life == core.life
            else && c.resource.value in core.life
                 && core.life[c.resource.value].status == Running && core.life[c.resource.value].step == Some(c.step)
                 && core'.life == core.life[c.resource.value :=
                      Life(if action.Some? then action.value else core.life[c.resource.value].action, job.status,
                           core.life[c.resource.value].job, step)]
  {
    OwnedRow(core, c);
  }

  lemma StepMovesLife(s: State, s': State, c: Claim)
    requires Sound(s) && c in s.workers && CoreStep(s, s', c)
    ensures LifeMoves(s, s', c)
  {
    if Owned(s.core, c) {
      var job := s.core.jobs[c.job];
      hide Owned, Gate, Protocol.Inv, ActionOf, Write, NextStep;
      if s'.core == FailExecution(s.core, c) {
        WriteMovesLife(s.core, c, job.(status := Error, claimedAt := None), None, Some(c.step));
      } else if s'.core == DeferExecution(s.core, c) {
        WriteMovesLife(s.core, c, job.(status := Pending, claimedAt := None), None, Some(c.step));
      } else if Gate(s, s', c) && Advances(s.core, s'.core, c) {
        var next := NextStep(InstanceUpdate, c.step).value;
        WriteMovesLife(s.core, c, job.(task := next, step := next, status := Pending, claimedAt := None), None, Some(next));
      } else if Gate(s, s', c) && Completes(c.step) {
        WriteMovesLife(s.core, c, job.(status := Success, claimedAt := None),
                       if c.step == Step.CreateTemplate then Some(Created) else None, None);
      }
    } else {
      hide Protocol.Inv, Gate;
    }
  }

  function RowAt(step: Step, id: nat): Option<Resource> {
    if OnInstance(step) then Some(InstanceRow(id))
    else if step == Step.SyncTemplate then Some(TemplateRow(id))
    else if step == Step.CreateTemplate || step == Step.DeleteTemplate then Some(AssignmentRow(id))
    else if W.IsWorkspaceStep(step) then Some(WorkspaceRow(id))
    else None
  }

  /** The step of a current attempt says which table its row is in; the row names the attempt's job. */
  lemma OwnedResource(core: Core, c: Claim)
    requires Protocol.Inv(core) && c in core.claims && Owned(core, c)
    ensures c.resource == RowAt(c.step, Id(c)) && InWorkflow(core.jobs[c.job].name, c.step)
    ensures c.resource.Some? ==>
              && c.resource.value in core.life
              && core.life[c.resource.value] == Life(ActionOf(core.jobs[c.job].name).value, Running, Some(c.job), Some(c.step))
  {
    OwnedRow(core, c);
    hide Protocol.Inv, Owned;
  }

  // ---------- transactions that delete rows ----------

  lemma FinalizeMoves(s: State, c: Claim)
    requires c in s.workers && s.workers[c].CleanupDone?
    ensures var s' := U.FinalizeUpdate(s, c);
            var orphans := U.Orphans(s, U.Settle(s.members, Id(c), s.workers[c].claimed));
            var done := DeleteRows(CompleteExecution(s.core, c, None), WorkspaceRows(orphans));
            s' == s || (&& Owned(s.core, c) && c.step == CleanupUsers && s'.workers == s.workers
                        && (s'.core == done || s'.core == RequestJob(done, InstanceRow(Id(c)), InstanceUpdate, Step.UpdateInstance)))
  {
    hide Owned, CompleteExecution, DeleteRows, RequestJob, WorkspaceRows, U.Orphans, U.Settle, Id;
  }

  lemma SameWorkers(s: State, s': State, c: Claim)
    requires s'.workers == s.workers && Fenced(s.core, s'.core, c)
    ensures WorkFenced(s, s', c)
  {
    hide Fenced;
  }

  lemma FinalCoreFenced(core: Core, c: Claim, ks: set<Resource>)
    requires Protocol.Inv(core) && c in core.claims && Owned(core, c) && c.step == CleanupUsers
    ensures c.resource.Some? && c.resource.value == InstanceRow(Id(c))
    ensures var done := DeleteRows(CompleteExecution(core, c, None), ks);
            && Fenced(core, done, c)
            && Fenced(core, RequestJob(done, InstanceRow(Id(c)), InstanceUpdate, Step.UpdateInstance), c)
  {
    OwnedRow(core, c);
    hide Owned, Fenced, Protocol.Inv, DeleteRows, RequestJob, CompleteExecution;
    WorkerFenced(core, c, Protocol.Complete(c, None));
    DeleteFenced(core, CompleteExecution(core, c, None), c, ks);
    RestageFenced(core, DeleteRows(CompleteExecution(core, c, None), ks), c);
  }

  lemma FinalizeFenced(s: State, c: Claim)
    requires Sound(s) && c in s.workers
    ensures WorkFenced(s, U.FinalizeUpdate(s, c), c)
  {
    var s' := U.FinalizeUpdate(s, c);
    if s' == s {
      StutterFenced(s.core, c);
    } else {
      FinalizeMoves(s, c);
      var orphans := U.Orphans(s, U.Settle(s.members, Id(c), s.workers[c].claimed));
      hide Owned, WorkFenced, Fenced, Protocol.Inv, U.FinalizeUpdate, DeleteRows, RequestJob, CompleteExecution, U.Orphans, U.Settle, WorkspaceRows;
      FinalCoreFenced(s.core, c, WorkspaceRows(orphans));
      SameWorkers(s, s', c);
    }
  }

  lemma DeletionFenced(s: State, s': State, c: Claim, ks: set<Resource>)
    requires Sound(s) && c in s.workers
    requires s' == s || (Owned(s.core, c) && s'.workers == s.workers && s'.core == DeleteRows(CompleteAndDelete(s.core, c), ks))
    ensures WorkFenced(s, s', c)
  {
    hide Fenced, WorkFenced, Protocol.Inv, DeleteRows, CompleteAndDelete, Owned;
    if s' == s {
      StutterFenced(s.core, c);
    } else {
      CompleteAndDeleteFenced(s.core, c);
      DeleteFenced(s.core, CompleteAndDelete(s.core, c), c, ks);
    }
    SameWorkers(s, s', c);
  }

  lemma RemoveLocalFenced(s: State, c: Claim)
    requires Sound(s) && c in s.workers
    ensures WorkFenced(s, D.RemoveLocal(s, c), c)
  {
    hide Owned, WorkFenced, Sound, DeleteRows, CompleteAndDelete, WorkspaceRows, AssignmentRows, D.WorkspacesOf, D.AssignmentsOf, D.MembersOf;
    DeletionFenced(s, D.RemoveLocal(s, c), c,
                   WorkspaceRows(D.WorkspacesOf(s, Id(c))) + AssignmentRows(D.AssignmentsOf(s, Id(c))));
  }

  lemma RemoveAssignmentFenced(s: State, c: Claim)
    requires Sound(s) && c in s.workers
    ensures WorkFenced(s, T.RemoveAssignment(s, c), c)
  {
    hide Owned, WorkFenced, Sound, DeleteRows, CompleteAndDelete, WorkspaceRows, T.PairWorkspaces;
    var ws := if s.workers[c].RemovalDone? then T.PairWorkspaces(s, s.workers[c].instance, s.workers[c].template) else {};
    DeletionFenced(s, T.RemoveAssignment(s, c), c, WorkspaceRows(ws));
  }

  lemma DeleteNothing(core: Core)
    ensures DeleteRows(core, {}) == core
  {
    assert core.life - {} == core.life;
  }

  lemma FinishDeleteWorkspaceFenced(s: State, c: Claim)
    requires Sound(s) && c in s.workers
    ensures WorkFenced(s, W.FinishDeleteWorkspace(s, c), c)
  {
    DeleteNothing(CompleteAndDelete(s.core, c));
    hide Owned, WorkFenced, Sound, DeleteRows, CompleteAndDelete;
    DeletionFenced(s, W.FinishDeleteWorkspace(s, c), c, {});
  }

  lemma WorkIsFenced(s: State, c: Claim, act: Act)
    requires Sound(s) && c in s.workers
    ensures WorkFenced(s, DoWork(s, c, act), c)
  {
    hide WorkFenced, Sound, U.FinalizeUpdate, D.RemoveLocal, T.RemoveAssignment, W.FinishDeleteWorkspace, CoreStep;
    hide OnCreate, OnCommon;
    if Deletes(act) {
      if act.Update? { FinalizeFenced(s, c); }
      else if act.Teardown? { RemoveLocalFenced(s, c); }
      else if act.OfTemplate? { RemoveAssignmentFenced(s, c); }
      else { FinishDeleteWorkspaceFenced(s, c); }
    } else {
      WorkIsPlain(s, c, act);
      PlainFenced(s, DoWork(s, c, act), c);
    }
  }

  lemma PlainFenced(s: State, s': State, c: Claim)
    requires Sound(s) && c in s.workers && Plain(s, s', c)
    ensures WorkFenced(s, s', c)
  {
    StepFenced(s, s', c);
  }

  // ---------- one event ----------

  /** A step family acts only on tokens at its own steps. */
  lemma CreateActsOnCreate(s: State, c: Claim, act: CreateAct)
    requires c.step != Step.CreateSchema && c.step != Step.CreateInstance && c.step != BootstrapAdmin
    ensures OnCreate(s, c, act) == s
  {}

  lemma TeardownActsOnTeardown(s: State, c: Claim, act: TeardownAct)
    requires c.step != StopWorkspaces && c.step != Step.StopInstance && c.step != RemoveWorkspaces
    requires c.step != RemoveInstance && c.step != RemoveSchema && c.step != RemoveLocalConfiguration
    ensures OnTeardown(s, c, act) == s
  {}

  lemma TemplateActsOnTemplates(s: State, c: Claim, act: TemplateAct)
    requires c.step != Step.SyncTemplate && c.step != Step.CreateTemplate && c.step != Step.DeleteTemplate
    ensures OnTemplate(s, c, act) == s
  {}

  lemma WorkspaceActsOnWorkspaces(s: State, c: Claim, act: WorkspaceAct)
    requires !W.IsWorkspaceStep(c.step)
    ensures OnWorkspace(s, c, act) == s
  {}

  lemma StrangersStutter(s: State, c: Claim, act: Act)
    requires c !in s.workers
    ensures DoWork(s, c, act) == s
  {
    match act
    case Common(a) => assert OnCommon(s, c, a) == s;
    case Create(a) => assert OnCreate(s, c, a) == s;
    case Update(a) => assert OnUpdate(s, c, a) == s;
    case Teardown(a) => assert OnTeardown(s, c, a) == s;
    case OfTemplate(a) => assert OnTemplate(s, c, a) == s;
    case OfWorkspace(a) => assert OnWorkspace(s, c, a) == s;
  }

  // ---------- deliveries and the recovery scan ----------

  /** A delivery or a reclaim changes the status of one unfinished row and its job, and a delivery
      adds one new worker at the start of the job's step. */
  ghost predicate Redelivers(s: State, s': State) {
    && s' == s.(core := s'.core, workers := s'.workers)
    && CoreRedelivers(s.core, s'.core)
    && s'.workers.Keys == s'.core.claims
    && (forall c <- s'.workers :: if c in s.workers then s'.workers[c] == s.workers[c] else s'.workers[c].Started? && Begins(s.core, c))
    && (forall c <- s.workers :: c in s'.workers)
  }

  ghost predicate CoreRedelivers(core: Core, core': Core) {
    && Protocol.Inv(core') && Protocol.Evolves(core, core')
    && StatusesMove(core.life, core'.life)
    && StepsStay(core.jobs, core'.jobs)
  }

  ghost predicate StatusesMove(life: map<Resource, Life>, life': map<Resource, Life>) {
    forall k :: (k in life' <==> k in life) && (k in life ==> StatusMoves(life[k], life'[k]))
  }

  ghost predicate StepsStay(jobs: map<nat, Job>, jobs': map<nat, Job>) {
    forall id :: (id in jobs' <==> id in jobs) && (id in jobs ==> jobs'[id].step == jobs[id].step)
  }

  predicate Begins(core: Core, c: Claim) {
    c.job in core.jobs && core.jobs[c.job].step == c.step && c.resource == core.jobs[c.job].resource
  }

  predicate StatusMoves(row: Life, row': Life) {
    row' == row || (Unfinished(row.status) && Unfinished(row'.status) && row' == row.(status := row'.status))
  }

  lemma ClaimableRow(core: Core, id: nat, task: Step)
    requires Protocol.Inv(core) && Claimable(core, id, task)
    ensures Begins(core, ClaimToken(core, id)) && ClaimToken(core, id) !in core.claims
    ensures core.jobs[id].resource.Some? ==>
              && core.jobs[id].resource.value in core.life && Unfinished(core.life[core.jobs[id].resource.value].status)
              && core.life[core.jobs[id].resource.value].step == Some(core.jobs[id].step)
  {
    assert Protocol.JobOk(core, id);
    if core.jobs[id].resource.Some? { assert Protocol.Agrees(core, core.jobs[id].resource.value); }
  }

  lemma WriteStatus(core: Core, id: nat, job: Job)
    requires id in core.jobs && job.step == core.jobs[id].step && Unfinished(job.status)
    requires job.resource.Some? && job.resource.value in core.life ==>
               && Unfinished(core.life[job.resource.value].status) && core.life[job.resource.value].step == Some(job.step)
    ensures var core' := Write(core, id, job, None, Some(job.step));
            StatusesMove(core.life, core'.life) && StepsStay(core.jobs, core'.jobs) && core'.claims == core.claims
  {}

  lemma DeliverCore(core: Core, id: nat, task: Step, now: int)
    requires Protocol.Inv(core) && Claimable(core, id, task)
    ensures CoreRedelivers(core, ClaimExecution(core, id, task, now))
    ensures ClaimExecution(core, id, task, now).claims == core.claims + {ClaimToken(core, id)}
  {
    ClaimableRow(core, id, task);
    var job := core.jobs[id];
    Protocol.ClaimKeeps(core, id, task, now);
    WriteStatus(core, id, job.(status := Running, attempt := job.attempt + 1, claimedAt := Some(now)));
    hide Protocol.Inv, Protocol.Evolves, StatusesMove, StepsStay, Write, ClaimToken;
  }

  lemma DeliverRedelivers(s: State, id: nat, task: Step, now: int)
    requires Sound(s)
    ensures Redelivers(s, WorkerSteps.Deliver(s, id, task, now))
  {
    if Claimable(s.core, id, task) {
      DeliverCore(s.core, id, task, now);
      ClaimableRow(s.core, id, task);
      hide Protocol.Inv, CoreRedelivers, ClaimExecution, Claimable, Begins;
    } else {
      StillRedelivers(s.core);
      hide Protocol.Inv, CoreRedelivers;
    }
  }

  lemma StillRedelivers(core: Core)
    requires Protocol.Inv(core)
    ensures CoreRedelivers(core, core)
  {
    Protocol.SelfEvolves(core);
  }

  lemma RunningRow(core: Core, id: nat)
    requires Protocol.Inv(core) && id in core.jobs && ResourceMatches(core, id, core.jobs[id]) && core.jobs[id].status == Running
    ensures core.jobs[id].resource.Some? ==>
              && core.jobs[id].resource.value in core.life && Unfinished(core.life[core.jobs[id].resource.value].status)
              && core.life[core.jobs[id].resource.value].step == Some(core.jobs[id].step)
  {
    if core.jobs[id].resource.Some? { assert Protocol.Agrees(core, core.jobs[id].resource.value); }
  }

  lemma ReclaimSound(core: Core, id: nat, staleBefore: int)
    requires Protocol.Inv(core)
    ensures Protocol.Inv(PrepareRetry(core, id, staleBefore)) && Protocol.Evolves(core, PrepareRetry(core, id, staleBefore))
  {
    hide Protocol.Inv, Protocol.Evolves, PrepareRetry;
    Protocol.DoKeeps(core, Protocol.Reclaim(id, staleBefore));
  }

  lemma ReclaimCore(core: Core, id: nat, staleBefore: int)
    requires Protocol.Inv(core)
    ensures CoreRedelivers(core, PrepareRetry(core, id, staleBefore))
    ensures PrepareRetry(core, id, staleBefore).claims == core.claims
  {
    ReclaimSound(core, id, staleBefore);
    if RetryTask(core, id, staleBefore).Some? && core.jobs[id].status == Running {
      RunningRow(core, id);
      var job := core.jobs[id].(status := Pending, claimedAt := None);
      assert PrepareRetry(core, id, staleBefore) == Write(core, id, job, None, Some(job.step));
      WriteStatus(core, id, job);
      hide *;
    } else {
      assert PrepareRetry(core, id, staleBefore) == core;
      StillRedelivers(core);
      hide *;
    }
  }

  lemma ReclaimRedelivers(s: State, id: nat, staleBefore: int)
    requires Sound(s)
    ensures Redelivers(s, WorkerSteps.Reclaim(s, id, staleBefore))
  {
    ReclaimCore(s.core, id, staleBefore);
    hide Protocol.Inv, CoreRedelivers, PrepareRetry;
  }
}
