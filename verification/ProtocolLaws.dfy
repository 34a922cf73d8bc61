/** What each transaction of the protocol writes, column by column. */
module ProtocolLaws {
  import opened Records
  import opened Execution

  /** Every job but one and every row but one is as it was. */
  ghost predicate Elsewhere(core: Core, core': Core, id: nat, k: Option<Resource>) {
    && core'.nextId == core.nextId
    && (forall j: nat :: j != id ==> (j in core'.jobs <==> j in core.jobs) && (j in core.jobs ==> core'.jobs[j] == core.jobs[j]))
    && (forall r :: k != Some(r) ==> (r in core'.life <==> r in core.life) && (r in core.life ==> core'.life[r] == core.life[r]))
  }

  /** The job keeps what identifies it. */
  predicate SameJob(job: Job, job': Job) {
    job'.name == job.name && job'.resource == job.resource && job'.attempt == job.attempt
  }

  /** A worker passes the fence exactly while the job runs this very attempt of this step for a row that
      references the job, shows the job's action and stands at the same step. */
  lemma OwnsExactly(core: Core, c: Claim)
    ensures Owned(core, c) <==>
              && c.job in core.jobs && core.jobs[c.job].status == Running
              && core.jobs[c.job].task == c.task && core.jobs[c.job].step == c.step && core.jobs[c.job].attempt == c.attempt
              && (match core.jobs[c.job].resource
                  case None => true
                  case Some(k) =>
                    && k in core.life && core.life[k].job == Some(c.job) && core.life[k].step == Some(c.step)
                    && (match core.jobs[c.job].name
                        case InstanceCreate | AssignmentCreate | WorkspaceCreate => core.life[k].action == Creating
                        case InstanceUpdate | WorkspaceUpdate => core.life[k].action == Updating
                        case InstanceStart => core.life[k].action == Starting
                        case InstanceStop => core.life[k].action == Stopping
                        case InstanceDelete | AssignmentDelete | WorkspaceDelete => core.life[k].action == Deleting
                        case TemplateSync => core.life[k].action == Syncing
                        case DatabaseSync => false))
  {}

  /** A pending or failed job whose row still matches starts its next attempt: it and its row are running,
      the attempt is counted, and the token that is handed out owns it. */
  lemma ClaimStarts(core: Core, id: nat, task: Step, now: int)
    requires id in core.jobs && core.jobs[id].task == task
    requires core.jobs[id].status == Pending || core.jobs[id].status == Error
    requires ResourceMatches(core, id, core.jobs[id])
    ensures var core', job := ClaimExecution(core, id, task, now), core.jobs[id];
            var c := Claim(id, task, job.step, job.attempt + 1, job.resource);
            && Elsewhere(core, core', id, job.resource) && id in core'.jobs
            && core'.jobs[id] == job.(status := Running, attempt := job.attempt + 1, claimedAt := Some(now))
            && core'.claims == core.claims + {c} && Owned(core', c)
            && (forall k :: job.resource == Some(k) ==>
                  k in core'.life && core'.life[k] == Life(core.life[k].action, Running, Some(id), Some(job.step)))
  {}

  /** Nothing else is ever claimed: not a running or finished job, not under another task, and not when the
      row has moved on. */
  lemma ClaimRefuses(core: Core, id: nat, task: Step, now: int)
    requires || id !in core.jobs || core.jobs[id].task != task
             || core.jobs[id].status == Running || core.jobs[id].status == Success
             || !ResourceMatches(core, id, core.jobs[id])
    ensures ClaimExecution(core, id, task, now) == core
  {}

  lemma HeartbeatRefreshes(core: Core, c: Claim, now: int)
    requires Owned(core, c)
    ensures var core' := HeartbeatExecution(core, c, now);
            && Elsewhere(core, core', c.job, None) && core'.claims == core.claims && c.job in core'.jobs
            && core'.jobs[c.job].claimedAt == Some(now) && core'.jobs[c.job].status == Running
            && SameJob(core.jobs[c.job], core'.jobs[c.job])
            && core'.jobs[c.job].task == c.task && core'.jobs[c.job].step == c.step
            && Owned(core', c)
  {}

  lemma AdvanceMoves(core: Core, c: Claim, next: Step)
    requires Owned(core, c)
    ensures var core', k := AdvanceExecution(core, c, next), core.jobs[c.job].resource;
            && Elsewhere(core, core', c.job, k) && core'.claims == core.claims && c.job in core'.jobs
            && SameJob(core.jobs[c.job], core'.jobs[c.job])
            && core'.jobs[c.job].status == Pending && core'.jobs[c.job].claimedAt == None
            && core'.jobs[c.job].task == next && core'.jobs[c.job].step == next
            && (k.Some? ==>
                  k.value in core'.life && core'.life[k.value] == Life(core.life[k.value].action, Pending, Some(c.job), Some(next)))
  {}

  lemma CompleteFinishes(core: Core, c: Claim, mark: Option<Action>)
    requires Owned(core, c)
    ensures var core', k := CompleteExecution(core, c, mark), core.jobs[c.job].resource;
            && Elsewhere(core, core', c.job, k) && core'.claims == core.claims && c.job in core'.jobs
            && SameJob(core.jobs[c.job], core'.jobs[c.job])
            && core'.jobs[c.job].status == Success && core'.jobs[c.job].claimedAt == None
            && core'.jobs[c.job].task == c.task && core'.jobs[c.job].step == c.step
            && (k.Some? ==>
                  && k.value in core'.life && core'.life[k.value].status == Success && core'.life[k.value].step == None
                  && core'.life[k.value].job == Some(c.job)
                  && core'.life[k.value].action == if mark.Some? then mark.value else core.life[k.value].action)
  {}

  lemma CompleteAndDeleteErases(core: Core, c: Claim)
    requires Owned(core, c)
    ensures var core', k := CompleteAndDelete(core, c), core.jobs[c.job].resource;
            && Elsewhere(core, core', c.job, k) && core'.claims == core.claims && c.job in core'.jobs
            && SameJob(core.jobs[c.job], core'.jobs[c.job])
            && core'.jobs[c.job].status == Success && core'.jobs[c.job].claimedAt == None
            && (k.Some? ==> k.value !in core'.life)
  {}

  lemma DeferReturns(core: Core, c: Claim)
    requires Owned(core, c)
    ensures var core', k := DeferExecution(core, c), core.jobs[c.job].resource;
            && Elsewhere(core, core', c.job, k) && core'.claims == core.claims && c.job in core'.jobs
            && SameJob(core.jobs[c.job], core'.jobs[c.job])
            && core'.jobs[c.job].status == Pending && core'.jobs[c.job].claimedAt == None
            && core'.jobs[c.job].task == c.task && core'.jobs[c.job].step == c.step
            && (k.Some? ==>
                  k.value in core'.life && core'.life[k.value] == Life(core.life[k.value].action, Pending, Some(c.job), Some(c.step)))
  {}

  /** A failure is recorded: the job and its row are in error, still at the step, task and attempt that
      failed. */
  lemma FailRecords(core: Core, c: Claim)
    requires Owned(core, c)
    ensures var core', k := FailExecution(core, c), core.jobs[c.job].resource;
            && Elsewhere(core, core', c.job, k) && core'.claims == core.claims && c.job in core'.jobs
            && SameJob(core.jobs[c.job], core'.jobs[c.job])
            && core'.jobs[c.job].status == Error && core'.jobs[c.job].claimedAt == None
            && core'.jobs[c.job].task == c.task && core'.jobs[c.job].step == c.step
            && (k.Some? ==>
                  k.value in core'.life && core'.life[k.value] == Life(core.life[k.value].action, Error, Some(c.job), Some(c.step)))
  {}

  /** A worker that has lost its claim writes nothing. */
  lemma StaleWritesNothing(core: Core, c: Claim, now: int, next: Step, mark: Option<Action>)
    requires !Owned(core, c)
    ensures HeartbeatExecution(core, c, now) == core && AdvanceExecution(core, c, next) == core
    ensures CompleteExecution(core, c, mark) == core && CompleteAndDelete(core, c) == core
    ensures DeferExecution(core, c) == core && FailExecution(core, c) == core
  {}

  /** A running attempt is reclaimed exactly when its row matches and its last heartbeat is no later than the
      threshold; a later heartbeat protects it. */
  lemma ReclaimsExactly(core: Core, id: nat, staleBefore: int)
    requires id in core.jobs && core.jobs[id].status == Running && ResourceMatches(core, id, core.jobs[id])
    ensures var core', job := PrepareRetry(core, id, staleBefore), core.jobs[id];
            if job.claimedAt.Some? && job.claimedAt.value <= staleBefore then
              && RetryTask(core, id, staleBefore) == Some(job.task)
              && Elsewhere(core, core', id, job.resource) && core'.claims == core.claims && id in core'.jobs
              && core'.jobs[id] == job.(status := Pending, claimedAt := None)
              && (forall k :: job.resource == Some(k) ==>
                    k in core'.life && core'.life[k] == Life(core.life[k].action, Pending, Some(id), Some(job.step)))
            else core' == core && RetryTask(core, id, staleBefore) == None
  {}

  /** Waiting and failed jobs are redelivered as they are; finished jobs and jobs whose row has moved on are
      left alone. */
  lemma RedeliversExactly(core: Core, id: nat, staleBefore: int)
    requires id !in core.jobs || core.jobs[id].status != Running || !ResourceMatches(core, id, core.jobs[id])
    ensures PrepareRetry(core, id, staleBefore) == core
    ensures RetryTask(core, id, staleBefore).Some? <==>
              id in core.jobs && ResourceMatches(core, id, core.jobs[id])
              && (core.jobs[id].status == Pending || core.jobs[id].status == Error)
    ensures RetryTask(core, id, staleBefore).Some? ==> RetryTask(core, id, staleBefore).value == core.jobs[id].task
  {}

  /** The same four outcomes for a job with a row, as the steps use them. */
  predicate Stood(core: Core, core': Core, c: Claim, k: Resource, action: Action, status: Status, step: Option<Step>) {
    && c.job in core'.jobs && core'.jobs[c.job].status == status && core'.jobs[c.job].claimedAt == None
    && k in core.life && k in core'.life && core'.life[k] == Life(action, status, Some(c.job), step)
  }

  lemma AdvancedRow(core: Core, c: Claim, k: Resource, next: Step)
    requires Owned(core, c) && core.jobs[c.job].resource == Some(k)
    ensures var core' := AdvanceExecution(core, c, next);
            && k in core.life && c.job in core'.jobs && Stood(core, core', c, k, core.life[k].action, Pending, Some(next))
            && core'.jobs[c.job].step == next && core'.jobs[c.job].task == next
  {}

  lemma CompletedRow(core: Core, c: Claim, k: Resource, mark: Option<Action>)
    requires Owned(core, c) && core.jobs[c.job].resource == Some(k)
    ensures var core' := CompleteExecution(core, c, mark);
            k in core.life && c.job in core'.jobs && Stood(core, core', c, k, if mark.Some? then mark.value else core.life[k].action, Success, None)
            && core'.nextId == core.nextId && core'.claims == core.claims
  {}

  lemma ReleasedRow(core: Core, c: Claim, k: Resource)
    requires Owned(core, c) && core.jobs[c.job].resource == Some(k)
    ensures k in core.life && c.job in DeferExecution(core, c).jobs && c.job in FailExecution(core, c).jobs
    ensures Stood(core, DeferExecution(core, c), c, k, core.life[k].action, Pending, Some(c.step))
    ensures Stood(core, FailExecution(core, c), c, k, core.life[k].action, Error, Some(c.step))
    ensures DeferExecution(core, c).jobs[c.job].step == c.step && DeferExecution(core, c).jobs[c.job].task == c.task
    ensures FailExecution(core, c).jobs[c.job].step == c.step && FailExecution(core, c).jobs[c.job].task == c.task
  {}

  /** A request's job is new, waiting, not yet attempted, and all its row references. */
  predicate Staged(core: Core, core': Core, id: nat, k: Resource, name: JobName, step: Step, action: Action) {
    && core.nextId <= id && core'.nextId == id + 1 && core'.claims == core.claims
    && core'.jobs == core.jobs[id := Job(name, step, Some(k), step, Pending, 0, None)]
    && core'.life == core.life[k := Life(action, Pending, Some(id), Some(step))]
  }

  /** Such a job can be delivered at once, and the attempt it starts owns it. */
  lemma StagedIsClaimable(core: Core, core': Core, id: nat, k: Resource, name: JobName, step: Step, action: Action, now: int)
    requires Staged(core, core', id, k, name, step, action) && ActionOf(name) == Some(action)
    ensures Claimable(core', id, step)
    ensures Owned(ClaimExecution(core', id, step, now), Claim(id, step, step, 1, Some(k)))
  {}
}
