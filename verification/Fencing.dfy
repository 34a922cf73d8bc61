/** What one worker's transaction can touch in the protocol's tables: nothing without ownership, and
    no row but its own otherwise. */
module Fencing {
  import opened Records
  import opened Execution
  import opened Protocol

  /** No row becomes busy, rows may disappear, and rows other than `k` are not rewritten. */
  ghost predicate Calm(core: Core, core': Core, k: Option<Resource>) {
    && (forall k' <- core'.life :: k' in core.life && (k == Some(k') || core'.life[k'] == core.life[k']))
    && (forall k' :: Busy(core'.life, k') ==> Busy(core.life, k'))
  }

  /** A step taken by the holder of token `c`. */
  ghost predicate Fenced(core: Core, core': Core, c: Claim) {
    && Inv(core') && Evolves(core, core')
    && core'.claims == core.claims
    && (!Owned(core, c) ==> core' == core)
    && Calm(core, core', c.resource)
  }

  /** The token of a current attempt: its row is in the table, running, at the token's step. */
  lemma OwnedRow(core: Core, c: Claim)
    requires Inv(core) && c in core.claims && Owned(core, c)
    ensures core.jobs[c.job].resource == c.resource && InWorkflow(core.jobs[c.job].name, c.step)
    ensures FitsResource(core.jobs[c.job].name, c.resource)
    ensures c.resource.Some? ==>
              && c.resource.value in core.life
              && core.life[c.resource.value] == Life(ActionOf(core.jobs[c.job].name).value, Running, Some(c.job), Some(c.step))
  {
    assert TokenOk(core, c) && JobOk(core, c.job);
    if c.resource.Some? { assert Agrees(core, c.resource.value); }
  }

  lemma StutterFenced(core: Core, c: Claim)
    requires Inv(core)
    ensures Fenced(core, core, c)
  {
    SelfEvolves(core);
  }

  lemma WriteIsCalm(core: Core, id: nat, job: Job, action: Option<Action>, step: Option<Step>)
    requires job.resource.Some? && job.resource.value in core.life ==> Busy(core.life, job.resource.value)
    ensures Calm(core, Write(core, id, job, action, step), job.resource)
  {}

  /** Every transaction that passes a token to the fence. */
  lemma WorkerFenced(core: Core, c: Claim, op: Op)
    requires Inv(core) && c in core.claims
    requires op == Advance(c) || op == Defer(c) || op == Fail(c) || (op.Complete? && op.c == c)
    ensures Fenced(core, Do(core, op), c)
  {
    DoKeeps(core, op);
    if Do(core, op) != core {
      OwnedRow(core, c);
      hide Inv, Evolves, Owned, Write;
      var job := core.jobs[c.job];
      match op
      case Advance(_) =>
        var next := NextStep(job.name, c.step).value;
        WriteIsCalm(core, c.job, job.(task := next, step := next, status := Pending, claimedAt := None), None, Some(next));
        WriteAppends(core, c.job, job.(task := next, step := next, status := Pending, claimedAt := None), None, Some(next));
      case Defer(_) =>
        WriteIsCalm(core, c.job, job.(status := Pending, claimedAt := None), None, Some(c.step));
        WriteAppends(core, c.job, job.(status := Pending, claimedAt := None), None, Some(c.step));
      case Fail(_) =>
        WriteIsCalm(core, c.job, job.(status := Error, claimedAt := None), None, Some(c.step));
        WriteAppends(core, c.job, job.(status := Error, claimedAt := None), None, Some(c.step));
      case Complete(_, mark) =>
        WriteIsCalm(core, c.job, job.(status := Success, claimedAt := None), mark, None);
        WriteAppends(core, c.job, job.(status := Success, claimedAt := None), mark, None);
    } else {
      StutterFenced(core, c);
    }
  }

  lemma WriteAppends(core: Core, id: nat, job: Job, action: Option<Action>, step: Option<Step>)
    ensures Write(core, id, job, action, step).claims == core.claims
  {}

  lemma HeartbeatFenced(core: Core, c: Claim, now: int)
    requires Inv(core) && c in core.claims
    ensures Fenced(core, HeartbeatExecution(core, c, now), c)
  {
    HeartbeatKeeps(core, c, now);
    hide Inv, Evolves;
  }

  lemma AdvanceFenced(core: Core, c: Claim, next: Step)
    requires Inv(core) && c in core.claims
    requires Owned(core, c) ==> NextStep(core.jobs[c.job].name, c.step) == Some(next)
    ensures Fenced(core, AdvanceExecution(core, c, next), c)
  {
    if Owned(core, c) { WorkerFenced(core, c, Advance(c)); } else { StutterFenced(core, c); }
  }

  lemma DeleteFenced(core: Core, core1: Core, c: Claim, ks: set<Resource>)
    requires Fenced(core, core1, c) && Owned(core, c)
    ensures Fenced(core, DeleteRows(core1, ks), c)
  {
    DeleteKeeps(core1, ks);
    EvolvesTransitive(core, core1, DeleteRows(core1, ks));
    hide Inv, Evolves;
  }

  lemma CompleteAndDeleteFenced(core: Core, c: Claim)
    requires Inv(core) && c in core.claims
    ensures Fenced(core, CompleteAndDelete(core, c), c)
  {
    if Owned(core, c) {
      WorkerFenced(core, c, Complete(c, None));
      if c.resource.Some? { DeleteFenced(core, CompleteExecution(core, c, None), c, {c.resource.value}); }
      OwnedRow(core, c);
    } else {
      StutterFenced(core, c);
    }
  }

  /** The final transaction of an update may stage the next one on the row it just finished. */
  lemma RestageFenced(core: Core, core1: Core, c: Claim)
    requires Inv(core) && c in core.claims && Fenced(core, core1, c) && Owned(core, c)
    requires c.resource.Some? && c.resource.value.InstanceRow?
    ensures Fenced(core, RequestJob(core1, c.resource.value, InstanceUpdate, UpdateInstance), c)
  {
    OwnedRow(core, c);
    RequestKeeps(core1, c.resource.value, InstanceUpdate, UpdateInstance);
    EvolvesTransitive(core, core1, RequestJob(core1, c.resource.value, InstanceUpdate, UpdateInstance));
    hide Inv, Evolves;
  }
}
