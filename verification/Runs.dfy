/** Theorems about whole runs of the protocol. */
module Runs {
  import opened Records
  import opened Execution
  import opened Protocol

  lemma {:induction false} RunKeeps(core: Core, ops: seq<Op>)
    requires Inv(core)
    ensures Inv(Run(core, ops)) && Evolves(core, Run(core, ops))
    decreases |ops|
  {
    if ops != [] {
      DoKeeps(core, ops[0]);
      RunKeeps(Do(core, ops[0]), ops[1..]);
      EvolvesTransitive(core, Do(core, ops[0]), Run(core, ops));
    }
  }

  /** In every reachable state each unfinished row agrees with one unfinished job of its own, no other
      row references that job, and a job is running exactly while `claimed_at` is set. */
  lemma ReachableAgreement(ops: seq<Op>)
    ensures var core := Run(EMPTY, ops);
            && (forall k <- core.life :: Agrees(core, k))
            && (forall k, k' | k in core.life && k' in core.life && core.life[k].job.Some? ::
                  core.life[k].job == core.life[k'].job ==> k == k')
            && (forall id <- core.jobs ::
                  && InWorkflow(core.jobs[id].name, core.jobs[id].step)
                  && (core.jobs[id].status == Running <==> core.jobs[id].claimedAt.Some?))
  {
    RunKeeps(EMPTY, ops);
    var core := Run(EMPTY, ops);
    assert forall k <- core.life :: Agrees(core, k);
    assert forall id <- core.jobs :: JobOk(core, id);
  }

  /** Fencing: the attempts of one job are distinct, and at most one token is accepted per job and
      per resource. */
  lemma AtMostOneOwner(ops: seq<Op>, c: Claim, d: Claim)
    requires var core := Run(EMPTY, ops); c in core.claims && d in core.claims && c != d
    ensures c.job == d.job ==> c.attempt != d.attempt
    ensures c.job == d.job || (c.resource.Some? && c.resource == d.resource) ==>
              !(Owned(Run(EMPTY, ops), c) && Owned(Run(EMPTY, ops), d))
  {
    RunKeeps(EMPTY, ops);
    var core := Run(EMPTY, ops);
    assert TokenOk(core, c) && TokenOk(core, d);
  }

  lemma OwnershipIsNotRegained(core: Core, core': Core, c: Claim)
    requires Inv(core) && Inv(core') && Evolves(core, core') && c in core.claims
    requires Owned(core', c)
    ensures Owned(core, c)
  {
    assert TokenOk(core, c) && TokenOk(core', c);
    var job := core.jobs[c.job];
    assert JobEvolves(job, core'.jobs[c.job]);
    assert JobOk(core, c.job);
    if job.resource.Some? {
      assert Agrees(core, job.resource.value);
    }
  }

  /** A token rejected once is rejected by every later transaction. */
  lemma RejectedForever(before: seq<Op>, after: seq<Op>, c: Claim)
    requires c in Run(EMPTY, before).claims && !Owned(Run(EMPTY, before), c)
    ensures !Owned(Run(Run(EMPTY, before), after), c)
  {
    var core := Run(EMPTY, before);
    RunKeeps(EMPTY, before);
    RunKeeps(core, after);
    if Owned(Run(core, after), c) { OwnershipIsNotRegained(core, Run(core, after), c); }
  }

  /** A job its resource no longer references. */
  predicate Superseded(core: Core, id: nat) {
    && id in core.jobs && core.jobs[id].resource.Some?
    && (core.jobs[id].resource.value in core.life ==> core.life[core.jobs[id].resource.value].job != Some(id))
  }

  /** A finished or superseded job is never claimed, never redelivered and never owned again. */
  lemma NothingComesBack(before: seq<Op>, after: seq<Op>, id: nat, task: Step, staleBefore: int)
    requires var core := Run(EMPTY, before);
             id in core.jobs && (core.jobs[id].status == Success || Superseded(core, id))
    ensures var core' := Run(Run(EMPTY, before), after);
            && !Claimable(core', id, task) && RetryTask(core', id, staleBefore).None?
            && (forall c <- core'.claims :: c.job == id ==> !Owned(core', c))
  {
    hide Inv, Evolves, Run, Superseded, Claimable, RetryTask, Owned;
    RunKeeps(EMPTY, before);
    RunKeeps(Run(EMPTY, before), after);
    GoneStaysGone(Run(EMPTY, before), Run(Run(EMPTY, before), after), id, task, staleBefore);
  }

  lemma GoneStaysGone(core: Core, core': Core, id: nat, task: Step, staleBefore: int)
    requires Inv(core) && Inv(core') && Evolves(core, core')
    requires id in core.jobs && (core.jobs[id].status == Success || Superseded(core, id))
    ensures !Claimable(core', id, task) && RetryTask(core', id, staleBefore).None?
    ensures forall c <- core'.claims :: c.job == id ==> !Owned(core', c)
  {
    assert JobOk(core, id);
    if id in core'.jobs { assert JobEvolves(core.jobs[id], core'.jobs[id]); }
    hide StepsLeft, InWorkflow, FitsResource, TokenOk, Agrees;
  }

  // ---------- liveness of the recovery scan ----------

  /** The job is unfinished and its resource, if it has one, still references it. */
  predicate Live(core: Core, id: nat) {
    && id in core.jobs && Unfinished(core.jobs[id].status)
    && (core.jobs[id].resource.Some? ==>
          core.jobs[id].resource.value in core.life && core.life[core.jobs[id].resource.value].job == Some(id))
  }

  function Scan(core: Core, ids: seq<nat>, staleBefore: int): Core
    decreases |ids|
  {
    if ids == [] then core else Scan(PrepareRetry(core, ids[0], staleBefore), ids[1..], staleBefore)
  }

  lemma LiveMatches(core: Core, id: nat)
    requires Inv(core) && Live(core, id)
    ensures ResourceMatches(core, id, core.jobs[id])
  {
    if core.jobs[id].resource.Some? { assert Agrees(core, core.jobs[id].resource.value); }
  }

  lemma ReclaimKeepsOthers(core: Core, other: nat, id: nat, staleBefore: int)
    requires Inv(core) && Live(core, id) && other != id
    ensures var core' := PrepareRetry(core, other, staleBefore); Live(core', id) && core'.jobs[id] == core.jobs[id]
  {
    LiveMatches(core, id);
  }

  lemma ReclaimKeepsClaimable(core: Core, other: nat, id: nat, task: Step, staleBefore: int)
    requires Inv(core) && Claimable(core, id, task)
    ensures Claimable(PrepareRetry(core, other, staleBefore), id, task)
  {
    if other != id {
      ReclaimKeeps(core, other, staleBefore);
      ReclaimKeepsOthers(core, other, id, staleBefore);
      LiveMatches(PrepareRetry(core, other, staleBefore), id);
    }
  }

  lemma {:induction false} ScanKeepsClaimable(core: Core, ids: seq<nat>, id: nat, task: Step, staleBefore: int)
    requires Inv(core) && Claimable(core, id, task)
    ensures Inv(Scan(core, ids, staleBefore)) && Claimable(Scan(core, ids, staleBefore), id, task)
    decreases |ids|
  {
    if ids != [] {
      var core' := PrepareRetry(core, ids[0], staleBefore);
      ReclaimKeeps(core, ids[0], staleBefore);
      ReclaimKeepsClaimable(core, ids[0], id, task, staleBefore);
      hide PrepareRetry, Claimable, Inv;
      ScanKeepsClaimable(core', ids[1..], id, task, staleBefore);
    }
  }

  /** The job is not running, or its last heartbeat is no later than the threshold. */
  predicate Expired(job: Job, staleBefore: int) {
    job.claimedAt.Some? ==> job.claimedAt.value <= staleBefore
  }

  lemma ReclaimRevives(core: Core, id: nat, staleBefore: int)
    requires Inv(core) && Live(core, id) && Expired(core.jobs[id], staleBefore)
    ensures Claimable(PrepareRetry(core, id, staleBefore), id, core.jobs[id].task)
  {
    LiveMatches(core, id);
    assert JobOk(core, id);
  }

  lemma ReclaimKeeps(core: Core, id: nat, staleBefore: int)
    requires Inv(core)
    ensures Inv(PrepareRetry(core, id, staleBefore))
  {
    hide Inv, Evolves, PrepareRetry;
    DoKeeps(core, Reclaim(id, staleBefore));
  }

  /** Every live job becomes claimable under its persisted task after one scan that lists it, once
      the threshold has passed its last heartbeat. */
  lemma {:induction false} ScanRevives(core: Core, ids: seq<nat>, id: nat, staleBefore: int)
    requires Inv(core) && Live(core, id) && id in ids && Expired(core.jobs[id], staleBefore)
    ensures Claimable(Scan(core, ids, staleBefore), id, core.jobs[id].task)
    decreases |ids|
  {
    var core', rest, task := PrepareRetry(core, ids[0], staleBefore), ids[1..], core.jobs[id].task;
    hide PrepareRetry, Claimable, Inv;
    ReclaimKeeps(core, ids[0], staleBefore);
    if ids[0] == id {
      ReclaimRevives(core, id, staleBefore);
      ScanKeepsClaimable(core', rest, id, task, staleBefore);
    } else {
      ReclaimKeepsOthers(core, ids[0], id, staleBefore);
      ScanRevives(core', rest, id, staleBefore);
    }
  }

  /** The rows the scan selects. */
  predicate Selected(core: Core, id: nat, staleBefore: int) {
    && id in core.jobs
    && (|| core.jobs[id].status == Pending || core.jobs[id].status == Error
        || (&& core.jobs[id].status == Running
            && core.jobs[id].claimedAt.Some? && core.jobs[id].claimedAt.value <= staleBefore))
  }

  /** No job gets stuck: in every reachable state, one scan listing what the scanner selects, with a
      late enough threshold, makes a live job claimable, and delivering it gives the new attempt
      ownership. */
  lemma NothingGetsStuck(ops: seq<Op>, id: nat, ids: seq<nat>, staleBefore: int, now: int)
    requires var core := Run(EMPTY, ops);
             && Live(core, id)
             && (forall i :: Selected(core, i, staleBefore) ==> i in ids)
             && Expired(core.jobs[id], staleBefore)
    ensures var core := Run(EMPTY, ops); var task := core.jobs[id].task;
            var scanned := Scan(core, ids, staleBefore);
            && Claimable(scanned, id, task)
            && Owned(ClaimExecution(scanned, id, task, now), ClaimToken(scanned, id))
  {
    var core := Run(EMPTY, ops);
    RunKeeps(EMPTY, ops);
    LiveIsSelected(core, id, staleBefore);
    ScanRevives(core, ids, id, staleBefore);
    DeliveryOwns(Scan(core, ids, staleBefore), id, core.jobs[id].task, now);
  }

  lemma LiveIsSelected(core: Core, id: nat, staleBefore: int)
    requires Inv(core) && Live(core, id) && Expired(core.jobs[id], staleBefore)
    ensures Selected(core, id, staleBefore)
  {
    assert JobOk(core, id);
  }

  lemma DeliveryOwns(core: Core, id: nat, task: Step, now: int)
    requires Claimable(core, id, task)
    ensures Owned(ClaimExecution(core, id, task, now), ClaimToken(core, id))
  {}

  // ---------- a job advances at most three times ----------

  function Advances(core: Core, ops: seq<Op>, id: nat): nat
    decreases |ops|
  {
    if ops == [] then 0
    else (if ops[0].Advance? && ops[0].c.job == id && Do(core, ops[0]) != core then 1 else 0)
         + Advances(Do(core, ops[0]), ops[1..], id)
  }

  lemma AdvanceSpends(core: Core, c: Claim)
    requires Inv(core) && Do(core, Advance(c)) != core
    ensures c.job in core.jobs && c.job in Do(core, Advance(c)).jobs
    ensures StepsLeft(Do(core, Advance(c)).jobs[c.job].step) < StepsLeft(core.jobs[c.job].step)
  {
    assert JobOk(core, c.job);
    NextFits(core.jobs[c.job].name, c.step);
    hide Inv, InWorkflow, NextStep, StepsLeft, FitsResource, ActionOf;
  }

  lemma StepSpends(core: Core, op: Op, id: nat)
    requires Inv(core) && id in core.jobs && id in Do(core, op).jobs
    ensures StepsLeft(Do(core, op).jobs[id].step) <= StepsLeft(core.jobs[id].step)
    ensures op.Advance? && op.c.job == id && Do(core, op) != core ==>
              StepsLeft(Do(core, op).jobs[id].step) < StepsLeft(core.jobs[id].step)
  {
    DoKeeps(core, op);
    assert JobOk(core, id);
    hide Inv, Do, StepsLeft, ResourceMatches;
    assert JobEvolves(core.jobs[id], Do(core, op).jobs[id]);
    if op.Advance? && op.c.job == id && Do(core, op) != core { AdvanceSpends(core, op.c); }
  }

  lemma {:induction false} AdvancesSpendSteps(core: Core, ops: seq<Op>, id: nat)
    requires Inv(core) && id < core.nextId
    ensures Advances(core, ops, id) <= if id in core.jobs then StepsLeft(core.jobs[id].step) else 0
    decreases |ops|
  {
    if ops != [] {
      var core' := Do(core, ops[0]);
      DoKeeps(core, ops[0]);
      if id in core'.jobs { StepSpends(core, ops[0], id); }
      assert ops[0].Advance? && ops[0].c.job == id && core' != core ==> id in core'.jobs;
      assert core.nextId <= core'.nextId && (id in core'.jobs ==> id in core.jobs);
      hide Inv, Do, Evolves, StepsLeft;
      AdvancesSpendSteps(core', ops[1..], id);
    }
  }

  lemma {:induction false} AtMostThreeAdvances(core: Core, ops: seq<Op>, id: nat)
    requires Inv(core)
    ensures Advances(core, ops, id) <= 3
    decreases |ops|
  {
    assert forall i <- core.jobs :: JobOk(core, i);
    if id < core.nextId {
      AdvancesSpendSteps(core, ops, id);
    } else if ops != [] {
      DoKeeps(core, ops[0]);
      AtMostThreeAdvances(Do(core, ops[0]), ops[1..], id);
    }
  }

  /** The bootstrap step's branch for instance.update jobs is dead: no job of that name reaches it. */
  lemma BootstrapNeverUpdates(ops: seq<Op>, id: nat)
    requires id in Run(EMPTY, ops).jobs && Run(EMPTY, ops).jobs[id].step == BootstrapAdmin
    ensures Run(EMPTY, ops).jobs[id].name == InstanceCreate
    ensures NextStep(Run(EMPTY, ops).jobs[id].name, BootstrapAdmin).None?
  {
    RunKeeps(EMPTY, ops);
    BootstrapIsCreation(Run(EMPTY, ops), id);
  }

  lemma BootstrapIsCreation(core: Core, id: nat)
    requires Inv(core) && id in core.jobs && core.jobs[id].step == BootstrapAdmin
    ensures core.jobs[id].name == InstanceCreate && NextStep(core.jobs[id].name, BootstrapAdmin).None?
  {
    assert JobOk(core, id);
  }
}
