/** What the job protocol keeps, over every interleaving of its transactions: duplicate deliveries,
    reclaims, superseding requests and workers that act arbitrarily late. */
module Protocol {
  import opened Records
  import opened Execution

  /** One committed transaction, seen through the tables of the protocol. */
  datatype Op =
    | Deliver(id: nat, task: Step, now: int)
    | Heartbeat(c: Claim, now: int)
    | Advance(c: Claim)
    | Complete(c: Claim, mark: Option<Action>)
    | CompleteDelete(c: Claim)
    | Defer(c: Claim)
    | Fail(c: Claim)
    | Reclaim(id: nat, staleBefore: int)
    | Request(k: Resource, name: JobName, step: Step)
    | RequestSystem
    | Draw
    | Insert(k: Resource, action: Action)
    | Discard(k: Resource, action: Action)
    | Delete(ks: set<Resource>)

  function Do(core: Core, op: Op): Core {
    match op
    case Deliver(id, task, now) => ClaimExecution(core, id, task, now)
    case Heartbeat(c, now) => HeartbeatExecution(core, c, now)
    case Advance(c) =>
      if c.job in core.jobs && NextStep(core.jobs[c.job].name, c.step).Some?
      then AdvanceExecution(core, c, NextStep(core.jobs[c.job].name, c.step).value) else core
    case Complete(c, mark) => CompleteExecution(core, c, mark)
    case CompleteDelete(c) => CompleteAndDelete(core, c)
    case Defer(c) => DeferExecution(core, c)
    case Fail(c) => FailExecution(core, c)
    case Reclaim(id, staleBefore) => PrepareRetry(core, id, staleBefore)
    case Request(k, name, step) =>
      if FitsResource(name, Some(k)) && IsEntry(name, step) then RequestJob(core, k, name, step) else core
    case RequestSystem => SystemJob(core)
    case Draw => DrawId(core)
    case Insert(k, action) => if k !in core.life then InsertIdle(core, k, action) else core
    case Discard(k, action) =>
      if k in core.life && core.life[k].status == Success then DiscardJob(core, k, action) else core
    case Delete(ks) => DeleteRows(core, ks)
  }

  function Run(core: Core, ops: seq<Op>): Core
    decreases |ops|
  {
    if ops == [] then core else Run(Do(core, ops[0]), ops[1..])
  }

  const EMPTY := Core(map[], map[], {}, 0)

  // ---------- the invariant ----------

  predicate JobOk(core: Core, id: nat)
    requires id in core.jobs
  {
    var job := core.jobs[id];
    && id < core.nextId
    && job.task == job.step
    && InWorkflow(job.name, job.step)
    && (job.status == Running <==> job.claimedAt.Some?)
    && FitsResource(job.name, job.resource)
  }

  /** An unfinished row references the one unfinished job that names it, with the same status and
      step and the job's action; a finished row has no step and its job, if any, is finished. */
  predicate Agrees(core: Core, k: Resource)
    requires k in core.life
  {
    var row := core.life[k];
    && (row.job.Some? ==>
          row.job.value in core.jobs && core.jobs[row.job.value].resource == Some(k)
          && core.jobs[row.job.value].status == row.status)
    && (Unfinished(row.status) ==>
          row.job.Some? && row.step == Some(core.jobs[row.job.value].step)
          && ActionOf(core.jobs[row.job.value].name) == Some(row.action))
    && (!Unfinished(row.status) ==> row.step.None?)
  }

  /** A token never runs ahead of its job, and while its attempt is running it names the job's step. */
  predicate TokenOk(core: Core, c: Claim) {
    && c.job < core.nextId && c.task == c.step && c.attempt > 0
    && (c.job in core.jobs ==>
          var job := core.jobs[c.job];
          && c.attempt <= job.attempt
          && c.resource == job.resource
          && InWorkflow(job.name, c.step)
          && (job.status == Running && job.attempt == c.attempt ==> job.step == c.step))
  }

  ghost predicate Inv(core: Core) {
    && (forall id <- core.jobs :: JobOk(core, id))
    && (forall k <- core.life :: Agrees(core, k))
    && (forall c <- core.claims :: TokenOk(core, c))
    && (forall c, d :: c in core.claims && d in core.claims && c.job == d.job && c.attempt == d.attempt ==> c == d)
  }

  /** How one state may follow another: identifiers are never reused, attempts only grow and start
      only by claiming, a finished job stays as it is, steps only move forward, and a row never
      returns to a job it has left. */
  ghost predicate Evolves(core: Core, core': Core) {
    && core.nextId <= core'.nextId
    && core.claims <= core'.claims
    && (forall id :: id in core'.jobs && id < core.nextId ==> id in core.jobs && JobEvolves(core.jobs[id], core'.jobs[id]))
    && (forall k :: k in core'.life && core'.life[k].job.Some? && core'.life[k].job.value < core.nextId ==>
          k in core.life && core.life[k].job == core'.life[k].job)
  }

  predicate JobEvolves(job: Job, job': Job) {
    && job'.name == job.name && job'.resource == job.resource
    && job.attempt <= job'.attempt
    && (job'.attempt == job.attempt && job'.status == Running ==> job.status == Running)
    && (job.status == Success ==> job' == job)
    && (job'.step == job.step || StepsLeft(job'.step) < StepsLeft(job.step))
  }

  // ---------- one transaction ----------

  /** What a worker's transaction may write to the job it holds. */
  predicate WriteOk(core: Core, id: nat, job: Job, mark: Option<Action>, step: Option<Step>) {
    && id in core.jobs
    && ResourceMatches(core, id, core.jobs[id])
    && job.task == job.step && InWorkflow(job.name, job.step)
    && (job.status == Running <==> job.claimedAt.Some?)
    && JobEvolves(core.jobs[id], job)
    && (job.status == Running ==> job.step == core.jobs[id].step)
    && (if Unfinished(job.status) then mark.None? && step == Some(job.step) else step.None?)
  }

  lemma WriteKeepsRows(core: Core, id: nat, job: Job, mark: Option<Action>, step: Option<Step>)
    requires Inv(core) && WriteOk(core, id, job, mark, step)
    ensures var core' := Write(core, id, job, mark, step);
            && (forall i <- core'.jobs :: JobOk(core', i))
            && (forall k <- core'.life :: Agrees(core', k))
  {
    var core' := Write(core, id, job, mark, step);
    assert JobOk(core, id);
    forall k <- core'.life ensures Agrees(core', k) {
      assert Agrees(core, k);
    }
    forall i <- core'.jobs ensures JobOk(core', i) {
      if i != id { assert JobOk(core, i); }
    }
  }

  lemma WriteKeeps(core: Core, id: nat, job: Job, mark: Option<Action>, step: Option<Step>)
    requires Inv(core) && WriteOk(core, id, job, mark, step)
    ensures var core' := Write(core, id, job, mark, step); Inv(core') && Evolves(core, core')
  {
    WriteKeepsRows(core, id, job, mark, step);
    var core' := Write(core, id, job, mark, step);
    assert core'.claims == core.claims && core'.nextId == core.nextId;
    forall c <- core'.claims ensures TokenOk(core', c) {
      assert TokenOk(core, c);
    }
  }

  lemma EvolvesTransitive(a: Core, b: Core, c: Core)
    requires Evolves(a, b) && Evolves(b, c)
    ensures Evolves(a, c)
  {
    forall id | id in c.jobs && id < a.nextId ensures id in a.jobs && JobEvolves(a.jobs[id], c.jobs[id]) {
      assert id in b.jobs && JobEvolves(b.jobs[id], c.jobs[id]);
    }
  }

  lemma IssueKeeps(core: Core, c: Claim)
    requires Inv(core) && TokenOk(core, c)
    requires forall d <- core.claims :: d.job == c.job ==> d.attempt < c.attempt
    ensures Inv(core.(claims := core.claims + {c})) && Evolves(core, core.(claims := core.claims + {c}))
  {
    var core' := core.(claims := core.claims + {c});
    forall i <- core'.jobs ensures JobOk(core', i) { assert JobOk(core, i); }
    forall k <- core'.life ensures Agrees(core', k) { assert Agrees(core, k); }
    forall d <- core'.claims ensures TokenOk(core', d) { if d != c { assert TokenOk(core, d); } }
  }

  lemma ClaimKeeps(core: Core, id: nat, task: Step, now: int)
    requires Inv(core)
    ensures Inv(ClaimExecution(core, id, task, now)) && Evolves(core, ClaimExecution(core, id, task, now))
  {
    if Claimable(core, id, task) {
      assert JobOk(core, id);
      var job := core.jobs[id];
      var running := job.(status := Running, attempt := job.attempt + 1, claimedAt := Some(now));
      var core1 := Write(core, id, running, None, Some(job.step));
      WriteKeeps(core, id, running, None, Some(job.step));
      forall d <- core1.claims ensures d.job == id ==> d.attempt < job.attempt + 1 { assert TokenOk(core, d); }
      IssueKeeps(core1, ClaimToken(core, id));
      EvolvesTransitive(core, core1, ClaimExecution(core, id, task, now));
    }
  }

  lemma SelfEvolves(core: Core)
    ensures Evolves(core, core)
  {}

  /** The two facts about single rows that the proofs below read out of the invariant. */
  lemma RowsOk(core: Core, id: nat)
    requires Inv(core) && id in core.jobs
    ensures JobOk(core, id)
    ensures core.jobs[id].resource.Some? && core.jobs[id].resource.value in core.life ==>
              Agrees(core, core.jobs[id].resource.value)
  {}

  /** The workflow graph is closed under the steps' own advances, and each of them spends a step. */
  lemma NextFits(name: JobName, step: Step)
    requires InWorkflow(name, step) && NextStep(name, step).Some?
    ensures InWorkflow(name, NextStep(name, step).value)
    ensures StepsLeft(NextStep(name, step).value) < StepsLeft(step)
  {}

  lemma AdvanceKeeps(core: Core, c: Claim)
    requires Inv(core)
    ensures Inv(Do(core, Advance(c))) && Evolves(core, Do(core, Advance(c)))
  {
    SelfEvolves(core);
    if Do(core, Advance(c)) != core {
      RowsOk(core, c.job);
      NextFits(core.jobs[c.job].name, c.step);
      hide Inv, Evolves, Write, InWorkflow, NextStep, StepsLeft, FitsResource, ActionOf;
      var job := core.jobs[c.job];
      var next := NextStep(job.name, c.step).value;
      WriteKeeps(core, c.job, job.(task := next, step := next, status := Pending, claimedAt := None), None, Some(next));
    }
  }

  lemma CompleteKeeps(core: Core, c: Claim, mark: Option<Action>)
    requires Inv(core)
    ensures Inv(CompleteExecution(core, c, mark)) && Evolves(core, CompleteExecution(core, c, mark))
  {
    SelfEvolves(core);
    if Owned(core, c) {
      RowsOk(core, c.job);
      hide Inv, Evolves, Write;
      WriteKeeps(core, c.job, core.jobs[c.job].(status := Success, claimedAt := None), mark, None);
    }
  }

  /** Deferring and failing differ in the status only. */
  lemma ReleaseKeeps(core: Core, c: Claim)
    requires Inv(core)
    ensures Inv(DeferExecution(core, c)) && Evolves(core, DeferExecution(core, c))
    ensures Inv(FailExecution(core, c)) && Evolves(core, FailExecution(core, c))
  {
    SelfEvolves(core);
    if Owned(core, c) {
      RowsOk(core, c.job);
      hide Inv, Evolves, Write;
      var job := core.jobs[c.job];
      WriteKeeps(core, c.job, job.(status := Pending, claimedAt := None), None, Some(c.step));
      WriteKeeps(core, c.job, job.(status := Error, claimedAt := None), None, Some(c.step));
    }
  }

  lemma ReclaimedKeeps(core: Core, id: nat, staleBefore: int)
    requires Inv(core)
    ensures Inv(PrepareRetry(core, id, staleBefore)) && Evolves(core, PrepareRetry(core, id, staleBefore))
  {
    SelfEvolves(core);
    if RetryTask(core, id, staleBefore).Some? && core.jobs[id].status == Running {
      RowsOk(core, id);
      hide Inv, Evolves, Write;
      var job := core.jobs[id];
      WriteKeeps(core, id, job.(status := Pending, claimedAt := None), None, Some(job.step));
    }
  }

  lemma HeartbeatKeeps(core: Core, c: Claim, now: int)
    requires Inv(core)
    ensures Inv(HeartbeatExecution(core, c, now)) && Evolves(core, HeartbeatExecution(core, c, now))
  {
    if Owned(core, c) {
      RowsOk(core, c.job);
      hide Inv, Evolves, InWorkflow, StepsLeft, FitsResource, ActionOf;
      var job := core.jobs[c.job];
      WriteKeeps(core, c.job, job.(claimedAt := Some(now)), None, Some(job.step));
      assert Write(core, c.job, job.(claimedAt := Some(now)), None, Some(job.step)).life == core.life;
    } else {
      SelfEvolves(core);
    }
  }

  lemma CompleteAndDeleteKeeps(core: Core, c: Claim)
    requires Inv(core)
    ensures Inv(CompleteAndDelete(core, c)) && Evolves(core, CompleteAndDelete(core, c))
  {
    if Owned(core, c) {
      assert JobOk(core, c.job);
      var core1 := CompleteExecution(core, c, None);
      CompleteKeeps(core, c, None);
      var resource := core.jobs[c.job].resource;
      if resource.Some? {
        DeleteKeeps(core1, {resource.value});
        EvolvesTransitive(core, core1, DeleteRows(core1, {resource.value}));
      }
    }
  }

  lemma DeleteKeeps(core: Core, ks: set<Resource>)
    requires Inv(core)
    ensures Inv(DeleteRows(core, ks)) && Evolves(core, DeleteRows(core, ks))
  {
    var core' := DeleteRows(core, ks);
    forall k <- core'.life ensures Agrees(core', k) { assert Agrees(core, k); }
    forall i <- core'.jobs ensures JobOk(core', i) { assert JobOk(core, i); }
    forall c <- core'.claims ensures TokenOk(core', c) { assert TokenOk(core, c); }
  }

  lemma InsertKeeps(core: Core, k: Resource, action: Action)
    requires Inv(core) && k !in core.life
    ensures Inv(InsertIdle(core, k, action)) && Evolves(core, InsertIdle(core, k, action))
  {
    var core' := InsertIdle(core, k, action);
    forall k <- core'.life ensures Agrees(core', k) { if k in core.life { assert Agrees(core, k); } }
    forall i <- core'.jobs ensures JobOk(core', i) { assert JobOk(core, i); }
    forall c <- core'.claims ensures TokenOk(core', c) { assert TokenOk(core, c); }
  }

  lemma DiscardKeeps(core: Core, k: Resource, action: Action)
    requires Inv(core) && k in core.life && core.life[k].status == Success
    ensures Inv(DiscardJob(core, k, action)) && Evolves(core, DiscardJob(core, k, action))
  {
    var core' := DiscardJob(core, k, action);
    assert Agrees(core, k);
    forall k' <- core'.life ensures Agrees(core', k') { assert Agrees(core, k'); }
    forall i <- core'.jobs ensures JobOk(core', i) { assert JobOk(core, i); }
    forall c <- core'.claims ensures TokenOk(core', c) { assert TokenOk(core, c); }
  }

  lemma RequestKeeps(core: Core, k: Resource, name: JobName, step: Step)
    requires Inv(core) && FitsResource(name, Some(k)) && IsEntry(name, step)
    ensures Inv(RequestJob(core, k, name, step)) && Evolves(core, RequestJob(core, k, name, step))
  {
    var core' := RequestJob(core, k, name, step);
    forall i <- core'.jobs ensures JobOk(core', i) { if i in core.jobs { assert JobOk(core, i); } }
    forall k' <- core'.life ensures Agrees(core', k') { if k' != k { assert Agrees(core, k'); } }
    forall c <- core'.claims ensures TokenOk(core', c) { assert TokenOk(core, c); }
  }

  lemma SystemJobKeeps(core: Core)
    requires Inv(core)
    ensures Inv(SystemJob(core)) && Evolves(core, SystemJob(core))
  {
    var core' := SystemJob(core);
    forall i <- core'.jobs ensures JobOk(core', i) { if i in core.jobs { assert JobOk(core, i); } }
    forall k <- core'.life ensures Agrees(core', k) { assert Agrees(core, k); }
    forall c <- core'.claims ensures TokenOk(core', c) { assert TokenOk(core, c); }
  }

  lemma DrawKeeps(core: Core)
    requires Inv(core)
    ensures Inv(DrawId(core)) && Evolves(core, DrawId(core))
  {
    forall i <- core.jobs ensures JobOk(DrawId(core), i) { assert JobOk(core, i); }
    forall k <- core.life ensures Agrees(DrawId(core), k) { assert Agrees(core, k); }
    forall c <- core.claims ensures TokenOk(DrawId(core), c) { assert TokenOk(core, c); }
  }

  lemma DoKeeps(core: Core, op: Op)
    requires Inv(core)
    ensures Inv(Do(core, op)) && Evolves(core, Do(core, op))
  {
    hide Inv, Evolves, ClaimExecution, HeartbeatExecution, AdvanceExecution, Execution.CompleteExecution, CompleteAndDelete;
    hide DeferExecution, FailExecution, PrepareRetry, RequestJob, SystemJob, DrawId, InsertIdle, DiscardJob, DeleteRows;
    SelfEvolves(core);
    match op
    case Deliver(id, task, now) => ClaimKeeps(core, id, task, now);
    case Heartbeat(c, now) => HeartbeatKeeps(core, c, now);
    case CompleteDelete(c) => CompleteAndDeleteKeeps(core, c);
    case Request(k, name, step) => if FitsResource(name, Some(k)) && IsEntry(name, step) { RequestKeeps(core, k, name, step); }
    case RequestSystem => SystemJobKeeps(core);
    case Draw => DrawKeeps(core);
    case Insert(k, action) => if k !in core.life { InsertKeeps(core, k, action); }
    case Discard(k, action) => if k in core.life && core.life[k].status == Success { DiscardKeeps(core, k, action); }
    case Delete(ks) => DeleteKeeps(core, ks);
    case Advance(c) => AdvanceKeeps(core, c);
    case Complete(c, mark) => CompleteKeeps(core, c, mark);
    case Defer(c) => ReleaseKeeps(core, c);
    case Fail(c) => ReleaseKeeps(core, c);
    case Reclaim(id, staleBefore) => ReclaimedKeeps(core, id, staleBefore);
  }
}
