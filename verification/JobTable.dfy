/** The protocol's transactions as the worker runs them: rows are loaded, checked and assigned field
    by field, and every method is tied to the transaction of the same name on `Tables()`. */
module JobTable {
  import opened Records
  import opened Execution
  import Runs

  class JobTable {
    var jobs: map<nat, Job>
    var life: map<Resource, Life>
    var nextId: nat
    ghost var claims: set<Claim>

    ghost function Tables(): Core
      reads this
    {
      Core(jobs, life, claims, nextId)
    }

    constructor ()
      ensures Tables() == Core(map[], map[], {}, 0)
    {
      jobs, life, nextId, claims := map[], map[], 0, {};
    }

    /** `_resource_for_job` followed by `_resource_matches`. */
    method MatchesResource(id: nat, job: Job) returns (matches: bool)
      ensures matches == ResourceMatches(Tables(), id, job)
    {
      if job.resource.None? { return true; }
      if job.resource.value !in life { return false; }
      var row := life[job.resource.value];
      var expected := ActionOf(job.name);
      matches := expected.Some? && row.job == Some(id) && row.action == expected.value && row.step == Some(job.step);
    }

    method OwnedExecution(c: Claim) returns (owned: bool)
      ensures owned == Owned(Tables(), c)
    {
      if c.job !in jobs { return false; }
      var job := jobs[c.job];
      if job.task != c.task || job.step != c.step || job.attempt != c.attempt || job.status != Running {
        return false;
      }
      owned := MatchesResource(c.job, job);
    }

    /** Assign a status to the resource row of one job, when the job has one. */
    method SetResource(resource: Option<Resource>, status: Status, step: Option<Step>)
      modifies this`life
      ensures life == if resource.Some? && resource.value in old(life)
                      then old(life)[resource.value := old(life)[resource.value].(status := status, step := step)]
                      else old(life)
    {
      if resource.Some? && resource.value in life {
        life := life[resource.value := life[resource.value].(status := status)];
        life := life[resource.value := life[resource.value].(step := step)];
      }
    }

    method ClaimExecution(id: nat, task: Step, now: int) returns (claim: Option<Claim>)
      modifies this
      ensures Tables() == Execution.ClaimExecution(old(Tables()), id, task, now)
      ensures claim == if Claimable(old(Tables()), id, task) then Some(ClaimToken(old(Tables()), id)) else None
    {
      if id !in jobs || jobs[id].task != task || (jobs[id].status != Pending && jobs[id].status != Error) {
        return None;
      }
      var matches := MatchesResource(id, jobs[id]);
      if !matches { return None; }
      var job := jobs[id].(status := Running, attempt := jobs[id].attempt + 1, claimedAt := Some(now));
      jobs := jobs[id := job];
      SetResource(job.resource, Running, Some(job.step));
      claim := Some(Claim(id, job.task, job.step, job.attempt, job.resource));
      claims := claims + {claim.value};
    }

    method HeartbeatExecution(c: Claim, now: int) returns (ok: bool)
      modifies this`jobs
      ensures Tables() == Execution.HeartbeatExecution(old(Tables()), c, now)
      ensures ok == Owned(old(Tables()), c)
    {
      ok := OwnedExecution(c);
      if !ok { return; }
      jobs := jobs[c.job := jobs[c.job].(claimedAt := Some(now))];
    }

    method AdvanceExecution(c: Claim, next: Step) returns (ok: bool)
      modifies this`jobs, this`life
      ensures Tables() == Execution.AdvanceExecution(old(Tables()), c, next)
      ensures ok == Owned(old(Tables()), c)
    {
      ok := OwnedExecution(c);
      if !ok { return; }
      jobs := jobs[c.job := jobs[c.job].(task := next, step := next)];
      jobs := jobs[c.job := jobs[c.job].(status := Pending, claimedAt := None)];
      SetResource(jobs[c.job].resource, Pending, Some(next));
    }

    /** `mark` is the stable action that creating an assignment stores with its completion. */
    method CompleteExecution(c: Claim, mark: Option<Action>, deleteResource: bool) returns (ok: bool)
      requires deleteResource ==> mark.None?
      modifies this`jobs, this`life
      ensures Tables() == if deleteResource then CompleteAndDelete(old(Tables()), c)
                          else Execution.CompleteExecution(old(Tables()), c, mark)
      ensures ok == Owned(old(Tables()), c)
      ensures ok ==> c.job in jobs && jobs[c.job].status == Success
    {
      ok := OwnedExecution(c);
      if !ok { return; }
      var resource := jobs[c.job].resource;
      if mark.Some? && resource.Some? {
        life := life[resource.value := life[resource.value].(action := mark.value)];
      }
      jobs := jobs[c.job := jobs[c.job].(status := Success)];
      jobs := jobs[c.job := jobs[c.job].(claimedAt := None)];
      if resource.Some? {
        if deleteResource {
          life := life - {resource.value};
        } else {
          SetResource(resource, Success, None);
        }
      }
    }

    method DeferExecution(c: Claim) returns (ok: bool)
      modifies this`jobs, this`life
      ensures Tables() == Execution.DeferExecution(old(Tables()), c)
      ensures ok == Owned(old(Tables()), c)
    {
      ok := OwnedExecution(c);
      if !ok { return; }
      jobs := jobs[c.job := jobs[c.job].(status := Pending)];
      jobs := jobs[c.job := jobs[c.job].(claimedAt := None)];
      SetResource(jobs[c.job].resource, Pending, Some(c.step));
    }

    method FailExecution(c: Claim)
      modifies this`jobs, this`life
      ensures Tables() == Execution.FailExecution(old(Tables()), c)
    {
      var ok := OwnedExecution(c);
      if !ok { return; }
      jobs := jobs[c.job := jobs[c.job].(status := Error)];
      jobs := jobs[c.job := jobs[c.job].(claimedAt := None)];
      SetResource(jobs[c.job].resource, Error, Some(c.step));
    }

    method PrepareExecutionRetry(id: nat, staleBefore: int) returns (task: Option<Step>)
      modifies this`jobs, this`life
      ensures Tables() == PrepareRetry(old(Tables()), id, staleBefore)
      ensures task == RetryTask(old(Tables()), id, staleBefore)
    {
      if id !in jobs || jobs[id].status == Success { return None; }
      var matches := MatchesResource(id, jobs[id]);
      if !matches { return None; }
      if jobs[id].status == Running {
        var claimedAt := jobs[id].claimedAt;
        if claimedAt.None? || claimedAt.value > staleBefore { return None; }
        jobs := jobs[id := jobs[id].(status := Pending)];
        jobs := jobs[id := jobs[id].(claimedAt := None)];
        SetResource(jobs[id].resource, Pending, Some(jobs[id].step));
      }
      task := Some(jobs[id].task);
    }

    /** The periodic scan over the identifiers it selected; `dispatch` says which deliveries the
        broker accepts. */
    method RetryJobExecutions(ids: seq<nat>, staleBefore: int, dispatch: nat -> bool)
      returns (scheduled: nat, skipped: nat)
      modifies this`jobs, this`life
      ensures Tables() == Runs.Scan(old(Tables()), ids, staleBefore)
      ensures scheduled + skipped == |ids|
      ensures scheduled == Scheduled(old(Tables()), ids, staleBefore, dispatch)
    {
      scheduled, skipped := 0, 0;
      var k := 0;
      while k < |ids|
        invariant k <= |ids| && scheduled + skipped == k
        invariant Runs.Scan(Tables(), ids[k..], staleBefore) == Runs.Scan(old(Tables()), ids, staleBefore)
        invariant scheduled + Scheduled(Tables(), ids[k..], staleBefore, dispatch)
                  == Scheduled(old(Tables()), ids, staleBefore, dispatch)
      {
        assert ids[k..][1..] == ids[k + 1..];
        var task := PrepareExecutionRetry(ids[k], staleBefore);
        if task.None? || !dispatch(ids[k]) {
          skipped := skipped + 1;
        } else {
          scheduled := scheduled + 1;
        }
        k := k + 1;
      }
    }

    // ---------- the writes of the API requests ----------

    /** Stage one fresh job and let the resource reference it; a missing row is inserted. */
    method Stage(k: Resource, name: JobName, step: Step) returns (id: nat)
      requires ActionOf(name).Some?
      modifies this`jobs, this`life, this`nextId
      ensures id == old(nextId) && Tables() == RequestJob(old(Tables()), k, name, step)
    {
      id := nextId;
      nextId := nextId + 1;
      jobs := jobs[id := Job(name, step, Some(k), step, Pending, 0, None)];
      life := life[k := Life(ActionOf(name).value, Pending, Some(id), Some(step))];
    }

    method Draw() returns (id: nat)
      modifies this`nextId
      ensures id == old(nextId) && Tables() == DrawId(old(Tables()))
    {
      id := nextId;
      nextId := nextId + 1;
    }

    method Insert(k: Resource, action: Action)
      modifies this`life
      ensures Tables() == InsertIdle(old(Tables()), k, action)
    {
      life := life[k := Life(action, Success, None, None)];
    }

    /** `_discard_current_job`. */
    method Discard(k: Resource, action: Action)
      requires k in life
      modifies this`jobs, this`life
      ensures Tables() == DiscardJob(old(Tables()), k, action)
    {
      var row := life[k];
      life := life[k := row.(action := action, status := Success, job := None, step := None)];
      if row.job.Some? { jobs := jobs - {row.job.value}; }
    }

    method Remove(ks: set<Resource>)
      modifies this`life
      ensures Tables() == DeleteRows(old(Tables()), ks)
    {
      life := life - ks;
    }
  }

  /** The deliveries one scan makes. */
  function Scheduled(core: Core, ids: seq<nat>, staleBefore: int, dispatch: nat -> bool): nat
    decreases |ids|
  {
    if ids == [] then 0
    else (if RetryTask(core, ids[0], staleBefore).Some? && dispatch(ids[0]) then 1 else 0)
         + Scheduled(PrepareRetry(core, ids[0], staleBefore), ids[1..], staleBefore, dispatch)
  }

  predicate DistinctIds(ids: seq<nat>) {
    forall j, k :: 0 <= j < k < |ids| ==> ids[j] != ids[k]
  }

  /** Waiting, failed or expired, with a row that still matches. */
  predicate Due(core: Core, id: nat, staleBefore: int) {
    && id in core.jobs && ResourceMatches(core, id, core.jobs[id])
    && match core.jobs[id].status
       case Pending | Error => true
       case Running => core.jobs[id].claimedAt.Some? && core.jobs[id].claimedAt.value <= staleBefore
       case Success => false
  }

  /** Reclaiming one job leaves the others, and whether they are due, as they were. */
  lemma OthersStayDue(core: Core, id: nat, staleBefore: int, j: nat)
    requires j != id
    ensures Due(PrepareRetry(core, id, staleBefore), j, staleBefore) <==> Due(core, j, staleBefore)
    ensures j in core.jobs <==> j in PrepareRetry(core, id, staleBefore).jobs
    ensures j in core.jobs ==> PrepareRetry(core, id, staleBefore).jobs[j] == core.jobs[j]
  {}

  /** A scan delivers exactly the due jobs whose delivery the broker accepts. */
  lemma {:induction false} ScheduledExactly(core: Core, ids: seq<nat>, staleBefore: int, dispatch: nat -> bool)
    requires DistinctIds(ids)
    ensures Scheduled(core, ids, staleBefore, dispatch) == |set j <- ids | Due(core, j, staleBefore) && dispatch(j)|
    decreases |ids|
  {
    if ids != [] {
      var id, rest := ids[0], ids[1..];
      var core' := PrepareRetry(core, id, staleBefore);
      ScheduledExactly(core', rest, staleBefore, dispatch);
      assert RetryTask(core, id, staleBefore).Some? <==> Due(core, id, staleBefore);
      forall j | j in rest ensures Due(core', j, staleBefore) <==> Due(core, j, staleBefore) { OthersStayDue(core, id, staleBefore, j); }
      hide Due, PrepareRetry, RetryTask;
      var later := set j <- rest | Due(core, j, staleBefore) && dispatch(j);
      assert later == set j <- rest | Due(core', j, staleBefore) && dispatch(j);
      assert id !in later;
      assert (set j <- ids | Due(core, j, staleBefore) && dispatch(j))
          == later + (if Due(core, id, staleBefore) && dispatch(id) then {id} else {});
    }
  }

  /** A scan reclaims exactly the listed attempts that have expired, and changes no other job. */
  lemma {:induction false} ScannedExactly(core: Core, ids: seq<nat>, staleBefore: int, j: nat)
    requires DistinctIds(ids)
    ensures var core' := Runs.Scan(core, ids, staleBefore);
            && (j in core'.jobs <==> j in core.jobs)
            && (j in core.jobs ==>
                  core'.jobs[j] == (if j in ids && core.jobs[j].status == Running && Due(core, j, staleBefore)
                                    then core.jobs[j].(status := Pending, claimedAt := None) else core.jobs[j]))
    decreases |ids|
  {
    if ids != [] {
      var id, rest := ids[0], ids[1..];
      var core' := PrepareRetry(core, id, staleBefore);
      assert forall k :: k in ids <==> k == id || k in rest;
      ScannedExactly(core', rest, staleBefore, j);
      if j != id { OthersStayDue(core, id, staleBefore, j); }
    }
  }
}
