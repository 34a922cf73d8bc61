/** The order of an instance's deletion: its row disappears only after, in the same job, its workspaces
    were removed or its creation had never completed, then Argo CD answered that the Application is
    absent, then the schema was dropped. */
module DeletionOrder {
  import opened Records
  import opened Execution
  import opened Store
  import opened Events
  import opened Fencing
  import opened Frames
  import opened Soundness
  import opened Tables
  import opened Asks
  import opened Readiness
  import Bootstrap
  import Protocol
  import Runs
  import WorkerSteps
  import Placement
  import U = UpdateSteps
  import D = TeardownSteps
  import T = TemplateSteps
  import W = WorkspaceSteps
  import IR = InstanceRequests

  /** How many of job `j`'s milestones one more fact completes, in their order. */
  function Next(progress: nat, fact: Fact, j: nat): nat {
    match fact
    case WorkspacesRemoved(k) => if k == j && progress == 0 then 1 else progress
    case CreationAbandoned(k) => if k == j && progress == 0 then 1 else progress
    case ApplicationAbsent(k) => if k == j && progress == 1 then 2 else progress
    case SchemaDropped(k) => if k == j && progress == 2 then 3 else progress
    case _ => progress
  }

  function Progress(log: seq<Fact>, j: nat): nat {
    if log == [] then 0 else Next(Progress(log[..|log| - 1], j), log[|log| - 1], j)
  }

  /** The milestones a job must have passed to be at a step. */
  function Need(step: Step): nat {
    match step
    case RemoveInstance => 1
    case RemoveSchema => 2
    case RemoveLocalConfiguration => 3
    case _ => 0
  }

  lemma ProgressAppend(log: seq<Fact>, fact: Fact, j: nat)
    ensures Progress(log + [fact], j) == Next(Progress(log, j), fact, j)
  {
    assert (log + [fact])[..|log|] == log;
  }

  predicate Starts(fact: Fact, j: nat) {
    fact == WorkspacesRemoved(j) || fact == CreationAbandoned(j)
  }

  ghost predicate Started1(log: seq<Fact>, j: nat) {
    exists p :: 0 <= p < |log| && Starts(log[p], j)
  }

  ghost predicate Started2(log: seq<Fact>, j: nat) {
    exists p, q :: 0 <= p < q < |log| && Starts(log[p], j) && log[q] == ApplicationAbsent(j)
  }

  /** The three milestones of job `j`, at increasing positions. */
  ghost predicate InOrder(log: seq<Fact>, j: nat) {
    exists p, q, r ::
      0 <= p < q < r < |log| && Starts(log[p], j) && log[q] == ApplicationAbsent(j) && log[r] == SchemaDropped(j)
  }

  lemma {:induction false} FirstMilestone(log: seq<Fact>, j: nat)
    requires Progress(log, j) >= 1
    ensures Started1(log, j)
  {
    var n := |log| - 1;
    if Progress(log[..n], j) >= 1 {
      FirstMilestone(log[..n], j);
      var p :| 0 <= p < n && Starts(log[..n][p], j);
      assert Starts(log[p], j);
    } else {
      assert Starts(log[n], j);
    }
  }

  lemma {:induction false} SecondMilestone(log: seq<Fact>, j: nat)
    requires Progress(log, j) >= 2
    ensures Started2(log, j)
  {
    var n := |log| - 1;
    if Progress(log[..n], j) >= 2 {
      SecondMilestone(log[..n], j);
      var p, q :| 0 <= p < q < n && Starts(log[..n][p], j) && log[..n][q] == ApplicationAbsent(j);
      assert Starts(log[p], j) && log[q] == ApplicationAbsent(j);
    } else {
      FirstMilestone(log[..n], j);
      var p :| 0 <= p < n && Starts(log[..n][p], j);
      assert Starts(log[p], j) && log[n] == ApplicationAbsent(j);
    }
  }

  lemma InOrderStays(log: seq<Fact>, n: nat, j: nat)
    requires n <= |log| && InOrder(log[..n], j)
    ensures InOrder(log, j)
  {
    var p, q, r :| 0 <= p < q < r < n && Starts(log[..n][p], j) && log[..n][q] == ApplicationAbsent(j) && log[..n][r] == SchemaDropped(j);
    assert Starts(log[p], j) && log[q] == ApplicationAbsent(j) && log[r] == SchemaDropped(j);
  }

  lemma InOrderLast(log: seq<Fact>, n: nat, j: nat)
    requires n < |log| && Started2(log[..n], j) && log[n] == SchemaDropped(j)
    ensures InOrder(log, j)
  {
    var p, q :| 0 <= p < q < n && Starts(log[..n][p], j) && log[..n][q] == ApplicationAbsent(j);
    assert Starts(log[p], j) && log[q] == ApplicationAbsent(j) && log[n] == SchemaDropped(j);
  }

  /** Progress counts facts that really are in the log, one after the other. */
  lemma {:induction false} ThirdMilestone(log: seq<Fact>, j: nat)
    requires Progress(log, j) >= 3
    ensures InOrder(log, j)
  {
    hide InOrder, Started2;
    var n := |log| - 1;
    if Progress(log[..n], j) >= 3 {
      ThirdMilestone(log[..n], j);
      InOrderStays(log, n, j);
    } else {
      SecondMilestone(log[..n], j);
      InOrderLast(log, n, j);
    }
  }

  ghost predicate JobsReached(jobs: map<nat, Job>, log: seq<Fact>) {
    forall id <- jobs :: Need(jobs[id].step) <= Progress(log, id)
  }

  ghost predicate ClaimsReached(workers: map<Claim, Local>, log: seq<Fact>) {
    forall c <- workers :: Need(c.step) <= Progress(log, c.job)
  }

  /** A worker that may finish a deletion step has passed the step's milestone; for the schema this
      holds as long as its attempt is current. */
  ghost predicate Confirmations(core: Core, workers: map<Claim, Local>, log: seq<Fact>) {
    forall c <- workers :: workers[c].Confirmed? ==>
      && (c.step == RemoveWorkspaces || c.step == RemoveInstance ==> Need(c.step) < Progress(log, c.job))
      && (c.step == RemoveSchema && Owned(core, c) ==> Need(c.step) < Progress(log, c.job))
  }

  ghost predicate Ordered(s: State) {
    && JobsReached(s.core.jobs, s.log)
    && ClaimsReached(s.workers, s.log)
    && Confirmations(s.core, s.workers, s.log)
  }

  /** The row and the instance that the job of an abandoned creation works on. */
  predicate Forsaken(s: State, i: nat, j: nat) {
    i in s.instances && InstanceRow(i) in s.core.life && s.core.life[InstanceRow(i)].job == Some(j) ==>
      s.core.life[InstanceRow(i)].action == Deleting && s.instances[i].password.None?
  }

  /** The job of an abandoned creation deletes an instance that never stored a password. */
  ghost predicate Abandoned(s: State) {
    forall j: nat :: CreationAbandoned(j) in s.log ==> j < s.core.nextId && forall i :: Forsaken(s, i, j)
  }

  // ---------- the steps ----------

  lemma LogGrows(log: seq<Fact>, log': seq<Fact>, j: nat)
    requires log' == log || (log' != [] && log' == log + [log'[|log'| - 1]])
    ensures Progress(log, j) <= Progress(log', j)
  {
    if log' != log { ProgressAppend(log, log'[|log'| - 1], j); }
  }

  ghost predicate ProgressKept(log: seq<Fact>, log': seq<Fact>) {
    forall j :: Progress(log, j) <= Progress(log', j)
  }

  lemma LogKeeps(s: State, s': State, c: Claim)
    requires LogMoves(s, s', c)
    ensures ProgressKept(s.log, s'.log)
  {
    forall j ensures Progress(s.log, j) <= Progress(s'.log, j) { LogGrows(s.log, s'.log, j); }
  }

  /** How a step moves the jobs: only its own, and forward only through the gate. */
  ghost predicate JobsMove(s: State, s': State, c: Claim) {
    forall id <- s'.core.jobs :: id in s.core.jobs &&
      (|| s'.core.jobs[id].step == s.core.jobs[id].step
       || (id == c.job && Owned(s.core, c) && c in s.workers && Gate(s, s', c) && NextStep(InstanceUpdate, c.step) == Some(s'.core.jobs[id].step)))
  }

  lemma WriteMovesJobs(core: Core, id: nat, job: Job, action: Option<Action>, step: Option<Step>)
    ensures Write(core, id, job, action, step).jobs == core.jobs[id := job]
  {}

  lemma StepMovesJobs(s: State, s': State, c: Claim)
    requires CoreStep(s, s', c)
    ensures JobsMove(s, s', c)
  {
    if Owned(s.core, c) {
      var job := s.core.jobs[c.job];
      hide Owned, Gate, Write, NextStep;
      if s'.core == FailExecution(s.core, c) {
        WriteMovesJobs(s.core, c.job, job.(status := Error, claimedAt := None), None, Some(c.step));
      } else if s'.core == DeferExecution(s.core, c) {
        WriteMovesJobs(s.core, c.job, job.(status := Pending, claimedAt := None), None, Some(c.step));
      } else if c in s.workers && Gate(s, s', c) && Advances(s.core, s'.core, c) {
        var next := NextStep(InstanceUpdate, c.step).value;
        WriteMovesJobs(s.core, c.job, job.(task := next, step := next, status := Pending, claimedAt := None), None, Some(next));
      } else if c in s.workers && Gate(s, s', c) && Completes(c.step) {
        WriteMovesJobs(s.core, c.job, job.(status := Success, claimedAt := None),
                       if c.step == Step.CreateTemplate then Some(Created) else None, None);
      }
    } else {
      hide Gate;
    }
  }

  lemma PlainKeepsJobs(s: State, s': State, c: Claim)
    requires c in s.workers && JobsMove(s, s', c) && ProgressKept(s.log, s'.log)
    requires JobsReached(s.core.jobs, s.log) && Confirmations(s.core, s.workers, s.log)
    ensures JobsReached(s'.core.jobs, s'.log)
  {
    hide Owned, Progress;
  }

  lemma ConfirmedReached(s: State, s': State, c: Claim)
    requires c in s.workers && c in s'.workers && LocalMoves(s, s', c)
    requires s'.workers[c].Confirmed? && s'.workers[c] != s.workers[c]
    ensures c.step == RemoveWorkspaces ==> s'.log == s.log + [WorkspacesRemoved(c.job)]
    ensures c.step == RemoveInstance ==> s'.log == s.log + [ApplicationAbsent(c.job)]
    ensures c.step == RemoveSchema && Id(c) in s.allocations ==> s'.log == s.log + [SchemaDropped(c.job)]
  {
    hide Id;
  }

  lemma ConfirmedNow(s: State, s': State, c: Claim)
    requires Sound(s) && Keyed(s) && c in s.workers && c in s'.workers && LocalMoves(s, s', c)
    requires Need(c.step) <= Progress(s.log, c.job)
    requires s'.workers[c].Confirmed? && s'.workers[c] != s.workers[c]
    ensures c.step == RemoveWorkspaces || c.step == RemoveInstance ==> Need(c.step) < Progress(s'.log, c.job)
    ensures c.step == RemoveSchema && Owned(s.core, c) ==> Need(c.step) < Progress(s'.log, c.job)
  {
    hide Sound, Keyed, Owned, Progress, Id, LocalMoves;
    ConfirmedReached(s, s', c);
    if c.step == RemoveSchema && Owned(s.core, c) { OwnedInstance(s, c); }
    ProgressAppend(s.log, WorkspacesRemoved(c.job), c.job);
    ProgressAppend(s.log, ApplicationAbsent(c.job), c.job);
    ProgressAppend(s.log, SchemaDropped(c.job), c.job);
  }

  lemma PlainKeepsConfirmations(s: State, s': State, c: Claim)
    requires Sound(s) && Keyed(s) && Sound(s') && Protocol.Evolves(s.core, s'.core)
    requires c in s.workers && OnlyWorker(s, s', c) && LocalMoves(s, s', c) && ProgressKept(s.log, s'.log)
    requires ClaimsReached(s.workers, s.log) && Confirmations(s.core, s.workers, s.log)
    ensures Confirmations(s'.core, s'.workers, s'.log)
  {
    forall d | d in s'.workers && s'.workers[d].Confirmed?
      ensures d.step == RemoveWorkspaces || d.step == RemoveInstance ==> Need(d.step) < Progress(s'.log, d.job)
      ensures d.step == RemoveSchema && Owned(s'.core, d) ==> Need(d.step) < Progress(s'.log, d.job)
    {
      if Owned(s'.core, d) { Runs.OwnershipIsNotRegained(s.core, s'.core, d); }
      if d == c && s'.workers[d] != s.workers[d] { ConfirmedNow(s, s', c); }
      hide Sound, Keyed, Protocol.Inv, Protocol.Evolves, Owned, LocalMoves, Progress;
    }
  }

  lemma PlainKeepsOrder(s: State, s': State, c: Claim)
    requires Sound(s) && Keyed(s) && c in s.workers && Plain(s, s', c) && Ordered(s)
    ensures Ordered(s')
  {
    PlainFenced(s, s', c);
    PlainSound(s, s', c);
    assert CoreStep(s, s', c) && OnlyWorker(s, s', c) && LocalMoves(s, s', c) && LogMoves(s, s', c);
    assert Protocol.Evolves(s.core, s'.core);
    hide Plain, Sound, Keyed, CoreStep, LocalMoves, LogMoves, JobsMove, ProgressKept, JobsReached, Confirmations, Fenced, Progress, Protocol.Evolves;
    StepMovesJobs(s, s', c);
    LogKeeps(s, s', c);
    PlainKeepsJobs(s, s', c);
    PlainKeepsConfirmations(s, s', c);
    ClaimsStay(s, s', c);
  }

  lemma PlainSound(s: State, s': State, c: Claim)
    requires Sound(s) && c in s.workers && Plain(s, s', c)
    ensures Sound(s')
  {
    PlainFenced(s, s', c);
    hide Protocol.Inv, Protocol.Evolves, CoreStep, Owned;
    assert s'.workers.Keys == s.workers.Keys;
  }

  lemma ClaimsStay(s: State, s': State, c: Claim)
    requires OnlyWorker(s, s', c) && ProgressKept(s.log, s'.log) && ClaimsReached(s.workers, s.log)
    ensures ClaimsReached(s'.workers, s'.log)
  {
    hide Progress;
  }

  lemma RedeliveryKeepsOrder(s: State, s': State)
    requires Sound(s) && Redelivers(s, s') && Ordered(s)
    ensures Ordered(s')
  {
    hide Protocol.Inv, Protocol.Evolves, Owned, Progress, StatusesMove;
    forall d | d in s.workers && Owned(s'.core, d) ensures Owned(s.core, d) { Runs.OwnershipIsNotRegained(s.core, s'.core, d); }
  }

  /** The log stays, and jobs keep their steps or start at one that needs nothing. */
  lemma StillOrdered(s: State, s': State)
    requires Sound(s) && Sound(s') && Protocol.Evolves(s.core, s'.core) && s'.workers == s.workers
    requires ProgressKept(s.log, s'.log)
    requires forall id <- s'.core.jobs ::
               if id in s.core.jobs then s'.core.jobs[id].step == s.core.jobs[id].step
               else Need(s'.core.jobs[id].step) <= Progress(s'.log, id)
    requires Ordered(s)
    ensures Ordered(s')
  {
    hide Protocol.Inv, Protocol.Evolves, Owned, Progress;
    forall d | d in s.workers && Owned(s'.core, d) ensures Owned(s.core, d) { Runs.OwnershipIsNotRegained(s.core, s'.core, d); }
  }

  // ---------- the transactions that delete rows, and requests ----------

  ghost predicate StepsKept(core: Core, core': Core) {
    forall id <- core'.jobs ::
      if id in core.jobs then core'.jobs[id].step == core.jobs[id].step else Need(core'.jobs[id].step) == 0
  }

  lemma DeletionKeepsSteps(core: Core, c: Claim, ks: set<Resource>)
    requires Owned(core, c)
    ensures StepsKept(core, DeleteRows(CompleteAndDelete(core, c), ks))
  {
    hide ResourceMatches;
  }

  lemma FinalizationKeepsSteps(core: Core, c: Claim, ks: set<Resource>, k: Resource)
    requires Owned(core, c) && core.nextId !in core.jobs
    ensures StepsKept(core, DeleteRows(CompleteExecution(core, c, None), ks))
    ensures StepsKept(core, RequestJob(DeleteRows(CompleteExecution(core, c, None), ks), k, InstanceUpdate, Step.UpdateInstance))
  {
    hide ResourceMatches;
  }

  lemma DeletionKeepsOrder(s: State, s': State, c: Claim)
    requires Sound(s) && c in s.workers && WorkFenced(s, s', c) && s'.workers == s.workers && s'.log == s.log
    requires StepsKept(s.core, s'.core) && Ordered(s)
    ensures Ordered(s')
  {
    hide Protocol.Inv, Protocol.Evolves, Owned, Calm, Progress, OnlyWorker;
    StillOrdered(s, s');
  }

  lemma FinalizeKeepsOrder(s: State, c: Claim)
    requires Sound(s) && c in s.workers && Ordered(s)
    ensures Ordered(U.FinalizeUpdate(s, c))
  {
    var s' := U.FinalizeUpdate(s, c);
    if s' != s {
      FinalizeFenced(s, c);
      FinalizeErases(s, c);
      FinalizeMoves(s, c);
      var ks := WorkerSteps.WorkspaceRows(U.Orphans(s, U.Settle(s.members, Id(c), s.workers[c].claimed)));
      assert s.core.nextId !in s.core.jobs by { if s.core.nextId in s.core.jobs { JobsBelow(s.core, s.core.nextId); } }
      FinalizationKeepsSteps(s.core, c, ks, InstanceRow(Id(c)));
      FinalizeKeepsLog(s, c);
      hide U.FinalizeUpdate, U.Orphans, U.Settle, Sound, Ordered, Owned, DeleteRows, CompleteExecution, RequestJob, WorkFenced, Erases, StepsKept, Id;
      DeletionKeepsOrder(s, s', c);
    }
  }

  lemma FinalizeKeepsLog(s: State, c: Claim)
    ensures U.FinalizeUpdate(s, c).log == s.log
  {
    hide U.Orphans, U.Settle, Owned, DeleteRows, CompleteExecution, RequestJob, Id;
  }

  lemma RemoveLocalKeepsOrder(s: State, c: Claim)
    requires Sound(s) && c in s.workers && Ordered(s)
    ensures Ordered(D.RemoveLocal(s, c))
  {
    var s', i := D.RemoveLocal(s, c), Id(c);
    if s' != s {
      RemoveLocalFenced(s, c);
      RemoveLocalMoves(s, c);
      DeletionKeepsSteps(s.core, c, WorkerSteps.WorkspaceRows(D.WorkspacesOf(s, i)) + WorkerSteps.AssignmentRows(D.AssignmentsOf(s, i)));
      hide D.RemoveLocal, D.WorkspacesOf, D.AssignmentsOf, D.MembersOf, Sound, Ordered, Owned, DeleteRows, CompleteAndDelete, WorkFenced, StepsKept, Id;
      DeletionKeepsOrder(s, s', c);
    }
  }

  lemma RemoveAssignmentKeepsOrder(s: State, c: Claim)
    requires Sound(s) && c in s.workers && Ordered(s)
    ensures Ordered(T.RemoveAssignment(s, c))
  {
    var s' := T.RemoveAssignment(s, c);
    if s' != s {
      RemoveAssignmentFenced(s, c);
      RemoveAssignmentMoves(s, c);
      DeletionKeepsSteps(s.core, c, WorkerSteps.WorkspaceRows(T.PairWorkspaces(s, s.workers[c].instance, s.workers[c].template)));
      hide T.RemoveAssignment, T.PairWorkspaces, Sound, Ordered, Owned, DeleteRows, CompleteAndDelete, WorkFenced, StepsKept, Id;
      DeletionKeepsOrder(s, s', c);
    }
  }

  lemma FinishDeleteWorkspaceKeepsOrder(s: State, c: Claim)
    requires Sound(s) && c in s.workers && Ordered(s)
    ensures Ordered(W.FinishDeleteWorkspace(s, c))
  {
    var s' := W.FinishDeleteWorkspace(s, c);
    if s' != s {
      FinishDeleteWorkspaceFenced(s, c);
      FinishDeleteWorkspaceMoves(s, c);
      DeletionKeepsSteps(s.core, c, {});
      DeleteNothing(CompleteAndDelete(s.core, c));
      hide W.FinishDeleteWorkspace, Sound, Ordered, Owned, DeleteRows, CompleteAndDelete, WorkFenced, StepsKept, Id;
      DeletionKeepsOrder(s, s', c);
    }
  }

  lemma RequestedStep(core: Core, k: Resource, name: JobName, step: Step, id: nat)
    requires ActionOf(name).Some? && id !in core.jobs
    ensures id in RequestJob(core, k, name, step).jobs ==> id == core.nextId && RequestJob(core, k, name, step).jobs[id].step == step
    ensures id in RequestJob(DrawId(core), k, name, step).jobs ==>
              id == core.nextId + 1 && RequestJob(DrawId(core), k, name, step).jobs[id].step == step
  {}

  lemma DropInstanceNeeds(s: State, i: nat, id: nat)
    requires id in IR.RequestDeletion(s, i).0.core.jobs && id !in s.core.jobs
    ensures var s' := IR.RequestDeletion(s, i).0;
            Need(s'.core.jobs[id].step) == 0 || (Need(s'.core.jobs[id].step) == 1 && s'.log == s.log + [CreationAbandoned(id)])
  {
    RequestedStep(s.core, InstanceRow(i), InstanceDelete, RemoveInstance, id);
    RequestedStep(s.core, InstanceRow(i), InstanceDelete, RemoveWorkspaces, id);
    hide RequestJob, IR.HasActiveAssignment;
  }

  lemma OtherInstanceRequestNeeds(s: State, r: InstanceRequest, id: nat)
    requires !r.DropInstance? && id in AnswerInstance(s, r).0.core.jobs && id !in s.core.jobs
    ensures Need(AnswerInstance(s, r).0.core.jobs[id].step) == 0
  {
    if r.AddMember? || r.SetRole? || r.DropMember? { MemberRequestNeeds(s, r, id); } else { PowerRequestNeeds(s, r, id); }
    hide AnswerInstance, Need;
  }

  lemma MemberRequestNeeds(s: State, r: InstanceRequest, id: nat)
    requires r.AddMember? || r.SetRole? || r.DropMember?
    requires id in AnswerInstance(s, r).0.core.jobs && id !in s.core.jobs
    ensures Need(AnswerInstance(s, r).0.core.jobs[id].step) == 0
  {
    RequestedStep(s.core, InstanceRow(InstanceOf(s, r)), InstanceUpdate, Step.UpdateInstance, id);
    hide RequestJob, IR.HasActiveAssignment, IR.UsernameTaken, IR.MemberRefusal, IR.StagedJob, IR.Coalesces;
  }

  lemma PowerRequestNeeds(s: State, r: InstanceRequest, id: nat)
    requires !r.DropInstance? && !r.AddMember? && !r.SetRole? && !r.DropMember?
    requires id in AnswerInstance(s, r).0.core.jobs && id !in s.core.jobs
    ensures Need(AnswerInstance(s, r).0.core.jobs[id].step) == 0
  {
    var i := InstanceOf(s, r);
    RequestedStep(s.core, InstanceRow(i), InstanceCreate, Step.CreateSchema, id);
    RequestedStep(s.core, InstanceRow(i), InstanceUpdate, Step.UpdateInstance, id);
    RequestedStep(s.core, InstanceRow(i), InstanceStart, Step.StartInstance, id);
    RequestedStep(s.core, InstanceRow(i), InstanceStop, StopWorkspaces, id);
    hide RequestJob, IR.HasActiveAssignment, IR.RetryFailedMembers, IR.LifecycleRefusal, Placement.Place;
  }

  /** Only an abandoned creation is deleted from the second milestone on. */
  lemma InstanceRequestNeeds(s: State, r: InstanceRequest, id: nat)
    requires id in AnswerInstance(s, r).0.core.jobs && id !in s.core.jobs
    ensures Need(AnswerInstance(s, r).0.core.jobs[id].step) <= Progress(AnswerInstance(s, r).0.log, id)
  {
    hide Progress;
    if r.DropInstance? {
      DropInstanceNeeds(s, r.i, id);
      ProgressAppend(s.log, CreationAbandoned(id), id);
      hide IR.RequestDeletion;
    } else {
      hide AnswerInstance;
      OtherInstanceRequestNeeds(s, r, id);
    }
  }

  lemma InstanceRequestGrows(s: State, r: InstanceRequest)
    ensures ProgressKept(s.log, AnswerInstance(s, r).0.log)
  {
    hide AnswerInstance, Progress;
    Bootstrap.InstanceRequestLogs(s, r);
    var log' := AnswerInstance(s, r).0.log;
    forall j ensures Progress(s.log, j) <= Progress(log', j) { LogGrows(s.log, log', j); }
  }

  lemma InstanceRequestKeepsOrder(s: State, r: InstanceRequest)
    requires Sound(s) && Keyed(s) && Ordered(s)
    ensures Ordered(AnswerInstance(s, r).0)
  {
    assert s.core.nextId !in s.instances;
    var s' := AnswerInstance(s, r).0;
    InstanceRequestAsks(s, r);
    assert Sound(s') && Protocol.Evolves(s.core, s'.core) && s'.workers == s.workers && Asked(s.core, s'.core, Some(InstanceRow(InstanceOf(s, r))));
    hide AnswerInstance, Keyed, Ordered, Progress, Protocol.Inv, Protocol.Evolves, ProgressKept, Sound, InstanceAsk, Need;
    InstanceRequestGrows(s, r);
    forall id | id in s'.core.jobs
      ensures if id in s.core.jobs then s'.core.jobs[id].step == s.core.jobs[id].step else Need(s'.core.jobs[id].step) <= Progress(s'.log, id)
    {
      if id in s.core.jobs { JobsBelow(s.core, id); } else { InstanceRequestNeeds(s, r, id); }
    }
    StillOrdered(s, s');
  }

  lemma JobsBelow(core: Core, id: nat)
    requires Protocol.Inv(core) && id in core.jobs
    ensures id < core.nextId
  {
    assert Protocol.JobOk(core, id);
  }

  lemma OtherRequestKeepsOrder(s: State, s': State, k: Option<Resource>)
    requires Sound(s) && Asked(s.core, s'.core, k) && (k.Some? ==> !k.value.InstanceRow?)
    requires s'.workers == s.workers && s'.log == s.log && Ordered(s)
    ensures Ordered(s')
  {
    forall id | id in s'.core.jobs
      ensures if id in s.core.jobs then s'.core.jobs[id].step == s.core.jobs[id].step else Need(s'.core.jobs[id].step) == 0
    {
      if id in s.core.jobs { JobsBelow(s.core, id); } else { assert Protocol.JobOk(s'.core, id); }
      hide Protocol.Inv, Protocol.Evolves, Ordered;
    }
    hide Protocol.Inv, Protocol.Evolves, Ordered, Progress;
    StillOrdered(s, s');
  }

  // ---------- abandoned creations ----------

  lemma OwnStaysForsaken(s: State, s': State, c: Claim, j: nat)
    requires Sound(s) && c in s.workers && Plain(s, s', c) && LifeMoves(s, s', c) && Owned(s.core, c) && OnInstance(c.step)
    requires Forsaken(s, Id(c), j)
    ensures Forsaken(s', Id(c), j)
  {
    OwnedResource(s.core, c);
    assert InstancesTouched(s, s', c);
    hide Protocol.Inv, Owned, Plain, Id, Gate;
  }

  lemma PlainKeepsAbandoned(s: State, s': State, c: Claim)
    requires Sound(s) && Keyed(s) && c in s.workers && Plain(s, s', c) && Abandoned(s)
    ensures Abandoned(s')
  {
    PlainFenced(s, s', c);
    StepMovesLife(s, s', c);
    assert s.core.nextId <= s'.core.nextId && LogMoves(s, s', c) && InstancesTouched(s, s', c);
    forall j: nat | CreationAbandoned(j) in s'.log ensures j < s'.core.nextId && forall i :: Forsaken(s', i, j) {
      assert CreationAbandoned(j) in s.log;
      forall i ensures Forsaken(s', i, j) {
        assert Forsaken(s, i, j);
        hide Sound, Keyed, Plain, LifeMoves, InstancesTouched, Abandoned, Fenced, LogMoves, Owned, Id;
        if Owned(s.core, c) && OnInstance(c.step) && i == Id(c) {
          OwnStaysForsaken(s, s', c, j);
        } else {
          OtherInstancesStay(s, s', c, i);
        }
      }
    }
  }

  /** Nothing is abandoned, instances keep their passwords, and rows keep their action or take a job
      that is new. */
  ghost predicate Forsakes(s: State, s': State) {
    && (forall j: nat :: CreationAbandoned(j) in s'.log ==> CreationAbandoned(j) in s.log)
    && (forall i <- s'.instances :: i in s.instances ==> s'.instances[i].password == s.instances[i].password)
    && (forall i: nat | InstanceRow(i) in s'.core.life && i in s'.instances ::
          var row := s'.core.life[InstanceRow(i)];
          if row.job.Some? && row.job.value < s.core.nextId
          then InstanceRow(i) in s.core.life && i in s.instances
               && row.job == s.core.life[InstanceRow(i)].job && row.action == s.core.life[InstanceRow(i)].action
          else true)
    && s.core.nextId <= s'.core.nextId
  }

  lemma ForsakesKeeps(s: State, s': State)
    requires Forsakes(s, s') && Abandoned(s)
    ensures Abandoned(s')
  {
    forall j: nat | CreationAbandoned(j) in s'.log ensures j < s'.core.nextId && forall i :: Forsaken(s', i, j) {
      assert CreationAbandoned(j) in s.log;
      forall i ensures Forsaken(s', i, j) {
        assert Forsaken(s, i, j);
      }
    }
  }

  lemma RedeliveryKeepsAbandoned(s: State, s': State)
    requires Redelivers(s, s') && Abandoned(s)
    ensures Abandoned(s')
  {
    assert s.core.nextId <= s'.core.nextId && StatusesMove(s.core.life, s'.core.life);
    hide CoreRedelivers, Abandoned;
    ForsakesKeeps(s, s');
  }

  lemma ErasureKeepsAbandoned(s: State, s': State, c: Claim)
    requires Fenced(s.core, s'.core, c) && Abandoned(s) && s'.log == s.log
    requires forall i <- s'.instances :: i in s.instances && s'.instances[i].password == s.instances[i].password
    requires forall i: nat :: c.resource == Some(InstanceRow(i)) && InstanceRow(i) in s'.core.life ==>
               InstanceRow(i) in s.core.life
               && (|| s'.core.life[InstanceRow(i)].job == Some(s.core.nextId)
                   || (s'.core.life[InstanceRow(i)].job == s.core.life[InstanceRow(i)].job
                       && s'.core.life[InstanceRow(i)].action == s.core.life[InstanceRow(i)].action))
    ensures Abandoned(s')
  {
    assert s.core.nextId <= s'.core.nextId && Calm(s.core, s'.core, c.resource);
    hide Fenced, Abandoned, Busy;
    ForsakesKeeps(s, s');
  }

  lemma FinalizeKeepsPasswords(s: State, c: Claim)
    ensures forall i <- U.FinalizeUpdate(s, c).instances ::
              i in s.instances && U.FinalizeUpdate(s, c).instances[i].password == s.instances[i].password
  {
    if U.FinalizeUpdate(s, c) != s { FinalizeInstance(s, c); }
    hide U.FinalizeUpdate, Id;
  }

  lemma FinalizeKeepsRow(s: State, c: Claim, i: nat)
    requires Sound(s) && c in s.workers && U.FinalizeUpdate(s, c) != s && c.resource == Some(InstanceRow(i))
    ensures var s' := U.FinalizeUpdate(s, c);
            && InstanceRow(i) in s'.core.life && InstanceRow(i) in s.core.life
            && (|| s'.core.life[InstanceRow(i)].job == Some(s.core.nextId)
                || (s'.core.life[InstanceRow(i)].job == s.core.life[InstanceRow(i)].job
                    && s'.core.life[InstanceRow(i)].action == s.core.life[InstanceRow(i)].action))
  {
    FinalizeLife(s, c);
    hide U.FinalizeUpdate, U.Orphans, U.Settle, Sound, Owned, WorkerSteps.WorkspaceRows;
  }

  lemma FinalizeKeepsAbandoned(s: State, c: Claim)
    requires Sound(s) && c in s.workers && Abandoned(s)
    ensures Abandoned(U.FinalizeUpdate(s, c))
  {
    var s' := U.FinalizeUpdate(s, c);
    if s' != s {
      hide U.FinalizeUpdate, Sound, Abandoned, Fenced, OnlyWorker;
      FinalizeFenced(s, c);
      FinalizeKeepsLog(s, c);
      FinalizeKeepsPasswords(s, c);
      forall i: nat | c.resource == Some(InstanceRow(i))
        ensures && InstanceRow(i) in s'.core.life && InstanceRow(i) in s.core.life
                && (|| s'.core.life[InstanceRow(i)].job == Some(s.core.nextId)
                    || (s'.core.life[InstanceRow(i)].job == s.core.life[InstanceRow(i)].job
                        && s'.core.life[InstanceRow(i)].action == s.core.life[InstanceRow(i)].action))
      {
        FinalizeKeepsRow(s, c, i);
      }
      ErasureKeepsAbandoned(s, s', c);
    }
  }

  lemma RemoveLocalKeepsAbandoned(s: State, c: Claim)
    requires Sound(s) && c in s.workers && Abandoned(s)
    ensures Abandoned(D.RemoveLocal(s, c))
  {
    var s' := D.RemoveLocal(s, c);
    if s' != s {
      RemoveLocalFenced(s, c);
      RemoveLocalErases(s, c);
      RemoveLocalMoves(s, c);
      InstanceRowGone(s, s', c, D.AssignmentsOf(s, Id(c)), D.WorkspacesOf(s, Id(c)));
      hide D.RemoveLocal, D.AssignmentsOf, D.WorkspacesOf, D.MembersOf, Sound, Abandoned, Owned, Fenced, Erases, Id, DeleteRows, CompleteAndDelete;
      ErasureKeepsAbandoned(s, s', c);
    }
  }

  lemma InstanceRowGone(s: State, s': State, c: Claim, as_: set<nat>, ws: set<nat>)
    requires LifeWithout(s.core.life, s'.core.life, {Id(c)}, as_, ws)
    ensures InstanceRow(Id(c)) !in s'.core.life
  {
    hide Id;
  }

  lemma RemoveAssignmentKeepsAbandoned(s: State, c: Claim)
    requires Sound(s) && c in s.workers && Abandoned(s)
    ensures Abandoned(T.RemoveAssignment(s, c))
  {
    var s' := T.RemoveAssignment(s, c);
    if s' != s {
      RemoveAssignmentFenced(s, c);
      RemoveAssignmentErases(s, c);
      RemoveAssignmentMoves(s, c);
      hide T.RemoveAssignment, T.PairWorkspaces, Sound, Abandoned, Owned, Fenced, Erases, Id, DeleteRows, CompleteAndDelete;
      ErasureKeepsAbandoned(s, s', c);
    }
  }

  lemma FinishDeleteWorkspaceKeepsAbandoned(s: State, c: Claim)
    requires Sound(s) && c in s.workers && Abandoned(s)
    ensures Abandoned(W.FinishDeleteWorkspace(s, c))
  {
    var s' := W.FinishDeleteWorkspace(s, c);
    if s' != s {
      FinishDeleteWorkspaceFenced(s, c);
      FinishDeleteWorkspaceErases(s, c);
      FinishDeleteWorkspaceMoves(s, c);
      hide W.FinishDeleteWorkspace, Sound, Abandoned, Owned, Fenced, Erases, Id, DeleteRows, CompleteAndDelete;
      ErasureKeepsAbandoned(s, s', c);
    }
  }

  // ---------- requests and abandoned creations ----------

  /** A request stages a job that is new, so no abandoned job comes back. */
  lemma RequestedJob(core: Core, k: Resource, name: JobName, step: Step)
    requires ActionOf(name).Some?
    ensures k in RequestJob(core, k, name, step).life
    ensures RequestJob(core, k, name, step).life[k].job == Some(core.nextId)
    ensures RequestJob(DrawId(core), k, name, step).life[k].job == Some(core.nextId + 1)
  {}

  /** The instance's row is as it was or references a new job. */
  predicate Restaged(core: Core, core': Core, k: Resource) {
    k in core'.life ==>
      || (k in core.life && core'.life[k] == core.life[k])
      || (core'.life[k].job.Some? && core'.life[k].job.value >= core.nextId)
  }

  lemma MemberRequestJob(s: State, r: InstanceRequest)
    requires r.AddMember? || r.SetRole? || r.DropMember?
    ensures Restaged(s.core, AnswerInstance(s, r).0.core, InstanceRow(InstanceOf(s, r)))
  {
    var k := InstanceRow(InstanceOf(s, r));
    RequestedJob(s.core, k, InstanceUpdate, Step.UpdateInstance);
    hide RequestJob, IR.HasActiveAssignment, IR.UsernameTaken, IR.MemberRefusal, IR.StagedJob, IR.Coalesces;
  }

  lemma PowerRequestJob(s: State, r: InstanceRequest)
    requires !r.AddMember? && !r.SetRole? && !r.DropMember?
    ensures Restaged(s.core, AnswerInstance(s, r).0.core, InstanceRow(InstanceOf(s, r)))
  {
    var k := InstanceRow(InstanceOf(s, r));
    RequestedJob(s.core, k, InstanceCreate, Step.CreateSchema);
    RequestedJob(s.core, k, InstanceUpdate, Step.UpdateInstance);
    RequestedJob(s.core, k, InstanceStart, Step.StartInstance);
    RequestedJob(s.core, k, InstanceStop, StopWorkspaces);
    if r.DropInstance? { DropInstanceJob(s, r.i); hide IR.RequestDeletion; }
    hide Restaged, RequestJob, IR.HasActiveAssignment, IR.RetryFailedMembers, IR.LifecycleRefusal, Placement.Place;
    StillStaged(s.core, k);
  }

  lemma DropInstanceJob(s: State, i: nat)
    ensures Restaged(s.core, IR.RequestDeletion(s, i).0.core, InstanceRow(i))
  {
    RequestedJob(s.core, InstanceRow(i), InstanceDelete, RemoveInstance);
    RequestedJob(s.core, InstanceRow(i), InstanceDelete, RemoveWorkspaces);
    StillStaged(s.core, InstanceRow(i));
    hide Restaged, RequestJob, IR.HasActiveAssignment;
  }

  lemma StillStaged(core: Core, k: Resource)
    ensures Restaged(core, core, k)
  {}

  lemma InstanceRequestForsakes(s: State, s': State, i: nat, j: nat, n: nat)
    requires InstanceAsk(s, s', i) && Restaged(s.core, s'.core, InstanceRow(i)) && j < s.core.nextId && Forsaken(s, n, j)
    requires i in s'.instances && i !in s.instances ==> s'.instances[i].password.None?
    requires InstanceRow(n) in s.core.life ==> n in s.instances
    ensures Forsaken(s', n, j)
  {
    hide Protocol.Inv, Protocol.Evolves;
  }

  lemma NewlyForsaken(s: State, s': State, i: nat, n: nat)
    requires InstanceAsk(s, s', i) && i in s.instances && s.instances[i].password.None?
    requires InstanceRow(i) in s'.core.life && s'.core.life[InstanceRow(i)].action == Deleting
    requires InstanceRow(n) in s.core.life && s.core.life[InstanceRow(n)].job.Some? ==> s.core.life[InstanceRow(n)].job.value < s.core.nextId
    ensures Forsaken(s', n, s.core.nextId)
  {
    hide Protocol.Inv, Protocol.Evolves;
  }

  lemma RowJobBelow(core: Core, k: Resource)
    requires Protocol.Inv(core) && k in core.life && core.life[k].job.Some?
    ensures core.life[k].job.value < core.nextId
  {
    assert Protocol.Agrees(core, k);
    JobsBelow(core, core.life[k].job.value);
  }

  predicate Abandons(s: State, s': State, i: nat) {
    || s'.log == s.log
    || (&& s'.log == s.log + [CreationAbandoned(s.core.nextId)] && i in s.instances && s.instances[i].password.None?
        && InstanceRow(i) in s'.core.life && s'.core.life[InstanceRow(i)].action == Deleting
        && s'.core.life[InstanceRow(i)].job == Some(s.core.nextId))
  }

  lemma AskedKeepsAbandoned(s: State, s': State, i: nat)
    requires Protocol.Inv(s.core) && InstanceRows(s.core.life, s.instances) && Abandoned(s)
    requires InstanceAsk(s, s', i) && Restaged(s.core, s'.core, InstanceRow(i)) && Abandons(s, s', i)
    requires i in s'.instances && i !in s.instances ==> s'.instances[i].password.None?
    ensures Abandoned(s')
  {
    hide Protocol.Inv, InstanceAsk, Restaged, Forsaken;
    NewJobsFollow(s, s', i);
    forall j: nat | CreationAbandoned(j) in s'.log ensures j < s'.core.nextId && forall n :: Forsaken(s', n, j) {
      forall n ensures Forsaken(s', n, j) {
        if CreationAbandoned(j) in s.log {
          InstanceRequestForsakes(s, s', i, j, n);
        } else {
          if InstanceRow(n) in s.core.life && s.core.life[InstanceRow(n)].job.Some? { RowJobBelow(s.core, InstanceRow(n)); }
          NewlyForsaken(s, s', i, n);
        }
      }
    }
  }

  lemma InstanceRequestAbandons(s: State, r: InstanceRequest)
    ensures Abandons(s, AnswerInstance(s, r).0, InstanceOf(s, r))
  {
    hide AnswerInstance;
    Bootstrap.InstanceRequestLogs(s, r);
  }

  lemma InstanceRequestKeepsAbandoned(s: State, r: InstanceRequest)
    requires Sound(s) && Keyed(s) && Abandoned(s)
    ensures Abandoned(AnswerInstance(s, r).0)
  {
    var s', i := AnswerInstance(s, r).0, InstanceOf(s, r);
    assert s.core.nextId !in s.instances && InstanceRows(s.core.life, s.instances);
    hide AnswerInstance, Keyed, InstanceAsk, Restaged, Protocol.Inv, InstanceRows, Abandoned, Abandons;
    InstanceRequestAsks(s, r);
    InstanceRequestAbandons(s, r);
    if r.AddMember? || r.SetRole? || r.DropMember? { MemberRequestJob(s, r); } else { PowerRequestJob(s, r); }
    if i in s'.instances && i !in s.instances { Bootstrap.NewInstanceIsBare(s, r, i); }
    AskedKeepsAbandoned(s, s', i);
  }

  lemma NewJobsFollow(s: State, s': State, i: nat)
    requires InstanceAsk(s, s', i)
    ensures s.core.nextId <= s'.core.nextId
    ensures InstanceRow(i) in s'.core.life && s'.core.life[InstanceRow(i)].job == Some(s.core.nextId) ==> s.core.nextId < s'.core.nextId
  {
    if InstanceRow(i) in s'.core.life && s'.core.life[InstanceRow(i)].job == Some(s.core.nextId) {
      RowJobBelow(s'.core, InstanceRow(i));
    }
    hide Protocol.Inv;
  }

  lemma OtherRequestKeepsAbandoned(s: State, s': State, k: Option<Resource>)
    requires Asked(s.core, s'.core, k) && (k.Some? ==> !k.value.InstanceRow?)
    requires s'.instances == s.instances && s'.log == s.log && Abandoned(s)
    requires InstanceRows(s.core.life, s.instances)
    ensures Abandoned(s')
  {
    assert s.core.nextId <= s'.core.nextId;
    hide Protocol.Inv, Protocol.Evolves, Abandoned;
    ForsakesKeeps(s, s');
  }
}
